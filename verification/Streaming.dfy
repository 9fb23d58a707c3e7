/**
 * The handle and the worker thread of a reader: jobs served one at a time, each with its own channel of
 * progress reports and its own reply, against a caller that polls, may drop its future, and may be
 * overtaken by the worker between any two channel operations.
 */
module Streaming {
  import opened Seqs

  datatype Report = Report(stage: int, detail: int)

  datatype Result = Success(value: int) | Failure(code: int) | Cancelled | NotFound

  // --- The protocol as steps ------------------------------------------------------------------

  /** Where the worker stands with a job. `Lost` jobs went down with the worker, their reply unsent. */
  datatype Work = Waiting | Running | Answered(result: Result) | Lost

  /**
   * Where the caller's future stands: between two polls, or inside one, about to drain the reports, to
   * check the reply, or to drain what came in between.
   */
  datatype Caller = Between | Draining | Checking | Finishing(result: Result) | Complete(result: Result) | Dropped

  /**
   * One operation: its job, its future, every report pushed for it, those in the channel, those delivered,
   * and whether the guard its future holds has fired the job's cancellable.
   */
  datatype Op = Op(work: Work, caller: Caller, pushed: seq<Report>, queue: seq<Report>, delivered: seq<Report>,
                   cancelled: bool)

  /** The operations in the order submitted; the worker has begun the first `begun`, and may be busy with the last. */
  datatype Sys = Sys(ops: seq<Op>, begun: nat, busy: bool, alive: bool)

  datatype Step =
    | Submit | Begin | Push(report: Report) | Answer(result: Result) | Die
    | Poll(i: nat) | Deliver(i: nat) | Drained(i: nat) | Check(i: nat) | DropFuture(i: nat)

  const FRESH_OP := Op(Waiting, Between, [], [], [], false)
  const START := Sys([], 0, false, true)

  predicate Over(op: Op) {
    op.caller.Complete? || op.caller.Dropped?
  }

  predicate Draws(op: Op) {
    op.caller.Draining? || op.caller.Finishing?
  }

  /** The step can be taken. One handle runs one operation at a time. */
  predicate Enabled(s: Sys, step: Step) {
    match step
    case Submit => |s.ops| == 0 || Over(s.ops[|s.ops| - 1])
    case Begin => s.alive && !s.busy && s.begun < |s.ops|
    case Push(_) => s.busy && 0 < s.begun <= |s.ops|
    case Answer(_) => s.busy && 0 < s.begun <= |s.ops|
    case Die => s.alive
    case Poll(i) => i < |s.ops| && s.ops[i].caller.Between?
    case Deliver(i) => i < |s.ops| && Draws(s.ops[i]) && s.ops[i].queue != []
    case Drained(i) => i < |s.ops| && Draws(s.ops[i]) && s.ops[i].queue == []
    case Check(i) => i < |s.ops| && s.ops[i].caller.Checking?
    case DropFuture(i) => i < |s.ops| && s.ops[i].caller.Between?
  }

  function With(s: Sys, i: nat, op: Op): (r: Sys)
    requires i < |s.ops|
  {
    s.(ops := s.ops[i := op])
  }

  function Orphaned(ops: seq<Op>): (r: seq<Op>)
    ensures |r| == |ops|
    ensures forall i :: 0 <= i < |r| ==>
      r[i] == if ops[i].work.Waiting? || ops[i].work.Running? then ops[i].(work := Lost) else ops[i]
  {
    seq(|ops|, i requires 0 <= i < |ops| =>
      if ops[i].work.Waiting? || ops[i].work.Running? then ops[i].(work := Lost) else ops[i])
  }

  /** Submitting to a worker that has stopped fails at once and leaves no operation behind. */
  function Next(s: Sys, step: Step): (r: Sys)
    requires Enabled(s, step)
  {
    match step
    case Submit => if s.alive then s.(ops := s.ops + [FRESH_OP]) else s
    case Begin => With(s, s.begun, s.ops[s.begun].(work := Running)).(begun := s.begun + 1, busy := true)
    case Push(report) =>
      var op := s.ops[s.begun - 1];
      With(s, s.begun - 1,
           op.(pushed := op.pushed + [report], queue := if op.caller.Dropped? then op.queue else op.queue + [report]))
    case Answer(result) => With(s, s.begun - 1, s.ops[s.begun - 1].(work := Answered(result))).(busy := false)
    case Die => s.(ops := Orphaned(s.ops), busy := false, alive := false)
    case Poll(i) => With(s, i, s.ops[i].(caller := Draining))
    case Deliver(i) =>
      var op := s.ops[i];
      With(s, i, op.(delivered := op.delivered + [op.queue[0]], queue := op.queue[1..]))
    case Drained(i) =>
      var op := s.ops[i];
      if op.caller.Draining? then With(s, i, op.(caller := Checking))
      else With(s, i, op.(caller := Complete(op.caller.result), cancelled := true))
    case Check(i) =>
      var op := s.ops[i];
      With(s, i, op.(caller := match op.work
                     case Answered(result) => Finishing(result)
                     case Lost => Finishing(Cancelled)
                     case _ => Between))
    case DropFuture(i) => With(s, i, s.ops[i].(caller := Dropped, cancelled := true))
  }

  /** The state after some steps, if all of them could be taken. */
  function Run(s: Sys, steps: seq<Step>): (r: Option<Sys>)
    decreases |steps|
  {
    if steps == [] then Some(s)
    else if Enabled(s, steps[0]) then Run(Next(s, steps[0]), steps[1..])
    else None
  }

  // --- What every state reached satisfies -----------------------------------------------------

  ghost predicate OpOk(op: Op) {
    && (op.cancelled <==> Over(op))
    && (!op.caller.Dropped? ==> op.pushed == op.delivered + op.queue)
    && (op.caller.Dropped? ==> op.delivered <= op.pushed)
    && (op.work.Waiting? ==> op.pushed == [])
    && (op.caller.Finishing? ==>
          op.work == Answered(op.caller.result) || (op.work.Lost? && op.caller.result == Cancelled))
    && (op.caller.Complete? ==>
          op.queue == [] && (op.work == Answered(op.caller.result) || (op.work.Lost? && op.caller.result == Cancelled)))
  }

  /** Jobs run one at a time, in the order submitted. */
  ghost predicate InOrder(s: Sys) {
    && s.begun <= |s.ops| && (s.busy ==> s.alive && 0 < s.begun)
    && forall i :: 0 <= i < |s.ops| ==>
         if s.busy && i == s.begun - 1 then s.ops[i].work.Running?
         else if i < s.begun then s.ops[i].work.Answered? || s.ops[i].work.Lost?
         else if s.alive then s.ops[i].work.Waiting? else s.ops[i].work.Lost?
  }

  /** Only the operation submitted last can still have a future. */
  ghost predicate OneFuture(s: Sys) {
    forall i :: 0 <= i < |s.ops| - 1 ==> Over(s.ops[i])
  }

  ghost predicate SysOk(s: Sys) {
    InOrder(s) && OneFuture(s) && forall i :: 0 <= i < |s.ops| ==> OpOk(s.ops[i])
  }

  lemma StepKeepsOrder(s: Sys, step: Step)
    requires InOrder(s) && Enabled(s, step)
    ensures InOrder(Next(s, step))
  {
  }

  lemma StepKeepsOneFuture(s: Sys, step: Step)
    requires OneFuture(s) && InOrder(s) && Enabled(s, step)
    ensures OneFuture(Next(s, step))
  {
  }

  lemma PushKeeps(op: Op, report: Report)
    requires OpOk(op) && op.work.Running?
    ensures OpOk(op.(pushed := op.pushed + [report],
                     queue := if op.caller.Dropped? then op.queue else op.queue + [report]))
  {
    assert op.delivered + (op.queue + [report]) == op.delivered + op.queue + [report];
  }

  lemma DeliverKeeps(op: Op)
    requires OpOk(op) && Draws(op) && op.queue != []
    ensures OpOk(op.(delivered := op.delivered + [op.queue[0]], queue := op.queue[1..]))
  {
    assert op.delivered + op.queue == op.delivered + [op.queue[0]] + op.queue[1..];
  }

  lemma CallerKeeps(op: Op)
    requires OpOk(op)
    ensures op.caller.Between? ==> OpOk(op.(caller := Draining)) && OpOk(op.(caller := Dropped, cancelled := true))
    ensures op.queue == [] && op.caller.Draining? ==> OpOk(op.(caller := Checking))
    ensures op.queue == [] && op.caller.Finishing? ==>
      OpOk(op.(caller := Complete(op.caller.result), cancelled := true))
  {
  }

  lemma CheckKeeps(op: Op)
    requires OpOk(op) && op.caller.Checking?
    ensures op.work.Answered? ==> OpOk(op.(caller := Finishing(op.work.result)))
    ensures op.work.Lost? ==> OpOk(op.(caller := Finishing(Cancelled)))
    ensures OpOk(op.(caller := Between))
  {
  }

  lemma WorkerKeeps(op: Op)
    requires OpOk(op)
    ensures op.work.Waiting? ==> OpOk(op.(work := Running))
    ensures op.work.Running? ==> forall result :: OpOk(op.(work := Answered(result)))
    ensures op.work.Waiting? || op.work.Running? ==> OpOk(op.(work := Lost))
  {
  }

  lemma JobAt(s: Sys)
    requires InOrder(s)
    ensures s.busy ==> 0 < s.begun <= |s.ops| && s.ops[s.begun - 1].work.Running?
    ensures s.alive && s.begun < |s.ops| ==> s.ops[s.begun].work.Waiting?
  {
  }

  lemma StepKeepsOps(s: Sys, step: Step, i: nat)
    requires SysOk(s) && Enabled(s, step) && i < |Next(s, step).ops|
    ensures OpOk(Next(s, step).ops[i])
  {
    hide OpOk, InOrder, OneFuture;
    JobAt(s);
    if i == |s.ops| {
      assert OpOk(FRESH_OP) by { FreshIsOk(); }
      return;
    }
    var op := s.ops[i];
    CallerKeeps(op);
    WorkerKeeps(op);
    match step
    case Push(report) =>
      if i == s.begun - 1 { PushKeeps(op, report); }
    case Deliver(j) =>
      if i == j { DeliverKeeps(op); }
    case Check(j) =>
      if i == j { CheckKeeps(op); }
    case _ =>
  }

  lemma FreshIsOk()
    ensures OpOk(FRESH_OP)
  {
  }

  lemma StepKeeps(s: Sys, step: Step)
    requires SysOk(s) && Enabled(s, step)
    ensures SysOk(Next(s, step))
  {
    hide InOrder, OneFuture, OpOk, Next, Enabled;
    StepKeepsOrder(s, step);
    StepKeepsOneFuture(s, step);
    forall i | 0 <= i < |Next(s, step).ops| ensures OpOk(Next(s, step).ops[i]) {
      StepKeepsOps(s, step, i);
    }
  }

  lemma {:induction false} RunKeeps(s: Sys, steps: seq<Step>)
    requires SysOk(s)
    ensures Run(s, steps).Some? ==> SysOk(Run(s, steps).value)
    decreases |steps|
  {
    hide SysOk, Next, Enabled;
    if steps != [] && Enabled(s, steps[0]) {
      StepKeeps(s, steps[0]);
      RunKeeps(Next(s, steps[0]), steps[1..]);
    }
  }

  /**
   * In every interleaving: what has been delivered is a prefix of what was pushed; and when the future
   * completes, it is all of it, in order and once each, with the worker's own result, or a
   * cancellation if the worker went down first.
   */
  lemma DeliveredExactlyOnce(steps: seq<Step>, i: nat)
    requires Run(START, steps).Some? && i < |Run(START, steps).value.ops|
    ensures var op := Run(START, steps).value.ops[i];
      && op.delivered <= op.pushed
      && (op.caller.Complete? ==>
           && op.delivered == op.pushed
           && (op.work == Answered(op.caller.result) || (op.work.Lost? && op.caller.result == Cancelled)))
  {
    RunKeeps(START, steps);
    var op := Run(START, steps).value.ops[i];
    assert OpOk(op);
    if op.caller.Complete? { assert op.delivered + [] == op.delivered; }
  }

  /** Never two jobs at once, and none before an earlier one is done with. */
  lemma JobsAreSerial(steps: seq<Step>, i: nat, j: nat)
    requires Run(START, steps).Some? && i < j < |Run(START, steps).value.ops|
    ensures var ops := Run(START, steps).value.ops;
      !ops[j].work.Waiting? ==> ops[i].work.Answered? || ops[i].work.Lost?
  {
    RunKeeps(START, steps);
  }

  /**
   * In every interleaving the guard has fired an operation's cancellable exactly when its future is over,
   * dropped or complete. That it fires no other's is how the model is built: each operation has its own flag.
   */
  lemma GuardFiresAtTheEnd(steps: seq<Step>, i: nat)
    requires Run(START, steps).Some? && i < |Run(START, steps).value.ops|
    ensures var op := Run(START, steps).value.ops[i]; op.cancelled <==> op.caller.Complete? || op.caller.Dropped?
  {
    RunKeeps(START, steps);
    assert OpOk(Run(START, steps).value.ops[i]);
  }

  // --- A poll that finds the reply ------------------------------------------------------------

  function Deliveries(i: nat, n: nat): (r: seq<Step>) {
    if n == 0 then [] else [Deliver(i)] + Deliveries(i, n - 1)
  }

  lemma DeliverOne(s: Sys, i: nat)
    requires i < |s.ops| && Draws(s.ops[i]) && s.ops[i].queue != []
    ensures Enabled(s, Deliver(i)) && i < |Next(s, Deliver(i)).ops|
    ensures var op, s1 := s.ops[i], Next(s, Deliver(i));
      var op1 := s1.ops[i];
      && Draws(op1) && |op1.queue| == |op.queue| - 1
      && With(s1, i, op1.(delivered := op1.delivered + op1.queue, queue := []))
           == With(s, i, op.(delivered := op.delivered + op.queue, queue := []))
  {
    var op, s1 := s.ops[i], Next(s, Deliver(i));
    assert op.delivered + [op.queue[0]] + op.queue[1..] == op.delivered + op.queue;
    assert s1.ops[i := op.(delivered := op.delivered + op.queue, queue := [])]
      == s.ops[i := op.(delivered := op.delivered + op.queue, queue := [])];
  }

  lemma {:induction false} DrainRuns(s: Sys, i: nat, rest: seq<Step>)
    requires i < |s.ops| && Draws(s.ops[i])
    ensures var op := s.ops[i];
      Run(s, Deliveries(i, |op.queue|) + rest)
        == Run(With(s, i, op.(delivered := op.delivered + op.queue, queue := [])), rest)
    decreases |s.ops[i].queue|
  {
    var op := s.ops[i];
    var steps := Deliveries(i, |op.queue|) + rest;
    if op.queue == [] {
      assert steps == rest;
      assert op.delivered + op.queue == op.delivered;
      assert s.ops[i := op] == s.ops;
    } else {
      var s1 := Next(s, Deliver(i));
      assert steps[0] == Deliver(i) && steps[1..] == Deliveries(i, |op.queue| - 1) + rest;
      DeliverOne(s, i);
      hide Next;
      DrainRuns(s1, i, rest);
    }
  }

  function OnePoll(i: nat, n: nat): (r: seq<Step>) {
    [Poll(i)] + (Deliveries(i, n) + [Drained(i), Check(i), Drained(i)])
  }

  /**
   * After the reply, or once the worker has gone down without one, one poll suffices: it delivers every report
   * left and completes, with a cancellation if there is no reply.
   */
  lemma PollAfterReplyCompletes(s: Sys, i: nat)
    requires SysOk(s) && i < |s.ops| && s.ops[i].caller.Between? && (s.ops[i].work.Answered? || s.ops[i].work.Lost?)
    ensures var op := s.ops[i];
      var result := if op.work.Answered? then op.work.result else Cancelled;
      Run(s, OnePoll(i, |op.queue|))
        == Some(With(s, i, op.(caller := Complete(result), delivered := op.pushed, queue := [], cancelled := true)))
  {
    var result := if s.ops[i].work.Answered? then s.ops[i].work.result else Cancelled;
    var op := s.ops[i];
    assert OpOk(op);
    var s1 := Next(s, Poll(i));
    var tail := [Drained(i), Check(i), Drained(i)];
    assert OnePoll(i, |op.queue|)[1..] == Deliveries(i, |op.queue|) + tail;
    DrainRuns(s1, i, tail);
    var op2 := op.(caller := Draining, delivered := op.pushed, queue := []);
    var s2 := With(s1, i, op2);
    assert Run(s, OnePoll(i, |op.queue|)) == Run(s2, tail);
    var s3 := Next(s2, Drained(i));
    assert Run(s2, tail) == Run(s3, tail[1..]);
    var s4 := Next(s3, Check(i));
    assert Run(s3, tail[1..]) == Run(s4, tail[1..][1..]);
    assert tail[1..][1..] == [Drained(i)];
    var s5 := Next(s4, Drained(i));
    assert [Drained(i)][1..] == [];
    assert Run(s4, [Drained(i)]) == Some(s5);
    var done := op.(caller := Complete(result), delivered := op.pushed, queue := [], cancelled := true);
    assert s5.ops == s.ops[i := done];
  }

  /**
   * Whenever a poll is about to check the reply of a running job, the worker can still push a report and
   * answer first; the check then finds the reply with that report undelivered. Only the drain after it
   * delivers the report.
   */
  lemma FinalDrainIsNeeded(s: Sys, i: nat, r: Report, o: Result)
    requires SysOk(s) && s.busy && i == s.begun - 1 && s.ops[i].caller.Checking?
    ensures Enabled(s, Push(r)) && Enabled(Next(s, Push(r)), Answer(o))
    ensures Enabled(Next(Next(s, Push(r)), Answer(o)), Check(i))
    ensures var op := Next(Next(Next(s, Push(r)), Answer(o)), Check(i)).ops[i];
      op.caller == Finishing(o) && op.queue == s.ops[i].queue + [r] && op.delivered < op.pushed
  {
    assert OpOk(s.ops[i]);
    var s1 := Next(s, Push(r));
    assert s1.ops[i].pushed == s.ops[i].delivered + (s.ops[i].queue + [r]);
    var s2 := Next(s1, Answer(o));
    assert s2.ops[i].caller.Checking? && s2.ops[i].work == Answered(o);
  }
}
