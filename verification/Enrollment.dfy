/**
 * Enrolment on the virtual reader, poll by poll, over a store of prints that several handles share.
 */
module Enrollment {
  import opened Seqs

  datatype Print = Print(template: int, finger: int, username: int, stored: bool)

  datatype Error = ProtoState | NotSupported | DataFull | DataDuplicate | DataNotFound

  datatype Capture = Retry(reason: int) | Advance

  /** What the reader advertises: match on chip, the checks and operations it has, and its capture stages. */
  datatype Shape = Shape(moc: bool, duplicates: bool, delete: bool, clear: bool, stages: nat)

  /** The scenario it plays. */
  datatype Scenario = Scenario(forceFull: bool, want: int, script: seq<Capture>)

  /** An enrolment future: not there, not yet polled, or suspended in the yield before capture number `at`. */
  datatype Phase = Idle | Created(request: Print) | Suspended(request: Print, completed: nat, at: nat)

  /** A handle; its shape settles to another, if there is one, the first time it is opened. */
  datatype Handle = Handle(shape: Shape, settles: Option<Shape>, scenario: Scenario, open: bool, phase: Phase)

  datatype Progress = Progress(completed: nat, total: nat, retry: Option<int>)

  datatype Polled = Pending | Ready(enrolled: Print) | Failed(error: Error)

  /** One poll: the future it leaves, the store it leaves, what it reported and what it returned. */
  datatype Poll = Poll(phase: Phase, prints: seq<Print>, report: Option<Progress>, result: Polled)

  // --- The store ------------------------------------------------------------------------------

  predicate Full(prints: seq<Print>, capacity: Option<nat>) {
    capacity.Some? && |prints| >= capacity.value
  }

  predicate Stores(prints: seq<Print>, template: int) {
    exists i :: 0 <= i < |prints| && prints[i].template == template
  }

  /** The prints without the first one that carries the template. */
  function Without(prints: seq<Print>, template: int): (r: seq<Print>)
    ensures Stores(prints, template) ==> |r| + 1 == |prints|
    ensures !Stores(prints, template) ==> r == prints
  {
    if prints == [] then []
    else if prints[0].template == template then prints[1..]
    else
      var r := Without(prints[1..], template);
      assert Stores(prints, template) ==> Stores(prints[1..], template) by {
        if Stores(prints, template) {
          var i :| 0 <= i < |prints| && prints[i].template == template;
          assert prints[1..][i - 1].template == template;
        }
      }
      assert Stores(prints[1..], template) ==> Stores(prints, template) by {
        if Stores(prints[1..], template) {
          var i :| 0 <= i < |prints| - 1 && prints[1..][i].template == template;
          assert prints[i + 1].template == template;
        }
      }
      [prints[0]] + r
  }

  // --- One enrolment --------------------------------------------------------------------------

  /** What the scripted sensor does at capture number `at`; past the script every capture advances. */
  function CaptureAt(script: seq<Capture>, at: nat): (c: Capture) {
    if at < |script| then script[at] else Advance
  }

  function Finished(h: Handle, request: Print): (p: Print) {
    Print(h.scenario.want, request.finger, request.username, h.shape.moc)
  }

  /** Up to the next yield, or to the end: only there is anything stored. */
  function GoOn(h: Handle, capacity: Option<nat>, prints: seq<Print>, request: Print, completed: nat, at: nat,
          report: Option<Progress>): (r: Poll)
  {
    if completed < h.shape.stages then Poll(Suspended(request, completed, at), prints, report, Pending)
    else if !h.shape.moc then Poll(Idle, prints, report, Ready(Finished(h, request)))
    else if Full(prints, capacity) then Poll(Idle, prints, report, Failed(DataFull))
    else Poll(Idle, prints + [Finished(h, request)], report, Ready(Finished(h, request)))
  }

  function PollEnroll(h: Handle, capacity: Option<nat>, prints: seq<Print>): (r: Poll)
    requires !h.phase.Idle?
  {
    var want := h.scenario.want;
    match h.phase
    case Created(request) =>
      if !h.open then Poll(Idle, prints, None, Failed(ProtoState))
      else if h.scenario.forceFull || (h.shape.moc && Full(prints, capacity)) then
        Poll(Idle, prints, None, Failed(DataFull))
      else if h.shape.duplicates && Stores(prints, want) then Poll(Idle, prints, None, Failed(DataDuplicate))
      else GoOn(h, capacity, prints, request, 0, 0, None)
    case Suspended(request, completed, at) =>
      match CaptureAt(h.scenario.script, at)
      case Retry(reason) =>
        GoOn(h, capacity, prints, request, completed, at + 1, Some(Progress(completed, h.shape.stages, Some(reason))))
      case Advance =>
        GoOn(h, capacity, prints, request, completed + 1, at + 1, Some(Progress(completed + 1, h.shape.stages, None)))
  }

  // --- Several handles on one store -----------------------------------------------------------

  datatype World = World(prints: seq<Print>, capacity: Option<nat>, handles: seq<Handle>)

  datatype Move =
    | Open(i: nat) | Close(i: nat) | Enroll(i: nat, request: Print) | PollFuture(i: nat) | DropFuture(i: nat)
    | Delete(i: nat, template: int) | Clear(i: nat)

  /** A handle with a future in flight is borrowed by it: all it can do is poll it or drop it. */
  predicate Allowed(w: World, m: Move) {
    m.i < |w.handles| && (m.PollFuture? || m.DropFuture? <==> !w.handles[m.i].phase.Idle?)
  }

  function Set(w: World, i: nat, h: Handle): (r: World)
    requires i < |w.handles|
  {
    w.(handles := w.handles[i := h])
  }

  function After(w: World, m: Move): (r: World)
    requires Allowed(w, m)
  {
    var h := w.handles[m.i];
    match m
    case Open(i) =>
      if h.open then w
      else Set(w, i, h.(open := true, shape := if h.settles.Some? then h.settles.value else h.shape, settles := None))
    case Close(i) => Set(w, i, h.(open := false))
    case Enroll(i, request) => Set(w, i, h.(phase := Created(request)))
    case PollFuture(i) =>
      var p := PollEnroll(h, w.capacity, w.prints);
      Set(w, i, h.(phase := p.phase)).(prints := p.prints)
    case DropFuture(i) => Set(w, i, h.(phase := Idle))
    case Delete(i, template) =>
      if h.open && h.shape.delete then w.(prints := Without(w.prints, template)) else w
    case Clear(i) =>
      if h.open && h.shape.clear then w.(prints := []) else w
  }

  function RunMoves(w: World, moves: seq<Move>): (r: Option<World>)
    decreases |moves|
  {
    if moves == [] then Some(w)
    else if Allowed(w, moves[0]) then RunMoves(After(w, moves[0]), moves[1..])
    else None
  }

  // --- Capacity, and dropped enrolments -------------------------------------------------------

  predicate WithinCapacity(w: World) {
    w.capacity.Some? ==> |w.prints| <= w.capacity.value
  }

  lemma MoveKeepsCapacity(w: World, m: Move)
    requires Allowed(w, m) && WithinCapacity(w)
    ensures WithinCapacity(After(w, m)) && After(w, m).capacity == w.capacity
  {
  }

  /** However the handles' polls interleave, the store never holds more than its capacity. */
  lemma {:induction false} CapacityHolds(w: World, moves: seq<Move>)
    requires WithinCapacity(w)
    ensures RunMoves(w, moves).Some? ==> WithinCapacity(RunMoves(w, moves).value)
    decreases |moves|
  {
    hide WithinCapacity, After, Allowed;
    if moves != [] && Allowed(w, moves[0]) {
      MoveKeepsCapacity(w, moves[0]);
      CapacityHolds(After(w, moves[0]), moves[1..]);
    }
  }

  /**
   * A move touches no handle but its own. Only a poll that commits adds a print, one at the end. Prints go only by
   * way of an open handle that has the feature: the first with the template, or all of them. A handle is opened
   * once, and settles then; closing it does not undo that.
   */
  lemma MoveTouches(w: World, m: Move)
    requires Allowed(w, m)
    ensures var w', h := After(w, m), w.handles[m.i];
      var h' := w'.handles[m.i];
      && |w'.handles| == |w.handles| && (forall j :: 0 <= j < |w.handles| && j != m.i ==> w'.handles[j] == w.handles[j])
      && (w'.prints == w.prints || m.PollFuture? || (m.Delete? && h.open && h.shape.delete)
            || (m.Clear? && h.open && h.shape.clear))
      && (m.PollFuture? && w'.prints != w.prints ==>
           h.shape.moc && |w'.prints| == |w.prints| + 1 && w'.prints[..|w.prints|] == w.prints)
      && (m.Delete? && w'.prints != w.prints ==>
           exists i :: 0 <= i < |w.prints| && w.prints[i].template == m.template
             && (forall j :: 0 <= j < i ==> w.prints[j].template != m.template)
             && w'.prints == w.prints[..i] + w.prints[i + 1..])
      && (m.Clear? && w'.prints != w.prints ==> w'.prints == [])
      && (h'.open <==> (h.open && !m.Close?) || m.Open?)
      && (h'.shape != h.shape ==> m.Open? && !h.open && h.settles == Some(h'.shape) && h'.settles.None?)
  {
    if m.Delete? && After(w, m).prints != w.prints {
      var i := WithoutWhere(w.prints, m.template);
    }
  }

  lemma {:induction false} WithoutWhere(prints: seq<Print>, template: int) returns (i: nat)
    requires Without(prints, template) != prints
    ensures i < |prints| && prints[i].template == template
    ensures forall j :: 0 <= j < i ==> prints[j].template != template
    ensures Without(prints, template) == prints[..i] + prints[i + 1..]
  {
    if prints[0].template == template {
      i := 0;
    } else {
      i := WithoutWhere(prints[1..], template);
      i := i + 1;
      forall j | 0 <= j < i ensures prints[j].template != template {
        if j > 0 { assert prints[1..][j - 1] == prints[j]; }
      }
      assert prints[..i] + prints[i + 1..] == [prints[0]] + (prints[1..][..i - 1] + prints[1..][i..]);
    }
  }

  /** A poll that leaves the future pending stores nothing; one that stores returns the print it stored. */
  lemma PendingStoresNothing(h: Handle, capacity: Option<nat>, prints: seq<Print>)
    requires !h.phase.Idle?
    ensures var r := PollEnroll(h, capacity, prints);
      && (r.result.Pending? <==> !r.phase.Idle?)
      && (!r.result.Ready? ==> r.prints == prints)
      && (r.result.Ready? ==> r.prints == if h.shape.moc then prints + [r.result.enrolled] else prints)
  {
  }

  ghost predicate LeavesPending(w: World, m: Move)
    requires Allowed(w, m)
  {
    m.Enroll? || m.DropFuture? ||
    (m.PollFuture? && PollEnroll(w.handles[m.i], w.capacity, w.prints).result.Pending?)
  }

  /** Moves of one handle that only begin, poll or drop its enrolment, and never let it finish. */
  ghost predicate Abandoned(w: World, moves: seq<Move>, i: nat)
    decreases |moves|
  {
    moves == [] || (
      && Allowed(w, moves[0]) && moves[0].i == i && LeavesPending(w, moves[0])
      && Abandoned(After(w, moves[0]), moves[1..], i))
  }

  /** Dropped at whichever poll, an enrolment has changed nothing but its own future. */
  lemma {:induction false} DroppedEnrollChangesNothing(w: World, moves: seq<Move>, i: nat)
    requires Abandoned(w, moves, i) && i < |w.handles|
    ensures RunMoves(w, moves).Some?
    ensures var r := RunMoves(w, moves).value;
      && r.prints == w.prints && |r.handles| == |w.handles|
      && (forall j :: 0 <= j < |w.handles| && j != i ==> r.handles[j] == w.handles[j])
      && r.handles[i] == w.handles[i].(phase := r.handles[i].phase)
    decreases |moves|
  {
    if moves != [] {
      if moves[0].PollFuture? { PendingStoresNothing(w.handles[i], w.capacity, w.prints); }
      var w1 := After(w, moves[0]);
      assert w1.prints == w.prints && |w1.handles| == |w.handles|;
      assert forall j :: 0 <= j < |w.handles| && j != i ==> w1.handles[j] == w.handles[j];
      assert w1.handles[i] == w.handles[i].(phase := w1.handles[i].phase);
      DroppedEnrollChangesNothing(w1, moves[1..], i);
    }
  }

  // --- Duplicates -----------------------------------------------------------------------------

  ghost predicate NoDuplicates(prints: seq<Print>) {
    forall i, j :: 0 <= i < j < |prints| ==> prints[i].template != prints[j].template
  }

  lemma StoringKeepsDistinct(prints: seq<Print>, p: Print)
    requires NoDuplicates(prints)
    ensures NoDuplicates(prints + [p]) <==> !Stores(prints, p.template)
  {
    var r := prints + [p];
    assert r[|prints|] == p;
    if Stores(prints, p.template) {
      var i :| 0 <= i < |prints| && prints[i].template == p.template;
      assert r[i].template == r[|prints|].template;
    }
  }

  /** The next poll of this future will store a print. */
  ghost predicate AboutToStore(h: Handle, capacity: Option<nat>, prints: seq<Print>) {
    && h.shape.moc && !Full(prints, capacity)
    && match h.phase
       case Idle => false
       case Created(_) =>
         h.open && !h.scenario.forceFull && h.shape.stages == 0
         && !(h.shape.duplicates && Stores(prints, h.scenario.want))
       case Suspended(_, completed, at) =>
         completed + (if CaptureAt(h.scenario.script, at).Advance? then 1 else 0) >= h.shape.stages
  }

  lemma PollStoresIff(h: Handle, capacity: Option<nat>, prints: seq<Print>)
    requires !h.phase.Idle?
    ensures var r := PollEnroll(h, capacity, prints);
      if AboutToStore(h, capacity, prints) then
        r.result.Ready? && r.result.enrolled.template == h.scenario.want && r.prints == prints + [r.result.enrolled]
      else r.prints == prints
  {
  }

  /** A poll breaks distinctness exactly when it is about to store and the template is there already. */
  lemma PollKeepsDistinctIff(h: Handle, capacity: Option<nat>, prints: seq<Print>)
    requires !h.phase.Idle? && NoDuplicates(prints)
    ensures NoDuplicates(PollEnroll(h, capacity, prints).prints)
      <==> !(AboutToStore(h, capacity, prints) && Stores(prints, h.scenario.want))
  {
    hide PollEnroll, AboutToStore;
    PollStoresIff(h, capacity, prints);
    if AboutToStore(h, capacity, prints) {
      StoringKeepsDistinct(prints, PollEnroll(h, capacity, prints).result.enrolled);
    }
  }

  lemma {:induction false} WithoutKeepsOthers(prints: seq<Print>, template: int, other: int)
    requires Stores(Without(prints, template), other)
    ensures Stores(prints, other)
  {
    if prints != [] {
      var r := Without(prints, template);
      var i :| 0 <= i < |r| && r[i].template == other;
      if prints[0].template == template {
        assert prints[i + 1].template == other;
      } else if i == 0 {
        assert prints[0].template == other;
      } else {
        assert Without(prints[1..], template)[i - 1].template == other;
        WithoutKeepsOthers(prints[1..], template, other);
        var j :| 0 <= j < |prints| - 1 && prints[1..][j].template == other;
        assert prints[j + 1].template == other;
      }
    }
  }

  lemma HeadIsAlone(prints: seq<Print>)
    requires NoDuplicates(prints) && prints != []
    ensures NoDuplicates(prints[1..]) && !Stores(prints[1..], prints[0].template)
  {
  }

  /** Deleting a template from a store without duplicates leaves none behind. */
  lemma {:induction false} DeletedIsGone(prints: seq<Print>, template: int)
    requires NoDuplicates(prints)
    ensures NoDuplicates(Without(prints, template)) && !Stores(Without(prints, template), template)
  {
    if prints != [] {
      HeadIsAlone(prints);
      if prints[0].template != template {
        DeletedIsGone(prints[1..], template);
        var r := Without(prints[1..], template);
        if Stores(r, prints[0].template) {
          WithoutKeepsOthers(prints[1..], template, prints[0].template);
        }
        assert forall i :: 0 <= i < |r| ==> r[i].template != prints[0].template;
      }
    }
  }

  /** Two of the prints carry the template. */
  ghost predicate Twice(prints: seq<Print>, template: int) {
    exists i, j :: 0 <= i < j < |prints| && prints[i].template == template && prints[j].template == template
  }

  /** Deleting takes out one print: the template is still there exactly when two carried it. */
  lemma {:induction false} DuplicateSurvivesDelete(prints: seq<Print>, template: int)
    ensures Stores(Without(prints, template), template) <==> Twice(prints, template)
  {
    if prints != [] {
      var rest := prints[1..];
      if prints[0].template == template {
        TwiceFromHead(prints, template);
      } else {
        DuplicateSurvivesDelete(rest, template);
        TwiceInTail(prints, template);
        var r := Without(rest, template);
        assert Without(prints, template) == [prints[0]] + r;
        StoresInTail(prints[0], r, template);
      }
    }
  }

  lemma StoresInTail(p: Print, rest: seq<Print>, template: int)
    requires p.template != template
    ensures Stores([p] + rest, template) <==> Stores(rest, template)
  {
    if Stores([p] + rest, template) {
      var i :| 0 <= i < |rest| + 1 && ([p] + rest)[i].template == template;
      assert rest[i - 1].template == template;
    }
    if Stores(rest, template) {
      var i :| 0 <= i < |rest| && rest[i].template == template;
      assert ([p] + rest)[i + 1].template == template;
    }
  }

  lemma TwiceFromHead(prints: seq<Print>, template: int)
    requires prints != [] && prints[0].template == template
    ensures Twice(prints, template) <==> Stores(prints[1..], template)
  {
    if Twice(prints, template) {
      var i, j :| 0 <= i < j < |prints| && prints[i].template == template && prints[j].template == template;
      assert prints[1..][j - 1].template == template;
    }
    if Stores(prints[1..], template) {
      var j :| 0 <= j < |prints| - 1 && prints[1..][j].template == template;
      assert prints[0].template == template && prints[j + 1].template == template;
    }
  }

  lemma TwiceInTail(prints: seq<Print>, template: int)
    requires prints != [] && prints[0].template != template
    ensures Twice(prints, template) <==> Twice(prints[1..], template)
  {
    if Twice(prints, template) {
      var i, j :| 0 <= i < j < |prints| && prints[i].template == template && prints[j].template == template;
      assert prints[1..][i - 1].template == template && prints[1..][j - 1].template == template;
    }
    if Twice(prints[1..], template) {
      var rest := prints[1..];
      var i, j :| 0 <= i < j < |rest| && rest[i].template == template && rest[j].template == template;
      assert prints[i + 1].template == template && prints[j + 1].template == template;
    }
  }

  /** The handle checks for duplicates if it stores prints, whichever shape it has or settles to. */
  predicate Checks(h: Handle) {
    && (h.shape.moc ==> h.shape.duplicates)
    && (h.settles.Some? && h.settles.value.moc ==> h.settles.value.duplicates)
  }

  /** Every handle that stores prints checks for duplicates when its enrolment starts. */
  ghost predicate AllCheck(w: World) {
    forall i :: 0 <= i < |w.handles| ==> Checks(w.handles[i])
  }

  /** An enrolment in flight, past its duplicate check, wants a template nobody has stored since. */
  ghost predicate InFlightOk(w: World) {
    forall i :: 0 <= i < |w.handles| && w.handles[i].shape.moc && w.handles[i].phase.Suspended? ==>
      !Stores(w.prints, w.handles[i].scenario.want)
  }

  /**
   * Nobody polls an enrolment while another handle is in the middle of one for the same template: a
   * caller can see to this before polling.
   */
  ghost predicate Uncontended(w: World, m: Move) {
    m.PollFuture? && m.i < |w.handles| ==>
      forall j :: 0 <= j < |w.handles| && j != m.i && w.handles[j].phase.Suspended? ==>
        w.handles[j].scenario.want != w.handles[m.i].scenario.want
  }

  ghost predicate DistinctOk(w: World) {
    NoDuplicates(w.prints) && AllCheck(w) && InFlightOk(w)
  }

  lemma PollKeepsInFlight(w: World, i: nat)
    requires Allowed(w, PollFuture(i)) && Uncontended(w, PollFuture(i)) && DistinctOk(w)
    ensures DistinctOk(After(w, PollFuture(i)))
  {
    var h := w.handles[i];
    PollKeepsDistinctIff(h, w.capacity, w.prints);
    PendingStoresNothing(h, w.capacity, w.prints);
    var p := PollEnroll(h, w.capacity, w.prints);
    var w' := After(w, PollFuture(i));
    PollStoresIff(h, w.capacity, w.prints);
    assert h.phase.Created? && p.result.Ready? && h.shape.moc ==> !Stores(w.prints, h.scenario.want);
    forall j | 0 <= j < |w'.handles| && w'.handles[j].shape.moc && w'.handles[j].phase.Suspended?
      ensures !Stores(w'.prints, w'.handles[j].scenario.want)
    {
      if j == i {
        assert p.result.Pending?;
      } else {
        assert !Stores(w.prints, w.handles[j].scenario.want);
      }
    }
  }

  lemma FewerKeepInFlight(w: World, prints: seq<Print>)
    requires DistinctOk(w) && NoDuplicates(prints)
    requires forall t :: Stores(prints, t) ==> Stores(w.prints, t)
    ensures DistinctOk(w.(prints := prints))
  {
  }

  lemma MoveKeepsDistinct(w: World, m: Move)
    requires Allowed(w, m) && Uncontended(w, m) && DistinctOk(w)
    ensures DistinctOk(After(w, m))
  {
    match m
    case PollFuture(i) => PollKeepsInFlight(w, i);
    case Delete(i, template) =>
      DeletedIsGone(w.prints, template);
      forall t | Stores(Without(w.prints, template), t) ensures Stores(w.prints, t) {
        WithoutKeepsOthers(w.prints, template, t);
      }
      FewerKeepInFlight(w, Without(w.prints, template));
    case Clear(i) => FewerKeepInFlight(w, []);
    case _ =>
  }

  ghost predicate RunUncontended(w: World, moves: seq<Move>)
    decreases |moves|
  {
    moves == [] || (Allowed(w, moves[0]) && Uncontended(w, moves[0]) && RunUncontended(After(w, moves[0]), moves[1..]))
  }

  /** Uncontended, stored templates stay pairwise distinct in every interleaving. */
  lemma {:induction false} StoredStayDistinct(w: World, moves: seq<Move>)
    requires DistinctOk(w) && RunUncontended(w, moves)
    ensures RunMoves(w, moves).Some? && DistinctOk(RunMoves(w, moves).value)
    decreases |moves|
  {
    hide DistinctOk, After, Allowed, Uncontended;
    if moves != [] {
      MoveKeepsDistinct(w, moves[0]);
      StoredStayDistinct(After(w, moves[0]), moves[1..]);
    }
  }

  lemma {:induction false} OneHandleIsUncontended(w: World, moves: seq<Move>)
    requires |w.handles| == 1 && RunMoves(w, moves).Some?
    ensures RunUncontended(w, moves)
    decreases |moves|
  {
    if moves != [] {
      assert |After(w, moves[0]).handles| == 1;
      hide After;
      OneHandleIsUncontended(After(w, moves[0]), moves[1..]);
    }
  }

  /** With one handle that checks for duplicates, no run ever stores a template twice. */
  lemma OneHandleNeverDuplicates(h: Handle, capacity: Option<nat>, moves: seq<Move>)
    requires h.phase.Idle? && Checks(h)
    ensures var w := World([], capacity, [h]);
      RunMoves(w, moves).Some? ==> NoDuplicates(RunMoves(w, moves).value.prints)
  {
    var w := World([], capacity, [h]);
    if RunMoves(w, moves).Some? {
      OneHandleIsUncontended(w, moves);
      StoredStayDistinct(w, moves);
    }
  }

  /**
   * Two handles in the middle of enrolling the same template both store it, whatever checks they made:
   * the check comes first and the commit last.
   */
  lemma TwoHandlesDuplicate(w: World, i: nat, j: nat)
    requires i < |w.handles| && j < |w.handles| && i != j && w.handles[i].scenario.want == w.handles[j].scenario.want
    requires w.capacity.Some? ==> |w.prints| + 2 <= w.capacity.value
    requires w.handles[i].phase.Suspended? && AboutToStore(w.handles[i], w.capacity, w.prints)
    requires w.handles[j].phase.Suspended? && AboutToStore(w.handles[j], w.capacity, w.prints)
    ensures Allowed(w, PollFuture(i)) && Allowed(After(w, PollFuture(i)), PollFuture(j))
    ensures !NoDuplicates(After(After(w, PollFuture(i)), PollFuture(j)).prints)
  {
    var w1 := After(w, PollFuture(i));
    assert w1.handles[j] == w.handles[j];
    var w2 := After(w1, PollFuture(j));
    var n := |w.prints|;
    assert |w2.prints| == n + 2 && w2.prints[n].template == w2.prints[n + 1].template;
  }

  lemma {:induction false} RunConcat(w: World, a: seq<Move>, b: seq<Move>)
    ensures RunMoves(w, a + b) == match RunMoves(w, a) case None => None case Some(w1) => RunMoves(w1, b)
    decreases |a|
  {
    hide After, Allowed;
    if a == [] {
      assert a + b == b;
    } else {
      assert (a + b)[0] == a[0] && (a + b)[1..] == a[1..] + b;
      if Allowed(w, a[0]) { RunConcat(After(w, a[0]), a[1..], b); }
    }
  }

  function Polls(i: nat, n: nat): (r: seq<Move>)
    ensures |r| == n && forall x :: 0 <= x < n ==> r[x] == PollFuture(i)
  {
    seq(n, _ => PollFuture(i))
  }

  /** Polled `n` more times, an enrolment whose captures all advance has `n` more stages behind it. */
  lemma {:induction false} PollsAdvance(w: World, i: nat, n: nat)
    requires i < |w.handles| && w.handles[i].phase.Suspended? && w.handles[i].scenario.script == []
    requires w.handles[i].phase.completed + n < w.handles[i].shape.stages
    ensures var p := w.handles[i].phase;
      RunMoves(w, Polls(i, n)) ==
        Some(Set(w, i, w.handles[i].(phase := Suspended(p.request, p.completed + n, p.at + n))))
    decreases n
  {
    var p := w.handles[i].phase;
    if n == 0 {
      assert Set(w, i, w.handles[i].(phase := Suspended(p.request, p.completed, p.at))) == w;
    } else {
      var w1 := After(w, PollFuture(i));
      assert w1 == Set(w, i, w.handles[i].(phase := Suspended(p.request, p.completed + 1, p.at + 1)));
      assert Polls(i, n)[1..] == Polls(i, n - 1);
      PollsAdvance(w1, i, n - 1);
      assert Set(w1, i, w.handles[i].(phase := Suspended(p.request, p.completed + n, p.at + n)))
        == Set(w, i, w.handles[i].(phase := Suspended(p.request, p.completed + n, p.at + n)));
    }
  }

  /** A handle that has been opened, with nothing in flight, checks for duplicates, and captures without a retry. */
  ghost predicate Waits(h: Handle, want: int) {
    && h.open && h.phase.Idle? && h.shape.moc && h.shape.duplicates && h.shape.stages > 0
    && h.scenario.script == [] && !h.scenario.forceFull && h.scenario.want == want
  }

  /** The handle's enrolment with one capture to go. */
  function LastStage(h: Handle, request: Print): (r: Handle)
    requires h.shape.stages > 0
  {
    h.(phase := Suspended(request, h.shape.stages - 1, h.shape.stages - 1))
  }

  function UpToLast(h: Handle, i: nat, request: Print): (moves: seq<Move>)
    requires h.shape.stages > 0
  {
    [Enroll(i, request), PollFuture(i)] + Polls(i, h.shape.stages - 1)
  }

  /** On a store that has neither the template nor too many prints, an enrolment gets as far as its last capture. */
  lemma ReachesLastStage(w: World, i: nat, want: int, request: Print)
    requires i < |w.handles| && Waits(w.handles[i], want) && !Full(w.prints, w.capacity) && !Stores(w.prints, want)
    ensures var h := w.handles[i]; RunMoves(w, UpToLast(h, i, request)) == Some(Set(w, i, LastStage(h, request)))
  {
    var h := w.handles[i];
    var w1 := After(w, Enroll(i, request));
    var w2 := After(w1, PollFuture(i));
    assert w2 == Set(w, i, h.(phase := Suspended(request, 0, 0)));
    var begin: seq<Move> := [Enroll(i, request), PollFuture(i)];
    assert begin[1..] == [PollFuture(i)] && begin[1..][1..] == [];
    assert RunMoves(w, begin) == RunMoves(w1, [PollFuture(i)]) == RunMoves(w2, []) == Some(w2);
    RunConcat(w, begin, Polls(i, h.shape.stages - 1));
    PollsAdvance(w2, i, h.shape.stages - 1);
    assert Set(w2, i, LastStage(h, request)) == Set(w, i, LastStage(h, request));
  }

  function BothEnroll(a: Handle, b: Handle, request: Print): (moves: seq<Move>)
    requires a.shape.stages > 0 && b.shape.stages > 0
  {
    UpToLast(a, 0, request) + UpToLast(b, 1, request) + [PollFuture(0), PollFuture(1)]
  }

  /**
   * From an empty store with room for two prints, two handles that both check for duplicates can store the
   * same template twice: each checks before the other commits.
   */
  lemma TwoHandlesReachDuplicate(a: Handle, b: Handle, want: int, request: Print, capacity: Option<nat>)
    requires Waits(a, want) && Waits(b, want) && (capacity.Some? ==> capacity.value >= 2)
    ensures var r := RunMoves(World([], capacity, [a, b]), BothEnroll(a, b, request));
      r.Some? && !NoDuplicates(r.value.prints)
  {
    var w := World([], capacity, [a, b]);
    ReachesLastStage(w, 0, want, request);
    var w1 := Set(w, 0, LastStage(a, request));
    assert w1.handles[1] == b;
    ReachesLastStage(w1, 1, want, request);
    var w2 := Set(w1, 1, LastStage(b, request));
    RunConcat(w, UpToLast(a, 0, request), UpToLast(b, 1, request));
    assert RunMoves(w, UpToLast(a, 0, request) + UpToLast(b, 1, request)) == Some(w2);
    hide UpToLast;
    TwoHandlesDuplicate(w2, 0, 1);
    var ends: seq<Move> := [PollFuture(0), PollFuture(1)];
    RunConcat(w, UpToLast(a, 0, request) + UpToLast(b, 1, request), ends);
    TwoMoves(w2, PollFuture(0), PollFuture(1));
  }

  lemma TwoMoves(w: World, m: Move, n: Move)
    requires Allowed(w, m) && Allowed(After(w, m), n)
    ensures RunMoves(w, [m, n]) == Some(After(After(w, m), n))
  {
    assert [m, n][1..] == [n] && [n][1..] == [];
    hide After, Allowed;
    assert RunMoves(After(w, m), [n]) == RunMoves(After(After(w, m), n), []);
  }

  // --- How many polls -------------------------------------------------------------------------

  /** Stages completed by the first `n` captures. */
  function Completed(script: seq<Capture>, n: nat): (c: nat) {
    if n == 0 then 0 else Completed(script, n - 1) + if CaptureAt(script, n - 1).Advance? then 1 else 0
  }

  /** One pending poll per capture: a suspended future has seen as many captures as it has been polled again. */
  lemma PollCountsCaptures(h: Handle, capacity: Option<nat>, prints: seq<Print>)
    requires h.phase.Suspended? && h.phase.completed == Completed(h.scenario.script, h.phase.at)
    ensures var r := PollEnroll(h, capacity, prints);
      && (r.phase.Suspended? ==>
            r.phase.at == h.phase.at + 1 && r.phase.completed == Completed(h.scenario.script, r.phase.at))
      && (r.result.Pending? <==> Completed(h.scenario.script, h.phase.at + 1) < h.shape.stages)
      && r.report == Some(Progress(Completed(h.scenario.script, h.phase.at + 1), h.shape.stages,
           match CaptureAt(h.scenario.script, h.phase.at) case Retry(reason) => Some(reason) case Advance => None))
  {
  }

  lemma {:induction false} CapturesSuffice(script: seq<Capture>, n: nat)
    ensures n <= |script| + Completed(script, n)
  {
    if n > 0 {
      CapturesSuffice(script, n - 1);
    }
  }

  /** An enrolment that is polled on is over after at most one capture per scripted step and per stage. */
  lemma EnrollTerminates(h: Handle, capacity: Option<nat>, prints: seq<Print>)
    requires h.phase.Suspended? && h.phase.completed == Completed(h.scenario.script, h.phase.at)
    requires h.phase.at + 1 >= |h.scenario.script| + h.shape.stages
    ensures !PollEnroll(h, capacity, prints).result.Pending?
  {
    PollCountsCaptures(h, capacity, prints);
    CapturesSuffice(h.scenario.script, h.phase.at + 1);
  }
}
