/** The handle's polling closure and the worker's job loop, as the loops they are. */
module Reader {
  import opened Seqs
  import opened Streaming

  datatype Reply = Pending | Sent(result: Result) | SenderDropped

  /** What a reply means to the caller: a dropped sender reads as cancellation. */
  function Outcome(reply: Reply): (r: Result)
    requires !reply.Pending?
  {
    if reply.Sent? then reply.result else Cancelled
  }

  /** One streaming operation, and the worker at the other end of its channels. */
  class Stream {
    var queue: seq<Report>
    var reply: Reply
    /** The reports handed to the caller's callback. */
    var delivered: seq<Report>
    /** What the worker has still to push, and how it will end. */
    var coming: seq<Report>
    var ending: Reply

    ghost predicate Valid()
      reads this
    {
      !ending.Pending? && (reply.Pending? || (reply == ending && coming == []))
    }

    /** Every report of the operation, delivered, in the channel or yet to be pushed. */
    ghost function All(): (r: seq<Report>)
      reads this
    {
      delivered + queue + coming
    }

    constructor (reports: seq<Report>, last: Reply)
      requires !last.Pending?
      ensures Valid() && All() == reports && ending == last && delivered == []
    {
      queue, reply, delivered, coming, ending := [], Pending, [], reports, last;
    }

    /** The worker, on its own thread, gets any distance further: it answers only after its last report. */
    method WorkerRuns()
      requires Valid()
      modifies this
      ensures Valid() && All() == old(All()) && delivered == old(delivered) && ending == old(ending)
      ensures !old(reply.Pending?) ==> reply == old(reply) && queue == old(queue) && coming == old(coming)
    {
      var n: nat :| n <= |coming|;
      assert coming == coming[..n] + coming[n..];
      queue, coming := queue + coming[..n], coming[n..];
      if coming == [] {
        if * {
          reply := ending;
        }
      }
      assert All() == old(All());
    }

    /** Delivers reports until the channel is found empty. */
    method Drain()
      requires Valid()
      modifies this
      ensures Valid() && All() == old(All()) && ending == old(ending)
      ensures queue == [] && old(delivered) <= delivered
      ensures !old(reply.Pending?) ==> reply == old(reply) && coming == []
    {
      while true
        invariant Valid() && All() == old(All()) && ending == old(ending) && old(delivered) <= delivered
        invariant !old(reply.Pending?) ==> reply == old(reply) && coming == []
        decreases |All()| - |delivered|
      {
        WorkerRuns();
        if queue == [] {
          break;
        }
        assert queue == [queue[0]] + queue[1..];
        delivered, queue := delivered + [queue[0]], queue[1..];
        assert All() == old(All());
      }
    }

    /**
     * One poll. If it completes, every report of the operation has been delivered, in order and once;
     * if the reply was there already it does complete; otherwise nothing is lost.
     */
    method Poll() returns (r: Option<Result>)
      requires Valid()
      modifies this
      ensures Valid() && All() == old(All()) && ending == old(ending) && old(delivered) <= delivered
      ensures r.Some? ==> delivered == All() && r.value == if ending.Sent? then ending.result else Cancelled
      ensures !old(reply.Pending?) ==> r.Some?
    {
      Drain();
      WorkerRuns();
      if reply.Pending? {
        return None;
      }
      Drain();
      assert delivered + [] + [] == delivered;
      r := Some(Outcome(reply));
    }
  }

  // --- The worker -----------------------------------------------------------------------------

  datatype Job = Open | Close | Enroll | Verify | Identify | ListPrints | DeletePrint | ClearStorage | Suspend | Resume
    | Shutdown

  /** A progress callback: the report it pushes, and the device's temperature then, if it has one to tell. */
  datatype Callback = Callback(report: Report, temperature: Option<int>)

  /** What the device does for a job: its callbacks, its result, and its state afterwards. */
  datatype Performed = Performed(callbacks: seq<Callback>, result: Result, open: bool, temperature: Option<int>)

  /** What crosses the channels, in order of time. */
  datatype Entry = Pushed(job: nat, report: Report) | Replied(job: nat, result: Result)

  predicate Reports(job: Job) {
    job.Enroll? || job.Verify? || job.Identify?
  }

  function Pushes(job: nat, callbacks: seq<Callback>): (r: seq<Entry>)
    ensures |r| == |callbacks| && forall i :: 0 <= i < |r| ==> r[i] == Pushed(job, callbacks[i].report)
  {
    seq(|callbacks|, i requires 0 <= i < |callbacks| => Pushed(job, callbacks[i].report))
  }

  /** The entries of one job: its reports, then its reply. A reader that has vanished answers at once. */
  function EntriesOf(jobs: seq<Job>, found: bool, perform: nat -> Performed, i: nat): (r: seq<Entry>)
    requires i < |jobs|
  {
    if !found then [Replied(i, NotFound)]
    else (if Reports(jobs[i]) then Pushes(i, perform(i).callbacks) else []) + [Replied(i, perform(i).result)]
  }

  /** How many jobs are served before the first shutdown. */
  function Served(jobs: seq<Job>): (n: nat)
    ensures n <= |jobs| && (n < |jobs| ==> jobs[n].Shutdown?) && forall i :: 0 <= i < n ==> !jobs[i].Shutdown?
  {
    if jobs == [] || jobs[0].Shutdown? then 0 else 1 + Served(jobs[1..])
  }

  function LogOf(jobs: seq<Job>, found: bool, perform: nat -> Performed, n: nat): (r: seq<Entry>)
    requires n <= |jobs|
  {
    if n == 0 then [] else LogOf(jobs, found, perform, n - 1) + EntriesOf(jobs, found, perform, n - 1)
  }

  /** The temperature in the cell after a job: its callbacks publish, and so does the worker if the device is open. */
  function Published(job: Job, done: Performed, before: Option<int>): (t: Option<int>) {
    if done.open then done.temperature
    else if Reports(job) && done.callbacks != [] then done.callbacks[|done.callbacks| - 1].temperature
    else before
  }

  /** The temperature in the cell after the first `n` jobs. */
  function TemperatureAfter(jobs: seq<Job>, perform: nat -> Performed, n: nat): (t: Option<int>)
    requires n <= |jobs|
  {
    if n == 0 then None else Published(jobs[n - 1], perform(n - 1), TemperatureAfter(jobs, perform, n - 1))
  }

  class Worker {
    var log: seq<Entry>
    var temperature: Option<int>
    var isOpen: bool

    constructor ()
      ensures log == [] && temperature == None && !isOpen
    {
      log, temperature, isOpen := [], None, false;
    }

    /** Serves one job at a time until told to shut down or the handle is gone, then releases the sensor. */
    method Run(jobs: seq<Job>, found: bool, perform: nat -> Performed)
      requires log == [] && temperature == None && !isOpen
      modifies this
      ensures log == LogOf(jobs, found, perform, Served(jobs)) && !isOpen
      ensures temperature == if found then TemperatureAfter(jobs, perform, Served(jobs)) else None
    {
      var i := 0;
      while i < |jobs|
        invariant 0 <= i <= Served(jobs) && log == LogOf(jobs, found, perform, i) && (!found ==> !isOpen)
        invariant temperature == if found then TemperatureAfter(jobs, perform, i) else None
      {
        if jobs[i].Shutdown? {
          break;
        }
        Serve(jobs, i, found, perform);
        i := i + 1;
      }
      if found && isOpen {
        isOpen := false;
      }
    }

    method Serve(jobs: seq<Job>, i: nat, found: bool, perform: nat -> Performed)
      requires i < |jobs|
      modifies this
      ensures log == old(log) + EntriesOf(jobs, found, perform, i)
      ensures isOpen == if found then perform(i).open else old(isOpen)
      ensures temperature == if found then Published(jobs[i], perform(i), old(temperature)) else old(temperature)
    {
      if !found {
        log := log + [Replied(i, NotFound)];
        return;
      }
      var done := perform(i);
      if Reports(jobs[i]) {
        ghost var before := log;
        for k := 0 to |done.callbacks|
          invariant log == before + Pushes(i, done.callbacks)[..k] && isOpen == old(isOpen)
          invariant temperature == if k == 0 then old(temperature) else done.callbacks[k - 1].temperature
        {
          temperature := done.callbacks[k].temperature;
          log := log + [Pushed(i, done.callbacks[k].report)];
        }
      }
      log := log + [Replied(i, done.result)];
      isOpen := done.open;
      if isOpen {
        temperature := done.temperature;
      }
    }
  }

  /** A job's entries come after those of every job before it, and its reply is the last of them. */
  ghost predicate Serial(log: seq<Entry>) {
    forall a, b :: 0 <= a < b < |log| ==>
      log[a].job <= log[b].job && (log[a].Replied? ==> log[a].job < log[b].job)
  }

  lemma {:induction false} LogIsSerial(jobs: seq<Job>, found: bool, perform: nat -> Performed, n: nat)
    requires n <= |jobs|
    ensures var log := LogOf(jobs, found, perform, n);
      Serial(log) && forall a :: 0 <= a < |log| ==> log[a].job < n
  {
    if n > 0 {
      LogIsSerial(jobs, found, perform, n - 1);
      var before, here := LogOf(jobs, found, perform, n - 1), EntriesOf(jobs, found, perform, n - 1);
      assert forall a :: 0 <= a < |here| ==> here[a].job == n - 1 && (here[a].Replied? ==> a == |here| - 1);
    }
  }

  /**
   * What is logged of a job, without a gap: on a reader that is there, each callback's report in order, if it is
   * an enrolment, a verification or an identification; then the device's result. On one that has vanished, that.
   */
  lemma {:induction false} JobIsLogged(jobs: seq<Job>, found: bool, perform: nat -> Performed, n: nat, i: nat)
    returns (a: nat)
    requires i < n <= |jobs|
    ensures var log, done := LogOf(jobs, found, perform, n), perform(i);
      var reports := if found && (jobs[i].Enroll? || jobs[i].Verify? || jobs[i].Identify?) then |done.callbacks| else 0;
      && a + reports < |log|
      && (forall k :: 0 <= k < reports ==> log[a + k] == Pushed(i, done.callbacks[k].report))
      && log[a + reports] == Replied(i, if found then done.result else NotFound)
      && forall b :: 0 <= b < |log| && !(a <= b <= a + reports) ==> log[b].job != i
  {
    hide EntriesOf, Serial;
    var before, here := LogOf(jobs, found, perform, n - 1), EntriesOf(jobs, found, perform, n - 1);
    assert LogOf(jobs, found, perform, n) == before + here;
    LogIsSerial(jobs, found, perform, n - 1);
    EntriesAreTheJobs(jobs, found, perform, n - 1);
    if i == n - 1 {
      a := |before|;
    } else {
      a := JobIsLogged(jobs, found, perform, n - 1, i);
    }
  }

  lemma EntriesAreTheJobs(jobs: seq<Job>, found: bool, perform: nat -> Performed, i: nat)
    requires i < |jobs|
    ensures var here, done := EntriesOf(jobs, found, perform, i), perform(i);
      var reports := if found && (jobs[i].Enroll? || jobs[i].Verify? || jobs[i].Identify?) then |done.callbacks| else 0;
      && |here| == reports + 1 && here[reports] == Replied(i, if found then done.result else NotFound)
      && (forall k :: 0 <= k < reports ==> here[k] == Pushed(i, done.callbacks[k].report))
      && forall k :: 0 <= k < |here| ==> here[k].job == i
  {
  }

  /** The job leaves a temperature in the cell: the device is open after it, or its callbacks told one. */
  ghost predicate LeavesTemperature(job: Job, done: Performed) {
    done.open || ((job.Enroll? || job.Verify? || job.Identify?) && done.callbacks != [])
  }

  /** The temperature in the cell is that of the last job to leave one: the open device's, or its last callback's. */
  lemma {:induction false} TemperatureIsLast(jobs: seq<Job>, perform: nat -> Performed, n: nat, i: nat)
    requires i < n <= |jobs| && LeavesTemperature(jobs[i], perform(i))
    requires forall j :: i < j < n ==> !LeavesTemperature(jobs[j], perform(j))
    ensures var done := perform(i);
      TemperatureAfter(jobs, perform, n)
        == if done.open then done.temperature else done.callbacks[|done.callbacks| - 1].temperature
  {
    if i < n - 1 { TemperatureIsLast(jobs, perform, n - 1, i); }
  }

  /** Every job before the shutdown is answered exactly once. */
  lemma {:induction false} EveryJobIsAnswered(jobs: seq<Job>, found: bool, perform: nat -> Performed, n: nat, i: nat)
    requires i < n <= |jobs|
    ensures var log := LogOf(jobs, found, perform, n);
      exists a :: 0 <= a < |log| && log[a].Replied? && log[a].job == i
        && forall b :: 0 <= b < |log| && b != a && log[b].Replied? ==> log[b].job != i
  {
    var log := LogOf(jobs, found, perform, n);
    LogIsSerial(jobs, found, perform, n);
    var a := AnswerOf(jobs, found, perform, n, i);
    forall b | 0 <= b < |log| && b != a && log[b].Replied? ensures log[b].job != i {
      if b < a { assert log[b].job < log[a].job; } else { assert log[a].job < log[b].job; }
    }
  }

  lemma {:induction false} AnswerOf(jobs: seq<Job>, found: bool, perform: nat -> Performed, n: nat, i: nat)
    returns (a: nat)
    requires i < n <= |jobs|
    ensures var log := LogOf(jobs, found, perform, n); a < |log| && log[a].Replied? && log[a].job == i
  {
    if i == n - 1 {
      a := |LogOf(jobs, found, perform, n)| - 1;
    } else {
      a := AnswerOf(jobs, found, perform, n - 1, i);
    }
  }
}
