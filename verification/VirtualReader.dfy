/** The virtual reader's objects: the shared store, the one-shot yield, and the device that polls them. */
module VirtualReader {
  import opened Seqs
  import opened Enrollment

  class PrintStore {
    var prints: seq<Print>
    const capacity: Option<nat>

    constructor (slots: Option<nat>)
      ensures prints == [] && capacity == slots
    {
      prints, capacity := [], slots;
    }

    method IsFull() returns (full: bool)
      ensures full == Full(prints, capacity)
    {
      full := capacity.Some? && |prints| >= capacity.value;
    }

    method ContainsTemplate(template: int) returns (found: bool)
      ensures found == Stores(prints, template)
    {
      for i := 0 to |prints|
        invariant forall j :: 0 <= j < i ==> prints[j].template != template
      {
        if prints[i].template == template {
          return true;
        }
      }
      return false;
    }

    /** Stores a print unless every slot is taken. */
    method Push(p: Print) returns (error: Option<Error>)
      modifies this
      ensures error == if old(Full(prints, capacity)) then Some(DataFull) else None
      ensures prints == if error.None? then old(prints) + [p] else old(prints)
    {
      if capacity.Some? && |prints| >= capacity.value {
        return Some(DataFull);
      }
      prints := prints + [p];
      return None;
    }

    /** Removes the first print that carries the template. */
    method RemoveByTemplate(template: int) returns (error: Option<Error>)
      modifies this
      ensures error == if old(Stores(prints, template)) then None else Some(DataNotFound)
      ensures prints == Without(old(prints), template)
    {
      for i := 0 to |prints|
        invariant prints == old(prints)
        invariant forall j :: 0 <= j < i ==> prints[j].template != template
      {
        if prints[i].template == template {
          WithoutFirst(prints, template, i);
          prints := prints[..i] + prints[i + 1..];
          return None;
        }
      }
      return Some(DataNotFound);
    }

    method Clear()
      modifies this
      ensures prints == []
    {
      prints := [];
    }
  }

  lemma {:induction false} WithoutFirst(prints: seq<Print>, template: int, i: nat)
    requires i < |prints| && prints[i].template == template
    requires forall j :: 0 <= j < i ==> prints[j].template != template
    ensures Without(prints, template) == prints[..i] + prints[i + 1..]
  {
    if i > 0 {
      var rest := prints[1..];
      forall j | 0 <= j < i - 1 ensures rest[j].template != template {
        assert prints[1..][j] == prints[j + 1];
      }
      WithoutFirst(rest, template, i - 1);
      assert prints[..i] + prints[i + 1..] == [prints[0]] + (rest[..i - 1] + rest[i..]);
    }
  }

  /** A future that is pending exactly once. */
  class YieldNow {
    var yielded: bool

    constructor ()
      ensures !yielded
    {
      yielded := false;
    }

    method PollYield() returns (ready: bool)
      modifies this
      ensures ready == old(yielded) && yielded
    {
      ready := yielded;
      yielded := true;
    }
  }

  /** A reader; several may be built on one store. Its one enrolment future is its `phase`. */
  class VirtualDevice {
    const store: PrintStore
    const scenario: Scenario
    var shape: Shape
    var settles: Option<Shape>
    var open: bool
    var suspended: bool
    var phase: Phase
    /** The yield a suspended enrolment waits in. */
    var waiting: YieldNow

    ghost predicate Valid()
      reads this, waiting
    {
      phase.Suspended? ==> waiting.yielded
    }

    function AsHandle(): (h: Handle)
      reads this
    {
      Handle(shape, settles, scenario, open, phase)
    }

    constructor (shared: PrintStore, probed: Shape, settled: Option<Shape>, plays: Scenario)
      ensures Valid() && store == shared && AsHandle() == Handle(probed, settled, plays, false, Idle) && fresh(waiting)
    {
      store, shape, settles, scenario, open, suspended, phase := shared, probed, settled, plays, false, false, Idle;
      waiting := new YieldNow();
    }

    method Open() returns (error: Option<Error>)
      requires Valid() && phase.Idle?
      modifies this
      ensures Valid() && error == if old(open) then Some(ProtoState) else None
      ensures var h := old(AsHandle());
        AsHandle() == if h.open then h
          else h.(open := true, shape := if h.settles.Some? then h.settles.value else h.shape, settles := None)
    {
      if open {
        return Some(ProtoState);
      }
      open := true;
      if settles.Some? {
        shape, settles := settles.value, None;
      }
      return None;
    }

    method Close()
      requires Valid() && phase.Idle?
      modifies this
      ensures Valid() && AsHandle() == old(AsHandle()).(open := false)
    {
      open := false;
    }

    /** Makes the future; nothing happens before it is polled. */
    method Enroll(request: Print)
      requires Valid() && phase.Idle?
      modifies this
      ensures Valid() && AsHandle() == old(AsHandle()).(phase := Created(request))
    {
      phase := Created(request);
    }

    method DropEnroll()
      requires Valid()
      modifies this
      ensures Valid() && AsHandle() == old(AsHandle()).(phase := Idle) && store.prints == old(store.prints)
    {
      phase := Idle;
    }

    /** Polls the enrolment: the checks, or one capture, and on to the next yield or to the commit. */
    method PollFuture() returns (report: Option<Progress>, result: Polled)
      requires Valid() && !phase.Idle?
      modifies this, waiting, store
      ensures Valid() && (fresh(waiting) || waiting == old(waiting))
      ensures var p := old(PollEnroll(AsHandle(), store.capacity, store.prints));
        && AsHandle() == old(AsHandle()).(phase := p.phase) && store.prints == p.prints
        && report == p.report && result == p.result
    {
      report := None;
      if phase.Created? {
        if !open {
          result := Failed(ProtoState);
          phase := Idle;
          return;
        }
        var full := store.IsFull();
        if scenario.forceFull || (shape.moc && full) {
          result := Failed(DataFull);
          phase := Idle;
          return;
        }
        var found := store.ContainsTemplate(scenario.want);
        if shape.duplicates && found {
          result := Failed(DataDuplicate);
          phase := Idle;
          return;
        }
        result := ToNextYield(phase.request, 0, 0);
        return;
      }
      var ready := waiting.PollYield();
      assert ready;
      var completed, at := phase.completed, phase.at;
      var capture := if at < |scenario.script| then scenario.script[at] else Advance;
      match capture {
        case Retry(reason) =>
          report := Some(Progress(completed, shape.stages, Some(reason)));
        case Advance =>
          completed := completed + 1;
          report := Some(Progress(completed, shape.stages, None));
      }
      result := ToNextYield(phase.request, completed, at + 1);
    }

    /** On to the next yield, which is pending the first time, or to the end. */
    method ToNextYield(request: Print, completed: nat, at: nat) returns (result: Polled)
      modifies this, store
      ensures Valid() && (fresh(waiting) || waiting == old(waiting))
      ensures var p := old(GoOn(AsHandle(), store.capacity, store.prints, request, completed, at, None));
        && AsHandle() == old(AsHandle()).(phase := p.phase) && store.prints == p.prints && result == p.result
    {
      if completed < shape.stages {
        waiting := new YieldNow();
        var ready := waiting.PollYield();
        phase := Suspended(request, completed, at);
        return Pending;
      }
      phase := Idle;
      var finished := Print(scenario.want, request.finger, request.username, shape.moc);
      if shape.moc {
        var error := store.Push(finished);
        if error.Some? {
          return Failed(error.value);
        }
      }
      return Ready(finished);
    }

    method DeletePrint(template: int) returns (error: Option<Error>)
      requires Valid() && phase.Idle?
      modifies store
      ensures store.prints == if open && shape.delete then Without(old(store.prints), template) else old(store.prints)
      ensures error ==
        if !open then Some(ProtoState) else if !shape.delete then Some(NotSupported)
        else if old(Stores(store.prints, template)) then None else Some(DataNotFound)
    {
      if !open {
        return Some(ProtoState);
      }
      if !shape.delete {
        return Some(NotSupported);
      }
      error := store.RemoveByTemplate(template);
    }

    method ClearStorage() returns (error: Option<Error>)
      requires Valid() && phase.Idle?
      modifies store
      ensures store.prints == if open && shape.clear then [] else old(store.prints)
      ensures error == if !open then Some(ProtoState) else if !shape.clear then Some(NotSupported) else None
    {
      if !open {
        return Some(ProtoState);
      }
      if !shape.clear {
        return Some(NotSupported);
      }
      store.Clear();
      return None;
    }
  }
}
