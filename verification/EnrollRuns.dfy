/** One enrolment from its first poll to its last, against what its caller is to see. */
module EnrollRuns {
  import opened Seqs
  import opened Enrollment

  /** What a caller that keeps polling sees: the reports, the last result, and the world it leaves. */
  datatype Seen = Seen(reports: seq<Progress>, result: Polled, w: World)

  /** Polls the enrolment of handle `i` up to `n` times, as long as it is pending. */
  function Watch(w: World, i: nat, n: nat): (s: Seen)
    requires i < |w.handles| && (n > 0 ==> !w.handles[i].phase.Idle?)
    decreases n
  {
    if n == 0 then Seen([], Pending, w) else
    var p := PollEnroll(w.handles[i], w.capacity, w.prints);
    var w1 := After(w, PollFuture(i));
    var here := if p.report.Some? then [p.report.value] else [];
    if !p.result.Pending? then Seen(here, p.result, w1) else
    PendingStoresNothing(w.handles[i], w.capacity, w.prints);
    var later := Watch(w1, i, n - 1);
    later.(reports := here + later.reports)
  }

  /** The reports of the captures to come: one for each step of the script, and for each stage after its end. */
  function Captures(script: seq<Capture>, done: nat, total: nat): (r: seq<Progress>)
    decreases |script|, total - done
  {
    if done >= total then []
    else if script == [] then [Progress(done + 1, total, None)] + Captures([], done + 1, total)
    else if script[0].Retry? then [Progress(done, total, Some(script[0].reason))] + Captures(script[1..], done, total)
    else [Progress(done + 1, total, None)] + Captures(script[1..], done + 1, total)
  }

  function From(script: seq<Capture>, at: nat): (r: seq<Capture>) {
    if at <= |script| then script[at..] else []
  }

  lemma FromSteps(script: seq<Capture>, at: nat)
    ensures CaptureAt(script, at) == if From(script, at) == [] then Advance else From(script, at)[0]
    ensures From(script, at + 1) == if From(script, at) == [] then [] else From(script, at)[1..]
  {
  }

  function Enrolled(h: Handle, request: Print): (p: Print) {
    Print(h.scenario.want, request.finger, request.username, h.shape.moc)
  }

  /** There is room for a print on the reader, or none is needed. */
  predicate HasRoom(h: Handle, w: World) {
    !h.shape.moc || w.capacity.None? || |w.prints| < w.capacity.value
  }

  /** What the poll after all captures comes to. */
  function Committed(w: World, i: nat, h: Handle, request: Print): (r: World)
    requires i < |w.handles|
  {
    Set(w, i, h.(phase := Idle)).(prints := if h.shape.moc then w.prints + [Enrolled(h, request)] else w.prints)
  }

  /** One more capture, and on to the next yield or to the end. */
  lemma OneCapture(w: World, i: nat)
    requires i < |w.handles| && w.handles[i].phase.Suspended? && HasRoom(w.handles[i], w)
    ensures var h := w.handles[i];
      var c := CaptureAt(h.scenario.script, h.phase.at);
      var done := h.phase.completed + if c.Advance? then 1 else 0;
      var p, w1 := PollEnroll(h, w.capacity, w.prints), After(w, PollFuture(i));
      && p.report == Some(Progress(done, h.shape.stages, if c.Retry? then Some(c.reason) else None))
      && if done < h.shape.stages then
           p.result.Pending? && w1 == Set(w, i, h.(phase := Suspended(h.phase.request, done, h.phase.at + 1)))
         else
           p.result == Ready(Enrolled(h, h.phase.request)) && w1 == Committed(w, i, h, h.phase.request)
  {
  }

  lemma CapturesUnfold(script: seq<Capture>, at: nat, done0: nat, total: nat)
    requires done0 < total
    ensures var c := CaptureAt(script, at);
      var done := done0 + if c.Advance? then 1 else 0;
      Captures(From(script, at), done0, total)
        == [Progress(done, total, if c.Retry? then Some(c.reason) else None)]
          + Captures(From(script, at + 1), done, total)
  {
    FromSteps(script, at);
  }

  lemma CapturesEnd(script: seq<Capture>, done: nat, total: nat)
    ensures Captures(script, done, total) == [] <==> done >= total
  {
  }

  /** From a yield on, an enrolment makes its captures, reports each, and ends with the print. */
  lemma {:induction false} CapturesRun(w: World, i: nat, n: nat)
    requires i < |w.handles| && w.handles[i].phase.Suspended? && HasRoom(w.handles[i], w)
    requires w.handles[i].phase.completed < w.handles[i].shape.stages
    ensures var h := w.handles[i];
      var reports := Captures(From(h.scenario.script, h.phase.at), h.phase.completed, h.shape.stages);
      && reports != []
      && (n >= |reports| ==>
           Watch(w, i, n) == Seen(reports, Ready(Enrolled(h, h.phase.request)), Committed(w, i, h, h.phase.request)))
      && (n < |reports| ==>
           var s := Watch(w, i, n); s.result.Pending? && s.reports == reports[..n] && s.w.prints == w.prints)
    decreases n
  {
    hide PollEnroll, After, Captures, From, CaptureAt;
    var h := w.handles[i];
    CapturesUnfold(h.scenario.script, h.phase.at, h.phase.completed, h.shape.stages);
    if n > 0 {
      OneCapture(w, i);
      var w1 := After(w, PollFuture(i));
      var done := h.phase.completed + if CaptureAt(h.scenario.script, h.phase.at).Advance? then 1 else 0;
      CapturesEnd(From(h.scenario.script, h.phase.at + 1), done, h.shape.stages);
      if done < h.shape.stages {
        CapturesRun(w1, i, n - 1);
        assert Committed(w1, i, w1.handles[i], h.phase.request) == Committed(w, i, h, h.phase.request);
      }
    }
  }

  /**
   * One enrolment, begun on an idle handle and polled until it is over. It is refused on a closed handle, then
   * when the store it commits to has no room, or the scenario says so, then when the reader checks for
   * duplicates and finds one; each with the first poll, and without a trace. Otherwise every capture is reported
   * in turn, and the print asked for is returned, and stored if the reader matches on chip.
   */
  lemma EnrolmentToItsEnd(w: World, i: nat, request: Print, n: nat)
    requires i < |w.handles| && w.handles[i].phase.Idle? && n >= 1
    ensures Allowed(w, Enroll(i, request))
    ensures var h, s := w.handles[i], Watch(After(w, Enroll(i, request)), i, n);
      if !h.open then s == Seen([], Failed(ProtoState), w)
      else if h.scenario.forceFull || !HasRoom(h, w) then s == Seen([], Failed(DataFull), w)
      else if h.shape.duplicates && exists j :: 0 <= j < |w.prints| && w.prints[j].template == h.scenario.want then
        s == Seen([], Failed(DataDuplicate), w)
      else
        var reports := Captures(h.scenario.script, 0, h.shape.stages);
        if n > |reports| then
          s == Seen(reports, Ready(Enrolled(h, request)),
                    w.(prints := if h.shape.moc then w.prints + [Enrolled(h, request)] else w.prints))
        else s.result.Pending? && s.reports == reports[..n - 1] && s.w.prints == w.prints
  {
    var h := w.handles[i];
    var w0 := After(w, Enroll(i, request));
    var p := PollEnroll(w0.handles[i], w0.capacity, w0.prints);
    var w1 := After(w0, PollFuture(i));
    assert Set(w0, i, h) == w && Set(w, i, h) == w;
    if p.result.Pending? {
      CapturesRun(w1, i, n - 1);
      assert From(h.scenario.script, 0) == h.scenario.script;
      assert Set(w1, i, h) == w;
    }
  }
}
