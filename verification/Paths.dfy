/**
 * Growing one path of compatible edges, on values: the pairing, the conflict groups, the work queue
 * and the edges taken. The class `Bz` does the same in place on its arrays.
 */
module Paths {
  import opened Consts
  import opened Seqs

  /** One compatible edge pair: rotation, the probe edge (pk, pj), the gallery edge (ga, gb). */
  datatype ColpRow = ColpRow(rot: int, pk: int, pj: int, ga: int, gb: int)

  /** The compatibility table and the largest endpoint number in it. */
  datatype Table = Table(rows: seq<ColpRow>, nend: nat)

  /** The alternatives found for one endpoint already paired, and the one selected (1-based). */
  datatype Group = Group(ofProbe: bool, end: int, alts: seq<int>, pick: int)

  /**
   * `tq` pairs probe endpoints with gallery endpoints and `rq` the other way (0 is unpaired; entry
   * `e - 1` belongs to endpoint `e`). `cp` and `rp` name the conflict group of an endpoint. `zz` marks
   * queued endpoints. `sc` stamps edges with the path that took them last, `rk` keeps the stamp
   * before that. `q` is the work queue and `path` the edges taken, numbered from 1.
   */
  datatype Work = Work(tq: seq<int>, rq: seq<int>, cp: seq<int>, rp: seq<int>, zz: seq<int>,
                       sc: seq<int>, rk: seq<int>, q: seq<int>, path: seq<int>, groups: seq<Group>)

  datatype Outcome<T> = Ok(value: T) | Overflow

  // --- Invariants -----------------------------------------------------------------------------

  predicate IsEndpoint(e: int, nend: nat) {
    1 <= e <= nend
  }

  ghost predicate RowOk(r: ColpRow, nend: nat) {
    IsEndpoint(r.pk, nend) && IsEndpoint(r.pj, nend) && IsEndpoint(r.ga, nend) && IsEndpoint(r.gb, nend)
  }

  ghost predicate TableOk(t: Table) {
    forall i :: 0 <= i < |t.rows| ==> RowOk(t.rows[i], t.nend)
  }

  ghost predicate Halves(tq: seq<int>, nend: nat) {
    && nend <= |tq|
    && forall p :: 0 <= p < |tq| ==> 0 <= tq[p] <= nend && (nend <= p ==> tq[p] == 0)
  }

  /** Each half of the pairing undoes the other: a one-to-one map between endpoints. */
  ghost predicate Inverse(tq: seq<int>, rq: seq<int>, nend: nat) {
    && |tq| == |rq| && Halves(tq, nend) && Halves(rq, nend)
    && forall p, g :: 0 <= p < |tq| && 0 <= g < |rq| ==> (tq[p] == g + 1 <==> rq[g] == p + 1)
  }

  ghost predicate GroupOk(g: Group, nend: nat) {
    && IsEndpoint(g.end, nend) && 1 <= g.pick <= |g.alts|
    && Distinct(g.alts) && AllWithin(g.alts, 1, nend)
  }

  /** `book` names, for each endpoint of its side, the group filed under it (0 is none). */
  ghost predicate Books(book: seq<int>, groups: seq<Group>, ofProbe: bool) {
    && (forall p :: 0 <= p < |book| ==> 0 <= book[p] <= |groups|)
    && forall p, b :: 0 <= p < |book| && 0 <= b < |groups| ==>
         (book[p] == b + 1 <==> groups[b].ofProbe == ofProbe && groups[b].end == p + 1)
  }

  ghost predicate GroupsOk(cp: seq<int>, rp: seq<int>, groups: seq<Group>, nend: nat) {
    && nend <= |cp| && nend <= |rp|
    && (forall b :: 0 <= b < |groups| ==> GroupOk(groups[b], nend))
    && Books(cp, groups, true) && Books(rp, groups, false)
  }

  ghost predicate QueueOk(q: seq<int>, tq: seq<int>, zz: seq<int>, nend: nat) {
    && nend <= |tq| && nend <= |zz|
    && 1 <= |q| <= QQ_SIZE && AllWithin(q, 1, nend)
    && (forall j :: 1 <= j < |q| ==> tq[q[j] - 1] != 0)
    && forall p :: 0 <= p < |zz| && zz[p] != 1000 ==> p + 1 in q[1..]
  }

  /** The path lists distinct edges, each stamped as belonging to it. */
  ghost predicate PathOk(path: seq<int>, sc: seq<int>, np: nat, ftt: int) {
    && np <= |sc| && Distinct(path) && AllWithin(path, 1, np)
    && forall i :: 0 <= i < |path| ==> sc[path[i] - 1] == ftt
  }

  ghost predicate SizesOk(w: Work, t: Table) {
    && |w.zz| == |w.sc| == |w.rk| == |w.tq| == |w.cp| == |w.rp|
    && |t.rows| < |w.sc| && t.nend < |w.sc|
  }

  ghost predicate WorkOk(w: Work, t: Table, ftt: int) {
    && TableOk(t) && SizesOk(w, t)
    && Inverse(w.tq, w.rq, t.nend)
    && GroupsOk(w.cp, w.rp, w.groups, t.nend) && |w.groups| <= WWIM + 1
    && QueueOk(w.q, w.tq, w.zz, t.nend)
    && PathOk(w.path, w.sc, |t.rows|, ftt)
  }

  // --- Sifting one edge -----------------------------------------------------------------------

  /** Takes edge `kx` into the path unless its stamp says it is there already. */
  function Take(w: Work, kx: int, ftt: int): (r: Work)
    requires 1 <= kx <= |w.sc| && |w.rk| == |w.sc|
  {
    if w.sc[kx - 1] == ftt then w else
    w.(path := w.path + [kx], rk := w.rk[kx - 1 := w.sc[kx - 1]], sc := w.sc[kx - 1 := ftt])
  }

  function Enqueue(w: Work, kz: int): (r: Work)
    requires 1 <= kz <= |w.zz|
  {
    w.(q := w.q + [kz], zz := w.zz[kz - 1 := |w.q|])
  }

  function AddNew(alts: seq<int>, x: int): (r: seq<int>) {
    if x in alts then alts else alts + [x]
  }

  /** The conflict-group numbers per endpoint, for one side or the other. */
  function Book(w: Work, ofProbe: bool): (r: seq<int>) {
    if ofProbe then w.cp else w.rp
  }

  function WithBook(w: Work, ofProbe: bool, book: seq<int>): (r: Work) {
    if ofProbe then w.(cp := book) else w.(rp := book)
  }

  function Widen(groups: seq<Group>, b: nat, alt: int): (r: seq<Group>)
    requires b < |groups|
  {
    groups[b := groups[b].(alts := AddNew(groups[b].alts, alt))]
  }

  /** Notes `alt` as an alternative for endpoint `e`, now paired with `current`. */
  function Note(w: Work, ofProbe: bool, e: int, current: int, alt: int): (r: Work)
    requires 1 <= e <= |Book(w, ofProbe)| && 0 <= Book(w, ofProbe)[e - 1] <= |w.groups|
  {
    var book := Book(w, ofProbe);
    if book[e - 1] == 0 then
      var g := Group(ofProbe, e, AddNew([current], alt), 1);
      WithBook(w, ofProbe, book[e - 1 := |w.groups| + 1]).(groups := w.groups + [g])
    else
      w.(groups := Widen(w.groups, book[e - 1] - 1, alt))
  }

  /** Both ends free: pair them. */
  function Accept(w: Work, kz: int, l: int, kx: int, ftt: int): (r: Outcome<Work>)
    requires 1 <= kz <= |w.zz| && kz <= |w.tq| && 1 <= l <= |w.rq| && 1 <= kx <= |w.sc| && |w.rk| == |w.sc|
  {
    var w1 := Take(w, kx, ftt);
    if |w.q| >= QQ_SIZE then Overflow else
    var w2 := Enqueue(w1, kz);
    Ok(w2.(tq := w2.tq[kz - 1 := l], rq := w2.rq[l - 1 := kz]))
  }

  /**
   * Already paired with each other: take the edge without a new pairing. The queueing test reads
   * `zz` at the edge's number, not the endpoint's.
   */
  function Reaccept(w: Work, kz: int, kx: int, ftt: int): (r: Outcome<Work>)
    requires 1 <= kz <= |w.zz| && 1 <= kx <= |w.sc| == |w.zz| && |w.rk| == |w.sc|
  {
    if w.sc[kx - 1] == ftt then Ok(w) else
    if w.zz[kx - 1] == 1000 then
      if |w.q| >= QQ_SIZE then Overflow else Ok(Take(Enqueue(w, kz), kx, ftt))
    else Ok(Take(w, kx, ftt))
  }

  /** Paired elsewhere: record the alternatives, unless there are groups enough already. */
  function Conflict(w: Work, t: Table, kz: int, l: int): (r: Work)
    requires IsEndpoint(kz, t.nend) && IsEndpoint(l, t.nend)
    requires GroupsOk(w.cp, w.rp, w.groups, t.nend) && Inverse(w.tq, w.rq, t.nend)
  {
    if |w.groups| >= WWIM then w else
    var n, g := w.tq[kz - 1], w.rq[l - 1];
    var w1 := if n != 0 then Note(w, true, kz, n, l) else w;
    if g != 0 then Note(w1, false, l, g, kz) else w1
  }

  function Sift(w: Work, t: Table, kz: int, l: int, kx: int, ftt: int): (r: Outcome<Work>)
    requires WorkOk(w, t, ftt) && IsEndpoint(kz, t.nend) && IsEndpoint(l, t.nend) && 1 <= kx <= |t.rows|
  {
    if w.tq[kz - 1] == 0 && w.rq[l - 1] == 0 then Accept(w, kz, l, kx, ftt)
    else if w.tq[kz - 1] == l then Reaccept(w, kz, kx, ftt)
    else Ok(Conflict(w, t, kz, l))
  }

  // --- What sifting keeps ---------------------------------------------------------------------

  /** Pairings made during a path are never broken before it ends. */
  ghost predicate Extends(tq: seq<int>, tq': seq<int>) {
    |tq| == |tq'| && forall p :: 0 <= p < |tq| && tq[p] != 0 ==> tq'[p] == tq[p]
  }

  lemma PairKeepsInverse(tq: seq<int>, rq: seq<int>, nend: nat, p: int, g: int)
    requires Inverse(tq, rq, nend) && IsEndpoint(p, nend) && IsEndpoint(g, nend)
    requires tq[p - 1] == 0 && rq[g - 1] == 0
    ensures Inverse(tq[p - 1 := g], rq[g - 1 := p], nend) && Extends(tq, tq[p - 1 := g])
  {
  }

  lemma TakeKeepsPath(w: Work, np: nat, kx: int, ftt: int)
    requires PathOk(w.path, w.sc, np, ftt) && 1 <= kx <= np && |w.rk| == |w.sc|
    ensures PathOk(Take(w, kx, ftt).path, Take(w, kx, ftt).sc, np, ftt)
    ensures w.path <= Take(w, kx, ftt).path
    ensures forall x :: x in Take(w, kx, ftt).path ==> x in w.path || x == kx
  {
    if w.sc[kx - 1] != ftt {
      assert forall i :: 0 <= i < |w.path| ==> w.path[i] != kx;
    }
  }

  lemma EnqueueKeepsQueue(w: Work, kz: int, tq': seq<int>, nend: nat)
    requires QueueOk(w.q, w.tq, w.zz, nend) && IsEndpoint(kz, nend) && |w.q| < QQ_SIZE
    requires Extends(w.tq, tq') && tq'[kz - 1] != 0
    ensures QueueOk(Enqueue(w, kz).q, tq', Enqueue(w, kz).zz, nend)
  {
    var q' := w.q + [kz];
    assert q'[1..] == w.q[1..] + [kz];
  }

  lemma AddNewKeepsDistinct(alts: seq<int>, x: int)
    requires Distinct(alts)
    ensures Distinct(AddNew(alts, x)) && alts <= AddNew(alts, x) && x in AddNew(alts, x)
    ensures forall y :: y in AddNew(alts, x) ==> y in alts || y == x
  {
  }

  lemma OpenKeepsBooks(book: seq<int>, groups: seq<Group>, side: bool, g: Group)
    requires Books(book, groups, side) && 1 <= g.end <= |book|
    requires g.ofProbe == side ==> book[g.end - 1] == 0
    ensures Books(if g.ofProbe == side then book[g.end - 1 := |groups| + 1] else book, groups + [g], side)
  {
  }

  lemma WidenKeepsBooks(book: seq<int>, groups: seq<Group>, side: bool, b: nat, alt: int)
    requires Books(book, groups, side) && b < |groups|
    ensures Books(book, Widen(groups, b, alt), side)
  {
  }

  lemma NoteKeepsGroups(w: Work, ofProbe: bool, e: int, current: int, alt: int, nend: nat)
    requires GroupsOk(w.cp, w.rp, w.groups, nend)
    requires IsEndpoint(e, nend) && IsEndpoint(current, nend) && IsEndpoint(alt, nend)
    ensures var w' := Note(w, ofProbe, e, current, alt);
      && GroupsOk(w'.cp, w'.rp, w'.groups, nend)
      && AllWidened(w.groups, w'.groups) && |w'.groups| <= |w.groups| + 1
  {
    hide Books, GroupOk, AddNew;
    var book := Book(w, ofProbe);
    BookBounds(w.cp, w.groups, true);
    BookBounds(w.rp, w.groups, false);
    if book[e - 1] == 0 {
      NewGroupIsOk(ofProbe, e, current, alt, nend);
      var g := Group(ofProbe, e, AddNew([current], alt), 1);
      OpenKeepsBooks(w.cp, w.groups, true, g);
      OpenKeepsBooks(w.rp, w.groups, false, g);
    } else {
      var b := book[e - 1] - 1;
      WidenedIsOk(w.groups[b], alt, nend);
      WidenKeepsBooks(w.cp, w.groups, true, b, alt);
      WidenKeepsBooks(w.rp, w.groups, false, b, alt);
    }
  }

  lemma BookBounds(book: seq<int>, groups: seq<Group>, side: bool)
    requires Books(book, groups, side)
    ensures forall p :: 0 <= p < |book| ==> 0 <= book[p] <= |groups|
  {
  }

  lemma NewGroupIsOk(ofProbe: bool, e: int, current: int, alt: int, nend: nat)
    requires IsEndpoint(e, nend) && IsEndpoint(current, nend) && IsEndpoint(alt, nend)
    ensures GroupOk(Group(ofProbe, e, AddNew([current], alt), 1), nend)
  {
    AddNewKeepsDistinct([current], alt);
  }

  lemma WidenedIsOk(g: Group, alt: int, nend: nat)
    requires GroupOk(g, nend) && IsEndpoint(alt, nend)
    ensures GroupOk(g.(alts := AddNew(g.alts, alt)), nend) && Widened(g, g.(alts := AddNew(g.alts, alt)))
  {
    AddNewKeepsDistinct(g.alts, alt);
  }

  /** What one sift may change, whichever case it takes. */
  ghost predicate Grown(w: Work, w': Work) {
    && Extends(w.tq, w'.tq) && w.q <= w'.q && w.path <= w'.path
    && AllWidened(w.groups, w'.groups)
    && NewlyQueued(w.tq, w'.tq, w'.q)
  }

  /** Every endpoint newly paired is in the queue, so that teardown will find it. */
  ghost predicate NewlyQueued(tq: seq<int>, tq': seq<int>, q': seq<int>)
    requires |tq| == |tq'|
  {
    forall p :: 0 <= p < |tq| && tq[p] == 0 && tq'[p] != 0 ==> p + 1 in q'
  }

  ghost predicate AllWidened(groups: seq<Group>, groups': seq<Group>) {
    |groups| <= |groups'| && forall b :: 0 <= b < |groups| ==> Widened(groups[b], groups'[b])
  }

  lemma AllWidenedTransitive(a: seq<Group>, b: seq<Group>, c: seq<Group>)
    requires AllWidened(a, b) && AllWidened(b, c)
    ensures AllWidened(a, c)
  {
    forall i | 0 <= i < |a| ensures Widened(a[i], c[i]) {
      assert Widened(a[i], b[i]) && Widened(b[i], c[i]);
    }
  }

  /** A conflict group only gains alternatives; its selection stays. */
  ghost predicate Widened(g: Group, g': Group) {
    g'.ofProbe == g.ofProbe && g'.end == g.end && g'.pick == g.pick && g.alts <= g'.alts
  }

  lemma InverseFits(tq: seq<int>, rq: seq<int>, nend: nat)
    requires Inverse(tq, rq, nend)
    ensures nend <= |tq| == |rq|
  {
  }

  lemma AcceptKeeps(w: Work, t: Table, kz: int, l: int, kx: int, ftt: int)
    requires WorkOk(w, t, ftt) && IsEndpoint(kz, t.nend) && IsEndpoint(l, t.nend) && 1 <= kx <= |t.rows|
    requires w.tq[kz - 1] == 0 && w.rq[l - 1] == 0
    ensures var r := Accept(w, kz, l, kx, ftt);
      r.Ok? ==> WorkOk(r.value, t, ftt) && Grown(w, r.value)
  {
    hide Inverse, GroupsOk, PathOk, TableOk, GroupOk;
    InverseFits(w.tq, w.rq, t.nend);
    TakeKeepsPath(w, |t.rows|, kx, ftt);
    PairKeepsInverse(w.tq, w.rq, t.nend, kz, l);
    if |w.q| < QQ_SIZE {
      EnqueueKeepsQueue(w, kz, w.tq[kz - 1 := l], t.nend);
    }
  }

  lemma ReacceptKeeps(w: Work, t: Table, kz: int, kx: int, ftt: int)
    requires WorkOk(w, t, ftt) && IsEndpoint(kz, t.nend) && 1 <= kx <= |t.rows|
    requires w.tq[kz - 1] != 0
    ensures var r := Reaccept(w, kz, kx, ftt);
      r.Ok? ==> WorkOk(r.value, t, ftt) && Grown(w, r.value)
  {
    TakeKeepsPath(w, |t.rows|, kx, ftt);
    if |w.q| < QQ_SIZE {
      EnqueueKeepsQueue(w, kz, w.tq, t.nend);
    }
  }

  lemma ConflictKeepsGroups(w: Work, t: Table, kz: int, l: int)
    requires IsEndpoint(kz, t.nend) && IsEndpoint(l, t.nend)
    requires GroupsOk(w.cp, w.rp, w.groups, t.nend) && Inverse(w.tq, w.rq, t.nend)
    ensures var w' := Conflict(w, t, kz, l);
      && GroupsOk(w'.cp, w'.rp, w'.groups, t.nend) && AllWidened(w.groups, w'.groups)
      && (|w.groups| < WWIM ==> |w'.groups| <= WWIM + 1) && (|w.groups| >= WWIM ==> w' == w)
      && |w'.cp| == |w.cp| && |w'.rp| == |w.rp|
      && w' == w.(cp := w'.cp, rp := w'.rp, groups := w'.groups)
  {
    hide GroupsOk, Inverse, AllWidened, Widen, AddNew;
    AllWidenedReflexive(w.groups);
    BothFit(w, t.nend);
    if |w.groups| < WWIM {
      PartnersFit(w, t.nend, kz, l);
      var n, g := w.tq[kz - 1], w.rq[l - 1];
      var w1 := if n != 0 then Note(w, true, kz, n, l) else w;
      if n != 0 { NoteKeepsGroups(w, true, kz, n, l, t.nend); }
      BothFit(w1, t.nend);
      if g != 0 {
        NoteKeepsGroups(w1, false, l, g, kz, t.nend);
        AllWidenedTransitive(w.groups, w1.groups, Note(w1, false, l, g, kz).groups);
      }
    }
  }

  lemma BothFit(w: Work, nend: nat)
    requires GroupsOk(w.cp, w.rp, w.groups, nend)
    ensures nend <= |w.cp| && nend <= |w.rp|
    ensures forall p :: 0 <= p < |w.cp| ==> 0 <= w.cp[p] <= |w.groups|
    ensures forall p :: 0 <= p < |w.rp| ==> 0 <= w.rp[p] <= |w.groups|
  {
  }

  lemma PartnersFit(w: Work, nend: nat, kz: int, l: int)
    requires Inverse(w.tq, w.rq, nend) && IsEndpoint(kz, nend) && IsEndpoint(l, nend)
    ensures nend <= |w.tq| && nend <= |w.rq| && 0 <= w.tq[kz - 1] <= nend && 0 <= w.rq[l - 1] <= nend
  {
  }

  /**
   * One conflict opens two groups when both ends are paired elsewhere and neither has a group yet, so with
   * nine groups open there can be eleven, one more than the cap.
   */
  lemma ConflictOpensTwo(w: Work, t: Table, kz: int, l: int)
    requires IsEndpoint(kz, t.nend) && IsEndpoint(l, t.nend)
    requires GroupsOk(w.cp, w.rp, w.groups, t.nend) && Inverse(w.tq, w.rq, t.nend) && |w.groups| < WWIM
    ensures var added := |Conflict(w, t, kz, l).groups| - |w.groups|;
      added == (if w.tq[kz - 1] != 0 && w.cp[kz - 1] == 0 then 1 else 0)
              + (if w.rq[l - 1] != 0 && w.rp[l - 1] == 0 then 1 else 0)
  {
    hide AddNew;
    var n, g := w.tq[kz - 1], w.rq[l - 1];
    assert 0 <= n <= t.nend && 0 <= g <= t.nend;
    if n != 0 { NoteKeepsGroups(w, true, kz, n, l, t.nend); }
  }

  lemma AllWidenedReflexive(groups: seq<Group>)
    ensures AllWidened(groups, groups)
  {
  }

  lemma ConflictKeeps(w: Work, t: Table, kz: int, l: int, ftt: int)
    requires WorkOk(w, t, ftt) && IsEndpoint(kz, t.nend) && IsEndpoint(l, t.nend)
    ensures WorkOk(Conflict(w, t, kz, l), t, ftt) && Grown(w, Conflict(w, t, kz, l))
  {
    ConflictKeepsGroups(w, t, kz, l);
    hide Conflict, GroupsOk, Inverse, AllWidened, QueueOk, PathOk, TableOk;
  }

  lemma SiftKeeps(w: Work, t: Table, kz: int, l: int, kx: int, ftt: int)
    requires WorkOk(w, t, ftt) && IsEndpoint(kz, t.nend) && IsEndpoint(l, t.nend) && 1 <= kx <= |t.rows|
    ensures var r := Sift(w, t, kz, l, kx, ftt);
      r.Ok? ==> WorkOk(r.value, t, ftt) && Grown(w, r.value)
  {
    if w.tq[kz - 1] == 0 && w.rq[l - 1] == 0 {
      AcceptKeeps(w, t, kz, l, kx, ftt);
    } else if w.tq[kz - 1] == l {
      ReacceptKeeps(w, t, kz, kx, ftt);
    } else {
      ConflictKeeps(w, t, kz, l, ftt);
    }
  }

  // --- Sifting many edges ---------------------------------------------------------------------

  /** Sifts table row `i` by its far end: forward rows are met at (pk, ga), backward ones at (pj, gb). */
  function SiftRow(w: Work, t: Table, i: nat, forward: bool, ftt: int): (r: Outcome<Work>)
    requires WorkOk(w, t, ftt) && i < |t.rows|
  {
    var row := t.rows[i];
    if forward then Sift(w, t, row.pj, row.gb, i + 1, ftt) else Sift(w, t, row.pk, row.ga, i + 1, ftt)
  }

  lemma SiftRowKeeps(w: Work, t: Table, i: nat, forward: bool, ftt: int)
    requires WorkOk(w, t, ftt) && i < |t.rows|
    ensures SiftRow(w, t, i, forward, ftt).Ok? ==> WorkOk(SiftRow(w, t, i, forward, ftt).value, t, ftt)
  {
    assert RowOk(t.rows[i], t.nend);
    hide Sift, Grown;
    if forward { SiftKeeps(w, t, t.rows[i].pj, t.rows[i].gb, i + 1, ftt); }
    else { SiftKeeps(w, t, t.rows[i].pk, t.rows[i].ga, i + 1, ftt); }
  }

  ghost predicate Indices(idx: seq<nat>, n: nat) {
    forall i :: 0 <= i < |idx| ==> idx[i] < n
  }

  /** Sifts the listed rows in order. */
  function SiftAll(w: Work, t: Table, idx: seq<nat>, forward: bool, ftt: int): (r: Outcome<Work>)
    requires WorkOk(w, t, ftt) && Indices(idx, |t.rows|)
    ensures r.Ok? ==> WorkOk(r.value, t, ftt)
  {
    if idx == [] then Ok(w) else
    var m := |idx| - 1;
    match SiftAll(w, t, idx[..m], forward, ftt)
    case Overflow => Overflow
    case Ok(w1) =>
      SiftRowKeeps(w1, t, idx[m], forward, ftt);
      SiftRow(w1, t, idx[m], forward, ftt)
  }

  // --- Growing the path -----------------------------------------------------------------------

  /** Rows `lo..hi`, in table order. */
  function RowRange(lo: nat, hi: nat): (r: seq<nat>)
    ensures |r| == if lo < hi then hi - lo else 0
    ensures forall i :: 0 <= i < |r| ==> r[i] == lo + i
  {
    if hi <= lo then [] else RowRange(lo, hi - 1) + [hi - 1]
  }

  predicate SameKey(a: ColpRow, b: ColpRow) {
    a.pk == b.pk && a.ga == b.ga
  }

  /** Where the run of rows that start like row `k` ends. */
  function SeedEnd(rows: seq<ColpRow>, k: nat, i: nat): (r: nat)
    requires k < |rows| && i <= |rows|
    ensures i <= r <= |rows| && (r < |rows| ==> !SameKey(rows[r], rows[k]))
    ensures forall x :: i <= x < r ==> SameKey(rows[x], rows[k])
    decreases |rows| - i
  {
    if i < |rows| && SameKey(rows[i], rows[k]) then SeedEnd(rows, k, i + 1) else i
  }

  /** Row `r` ends at the pair (p, g) and starts away from both seed endpoints. */
  predicate EndsAt(r: ColpRow, p: int, g: int, seed: ColpRow) {
    r.pj == p && r.gb == g && r.pk != seed.pk && r.ga != seed.ga
  }

  predicate StartsAt(r: ColpRow, p: int, g: int) {
    r.pk == p && r.ga == g
  }

  function RowsEndingAt(rows: seq<ColpRow>, lo: nat, hi: nat, p: int, g: int, seed: ColpRow): (r: seq<nat>)
    requires hi <= |rows|
    ensures Indices(r, |rows|)
    ensures forall i :: 0 <= i < |r| ==> lo <= r[i] && EndsAt(rows[r[i]], p, g, seed)
  {
    if hi <= lo then [] else
    RowsEndingAt(rows, lo, hi - 1, p, g, seed) + if EndsAt(rows[hi - 1], p, g, seed) then [hi - 1] else []
  }

  function RowsStartingAt(rows: seq<ColpRow>, lo: nat, hi: nat, p: int, g: int): (r: seq<nat>)
    requires hi <= |rows|
    ensures Indices(r, |rows|)
    ensures forall i :: 0 <= i < |r| ==> lo <= r[i] && StartsAt(rows[r[i]], p, g)
  {
    if hi <= lo then [] else
    RowsStartingAt(rows, lo, hi - 1, p, g) + if StartsAt(rows[hi - 1], p, g) then [hi - 1] else []
  }

  /** Expands the `j`-th queued endpoint: every row ending at its pair, then every row starting there. */
  function Expand(w: Work, t: Table, k: nat, kq: nat, j: nat, ftt: int): (r: Outcome<Work>)
    requires WorkOk(w, t, ftt) && k < |t.rows| && 1 <= j < |w.q|
    ensures r.Ok? ==> WorkOk(r.value, t, ftt)
  {
    var p, n := w.q[j], |t.rows|;
    var g := w.tq[p - 1];
    match SiftAll(w, t, RowsEndingAt(t.rows, kq, n, p, g, t.rows[k]), false, ftt)
    case Overflow => Overflow
    case Ok(w1) => SiftAll(w1, t, RowsStartingAt(t.rows, kq, n, p, g), true, ftt)
  }

  /** Expands the queue from its `j`-th entry until nothing new is queued. */
  function Explore(w: Work, t: Table, k: nat, kq: nat, j: nat, ftt: int): (r: Outcome<Work>)
    requires WorkOk(w, t, ftt) && k < |t.rows| && 1 <= j
    ensures r.Ok? ==> WorkOk(r.value, t, ftt)
    decreases QQ_SIZE - j
  {
    if j >= |w.q| then Ok(w) else
    match Expand(w, t, k, kq, j, ftt)
    case Overflow => Overflow
    case Ok(w1) => Explore(w1, t, k, kq, j + 1, ftt)
  }

  /** A fresh path: nothing taken, nothing queued but the seed's probe endpoint. */
  function Fresh(w: Work, seed: ColpRow): (r: Work) {
    w.(q := [seed.pk], path := [])
  }

  /** The whole path of seed row `k`, from the pairing `w` starts with. */
  function Grow(w: Work, t: Table, k: nat, ftt: int): (r: Outcome<Work>)
    requires k < |t.rows| && WorkOk(Fresh(w, t.rows[k]), t, ftt)
    ensures r.Ok? ==> WorkOk(r.value, t, ftt)
  {
    var kq := SeedEnd(t.rows, k, k + 1);
    match SiftAll(Fresh(w, t.rows[k]), t, RowRange(k, kq), true, ftt)
    case Overflow => Overflow
    case Ok(w1) => Explore(w1, t, k, kq, 1, ftt)
  }

  lemma NoteInSteps(w: Work, ofProbe: bool, e: int, current: int, alt: int)
    requires 1 <= e <= |Book(w, ofProbe)| && 0 <= Book(w, ofProbe)[e - 1] <= |w.groups|
    ensures var book, n := Book(w, ofProbe), |w.groups|;
      Note(w, ofProbe, e, current, alt) ==
        if book[e - 1] == 0 then
          var wider := w.groups + [Group(ofProbe, e, [current], 1)];
          var w1 := WithBook(w, ofProbe, book[e - 1 := n + 1]).(groups := wider);
          w1.(groups := Widen(w1.groups, n, alt))
        else w.(groups := Widen(w.groups, book[e - 1] - 1, alt))
  {
  }
}
