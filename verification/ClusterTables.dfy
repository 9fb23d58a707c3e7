/** The per-cluster tables of the search, and how a new cluster is entered and merged into them. */
module ClusterTables {
  import opened Seqs
  import opened Clusters
  import opened ScoreFacts

  datatype Tables = Tables(avv: seq<Average>, ct: seq<int>, gct: seq<int>, ctt: seq<int>, ctp: seq<seq<int>>,
                           yy: seq<(seq<int>, seq<int>)>)

  /** The tables describe the clusters `cs`; the last has been merged into the first `done` chains. */
  ghost predicate Describes(tab: Tables, cs: seq<Cluster>, angle: (int, int) -> int, done: nat) {
    && |tab.avv| == |tab.gct| == |tab.ctt| == |tab.ctp| == |tab.yy| == |cs| && tab.ct == Counts(cs)
    && (forall i :: 0 <= i < |cs| ==> FactsAt(tab, cs, i))
    && forall i :: 0 <= i < |cs| ==> ChainAt(tab, cs, angle, done, i)
  }

  ghost predicate FactsAt(tab: Tables, cs: seq<Cluster>, i: nat)
    requires i < |cs| == |tab.avv| == |tab.yy| == |tab.ctt| == |tab.ctp|
  {
    && tab.avv[i] == cs[i].avg && tab.yy[i] == (cs[i].probeEnds, cs[i].galleryEnds)
    && Ascending(cs[i].probeEnds) && Ascending(cs[i].galleryEnds) && tab.ctt[i] + 1 == |tab.ctp[i]|
  }

  ghost predicate ChainAt(tab: Tables, cs: seq<Cluster>, angle: (int, int) -> int, done: nat, i: nat)
    requires i < |cs| == |tab.ctp| == |tab.gct|
  {
    ChainEntry(cs, angle, i, if i < done || i == |cs| - 1 then |cs| else |cs| - 1, tab.ctp[i], tab.gct[i])
  }

  function Push(tab: Tables, c: Cluster): (r: Tables) {
    Tables(tab.avv + [c.avg], tab.ct + [|c.edges|], tab.gct + [|c.edges|], tab.ctt + [0],
           tab.ctp + [[|tab.ctp|]], tab.yy + [(c.probeEnds, c.galleryEnds)])
  }

  /** Adds the last cluster to chain `i`. */
  function Merge(tab: Tables, i: nat, tot: int): (r: Tables)
    requires i < |tab.gct| == |tab.ctt| == |tab.ctp|
  {
    tab.(gct := tab.gct[i := tab.gct[i] + tot], ctt := tab.ctt[i := tab.ctt[i] + 1],
         ctp := tab.ctp[i := tab.ctp[i] + [|tab.ctp| - 1]])
  }

  lemma PushDescribes(tab: Tables, cs: seq<Cluster>, c: Cluster, angle: (int, int) -> int)
    requires Describes(tab, cs, angle, |cs|) && Ascending(c.probeEnds) && Ascending(c.galleryEnds)
    ensures Describes(Push(tab, c), cs + [c], angle, 0)
  {
    var tab', cs', n := Push(tab, c), cs + [c], |cs|;
    CountsSnoc(cs, c);
    forall i | 0 <= i < |cs'| ensures FactsAt(tab', cs', i) {
      if i < n { assert FactsAt(tab, cs, i); }
    }
    EntryStarts(cs, c, angle);
    hide ChainEntry, FactsAt;
    forall i | 0 <= i < |cs'| ensures ChainAt(tab', cs', angle, 0, i) {
      if i < n {
        assert ChainAt(tab, cs, angle, n, i);
        EntryKept(cs, c, angle, i, tab.ctp[i], tab.gct[i]);
      }
    }
  }

  /** One step of the merge loop. */
  lemma MergeDescribes(tab: Tables, cs: seq<Cluster>, angle: (int, int) -> int, i: nat)
    requires Describes(tab, cs, angle, i) && i + 1 < |cs|
    ensures Describes(if Compatible(cs[i], cs[|cs| - 1], angle) then Merge(tab, i, |cs[|cs| - 1].edges|) else tab,
                      cs, angle, i + 1)
  {
    var m := |cs| - 1;
    var merged := Compatible(cs[i], cs[m], angle);
    assert ChainAt(tab, cs, angle, i, i) && FactsAt(tab, cs, i);
    EntryMerged(cs, angle, i, tab.ctp[i], tab.gct[i]);
    hide ChainEntry, Compatible;
    ChainsAfter(tab, if merged then Merge(tab, i, |cs[m].edges|) else tab, cs, angle, i);
  }

  /** The other entries do not see the step at `i`. */
  lemma ChainsAfter(tab: Tables, tab': Tables, cs: seq<Cluster>, angle: (int, int) -> int, i: nat)
    requires Describes(tab, cs, angle, i) && i + 1 < |cs|
    requires tab' == tab || tab' == Merge(tab, i, |cs[|cs| - 1].edges|)
    requires ChainAt(tab', cs, angle, i + 1, i)
    ensures Describes(tab', cs, angle, i + 1)
  {
    hide ChainEntry;
    forall j | 0 <= j < |cs| ensures FactsAt(tab', cs, j) {
      assert FactsAt(tab, cs, j);
    }
    var next := i + 1;
    forall j | 0 <= j < |cs| ensures ChainAt(tab', cs, angle, next, j) {
      if j != i {
        assert ChainAt(tab, cs, angle, i, j);
      }
    }
  }

  /** Once the last cluster has met every other, the tables are whole. */
  lemma MergedDescribes(tab: Tables, cs: seq<Cluster>, angle: (int, int) -> int, done: nat)
    requires Describes(tab, cs, angle, done) && done + 1 == |cs|
    ensures Describes(tab, cs, angle, |cs|)
  {
    hide ChainEntry, FactsAt;
    forall j | 0 <= j < |cs| ensures ChainAt(tab, cs, angle, |cs|, j) {
      assert ChainAt(tab, cs, angle, done, j);
    }
  }
}
