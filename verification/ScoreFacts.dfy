/** What the clusters' graph says about the score: the early exit, and the bound by the table. */
module ScoreFacts {
  import opened Consts
  import opened Seqs
  import opened Cliques
  import opened CliqueOverrun
  import opened Paths
  import opened Clusters

  /** The heaviest chain among the first `n`, 0 when there is none. */
  ghost function BestChain(ct: seq<int>, chain: seq<seq<int>>, n: nat): (r: int)
    requires |ct| == |chain| && IsChains(chain) && n <= |ct|
    ensures r >= 0
    ensures forall i :: 0 <= i < n ==> Weight(ct, chain[i]) <= r
    ensures r == 0 || exists i :: 0 <= i < n && Weight(ct, chain[i]) == r
  {
    if n == 0 then 0 else
    var b, w := BestChain(ct, chain, n - 1), Weight(ct, chain[n - 1]);
    if b < w then w else b
  }

  /** `score` is the largest of the totals, 0 when there is none. */
  ghost predicate IsBest(totals: seq<int>, score: int) {
    && 0 <= score
    && (forall i :: 0 <= i < |totals| ==> totals[i] <= score)
    && (score == 0 || exists i :: 0 <= i < |totals| && totals[i] == score)
  }

  lemma BestIsBestChain(ct: seq<int>, chain: seq<seq<int>>, totals: seq<int>, score: int)
    requires |ct| == |chain| == |totals| && IsChains(chain) && IsBest(totals, score)
    requires forall i :: 0 <= i < |ct| ==> totals[i] == Weight(ct, chain[i])
    ensures score == BestChain(ct, chain, |ct|)
  {
  }

  /** Raising one total keeps the running best when the best is raised along with it. */
  lemma RaiseKeepsBest(totals: seq<int>, score: int, i: nat, total: int)
    requires IsBest(totals, score) && i < |totals| && totals[i] < total
    ensures IsBest(totals[i := total], if total > score then total else score)
  {
    var score' := if total > score then total else score;
    var totals' := totals[i := total];
    if total > score {
      assert totals'[i] == score';
    } else if score != 0 {
      var j :| 0 <= j < |totals| && totals[j] == score;
      assert totals'[j] == score';
    }
  }

  lemma AppendKeepsBest(totals: seq<int>, score: int, total: int)
    requires IsBest(totals, score) && 0 < total
    ensures IsBest(totals + [total], if total > score then total else score)
  {
    var score' := if total > score then total else score;
    var totals' := totals + [total];
    if total > score {
      assert totals'[|totals|] == score';
    } else if score != 0 {
      var j :| 0 <= j < |totals| && totals[j] == score;
      assert totals'[j] == score';
    }
  }

  lemma {:induction false} WeightAtLeast(ct: seq<int>, c: seq<int>, low: nat)
    requires AllWithin(c, 0, |ct| - 1) && forall i :: 0 <= i < |ct| ==> ct[i] >= low
    ensures Weight(ct, c) >= low * |c|
  {
    if c != [] {
      WeightAtLeast(ct, c[..|c| - 1], low);
    }
  }

  /**
   * The early return is exact: clusters weigh at least 3, so while no chain reaches 8 no chain has
   * three clusters, every chain is itself a clique, and the heaviest chain is the heaviest clique.
   */
  lemma EarlyExitIsExact(ct: seq<int>, chain: seq<seq<int>>) returns (c: seq<int>)
    requires |ct| == |chain| && IsChains(chain)
    requires forall i :: 0 <= i < |ct| ==> ct[i] >= MSTR
    requires BestChain(ct, chain, |ct|) < MMSTR
    ensures IsMaximumClique(ct, chain, c, BestChain(ct, chain, |ct|))
  {
    var best := BestChain(ct, chain, |ct|);
    if best == 0 {
      c := [];
    } else {
      var i :| 0 <= i < |ct| && Weight(ct, chain[i]) == best;
      c := chain[i];
      WeightAtLeast(ct, c, MSTR);
      assert |c| <= 2 && c[0] == i;
      assert IsClique(chain, c);
    }
    forall d | IsClique(chain, d) ensures Weight(ct, d) <= best {
      if d != [] { ChainBoundsItsCliques(ct, chain, d); }
    }
  }

  /** Leaving the arrays takes a chain of three clusters, hence more than the early exit allows. */
  lemma LightGraphsStayInside(ct: seq<int>, chain: seq<seq<int>>, size: nat)
    requires |ct| == |chain| && IsChains(chain)
    requires forall i :: 0 <= i < |ct| ==> ct[i] >= MSTR
    requires BestChain(ct, chain, |ct|) < MMSTR
    ensures !Overrun(ct, chain, size)
  {
    forall c | Overruns(chain, c, size) ensures false {
      var x := OverrunWitness(chain, c, size);
      assert c[..|c| - 1][0] == c[0];
      ThreeInChain(chain[c[0]], c[0], c[|c| - 1], x);
      WeightAtLeast(ct, chain[c[0]], MSTR);
    }
  }

  lemma ThreeInChain(chain: seq<int>, a: int, b: int, x: int)
    requires a in chain && b in chain && x in chain && a < b < x
    ensures |chain| >= 3
  {
  }

  /** Appending a vertex: the chains it joins gain its weight, and it starts a chain of its own. */
  lemma WeightSnoc(ct: seq<int>, c: seq<int>, x: int)
    requires AllWithin(c, 0, |ct| - 1) && 0 <= x < |ct|
    ensures AllWithin(c + [x], 0, |ct| - 1)
    ensures Weight(ct, c + [x]) == Weight(ct, c) + ct[x]
  {
    assert (c + [x])[..|c|] == c;
  }

  lemma {:induction false} WeightOfPrefix(ct: seq<int>, w: int, c: seq<int>)
    requires AllWithin(c, 0, |ct| - 1)
    ensures AllWithin(c, 0, |ct + [w]| - 1) && Weight(ct + [w], c) == Weight(ct, c)
  {
    if c != [] {
      WeightOfPrefix(ct, w, c[..|c| - 1]);
    }
  }

  /** Cluster `i`'s chain and its weight, among the first `hi` clusters. */
  ghost predicate ChainEntry(cs: seq<Cluster>, angle: (int, int) -> int, i: nat, hi: nat, chain: seq<int>, total: int)
    requires i < |cs| && hi <= |cs|
  {
    chain == Chain(cs, angle, i, hi) && AllWithin(chain, 0, |cs| - 1) && total == Weight(Counts(cs), chain)
  }

  lemma CountsSnoc(cs: seq<Cluster>, c: Cluster)
    ensures Counts(cs + [c]) == Counts(cs) + [|c.edges|]
  {
  }

  /** A new cluster leaves the entries of the others as they were, until it is merged into them. */
  lemma EntryKept(cs: seq<Cluster>, c: Cluster, angle: (int, int) -> int, i: nat, chain: seq<int>, total: int)
    requires i < |cs| && ChainEntry(cs, angle, i, |cs|, chain, total)
    ensures ChainEntry(cs + [c], angle, i, |cs|, chain, total)
  {
    ChainOfPrefix(cs, c, angle, i, |cs|);
    CountsSnoc(cs, c);
    WeightOfPrefix(Counts(cs), |c.edges|, chain);
  }

  lemma EntryStarts(cs: seq<Cluster>, c: Cluster, angle: (int, int) -> int)
    ensures ChainEntry(cs + [c], angle, |cs|, |cs| + 1, [|cs|], |c.edges|)
  {
    var ct := Counts(cs + [c]);
    assert ([|cs|])[..0] == [];
    assert Weight(ct, [|cs|]) == Weight(ct, []) + ct[|cs|];
  }

  /** Merging the last cluster into the chain of an earlier one, when they are compatible. */
  lemma EntryMerged(cs: seq<Cluster>, angle: (int, int) -> int, i: nat, chain: seq<int>, total: int)
    requires i + 1 < |cs| && ChainEntry(cs, angle, i, |cs| - 1, chain, total)
    ensures var m := |cs| - 1;
      if Compatible(cs[i], cs[m], angle) then ChainEntry(cs, angle, i, |cs|, chain + [m], total + |cs[m].edges|)
      else ChainEntry(cs, angle, i, |cs|, chain, total)
  {
    hide Compatible;
    WeightSnoc(Counts(cs), chain, |cs| - 1);
    assert chain + [] == chain;
  }

  // --- The score never exceeds the table ------------------------------------------------------

  /** A cluster lists distinct edges of the table, and its probe endpoints include theirs. */
  ghost predicate ClusterOk(c: Cluster, t: Table) {
    && MSTR <= |c.edges| && Distinct(c.edges) && AllWithin(c.edges, 1, |t.rows|)
    && (forall i :: 0 <= i < |c.edges| ==> t.rows[c.edges[i] - 1].pk in c.probeEnds)
  }

  ghost predicate ClustersOk(cs: seq<Cluster>, t: Table) {
    forall i :: 0 <= i < |cs| ==> ClusterOk(cs[i], t)
  }

  lemma ClusterOfIsOk(path: seq<int>, t: Table, pr: Prints)
    requires MSTR <= |path| && Distinct(path) && AllWithin(path, 1, |t.rows|) && PrintsFit(t, pr)
    ensures ClusterOk(ClusterOf(path, t, pr), t)
  {
    var ps := Along(path, t.rows, Pk);
    EndsAreEndpoints(ps, Along(path, t.rows, Pj));
    forall i | 0 <= i < |path| ensures t.rows[path[i] - 1].pk in ClusterOf(path, t, pr).probeEnds {
      assert ps[i] == t.rows[path[i] - 1].pk;
    }
  }

  /** The edges of the clusters listed in `c`. */
  ghost function EdgesOf(cs: seq<Cluster>, c: seq<int>): (r: set<int>)
    requires AllWithin(c, 0, |cs| - 1)
  {
    if c == [] then {} else EdgesOf(cs, c[..|c| - 1]) + Elements(cs[c[|c| - 1]].edges)
  }

  lemma {:induction false} InEdgesOf(cs: seq<Cluster>, c: seq<int>, e: int) returns (i: nat)
    requires AllWithin(c, 0, |cs| - 1) && e in EdgesOf(cs, c)
    ensures i < |c| && e in cs[c[i]].edges
  {
    var m := |c| - 1;
    if e in cs[c[m]].edges { i := m; } else { i := InEdgesOf(cs, c[..m], e); }
  }

  lemma SharedEdgeMeets(a: Cluster, b: Cluster, t: Table, e: int)
    requires ClusterOk(a, t) && ClusterOk(b, t) && e in a.edges && e in b.edges
    ensures Meets(a.probeEnds, b.probeEnds)
  {
    var p := t.rows[e - 1].pk;
    assert p in a.probeEnds && p in b.probeEnds;
  }

  /** The clusters of a clique have no edge in common, so its weight is the number of its edges. */
  lemma {:induction false} CliqueCountsItsEdges(cs: seq<Cluster>, t: Table, angle: (int, int) -> int, c: seq<int>)
    requires ClustersOk(cs, t) && IsClique(Chains(cs, angle), c)
    ensures |EdgesOf(cs, c)| == Weight(Counts(cs), c)
    ensures forall e :: e in EdgesOf(cs, c) ==> 1 <= e <= |t.rows|
  {
    if c != [] {
      var m := |c| - 1;
      var last := cs[c[m]];
      assert ClusterOk(last, t);
      hide Chains, Compatible, ClustersOk;
      CliqueCountsItsEdges(cs, t, angle, c[..m]);
      DistinctCardinality(last.edges);
      LastSharesNoEdge(cs, t, angle, c);
      assert EdgesOf(cs, c) == EdgesOf(cs, c[..m]) + Elements(last.edges);
    }
  }

  lemma LastSharesNoEdge(cs: seq<Cluster>, t: Table, angle: (int, int) -> int, c: seq<int>)
    requires ClustersOk(cs, t) && IsClique(Chains(cs, angle), c) && c != []
    ensures var m := |c| - 1; EdgesOf(cs, c[..m]) !! Elements(cs[c[m]].edges)
  {
    hide Chains, Meets;
    var m := |c| - 1;
    var last := cs[c[m]];
    ChainsAreChains(cs, angle);
    forall e | e in EdgesOf(cs, c[..m]) ensures e !in Elements(last.edges) {
      var i := InEdgesOf(cs, c[..m], e);
      assert c[m] in Chains(cs, angle)[c[i]];
      assert !Meets(cs[c[i]].probeEnds, last.probeEnds);
      if e in last.edges { SharedEdgeMeets(cs[c[i]], last, t, e); }
    }
  }

  ghost function UpTo(n: nat): (r: set<int>)
    ensures forall e :: e in r <==> 1 <= e <= n
    ensures |r| == n
  {
    if n == 0 then {} else UpTo(n - 1) + {n}
  }

  lemma {:induction false} SubsetIsSmaller<T>(a: set<T>, b: set<T>)
    requires a <= b
    ensures |a| <= |b|
  {
    if x :| x in a {
      SubsetIsSmaller(a - {x}, b - {x});
    }
  }

  /** No clique of clusters, hence no score, exceeds the number of compatible edge pairs. */
  lemma ScoreWithinTable(cs: seq<Cluster>, t: Table, angle: (int, int) -> int, c: seq<int>)
    requires ClustersOk(cs, t) && IsClique(Chains(cs, angle), c)
    ensures Weight(Counts(cs), c) <= |t.rows|
  {
    CliqueCountsItsEdges(cs, t, angle, c);
    SubsetIsSmaller(EdgesOf(cs, c), UpTo(|t.rows|));
  }

  lemma CliqueIsShort(cs: seq<Cluster>, t: Table, angle: (int, int) -> int, c: seq<int>)
    requires ClustersOk(cs, t) && IsClique(Chains(cs, angle), c)
    ensures MSTR * |c| <= |t.rows|
  {
    ScoreWithinTable(cs, t, angle, c);
    WeightAtLeast(Counts(cs), c, MSTR);
  }

  // --- What the score is ----------------------------------------------------------------------

  /** The clusters `c` names, in ascending order, are pairwise compatible. */
  ghost predicate CompatibleSet(cs: seq<Cluster>, angle: (int, int) -> int, c: seq<int>) {
    && Ascending(c) && AllWithin(c, 0, |cs| - 1)
    && forall i, j :: 0 <= i < j < |c| ==> Compatible(cs[c[i]], cs[c[j]], angle)
  }

  /** `score` is the largest number of edges that pairwise compatible clusters have between them. */
  ghost predicate IsScore(cs: seq<Cluster>, angle: (int, int) -> int, score: int) {
    && (exists c :: CompatibleSet(cs, angle, c) && EdgeTotal(cs, c) == score)
    && forall c :: CompatibleSet(cs, angle, c) ==> EdgeTotal(cs, c) <= score
  }

  ghost function EdgeTotal(cs: seq<Cluster>, c: seq<int>): (r: int)
    requires AllWithin(c, 0, |cs| - 1)
  {
    Weight(Counts(cs), c)
  }

  lemma CliquesAreCompatibleSets(cs: seq<Cluster>, angle: (int, int) -> int, c: seq<int>)
    ensures IsClique(Chains(cs, angle), c) <==> CompatibleSet(cs, angle, c)
  {
    ChainsAreChains(cs, angle);
    hide Compatible, Chains;
    if Ascending(c) && AllWithin(c, 0, |cs| - 1) {
      forall i, j | 0 <= i < j < |c|
        ensures c[j] in Chains(cs, angle)[c[i]] <==> Compatible(cs[c[i]], cs[c[j]], angle)
      {
      }
    }
  }

  lemma MaximumIsScore(cs: seq<Cluster>, angle: (int, int) -> int, c: seq<int>, score: int)
    requires IsMaximumClique(Counts(cs), Chains(cs, angle), c, score)
    ensures IsScore(cs, angle, score)
  {
    hide Compatible, IsClique, Weight, Chains, Ascending;
    CliquesAreCompatibleSets(cs, angle, c);
    forall d | CompatibleSet(cs, angle, d) ensures AllWithin(d, 0, |cs| - 1) && EdgeTotal(cs, d) <= score {
      CliquesAreCompatibleSets(cs, angle, d);
    }
  }

  /** The search for the heaviest clique of the clusters leaves arrays of length `size`. */
  ghost predicate LeavesArrays(cs: seq<Cluster>, angle: (int, int) -> int, size: nat) {
    ChainsAreChains(cs, angle);
    Overrun(Counts(cs), Chains(cs, angle), size)
  }

  lemma FewClustersStay(cs: seq<Cluster>, angle: (int, int) -> int, size: nat)
    requires |cs| <= size
    ensures !LeavesArrays(cs, angle, size)
  {
    hide Overrun, Chains;
    ChainsAreChains(cs, angle);
    FewVerticesStay(Counts(cs), Chains(cs, angle), size);
  }

  lemma ScoreIsUnique(cs: seq<Cluster>, angle: (int, int) -> int, a: int, b: int)
    requires IsScore(cs, angle, a) && IsScore(cs, angle, b)
    ensures a == b
  {
  }

  /** A score counts edges of the table, each at most once. */
  lemma ScoreIsBounded(cs: seq<Cluster>, t: Table, angle: (int, int) -> int, score: int)
    requires ClustersOk(cs, t) && IsScore(cs, angle, score)
    ensures 0 <= score <= |t.rows|
  {
    var c :| CompatibleSet(cs, angle, c) && EdgeTotal(cs, c) == score;
    assert CompatibleSet(cs, angle, []) && EdgeTotal(cs, []) == 0;
    CliquesAreCompatibleSets(cs, angle, c);
    ScoreWithinTable(cs, t, angle, c);
  }

  lemma EnoughEdges(cs: seq<Cluster>, t: Table)
    requires ClustersOk(cs, t)
    ensures forall i :: 0 <= i < |cs| ==> Counts(cs)[i] >= MSTR
  {
  }
}
