/**
 * The weighted-clique problem that the last loop of the matcher solves.
 *
 * A graph over `0..n` is given by its chains: `chain[i]` is `i` followed by every later vertex
 * compatible with `i`, ascending. A clique is an ascending sequence of pairwise compatible vertices.
 */
module Cliques {
  import opened Seqs

  ghost predicate IsChains(chain: seq<seq<int>>) {
    forall i :: 0 <= i < |chain| ==>
      && chain[i] != [] && chain[i][0] == i
      && Ascending(chain[i]) && AllWithin(chain[i], i, |chain| - 1)
  }

  ghost predicate IsClique(chain: seq<seq<int>>, c: seq<int>) {
    && Ascending(c)
    && AllWithin(c, 0, |chain| - 1)
    && forall i, j :: 0 <= i < j < |c| ==> c[j] in chain[c[i]]
  }

  /** Total weight of the vertices listed in `c`. */
  ghost function Weight(ct: seq<int>, c: seq<int>): (r: int)
    requires AllWithin(c, 0, |ct| - 1)
  {
    if c == [] then 0 else Weight(ct, c[..|c| - 1]) + ct[c[|c| - 1]]
  }

  /** `best` is the maximum clique weight, attained by `c`. The empty clique weighs 0. */
  ghost predicate IsMaximumClique(ct: seq<int>, chain: seq<seq<int>>, c: seq<int>, best: int)
    requires |ct| == |chain|
  {
    && IsClique(chain, c) && Weight(ct, c) == best
    && forall d :: IsClique(chain, d) ==> Weight(ct, d) <= best
  }

  lemma WeightSlice(ct: seq<int>, s: seq<int>, lo: nat, hi: nat)
    requires lo <= hi < |s| && AllWithin(s, 0, |ct| - 1)
    ensures Weight(ct, s[lo..hi + 1]) == Weight(ct, s[lo..hi]) + ct[s[hi]]
  {
    var r := s[lo..hi + 1];
    assert r[..|r| - 1] == s[lo..hi] && r[|r| - 1] == s[hi];
  }

  lemma {:induction false} WeightConcat(ct: seq<int>, a: seq<int>, b: seq<int>)
    requires AllWithin(a, 0, |ct| - 1) && AllWithin(b, 0, |ct| - 1)
    ensures AllWithin(a + b, 0, |ct| - 1)
    ensures Weight(ct, a + b) == Weight(ct, a) + Weight(ct, b)
  {
    if b == [] {
      assert a + b == a;
    } else {
      var m := |b| - 1;
      WeightConcat(ct, a, b[..m]);
      assert (a + b)[..|a| + m] == a + b[..m];
    }
  }

  /** The elements of `a` that occur in `b`, in `a`'s order. */
  ghost function Common(a: seq<int>, b: seq<int>): (r: seq<int>)
    ensures |r| <= |a|
  {
    if a == [] then [] else
    Common(a[..|a| - 1], b) + if a[|a| - 1] in b then [a[|a| - 1]] else []
  }

  lemma {:induction false} CommonMembers(a: seq<int>, b: seq<int>)
    ensures forall x :: x in Common(a, b) <==> x in a && x in b
  {
    if a != [] {
      var m := |a| - 1;
      CommonMembers(a[..m], b);
      assert a == a[..m] + [a[m]];
    }
  }

  lemma {:induction false} CommonAscends(a: seq<int>, b: seq<int>)
    requires Ascending(a)
    ensures Ascending(Common(a, b))
  {
    if a != [] {
      var m := |a| - 1;
      CommonAscends(a[..m], b);
      CommonMembers(a[..m], b);
      var r := Common(a[..m], b);
      forall i | 0 <= i < |r| ensures r[i] < a[m] {
        assert r[i] in r;
        assert r[i] in a[..m];
      }
    }
  }

  /** A shared first element stays first. */
  lemma {:induction false} CommonHead(a: seq<int>, b: seq<int>)
    requires a != [] && a[0] in b
    ensures Common(a, b) != [] && Common(a, b)[0] == a[0]
  {
    if |a| == 1 {
      assert a[..0] == [];
    } else {
      CommonHead(a[..|a| - 1], b);
    }
  }

  /** Two positions of a merge walk: nothing consumed on either side can still meet the other. */
  ghost predicate Merging(a: seq<int>, from: nat, i: nat, b: seq<int>, j: nat) {
    && from <= i <= |a| && j <= |b| && Ascending(a) && Ascending(b)
    && (0 < j && i < |a| ==> b[j - 1] < a[i])
    && (from < i && j < |b| ==> a[i - 1] < b[j])
  }

  lemma CommonNothing(a: seq<int>, b: seq<int>)
    requires a == []
    ensures Common(a, b) == []
  {
  }

  lemma CommonSnoc(s: seq<int>, x: int, b: seq<int>)
    ensures Common(s + [x], b) == Common(s, b) + if x in b then [x] else []
  {
    assert (s + [x])[..|s|] == s;
  }

  /** Passing over `a[i]`, which `b` can no longer contain. */
  lemma CommonSkips(a: seq<int>, from: nat, i: nat, b: seq<int>, j: nat)
    requires from <= i < |a| && j <= |b| && Ascending(b)
    requires 0 < j ==> b[j - 1] < a[i]
    requires j < |b| ==> a[i] < b[j]
    ensures Common(a[from..i + 1], b) == Common(a[from..i], b)
  {
    hide *;
    NotAmong(a[i], b, j);
    CommonSnoc(a[from..i], a[i], b);
    assert a[from..i + 1] == a[from..i] + [a[i]];
  }

  lemma NotAmong(x: int, b: seq<int>, j: nat)
    requires j <= |b| && Ascending(b)
    requires 0 < j ==> b[j - 1] < x
    requires j < |b| ==> x < b[j]
    ensures x !in b
  {
    forall p | 0 <= p < |b| ensures b[p] != x {
      if p < j { assert b[p] <= b[j - 1]; } else { assert b[j] <= b[p]; }
    }
  }

  lemma CommonTakes(a: seq<int>, from: nat, i: nat, b: seq<int>)
    requires from <= i < |a| && a[i] in b
    ensures Common(a[from..i + 1], b) == Common(a[from..i], b) + [a[i]]
  {
    hide *;
    CommonSnoc(a[from..i], a[i], b);
    assert a[from..i + 1] == a[from..i] + [a[i]];
  }

  /** Once either side is used up, the rest contributes nothing. */
  lemma {:induction false} CommonDone(a: seq<int>, from: nat, i: nat, b: seq<int>)
    requires from <= i <= |a| && Ascending(a) && Ascending(b)
    requires i < |a| && b != [] ==> b[|b| - 1] < a[i]
    ensures Common(a[from..], b) == Common(a[from..i], b)
    decreases |a| - i
  {
    if i == |a| {
      assert a[from..] == a[from..i];
    } else {
      CommonSkips(a, from, i, b, |b|);
      CommonDone(a, from, i + 1, b);
    }
  }

  // --- Bounds ---------------------------------------------------------------------------------

  /** Keeping only some members of an ascending list never raises a non-negative total. */
  lemma {:induction false} SublistWeight(ct: seq<int>, c: seq<int>, l: seq<int>)
    requires forall i :: 0 <= i < |ct| ==> ct[i] >= 0
    requires Ascending(c) && Ascending(l)
    requires AllWithin(c, 0, |ct| - 1) && AllWithin(l, 0, |ct| - 1)
    requires forall x :: x in c ==> x in l
    ensures Weight(ct, c) <= Weight(ct, l)
    decreases |l|
  {
    assert c != [] ==> c[0] in l && c[|c| - 1] in l;
    if l != [] {
      var m := |l| - 1;
      if c != [] && c[|c| - 1] == l[m] {
        var c' := c[..|c| - 1];
        forall x | x in c' ensures x in l[..m] {
          assert x in c && x < l[m];
        }
        SublistWeight(ct, c', l[..m]);
      } else {
        forall x | x in c ensures x in l[..m] {
          assert x in l && x <= c[|c| - 1] < l[m];
        }
        SublistWeight(ct, c, l[..m]);
      }
    }
  }

  /** The `gct` skip: no clique whose first vertex is `i` outweighs the whole chain of `i`. */
  lemma ChainBoundsItsCliques(ct: seq<int>, chain: seq<seq<int>>, c: seq<int>)
    requires |ct| == |chain| && IsChains(chain) && IsClique(chain, c) && c != []
    requires forall i :: 0 <= i < |ct| ==> ct[i] >= 0
    ensures Weight(ct, c) <= Weight(ct, chain[c[0]])
  {
    forall x | x in c ensures x in chain[c[0]] {
      var j :| 0 <= j < |c| && c[j] == x;
      assert chain[c[0]][0] == c[0];
    }
    SublistWeight(ct, c, chain[c[0]]);
  }

  lemma MergingFits(list: seq<int>, from: nat, kk: nat, other: seq<int>, jj: nat)
    requires Merging(list, from, kk, other, jj)
    ensures from <= kk <= |list| && jj <= |other|
  {
  }

  /** Passing over `list[kk]`, which comes before what is left of `other`. */
  lemma MergingSkips(list: seq<int>, from: nat, kk: nat, other: seq<int>, jj: nat)
    requires Merging(list, from, kk, other, jj) && kk < |list| && (jj < |other| ==> list[kk] < other[jj])
    ensures Merging(list, from, kk + 1, other, jj)
    ensures Common(list[from..kk + 1], other) == Common(list[from..kk], other)
  {
    hide Common;
    CommonSkips(list, from, kk, other, jj);
  }

  /** Passing over an element of both. */
  lemma MergingTakes(list: seq<int>, from: nat, kk: nat, other: seq<int>, jj: nat)
    requires Merging(list, from, kk, other, jj) && kk < |list| && jj < |other| && list[kk] == other[jj]
    ensures Merging(list, from, kk + 1, other, jj + 1)
    ensures Common(list[from..kk + 1], other) == Common(list[from..kk], other) + [list[kk]]
  {
    hide Common;
    CommonTakes(list, from, kk, other);
  }
}
