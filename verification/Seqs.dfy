/** Sequence vocabulary shared by the matcher modules. */
module Seqs {

  datatype Option<T> = None | Some(value: T)

  /** Strictly ascending, hence duplicate-free. */
  ghost predicate Ascending(s: seq<int>) {
    forall i, j :: 0 <= i < j < |s| ==> s[i] < s[j]
  }

  ghost predicate Distinct<T>(s: seq<T>) {
    forall i, j :: 0 <= i < j < |s| ==> s[i] != s[j]
  }

  ghost predicate AllWithin(s: seq<int>, lo: int, hi: int) {
    forall i :: 0 <= i < |s| ==> lo <= s[i] <= hi
  }

  ghost function Elements<T>(s: seq<T>): (r: set<T>) {
    set x | x in s
  }

  lemma AscendingSnoc(s: seq<int>, x: int)
    requires Ascending(s) && forall y :: y in s ==> y < x
    ensures Ascending(s + [x])
  {
    forall i | 0 <= i < |s| ensures s[i] < x { assert s[i] in s; }
  }

  /** Pigeonhole: distinct values from `1..n` number at most `n`. */
  lemma {:induction false} DistinctWithinIsShort(s: seq<int>, n: nat)
    requires Distinct(s) && AllWithin(s, 1, n)
    ensures |s| <= n
  {
    if s == [] {
      return;
    }
    assert 1 <= s[0] <= n;
    if i :| 0 <= i < |s| && s[i] == n {
      var t := s[..i] + s[i + 1..];
      forall a, b | 0 <= a < b < |t|
        ensures t[a] != t[b]
      {
        var a', b' := if a < i then a else a + 1, if b < i then b else b + 1;
        assert t[a] == s[a'] && t[b] == s[b'];
      }
      DistinctWithinIsShort(t, n - 1);
    } else {
      DistinctWithinIsShort(s, n - 1);
    }
  }

  lemma {:induction false} AscendingIsShort(s: seq<int>, lo: int, hi: int)
    requires Ascending(s) && AllWithin(s, lo, hi) && lo <= hi + 1
    ensures |s| <= hi - lo + 1
  {
    if s != [] {
      var m := |s| - 1;
      AscendingIsShort(s[..m], lo, s[m] - 1);
    }
  }

  lemma DistinctCardinality<T>(s: seq<T>)
    requires Distinct(s)
    ensures |Elements(s)| == |s|
  {
    if s == [] {
      assert Elements(s) == {};
    } else {
      var m := |s| - 1;
      DistinctCardinality(s[..m]);
      assert Elements(s) == Elements(s[..m]) + {s[m]};
      assert s[m] !in Elements(s[..m]);
    }
  }
}
