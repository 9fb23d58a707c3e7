/**
 * The library's stable sort, as insertion of one element after another, each behind its equals; and
 * the fact that a stable sort is determined by what it promises.
 */
module StableSort {

  ghost predicate Preorder<T(!new)>(le: (T, T) -> bool) {
    && (forall a, b :: le(a, b) || le(b, a))
    && (forall a, b, c :: le(a, b) && le(b, c) ==> le(a, c))
  }

  ghost predicate Sorted<T>(s: seq<T>, le: (T, T) -> bool) {
    forall i, j :: 0 <= i < j < |s| ==> le(s[i], s[j])
  }

  function Insert<T>(s: seq<T>, x: T, le: (T, T) -> bool): (r: seq<T>) {
    if s == [] || le(s[|s| - 1], x) then s + [x]
    else Insert(s[..|s| - 1], x, le) + [s[|s| - 1]]
  }

  function Sort<T>(s: seq<T>, le: (T, T) -> bool): (r: seq<T>) {
    if s == [] then [] else Insert(Sort(s[..|s| - 1], le), s[|s| - 1], le)
  }

  /** The elements of `s` that tie with `e`, in `s`'s order. */
  ghost function Ties<T>(s: seq<T>, e: T, le: (T, T) -> bool): (r: seq<T>) {
    if s == [] then [] else
    var x := s[|s| - 1];
    Ties(s[..|s| - 1], e, le) + if le(x, e) && le(e, x) then [x] else []
  }

  lemma {:induction false} InsertElements<T>(s: seq<T>, x: T, le: (T, T) -> bool)
    ensures multiset(Insert(s, x, le)) == multiset(s) + multiset{x}
  {
    if s != [] && !le(s[|s| - 1], x) {
      InsertElements(s[..|s| - 1], x, le);
      assert s == s[..|s| - 1] + [s[|s| - 1]];
    }
  }

  lemma {:induction false} SortElements<T>(s: seq<T>, le: (T, T) -> bool)
    ensures multiset(Sort(s, le)) == multiset(s) && |Sort(s, le)| == |s|
  {
    if s != [] {
      SortElements(s[..|s| - 1], le);
      InsertElements(Sort(s[..|s| - 1], le), s[|s| - 1], le);
      assert s == s[..|s| - 1] + [s[|s| - 1]];
    }
    assert |multiset(Sort(s, le))| == |multiset(s)|;
  }

  lemma {:induction false} InsertSorts<T(!new)>(s: seq<T>, x: T, le: (T, T) -> bool)
    requires Preorder(le) && Sorted(s, le)
    ensures Sorted(Insert(s, x, le), le)
  {
    if s != [] && !le(s[|s| - 1], x) {
      var m := |s| - 1;
      InsertSorts(s[..m], x, le);
      InsertElements(s[..m], x, le);
      var r := Insert(s[..m], x, le);
      forall i | 0 <= i < |r| ensures le(r[i], s[m]) {
        assert r[i] in multiset(s[..m]) + multiset{x} by { assert r[i] in multiset(r); }
      }
    }
  }

  lemma {:induction false} SortSorts<T(!new)>(s: seq<T>, le: (T, T) -> bool)
    requires Preorder(le)
    ensures Sorted(Sort(s, le), le)
  {
    if s != [] {
      SortSorts(s[..|s| - 1], le);
      InsertSorts(Sort(s[..|s| - 1], le), s[|s| - 1], le);
    }
  }

  lemma TiesSnoc<T>(s: seq<T>, x: T, e: T, le: (T, T) -> bool)
    ensures Ties(s + [x], e, le) == Ties(s, e, le) + if le(x, e) && le(e, x) then [x] else []
  {
    assert (s + [x])[..|s|] == s;
  }

  lemma {:induction false} InsertTies<T(!new)>(s: seq<T>, x: T, e: T, le: (T, T) -> bool)
    requires Preorder(le) && Sorted(s, le)
    ensures Ties(Insert(s, x, le), e, le) == Ties(s + [x], e, le)
  {
    TiesSnoc(s, x, e, le);
    if s != [] && !le(s[|s| - 1], x) {
      var m := |s| - 1;
      InsertTies(s[..m], x, e, le);
      TiesSnoc(Insert(s[..m], x, le), s[m], e, le);
      TiesSnoc(s[..m], x, e, le);
    }
  }

  /** Stability: elements that tie keep the order they came in. */
  lemma {:induction false} SortIsStable<T(!new)>(s: seq<T>, e: T, le: (T, T) -> bool)
    requires Preorder(le)
    ensures Ties(Sort(s, le), e, le) == Ties(s, e, le)
  {
    if s != [] {
      var m := |s| - 1;
      SortIsStable(s[..m], e, le);
      SortSorts(s[..m], le);
      InsertTies(Sort(s[..m], le), s[m], e, le);
      TiesSnoc(Sort(s[..m], le), s[m], e, le);
    }
  }

  /** Two sorted sequences with the same ties everywhere are the same sequence. */
  lemma {:induction false} SortedIsUnique<T(!new)>(a: seq<T>, b: seq<T>, le: (T, T) -> bool)
    requires Preorder(le) && Sorted(a, le) && Sorted(b, le)
    requires forall e :: Ties(a, e, le) == Ties(b, e, le)
    ensures a == b
  {
    hide Ties, Preorder;
    if a == [] {
      if b != [] { SameEnd(b, a, le); }
    } else {
      SameEnd(a, b, le);
      var m, n := |a| - 1, |b| - 1;
      assert a == a[..m] + [a[m]] && b == b[..n] + [b[n]];
      forall e ensures Ties(a[..m], e, le) == Ties(b[..n], e, le) {
        assert Ties(a, e, le) == Ties(b, e, le);
        TiesSnoc(a[..m], a[m], e, le);
        TiesSnoc(b[..n], b[n], e, le);
        SameBefore(Ties(a[..m], e, le), Ties(b[..n], e, le), if le(a[m], e) && le(e, a[m]) then [a[m]] else []);
      }
      SortedIsUnique(a[..m], b[..n], le);
    }
  }

  lemma SameBefore<T>(u: seq<T>, v: seq<T>, end: seq<T>)
    requires u + end == v + end
    ensures u == v
  {
    assert |u + end| == |v + end|;
    assert u == (u + end)[..|u|] && v == (v + end)[..|v|];
  }

  lemma SameEnd<T(!new)>(a: seq<T>, b: seq<T>, le: (T, T) -> bool)
    requires Preorder(le) && Sorted(a, le) && Sorted(b, le) && a != []
    requires forall e :: Ties(a, e, le) == Ties(b, e, le)
    ensures b != [] && b[|b| - 1] == a[|a| - 1]
  {
    hide Ties, Sorted;
    var x := a[|a| - 1];
    TiesEnd(a, x, le);
    LastTie(b, x, le);
    var y := b[|b| - 1];
    TiesEnd(b, y, le);
    LastTie(a, y, le);
    TiesEnd(b, x, le);
  }

  /** A last element that ties is the last tie. */
  lemma TiesEnd<T(!new)>(s: seq<T>, e: T, le: (T, T) -> bool)
    requires s != [] && le(s[|s| - 1], e) && le(e, s[|s| - 1])
    ensures var ties := Ties(s, e, le); ties != [] && ties[|ties| - 1] == s[|s| - 1]
  {
  }

  /** If anything in a sorted sequence ties with `e`, then `e` is at most its last element. */
  lemma {:induction false} LastTie<T(!new)>(s: seq<T>, e: T, le: (T, T) -> bool)
    requires Preorder(le) && Sorted(s, le) && Ties(s, e, le) != []
    ensures s != [] && le(e, s[|s| - 1])
  {
    var m := |s| - 1;
    if !(le(s[m], e) && le(e, s[m])) {
      LastTie(s[..m], e, le);
    }
  }

  /** The stable sort of `s` is the only sorted sequence that keeps `s`'s ties in order. */
  lemma StableSortIsUnique<T(!new)>(s: seq<T>, r: seq<T>, le: (T, T) -> bool)
    requires Preorder(le) && Sorted(r, le) && forall e :: Ties(r, e, le) == Ties(s, e, le)
    ensures r == Sort(s, le)
  {
    SortSorts(s, le);
    forall e ensures Ties(Sort(s, le), e, le) == Ties(s, e, le) { SortIsStable(s, e, le); }
    SortedIsUnique(r, Sort(s, le), le);
  }

  /** Sorting what is sorted changes nothing. */
  lemma SortedStays<T(!new)>(s: seq<T>, le: (T, T) -> bool)
    requires Preorder(le) && Sorted(s, le)
    ensures Sort(s, le) == s
  {
    hide *;
    StableSortIsUnique(s, s, le);
  }

  lemma TiesOfNothing<T>(e: T, le: (T, T) -> bool)
    ensures Ties([], e, le) == []
  {
  }

  lemma {:induction false} TiesConcat<T>(a: seq<T>, b: seq<T>, e: T, le: (T, T) -> bool)
    ensures Ties(a + b, e, le) == Ties(a, e, le) + Ties(b, e, le)
  {
    hide Ties;
    if b == [] {
      assert a + b == a;
      TiesOfNothing(e, le);
    } else {
      var m := |b| - 1;
      TiesConcat(a, b[..m], e, le);
      assert a + b == (a + b[..m]) + [b[m]];
      TiesSnoc(a + b[..m], b[m], e, le);
      TiesSnoc(b[..m], b[m], e, le);
      assert b == b[..m] + [b[m]];
    }
  }

  /** Where exactly the elements from `lo` up to `hi` tie, they are the ties. */
  lemma {:induction false} TiesAreSlice<T>(s: seq<T>, e: T, le: (T, T) -> bool, lo: nat, hi: nat)
    requires lo <= hi <= |s|
    requires forall x :: 0 <= x < |s| ==> (le(s[x], e) && le(e, s[x]) <==> lo <= x < hi)
    ensures Ties(s, e, le) == s[lo..hi]
  {
    if s == [] {
      assert s[lo..hi] == [];
    } else {
      var m := |s| - 1;
      TiesAreSlice(s[..m], e, le, if lo > m then m else lo, if hi > m then m else hi);
      assert s[..m][if lo > m then m else lo..if hi > m then m else hi] + (if lo <= m < hi then [s[m]] else [])
        == s[lo..hi];
    }
  }
}
