/**
 * The clique search copies a candidate's chain into a work array of fixed length before it descends to
 * that candidate, and may compare with the entry behind the copy. Here is when that leaves the array, as
 * a property of the graph alone, and what the search keeps towards it.
 */
module CliqueOverrun {
  import opened Seqs
  import opened Cliques
  import opened CliqueSearch

  /** `x` is in the chain of every one of `heads`. */
  ghost predicate Shared(chain: seq<seq<int>>, heads: seq<int>, x: int)
    requires AllWithin(heads, 0, |chain| - 1)
  {
    forall i :: 0 <= i < |heads| ==> x in chain[heads[i]]
  }

  /**
   * Intersecting candidates from `k` on, the last of which is `x`, with the chain of `k` reads past
   * `size` entries: the chain is longer, or it fills them and its own last vertex is no candidate and
   * comes before `x`, so that the walk runs off the end of the chain first.
   */
  ghost predicate ReadsPast(chain: seq<seq<int>>, heads: seq<int>, k: int, x: int, size: nat)
    requires AllWithin(heads, 0, |chain| - 1) && 0 <= k < |chain| && chain[k] != []
  {
    var z := chain[k][|chain[k]| - 1];
    |chain[k]| > size || (|chain[k]| == size && !Shared(chain, heads, z) && z < x)
  }

  /** Descending to the last vertex of the clique `c`, with a further candidate behind it, reads past `size` entries. */
  ghost predicate Overruns(chain: seq<seq<int>>, c: seq<int>, size: nat)
    requires IsChains(chain)
  {
    IsClique(chain, c) && |c| >= 2 && OverrunsAt(chain, c[..|c| - 1], c[|c| - 1], size)
  }

  ghost predicate OverrunsAt(chain: seq<seq<int>>, heads: seq<int>, k: int, size: nat)
    requires AllWithin(heads, 0, |chain| - 1) && 0 <= k < |chain| && chain[k] != []
  {
    exists x :: k < x && Shared(chain, heads, x) && ReadsPast(chain, heads, k, x, size)
  }

  /** The cliques of the roots before `r` leave `r` worth searching. */
  ghost predicate Entered(ct: seq<int>, chain: seq<seq<int>>, r: int)
    requires |ct| == |chain| && IsChains(chain) && 0 <= r < |chain|
  {
    forall d :: IsClique(chain, d) && (d == [] || d[0] < r) ==> Weight(ct, d) < Weight(ct, chain[r])
  }

  /** Searching the graph leaves arrays of length `size`. */
  ghost predicate Overrun(ct: seq<int>, chain: seq<seq<int>>, size: nat)
    requires |ct| == |chain| && IsChains(chain)
  {
    exists c :: Overruns(chain, c, size) && Entered(ct, chain, c[0])
  }

  // --- Complete levels ------------------------------------------------------------------------

  /** Every level lists everything its heads have in common. */
  ghost predicate Complete(chain: seq<seq<int>>, st: seq<Level>)
    requires StackOk(chain, st)
  {
    forall d :: 0 <= d < |st| ==> CompleteAt(chain, st, d)
  }

  ghost predicate CompleteAt(chain: seq<seq<int>>, st: seq<Level>, d: nat)
    requires StackOk(chain, st) && d < |st|
  {
    HeadsWithin(chain, st);
    forall x :: Shared(chain, Heads(st)[..d + 1], x) ==> x in st[d].list
  }

  lemma HeadsWithin(chain: seq<seq<int>>, st: seq<Level>)
    requires StackOk(chain, st)
    ensures AllWithin(Heads(st), 0, |chain| - 1)
  {
    forall d | 0 <= d < |st| ensures 0 <= Heads(st)[d] <= |chain| - 1 {
      assert LevelOk(chain, st[d]);
    }
  }

  /** The vertices chosen so far are a clique. */
  lemma HeadsAreClique(chain: seq<seq<int>>, st: seq<Level>)
    requires StackOk(chain, st)
    ensures IsClique(chain, Heads(st))
  {
    HeadsWithin(chain, st);
    var h := Heads(st);
    forall i, j | 0 <= i < j < |h| ensures h[j] in chain[h[i]] {
      assert Under(chain, st[i].list[0], st[j].list);
    }
  }

  lemma StartIsComplete(chain: seq<seq<int>>, root: nat)
    requires IsChains(chain) && root < |chain|
    ensures StackOk(chain, [Level(chain[root], 1)]) && Complete(chain, [Level(chain[root], 1)])
  {
    StartIsOk(chain, root);
    var st := [Level(chain[root], 1)];
    forall x | Shared(chain, Heads(st)[..1], x) ensures x in st[0].list {
      assert Heads(st)[..1][0] == root;
    }
  }

  lemma DescendIsComplete(chain: seq<seq<int>>, st: seq<Level>)
    requires IsChains(chain) && StackOk(chain, st) && Complete(chain, st)
    requires st[|st| - 1].cursor + 1 < |st[|st| - 1].list|
    ensures StackOk(chain, Descend(chain, st)) && Complete(chain, Descend(chain, st))
  {
    hide StackOk, IsChains, Descend, CompleteAt;
    DescendIsOk(chain, st);
    DescendPushes(chain, st);
    var st', n := Descend(chain, st), |st|;
    forall d | 0 <= d < n ensures CompleteAt(chain, st', d) {
      PushKeepsComplete(chain, st, st'[n], d);
    }
    StackFacts(chain, st);
    assert CompleteAt(chain, st, n - 1);
    DescendedIsComplete(chain, st);
  }

  lemma PushKeepsComplete(chain: seq<seq<int>>, st: seq<Level>, l: Level, d: nat)
    requires StackOk(chain, st) && StackOk(chain, st + [l]) && d < |st| && CompleteAt(chain, st, d)
    ensures CompleteAt(chain, st + [l], d)
  {
    hide StackOk, Shared;
    HeadsWithin(chain, st);
    HeadsWithin(chain, st + [l]);
    StackFacts(chain, st);
    StackFacts(chain, st + [l]);
    assert Heads(st + [l])[..d + 1] == Heads(st)[..d + 1];
  }

  lemma DescendedIsComplete(chain: seq<seq<int>>, st: seq<Level>)
    requires IsChains(chain) && StackOk(chain, st) && CompleteAt(chain, st, |st| - 1)
    requires st[|st| - 1].cursor + 1 < |st[|st| - 1].list|
    ensures StackOk(chain, Descend(chain, st)) && CompleteAt(chain, Descend(chain, st), |st|)
  {
    hide StackOk, IsChains, Heads, Common;
    DescendIsOk(chain, st);
    StackFacts(chain, st);
    StackFacts(chain, Descend(chain, st));
    var st', n, top := Descend(chain, st), |st|, st[|st| - 1];
    var k, from := top.list[top.cursor], top.list[top.cursor..];
    HeadsOfPush(st, st'[n]);
    CommonMembers(from, chain[k]);
    forall x | Shared(chain, Heads(st')[..n + 1], x) ensures x in st'[n].list {
      assert Heads(st')[..n + 1] == Heads(st) + [k];
      SharedByFewer(chain, Heads(st) + [k], n, x);
      assert (Heads(st) + [k])[..n] == Heads(st)[..n];
      assert (Heads(st) + [k])[n] == k;
      AtOrAfter(chain, top.list, top.cursor, k, x);
    }
  }

  lemma HeadsOfPush(st: seq<Level>, l: Level)
    requires Shaped(st) && l.list != []
    ensures Heads(st + [l]) == Heads(st) + [l.list[0]]
  {
  }

  /** A member of the chain of the candidate at the cursor is listed at the cursor or later. */
  lemma AtOrAfter(chain: seq<seq<int>>, list: seq<int>, cursor: nat, k: int, x: int)
    requires IsChains(chain) && Ascending(list) && cursor < |list| && list[cursor] == k && 0 <= k < |chain|
    requires x in list && x in chain[k]
    ensures x in list[cursor..]
  {
    assert k <= x;
    InTail(list, cursor, x);
  }

  // --- What is still ahead --------------------------------------------------------------------

  /** The search has yet to descend to the last vertex of `c`. */
  ghost predicate Ahead(st: seq<Level>, c: seq<int>)
    requires Shaped(st)
  {
    exists d :: 0 <= d < |st| && d + 1 < |c| && PendingAt(st, d, c)
  }

  /** Every clique of the root whose descent would read past `size` entries is still ahead. */
  ghost predicate Guarded(chain: seq<seq<int>>, st: seq<Level>, root: int, size: nat)
    requires IsChains(chain) && Shaped(st)
  {
    forall c :: Overruns(chain, c, size) && c[0] == root ==> Ahead(st, c)
  }

  lemma StartIsGuarded(chain: seq<seq<int>>, root: nat, size: nat)
    requires IsChains(chain) && root < |chain|
    ensures Guarded(chain, [Level(chain[root], 1)], root, size)
  {
    var st := [Level(chain[root], 1)];
    forall c | Overruns(chain, c, size) && c[0] == root ensures Ahead(st, c) {
      forall i | 0 < i < |c| ensures c[i] in Rest(st, 0) {
        assert c[i] in chain[c[0]];
      }
      assert PendingAt(st, 0, c);
    }
  }

  lemma AheadSurvivesDescent(chain: seq<seq<int>>, st: seq<Level>, c: seq<int>)
    requires IsChains(chain) && StackOk(chain, st)
    requires st[|st| - 1].cursor + 1 < |st[|st| - 1].list|
    requires IsClique(chain, c) && Ahead(st, c)
    requires c != Heads(st) + [st[|st| - 1].list[st[|st| - 1].cursor]]
    ensures StackOk(chain, Descend(chain, st)) && Ahead(Descend(chain, st), c)
  {
    hide StackOk, IsChains, IsClique, LevelOk, PendingAt, Ascending, Common, Shaped, Descend;
    Around(chain, st, c);
    var t, st' := |st| - 1, Descend(chain, st);
    var k := st[t].list[st[t].cursor];
    var d :| 0 <= d < |st| && d + 1 < |c| && PendingAt(st, d, c);
    if d < t {
      PushKeepsSuspended(st, st'[t + 1], d, c);
    } else if c[t + 1] == k {
      DescendTakes(chain, st, c);
      NextHead(st, c);
    } else {
      PushSkips(st, st'[t + 1], c);
    }
  }

  /** The stack before and after a descent. */
  lemma Around(chain: seq<seq<int>>, st: seq<Level>, c: seq<int>)
    requires IsChains(chain) && StackOk(chain, st) && IsClique(chain, c)
    requires st[|st| - 1].cursor + 1 < |st[|st| - 1].list|
    ensures Shaped(st) && Ascending(c) && Ascending(st[|st| - 1].list)
    ensures var st' := Descend(chain, st);
      StackOk(chain, st') && Shaped(st') && |st'| == |st| + 1 && st' == st + [st'[|st|]]
  {
    hide Under, IsChains;
    DescendIsOk(chain, st);
    assert LevelOk(chain, st[|st| - 1]);
  }

  /** What is pending at the top and one longer than the stack is the heads and one candidate. */
  lemma NextHead(st: seq<Level>, c: seq<int>)
    requires Shaped(st) && PendingAt(st, |st| - 1, c) && |st| < |c|
    ensures |c| == |st| + 1 ==> c == Heads(st) + [c[|st|]]
  {
  }

  /** Descending past a candidate that does not overrun keeps the guard. */
  lemma DescendKeepsGuard(chain: seq<seq<int>>, st: seq<Level>, root: int, size: nat)
    requires IsChains(chain) && StackOk(chain, st) && Guarded(chain, st, root, size)
    requires st[|st| - 1].cursor + 1 < |st[|st| - 1].list|
    requires !Overruns(chain, Heads(st) + [st[|st| - 1].list[st[|st| - 1].cursor]], size)
    ensures StackOk(chain, Descend(chain, st)) && Guarded(chain, Descend(chain, st), root, size)
  {
    DescendIsOk(chain, st);
    hide Ahead, ReadsPast, Shared, StackOk, IsChains;
    forall c | Overruns(chain, c, size) && c[0] == root ensures Ahead(Descend(chain, st), c) {
      AheadSurvivesDescent(chain, st, c);
    }
  }

  /** With at most one candidate left, nothing that could overrun lies below this level. */
  lemma NothingBelowLeaf(chain: seq<seq<int>>, st: seq<Level>, c: seq<int>, size: nat)
    requires IsChains(chain) && StackOk(chain, st) && Complete(chain, st)
    requires |st[|st| - 1].list| - st[|st| - 1].cursor <= 1
    requires Overruns(chain, c, size) && |st| < |c|
    ensures !PendingAt(st, |st| - 1, c)
  {
    hide StackOk, IsChains, Complete, IsClique, ReadsPast, Heads;
    StackFacts(chain, st);
    var n, top := |st|, st[|st| - 1];
    if PendingAt(st, n - 1, c) {
      var heads, k := c[..|c| - 1], c[|c| - 1];
      var x := OverrunWitness(chain, c, size);
      assert Ascending(c) by { CliqueFacts(chain, c); }
      assert c[..n] == Heads(st) && heads[..n] == c[..n];
      SharedByFewer(chain, heads, n, x);
      CompleteTop(chain, st, x);
      assert c[n] in Rest(st, n - 1) && c[n] <= k;
      TwoCandidates(top.list, top.cursor, c[n], x);
    }
  }

  lemma OverrunWitness(chain: seq<seq<int>>, c: seq<int>, size: nat) returns (x: int)
    requires IsChains(chain) && Overruns(chain, c, size)
    ensures AllWithin(c[..|c| - 1], 0, |chain| - 1) && c[|c| - 1] < x && Shared(chain, c[..|c| - 1], x)
  {
    var heads, k := c[..|c| - 1], c[|c| - 1];
    x :| k < x && Shared(chain, heads, x) && ReadsPast(chain, heads, k, x, size);
  }

  lemma CliqueFacts(chain: seq<seq<int>>, c: seq<int>)
    requires IsClique(chain, c)
    ensures Ascending(c) && AllWithin(c, 0, |chain| - 1)
  {
  }

  lemma StackFacts(chain: seq<seq<int>>, st: seq<Level>)
    requires StackOk(chain, st)
    ensures Shaped(st) && LevelOk(chain, st[|st| - 1]) && AllWithin(Heads(st), 0, |chain| - 1)
  {
    hide Under;
    HeadsWithin(chain, st);
  }

  lemma SharedByFewer(chain: seq<seq<int>>, heads: seq<int>, n: nat, x: int)
    requires n <= |heads| && AllWithin(heads, 0, |chain| - 1) && Shared(chain, heads, x)
    ensures Shared(chain, heads[..n], x)
  {
    forall i | 0 <= i < n ensures x in chain[heads[..n][i]] { assert heads[i] == heads[..n][i]; }
  }

  /** What all the heads share is listed at the top. */
  lemma CompleteTop(chain: seq<seq<int>>, st: seq<Level>, x: int)
    requires StackOk(chain, st) && Complete(chain, st) && AllWithin(Heads(st), 0, |chain| - 1)
    requires Shared(chain, Heads(st), x)
    ensures x in st[|st| - 1].list
  {
    hide StackOk, Heads, Shared;
    StackFacts(chain, st);
    assert CompleteAt(chain, st, |st| - 1);
    assert Heads(st)[..|st|] == Heads(st);
  }

  lemma TwoCandidates(list: seq<int>, cursor: nat, a: int, x: int)
    requires Ascending(list) && cursor <= |list| && a in list[cursor..] && x in list && a < x
    ensures |list| - cursor >= 2
  {
    var i :| 0 <= i < |list| - cursor && list[cursor..][i] == a;
    var j :| 0 <= j < |list| && list[j] == x;
    assert list[cursor + i] == a;
  }

  /** Leaving a level keeps the guard; leaving the root, there is nothing left to guard. */
  lemma LeafKeepsGuard(chain: seq<seq<int>>, st: seq<Level>, root: int, size: nat)
    requires IsChains(chain) && StackOk(chain, st) && Complete(chain, st) && Guarded(chain, st, root, size)
    requires |st[|st| - 1].list| - st[|st| - 1].cursor <= 1
    ensures |st| > 1 ==> Shaped(Pop(st)) && Guarded(chain, Pop(st), root, size)
    ensures |st| == 1 ==> forall c :: Overruns(chain, c, size) ==> c[0] != root
  {
    if |st| > 1 { PopIsOk(chain, st); }
    hide StackOk, IsChains, Complete, Overruns, Pop;
    forall c | Overruns(chain, c, size) && c[0] == root
      ensures |st| > 1 && Shaped(Pop(st)) && Ahead(Pop(st), c)
    {
      var d :| 0 <= d < |st| && d + 1 < |c| && PendingAt(st, d, c);
      if d == |st| - 1 {
        NothingBelowLeaf(chain, st, c, size);
      } else {
        PopKeepsPendingAt(st, d, c);
        PopIsShorter(st);
      }
    }
  }

  lemma PopIsShorter(st: seq<Level>)
    requires |st| > 1
    ensures |Pop(st)| == |st| - 1
  {
  }

  lemma PopIsComplete(chain: seq<seq<int>>, st: seq<Level>)
    requires StackOk(chain, st) && |st| > 1 && Complete(chain, st)
    ensures StackOk(chain, Pop(st)) && Complete(chain, Pop(st))
  {
    PopIsOk(chain, st);
    var st' := Pop(st);
    HeadsWithin(chain, st);
    HeadsWithin(chain, st');
    assert forall d :: 0 <= d < |st'| ==> st'[d].list == st[d].list;
    forall d | 0 <= d < |st'| ensures CompleteAt(chain, st', d) {
      assert CompleteAt(chain, st, d);
      assert Heads(st')[..d + 1] == Heads(st)[..d + 1];
    }
  }

  /** What the walk would find out about the candidate at the cursor is what the graph says of it. */
  lemma CandidateOverruns(chain: seq<seq<int>>, st: seq<Level>, size: nat)
    requires IsChains(chain) && StackOk(chain, st) && Complete(chain, st)
    requires st[|st| - 1].cursor + 1 < |st[|st| - 1].list|
    ensures var from := st[|st| - 1].list[st[|st| - 1].cursor..];
      Overruns(chain, Heads(st) + [from[0]], size) <==>
        var b := chain[from[0]];
        |b| > size || (|b| == size && b[|b| - 1] !in from && b[|b| - 1] < from[|from| - 1])
  {
    hide StackOk, Complete, IsClique, Heads, IsChains, Shared, OverrunsAt;
    StackFacts(chain, st);
    var top := st[|st| - 1];
    var from, heads := top.list[top.cursor..], Heads(st);
    CandidateIsClique(chain, st);
    forall x | from[0] <= x ensures Shared(chain, heads, x) <==> x in from {
      CandidatesAreShared(chain, st, x);
    }
    ExtensionOverruns(chain, heads, from, size);
    var c := heads + [from[0]];
    assert c[..|c| - 1] == heads && c[|c| - 1] == from[0];
  }

  lemma ExtensionOverruns(chain: seq<seq<int>>, heads: seq<int>, from: seq<int>, size: nat)
    requires IsChains(chain) && |from| >= 2 && Ascending(from)
    requires AllWithin(heads, 0, |chain| - 1) && 0 <= from[0] < |chain|
    requires forall x :: from[0] <= x ==> (Shared(chain, heads, x) <==> x in from)
    ensures OverrunsAt(chain, heads, from[0], size) <==>
      var b := chain[from[0]];
      |b| > size || (|b| == size && b[|b| - 1] !in from && b[|b| - 1] < from[|from| - 1])
  {
    hide Shared;
    var k, last := from[0], from[|from| - 1];
    var b := chain[k];
    var z := b[|b| - 1];
    assert k < last && last in from && k <= z;
    if |b| > size || (|b| == size && z !in from && z < last) {
      assert Shared(chain, heads, last) && ReadsPast(chain, heads, k, last, size);
    } else {
      forall x | k < x && Shared(chain, heads, x) ensures !ReadsPast(chain, heads, k, x, size) {
        assert x in from && x <= last;
      }
    }
  }

  lemma CandidateIsClique(chain: seq<seq<int>>, st: seq<Level>)
    requires StackOk(chain, st) && st[|st| - 1].cursor < |st[|st| - 1].list|
    ensures IsClique(chain, Heads(st) + [st[|st| - 1].list[st[|st| - 1].cursor]])
  {
    HeadsAreClique(chain, st);
    var top, h := st[|st| - 1], Heads(st);
    var c := h + [top.list[top.cursor]];
    assert LevelOk(chain, top);
    forall i | 0 <= i < |h| ensures h[i] < c[|h|] && c[|h|] in chain[h[i]] {
      assert Under(chain, st[i].list[0], top.list);
    }
  }

  /** The candidates from the cursor on are what the heads share from there on. */
  lemma CandidatesAreShared(chain: seq<seq<int>>, st: seq<Level>, x: int)
    requires IsChains(chain) && StackOk(chain, st) && Complete(chain, st)
    requires st[|st| - 1].cursor < |st[|st| - 1].list|
    requires st[|st| - 1].list[st[|st| - 1].cursor] <= x
    ensures AllWithin(Heads(st), 0, |chain| - 1)
    ensures Shared(chain, Heads(st), x) <==> x in st[|st| - 1].list[st[|st| - 1].cursor..]
  {
    hide StackOk, IsChains, Complete, Heads;
    StackFacts(chain, st);
    var top := st[|st| - 1];
    if Shared(chain, Heads(st), x) {
      CompleteTop(chain, st, x);
      InTail(top.list, top.cursor, x);
    }
    if x in top.list[top.cursor..] {
      var j :| 0 <= j < |top.list| - top.cursor && top.list[top.cursor..][j] == x;
      assert top.list[top.cursor + j] == x;
      ListedIsShared(chain, st, top.cursor + j);
    }
  }

  lemma InTail(list: seq<int>, cursor: nat, x: int)
    requires Ascending(list) && cursor < |list| && x in list && list[cursor] <= x
    ensures x in list[cursor..]
  {
    var i :| 0 <= i < |list| && list[i] == x;
    assert cursor <= i;
    assert list[cursor..][i - cursor] == x;
  }

  lemma ListedIsShared(chain: seq<seq<int>>, st: seq<Level>, i: nat)
    requires StackOk(chain, st) && i < |st[|st| - 1].list| && AllWithin(Heads(st), 0, |chain| - 1)
    ensures Shared(chain, Heads(st), st[|st| - 1].list[i])
  {
    forall d | 0 <= d < |st| ensures st[|st| - 1].list[i] in chain[Heads(st)[d]] {
      assert Under(chain, st[d].list[0], st[|st| - 1].list);
    }
  }

  // --- Over all roots -------------------------------------------------------------------------

  /** A root is entered exactly when its whole chain outweighs the best of the roots before it. */
  lemma EnteredIffHeavier(ct: seq<int>, chain: seq<seq<int>>, r: int, best: seq<int>, score: int)
    requires |ct| == |chain| && IsChains(chain) && 0 <= r < |chain|
    requires forall d :: IsClique(chain, d) && (d == [] || d[0] < r) ==> Weight(ct, d) <= score
    requires IsClique(chain, best) && Weight(ct, best) == score && (best == [] || best[0] < r)
    ensures Entered(ct, chain, r) <==> score < Weight(ct, chain[r])
  {
  }

  /** A root's own chain may be as long as it likes: only the chains of its candidates have to fit. */
  lemma ShortCandidatesStay(ct: seq<int>, chain: seq<seq<int>>, size: nat)
    requires |ct| == |chain| && IsChains(chain)
    requires forall r, k :: 0 <= r < k < |chain| && k in chain[r] ==> |chain[k]| < size
    ensures !Overrun(ct, chain, size)
  {
    forall c ensures !Overruns(chain, c, size) {
      if IsClique(chain, c) && |c| >= 2 {
        var r, k := c[0], c[|c| - 1];
        assert r < k && k in chain[r];
      }
    }
  }

  /** What a caller can check: a graph with no more vertices than the arrays have entries stays inside them. */
  lemma FewVerticesStay(ct: seq<int>, chain: seq<seq<int>>, size: nat)
    requires |ct| == |chain| && IsChains(chain) && |chain| <= size
    ensures !Overrun(ct, chain, size)
  {
    forall r, k | 0 <= r < k < |chain| && k in chain[r] ensures |chain[k]| < size {
      AscendingIsShort(chain[k], k, |chain| - 1);
    }
    ShortCandidatesStay(ct, chain, size);
  }

  /**
   * A chain that just fits overruns all the same when the candidate's own last vertex is none of its root's and
   * the root has a later one: the walk then compares with the entry behind the copy.
   */
  lemma FullCopyOverruns(chain: seq<seq<int>>)
    requires chain == [[0, 1, 3], [1, 2], [2], [3]]
    ensures IsChains(chain) && Overrun([3, 3, 3, 3], chain, 2)
  {
    assert chain[0] == [0, 1, 3] && chain[1] == [1, 2] && chain[2] == [2] && chain[3] == [3];
    var c := [0, 1];
    assert c[..1] == [0] && 1 in chain[0] && 3 in chain[0];
    hide *;
    FullCopyReadsPast(chain);
    FirstRootIsEntered(chain);
    OverrunBy([3, 3, 3, 3], chain, c, 2);
  }

  lemma OverrunBy(ct: seq<int>, chain: seq<seq<int>>, c: seq<int>, size: nat)
    requires |ct| == |chain| && IsChains(chain) && Overruns(chain, c, size) && Entered(ct, chain, c[0])
    ensures Overrun(ct, chain, size)
  {
  }

  lemma FullCopyReadsPast(chain: seq<seq<int>>)
    requires |chain| == 4 && chain[0] == [0, 1, 3] && chain[1] == [1, 2] && chain[2] == [2] && chain[3] == [3]
    ensures IsChains(chain) && Overruns(chain, [0, 1], 2)
  {
    var heads := [0];
    assert [0, 1][..1] == heads && chain[heads[0]] == [0, 1, 3];
    assert chain[0][1] in chain[0] && chain[0][2] in chain[0];
    assert Shared(chain, heads, 3);
    assert 2 !in chain[heads[0]];
    assert ReadsPast(chain, heads, 1, 3, 2);
  }

  lemma FirstRootIsEntered(chain: seq<seq<int>>)
    requires |chain| == 4 && IsChains(chain) && chain[0] == [0, 1, 3]
    ensures Entered([3, 3, 3, 3], chain, 0)
  {
    var ct := [3, 3, 3, 3];
    assert [0, 1, 3][..2] == [0, 1] && [0, 1][..1] == [0] && [0][..0] == [];
    assert Weight(ct, [0]) == 3 && Weight(ct, [0, 1]) == 6 && Weight(ct, [0, 1, 3]) == 9;
    forall d | IsClique(chain, d) && (d == [] || d[0] < 0) ensures Weight(ct, d) < Weight(ct, chain[0]) {
      assert d == [];
    }
  }

  // --- The walk -------------------------------------------------------------------------------

  /** Intersecting `list` from `from` on with `other` compares with the entry behind `other`. */
  ghost predicate RunsOff(list: seq<int>, from: nat, other: seq<int>)
    requires from < |list| && other != []
  {
    var z := other[|other| - 1];
    z !in list[from..] && z < list[|list| - 1]
  }

  /** `other` is used up while a later element of `list` is still to come. */
  lemma WalkRunsOff(list: seq<int>, from: nat, kk: nat, other: seq<int>, jj: nat)
    requires from < |list| && other != [] && from <= kk < |list| && Ascending(list) && Ascending(other)
    requires jj < |other| && (from < kk ==> list[kk - 1] < other[jj]) && other[|other| - 1] < list[kk]
    ensures RunsOff(list, from, other)
  {
    var z := other[|other| - 1];
    forall i | from <= i < |list| ensures list[i] != z {
      if i < kk { assert list[i] <= list[kk - 1] < other[jj] <= z; } else { assert z < list[kk] <= list[i]; }
    }
  }

  /** The walk has stopped with the last of `other` met, or with none of `list` beyond it. */
  lemma WalkStaysOn(list: seq<int>, from: nat, kk: nat, other: seq<int>, jj: nat)
    requires from < |list| && other != [] && Merging(list, from, kk, other, jj) && from < kk
    requires if jj == |other| then list[kk - 1] == other[jj - 1] else kk == |list|
    ensures !RunsOff(list, from, other)
  {
    var z := other[|other| - 1];
    if jj == |other| {
      assert list[from..][kk - 1 - from] == z;
    } else {
      assert list[|list| - 1] < other[jj] <= z;
    }
  }
}
