/**
 * The depth-first clique search, as a stack of levels.
 *
 * A level holds the candidates that survive every choice made above it, first its own choice (the
 * head), and a cursor to the next candidate to try. A level is left when at most one candidate
 * remains at its cursor; that candidate is then taken without descending.
 */
module CliqueSearch {
  import opened Seqs
  import opened Cliques

  datatype Level = Level(list: seq<int>, cursor: nat)

  ghost predicate LevelOk(chain: seq<seq<int>>, l: Level) {
    && 1 <= l.cursor <= |l.list|
    && Ascending(l.list) && AllWithin(l.list, 0, |chain| - 1)
  }

  /** A suspended level has another candidate to move on to. */
  ghost predicate Shaped(st: seq<Level>) {
    && st != []
    && (forall d :: 0 <= d < |st| ==> 1 <= st[d].cursor <= |st[d].list|)
    && forall d :: 0 <= d < |st| - 1 ==> st[d].cursor + 1 < |st[d].list|
  }

  ghost predicate StackOk(chain: seq<seq<int>>, st: seq<Level>) {
    && Shaped(st)
    && (forall d :: 0 <= d < |st| ==> LevelOk(chain, st[d]))
    && (forall d, e :: 0 <= d < e < |st| ==> st[d].list[0] < st[e].list[0])
    && forall d, e :: 0 <= d <= e < |st| ==> Under(chain, st[d].list[0], st[e].list)
  }

  /** Every candidate in `list` is the head `h` itself or compatible with it. */
  ghost predicate Under(chain: seq<seq<int>>, h: int, list: seq<int>) {
    0 <= h < |chain| && forall i :: 0 <= i < |list| ==> list[i] in chain[h]
  }

  /** The vertices chosen so far. */
  ghost function Heads(st: seq<Level>): (r: seq<int>)
    requires forall d :: 0 <= d < |st| ==> st[d].list != []
    ensures |r| == |st| && forall d :: 0 <= d < |r| ==> r[d] == st[d].list[0]
  {
    seq(|st|, d requires 0 <= d < |st| => st[d].list[0])
  }

  /** What level `d` may still add: a suspended level has its current candidate being tried below. */
  ghost function Rest(st: seq<Level>, d: nat): (r: seq<int>)
    requires d < |st| && st[d].cursor + (if d == |st| - 1 then 0 else 1) <= |st[d].list|
  {
    st[d].list[st[d].cursor + (if d == |st| - 1 then 0 else 1)..]
  }

  ghost predicate PendingAt(st: seq<Level>, d: nat, c: seq<int>)
    requires Shaped(st) && d < |st|
  {
    && d < |c|
    && (forall e :: 0 <= e <= d ==> c[e] == Heads(st)[e])
    && forall i :: d < i < |c| ==> c[i] in Rest(st, d)
  }

  /** The search has yet to account for `c`. */
  ghost predicate Pending(st: seq<Level>, c: seq<int>)
    requires Shaped(st)
  {
    exists d :: 0 <= d < |st| && PendingAt(st, d, c)
  }

  /** The clique a level with at most one remaining candidate is valued at. */
  ghost function Leaf(st: seq<Level>): (r: seq<int>)
    requires st != [] && (forall d :: 0 <= d < |st| ==> 1 <= st[d].cursor <= |st[d].list|)
  {
    Heads(st) + st[|st| - 1].list[st[|st| - 1].cursor..]
  }

  /** One level down: the candidates at or after the cursor that are compatible with the first of them. */
  ghost function Descend(chain: seq<seq<int>>, st: seq<Level>): (r: seq<Level>)
    requires StackOk(chain, st)
    requires st[|st| - 1].cursor + 1 < |st[|st| - 1].list|
  {
    var top := st[|st| - 1];
    st + [Level(Common(top.list[top.cursor..], chain[top.list[top.cursor]]), 1)]
  }

  /** One level up: the level above moves on to its next candidate. */
  ghost function Pop(st: seq<Level>): (r: seq<Level>)
    requires |st| > 1
  {
    var m := |st| - 2;
    st[..m] + [Level(st[m].list, st[m].cursor + 1)]
  }

  lemma StartIsOk(chain: seq<seq<int>>, root: nat)
    requires IsChains(chain) && root < |chain|
    ensures StackOk(chain, [Level(chain[root], 1)])
    ensures forall c :: IsClique(chain, c) && c != [] && c[0] == root ==> Pending([Level(chain[root], 1)], c)
  {
    var st := [Level(chain[root], 1)];
    forall c | IsClique(chain, c) && c != [] && c[0] == root
      ensures Pending(st, c)
    {
      forall i | 0 < i < |c| ensures c[i] in Rest(st, 0) {
        assert c[i] in chain[c[0]];
      }
      assert PendingAt(st, 0, c);
    }
  }

  lemma LeafIsClique(chain: seq<seq<int>>, st: seq<Level>)
    requires IsChains(chain) && StackOk(chain, st)
    requires |st[|st| - 1].list| - st[|st| - 1].cursor <= 1
    ensures IsClique(chain, Leaf(st))
  {
    var leaf, t := Leaf(st), |st| - 1;
    forall i, j | 0 <= i < j < |leaf| ensures leaf[i] < leaf[j] && leaf[j] in chain[leaf[i]] {
      if j <= t {
        assert Under(chain, st[i].list[0], st[j].list);
      } else {
        assert leaf[j] == st[t].list[st[t].cursor];
        assert Under(chain, st[i].list[0], st[t].list);
      }
    }
  }

  /** Valuing a leaf settles everything that was pending at the top. */
  lemma {:induction false} LeafCovers(ct: seq<int>, chain: seq<seq<int>>, st: seq<Level>, c: seq<int>)
    requires |ct| == |chain| && IsChains(chain) && StackOk(chain, st)
    requires forall i :: 0 <= i < |ct| ==> ct[i] >= 0
    requires |st[|st| - 1].list| - st[|st| - 1].cursor <= 1
    requires IsClique(chain, c) && PendingAt(st, |st| - 1, c)
    ensures IsClique(chain, Leaf(st)) && Weight(ct, c) <= Weight(ct, Leaf(st))
  {
    LeafIsClique(chain, st);
    var leaf, t := Leaf(st), |st| - 1;
    assert Ascending(c) && AllWithin(c, 0, |chain| - 1);
    assert Ascending(leaf) && AllWithin(leaf, 0, |chain| - 1);
    hide StackOk, IsChains, IsClique, Ascending;
    forall x | x in c ensures x in leaf {
      var i :| 0 <= i < |c| && c[i] == x;
      if i <= t {
        assert leaf[i] == x;
      } else {
        var k :| 0 <= k < |Rest(st, t)| && Rest(st, t)[k] == x;
        assert leaf[|st| + k] == x;
      }
    }
    SublistWeight(ct, c, leaf);
  }

  lemma DescendedList(chain: seq<seq<int>>, l: Level)
    requires IsChains(chain) && LevelOk(chain, l) && l.cursor < |l.list|
    ensures var k, list := l.list[l.cursor], Common(l.list[l.cursor..], chain[l.list[l.cursor]]);
      && 1 <= |list| <= |l.list| - l.cursor && list[0] == k && Ascending(list)
      && forall i :: 0 <= i < |list| ==> list[i] in l.list && list[i] in chain[k]
  {
    var k, from := l.list[l.cursor], l.list[l.cursor..];
    var list := Common(from, chain[k]);
    assert chain[k][0] == k && from[0] == k;
    CommonAscends(from, chain[k]);
    CommonHead(from, chain[k]);
    CommonMembers(from, chain[k]);
    forall i | 0 <= i < |list| ensures list[i] in l.list && list[i] in chain[k] {
      assert list[i] in list;
      assert list[i] in from;
    }
  }

  lemma PushIsOk(chain: seq<seq<int>>, st: seq<Level>, l: Level)
    requires StackOk(chain, st) && LevelOk(chain, l)
    requires st[|st| - 1].cursor + 1 < |st[|st| - 1].list|
    requires st[|st| - 1].list[0] < l.list[0]
    requires Under(chain, l.list[0], l.list)
    requires forall d :: 0 <= d < |st| ==> Under(chain, st[d].list[0], l.list)
    ensures StackOk(chain, st + [l])
  {
  }

  lemma UnderSublist(chain: seq<seq<int>>, h: int, list: seq<int>, sub: seq<int>)
    requires Under(chain, h, list)
    requires forall i :: 0 <= i < |sub| ==> sub[i] in list
    ensures Under(chain, h, sub)
  {
  }

  lemma DescendIsOk(chain: seq<seq<int>>, st: seq<Level>)
    requires IsChains(chain) && StackOk(chain, st)
    requires st[|st| - 1].cursor + 1 < |st[|st| - 1].list|
    ensures StackOk(chain, Descend(chain, st))
    ensures |Descend(chain, st)[|st|].list| <= |st[|st| - 1].list| - st[|st| - 1].cursor
    ensures Descend(chain, st)[|st|].list[0] == st[|st| - 1].list[st[|st| - 1].cursor]
  {
    var top := st[|st| - 1];
    DescendedList(chain, top);
    var list := Common(top.list[top.cursor..], chain[top.list[top.cursor]]);
    forall d | 0 <= d < |st| ensures Under(chain, st[d].list[0], list) {
      UnderSublist(chain, st[d].list[0], top.list, list);
    }
    PushIsOk(chain, st, Level(list, 1));
  }

  lemma PushKeepsSuspended(st: seq<Level>, l: Level, d: nat, c: seq<int>)
    requires Shaped(st) && Shaped(st + [l])
    requires d < |st| - 1 && PendingAt(st, d, c)
    ensures PendingAt(st + [l], d, c)
  {
    assert Rest(st + [l], d) == Rest(st, d);
  }

  lemma DescendPushes(chain: seq<seq<int>>, st: seq<Level>)
    requires StackOk(chain, st) && st[|st| - 1].cursor + 1 < |st[|st| - 1].list|
    ensures var st' := Descend(chain, st); |st'| == |st| + 1 && st' == st + [st'[|st|]] && st'[|st|].cursor == 1
  {
    hide Common, StackOk;
  }

  lemma DescendKeepsPending(chain: seq<seq<int>>, st: seq<Level>, c: seq<int>)
    requires IsChains(chain) && StackOk(chain, st)
    requires st[|st| - 1].cursor + 1 < |st[|st| - 1].list|
    requires IsClique(chain, c) && Pending(st, c)
    ensures StackOk(chain, Descend(chain, st)) && Pending(Descend(chain, st), c)
  {
    DescendIsOk(chain, st);
    DescendPushes(chain, st);
    var t := |st| - 1;
    assert Ascending(c) && Ascending(st[t].list);
    hide StackOk, IsChains, IsClique, PendingAt, LevelOk, Common, Descend, Ascending, Under;
    var d :| 0 <= d < |st| && PendingAt(st, d, c);
    if d < t {
      PushKeepsSuspended(st, Descend(chain, st)[t + 1], d, c);
    } else if t + 1 < |c| && c[t + 1] == st[t].list[st[t].cursor] {
      DescendTakes(chain, st, c);
    } else {
      PushSkips(st, Descend(chain, st)[t + 1], c);
    }
  }

  /** A clique that takes the candidate at the cursor is pending one level down. */
  lemma DescendTakes(chain: seq<seq<int>>, st: seq<Level>, c: seq<int>)
    requires IsChains(chain) && StackOk(chain, st)
    requires st[|st| - 1].cursor + 1 < |st[|st| - 1].list|
    requires IsClique(chain, c) && PendingAt(st, |st| - 1, c)
    requires |st| < |c| && c[|st|] == st[|st| - 1].list[st[|st| - 1].cursor]
    ensures StackOk(chain, Descend(chain, st)) && PendingAt(Descend(chain, st), |st|, c)
  {
    DescendIsOk(chain, st);
    var n, k := |st|, c[|st|];
    var l := Descend(chain, st)[n];
    CommonMembers(st[n - 1].list[st[n - 1].cursor..], chain[k]);
    forall i | n < i < |c| ensures c[i] in l.list && c[i] != k {
      assert c[i] in Rest(st, n - 1) && c[i] in chain[k];
    }
    PushTakes(st, l, c);
  }

  lemma PushTakes(st: seq<Level>, l: Level, c: seq<int>)
    requires Shaped(st) && Shaped(st + [l]) && l.cursor == 1
    requires PendingAt(st, |st| - 1, c)
    requires l.list != [] && |st| < |c| && c[|st|] == l.list[0]
    requires forall i :: |st| < i < |c| ==> c[i] in l.list && c[i] != l.list[0]
    ensures PendingAt(st + [l], |st|, c)
  {
    forall i | |st| < i < |c| ensures c[i] in l.list[1..] {
      assert l.list == [l.list[0]] + l.list[1..];
    }
  }

  /** One that does not is pending at the level now suspended. */
  lemma PushSkips(st: seq<Level>, l: Level, c: seq<int>)
    requires Shaped(st) && Shaped(st + [l])
    requires PendingAt(st, |st| - 1, c) && st[|st| - 1].cursor + 1 < |st[|st| - 1].list|
    requires Ascending(c) && Ascending(st[|st| - 1].list)
    requires |st| < |c| ==> c[|st|] != st[|st| - 1].list[st[|st| - 1].cursor]
    ensures PendingAt(st + [l], |st| - 1, c)
  {
    var n, top := |st|, st[|st| - 1];
    forall i | n <= i < |c| ensures c[i] in Rest(st + [l], n - 1) {
      assert c[n] in Rest(st, n - 1) && c[i] in Rest(st, n - 1);
      LaterOnly(top.list[top.cursor..], c[n], c[i]);
    }
  }

  lemma LaterOnly(all: seq<int>, x: int, y: int)
    requires all != [] && Ascending(all) && x in all && y in all && x <= y && x != all[0]
    ensures y in all[1..]
  {
    assert all == [all[0]] + all[1..];
    assert all[0] < x;
  }

  lemma PopIsOk(chain: seq<seq<int>>, st: seq<Level>)
    requires StackOk(chain, st) && |st| > 1
    ensures StackOk(chain, Pop(st))
  {
  }

  lemma PopKeepsPending(st: seq<Level>, c: seq<int>)
    requires Shaped(st) && |st| > 1
    requires Pending(st, c) && !PendingAt(st, |st| - 1, c)
    ensures Shaped(Pop(st)) && Pending(Pop(st), c)
  {
    var d :| 0 <= d < |st| && PendingAt(st, d, c);
    PopKeepsPendingAt(st, d, c);
  }

  lemma PopKeepsPendingAt(st: seq<Level>, d: nat, c: seq<int>)
    requires Shaped(st) && d < |st| - 1 && PendingAt(st, d, c)
    ensures Shaped(Pop(st)) && PendingAt(Pop(st), d, c)
  {
    var st' := Pop(st);
    assert forall e :: 0 <= e < |st'| ==> st'[e].list == st[e].list;
    assert Rest(st', d) == Rest(st, d);
  }

  /** Every clique rooted at `root` weighs at most `best` or is still pending. */
  ghost predicate Settled(ct: seq<int>, chain: seq<seq<int>>, st: seq<Level>, root: int, best: int)
    requires |ct| == |chain| && Shaped(st)
  {
    forall c :: IsClique(chain, c) && c != [] && c[0] == root ==> Weight(ct, c) <= best || Pending(st, c)
  }

  lemma DescendKeepsSettled(ct: seq<int>, chain: seq<seq<int>>, st: seq<Level>, root: int, best: int)
    requires |ct| == |chain| && IsChains(chain) && StackOk(chain, st)
    requires st[|st| - 1].cursor + 1 < |st[|st| - 1].list|
    requires Settled(ct, chain, st, root, best)
    ensures StackOk(chain, Descend(chain, st)) && Settled(ct, chain, Descend(chain, st), root, best)
  {
    DescendIsOk(chain, st);
    hide IsClique, StackOk, IsChains;
    forall c | IsClique(chain, c) && c != [] && c[0] == root && Pending(st, c)
      ensures Pending(Descend(chain, st), c)
    {
      DescendKeepsPending(chain, st, c);
    }
  }

  /** After the top's leaf has been valued, only the levels above it can still owe anything. */
  lemma LeafSettles(ct: seq<int>, chain: seq<seq<int>>, st: seq<Level>, root: int, best: int, best': int)
    requires |ct| == |chain| && IsChains(chain) && StackOk(chain, st)
    requires forall i :: 0 <= i < |ct| ==> ct[i] >= 0
    requires |st[|st| - 1].list| - st[|st| - 1].cursor <= 1
    requires Settled(ct, chain, st, root, best)
    requires IsClique(chain, Leaf(st)) && best <= best' && Weight(ct, Leaf(st)) <= best'
    ensures |st| > 1 ==> Shaped(Pop(st)) && Settled(ct, chain, Pop(st), root, best')
    ensures |st| == 1 ==> forall c :: IsClique(chain, c) && c != [] && c[0] == root ==> Weight(ct, c) <= best'
  {
    forall c | IsClique(chain, c) && c != [] && c[0] == root && Weight(ct, c) > best'
      ensures |st| > 1 && Shaped(Pop(st)) && Pending(Pop(st), c)
    {
      LeafOwesNothing(ct, chain, st, c, best');
    }
    if |st| > 1 { PopIsOk(chain, st); }
  }

  lemma LeafOwesNothing(ct: seq<int>, chain: seq<seq<int>>, st: seq<Level>, c: seq<int>, best: int)
    requires |ct| == |chain| && IsChains(chain) && StackOk(chain, st)
    requires forall i :: 0 <= i < |ct| ==> ct[i] >= 0
    requires |st[|st| - 1].list| - st[|st| - 1].cursor <= 1
    requires IsClique(chain, c) && Pending(st, c)
    requires IsClique(chain, Leaf(st)) && Weight(ct, Leaf(st)) <= best < Weight(ct, c)
    ensures |st| > 1 && Shaped(Pop(st)) && Pending(Pop(st), c)
  {
    hide IsClique, IsChains, Under, LevelOk, Weight, Pop, PendingAt;
    if PendingAt(st, |st| - 1, c) {
      LeafCovers(ct, chain, st, c);
    } else {
      PopKeepsPending(st, c);
    }
  }

  // --- Termination ----------------------------------------------------------------------------

  /** An upper bound on the steps a level with `r` untried candidates can still take. */
  ghost function Effort(r: nat): (e: nat)
    ensures e >= 1
  {
    if r == 0 then 1 else 2 * Effort(r - 1) + 1
  }

  lemma EffortMonotone(a: nat, b: nat)
    requires a <= b
    ensures Effort(a) <= Effort(b)
  {
  }

  ghost function Remaining(chain: seq<seq<int>>, st: seq<Level>): (w: nat)
    requires StackOk(chain, st)
  {
    Suspended(st[..|st| - 1]) + Effort(|st[|st| - 1].list| - st[|st| - 1].cursor)
  }

  ghost function Suspended(st: seq<Level>): (w: nat)
    requires forall d :: 0 <= d < |st| ==> st[d].cursor < |st[d].list|
  {
    if st == [] then 0 else
    Suspended(st[..|st| - 1]) + Effort(|st[|st| - 1].list| - st[|st| - 1].cursor - 1)
  }

  lemma DescendShrinks(chain: seq<seq<int>>, st: seq<Level>)
    requires IsChains(chain) && StackOk(chain, st)
    requires st[|st| - 1].cursor + 1 < |st[|st| - 1].list|
    ensures StackOk(chain, Descend(chain, st))
    ensures Remaining(chain, Descend(chain, st)) < Remaining(chain, st)
  {
    DescendIsOk(chain, st);
    var st', t := Descend(chain, st), |st| - 1;
    assert st'[..|st|] == st && st'[..|st|][..t] == st[..t];
    EffortMonotone(|st'[t + 1].list| - 1, |st[t].list| - st[t].cursor - 1);
  }

  lemma TriedOnes(chain: seq<seq<int>>, st: seq<Level>)
    requires StackOk(chain, st)
    ensures forall d :: 0 <= d < |st| - 1 ==> st[d].cursor + 1 < |st[d].list|
    ensures st != [] && st[|st| - 1].cursor <= |st[|st| - 1].list|
  {
  }

  lemma PopShrinks(chain: seq<seq<int>>, st: seq<Level>)
    requires StackOk(chain, st) && |st| > 1
    ensures StackOk(chain, Pop(st))
    ensures Remaining(chain, Pop(st)) < Remaining(chain, st)
  {
    hide StackOk, Effort;
    PopIsOk(chain, st);
    TriedOnes(chain, st);
    var m := |st| - 2;
    assert Pop(st)[..m] == st[..m] == st[..m + 1][..m];
  }

  /**
   * How `b` and `n` describe the leaf: entering a level they take its whole list under the heads
   * above it; coming back to one, its last candidate under the heads down to its own.
   */
  ghost predicate LeafView(st: seq<Level>, b: nat, n: nat)
    requires Shaped(st)
  {
    var top := st[|st| - 1];
    || (b == |st| - 1 && n == 1 && top.cursor == 1)
    || (b == |st| && n == |top.list| && top.cursor == |top.list| - 1)
  }

  lemma LeafViewed(st: seq<Level>, b: nat, n: nat)
    requires Shaped(st) && LeafView(st, b, n)
    ensures b <= |st| && 1 <= n <= |st[|st| - 1].list|
    ensures Leaf(st) == Heads(st)[..b] + st[|st| - 1].list[n - 1..]
  {
  }

  /** What one step down needs to know about the candidate at the cursor. */
  lemma Candidate(chain: seq<seq<int>>, st: seq<Level>)
    requires IsChains(chain) && StackOk(chain, st) && st[|st| - 1].cursor < |st[|st| - 1].list|
    ensures var l := st[|st| - 1]; var k := l.list[l.cursor];
      && Ascending(l.list) && 0 <= k < |chain| && Ascending(chain[k]) && chain[k] != []
  {
    assert LevelOk(chain, st[|st| - 1]);
  }

  lemma TailEnds(list: seq<int>, from: nat)
    requires from < |list|
    ensures list[from..][|list| - from - 1] == list[|list| - 1]
  {
  }
}
