/**
 The selection-sampling shuffle (packages/core-domain/src/shuffle.ts). A generator is a stream of
 arbitrary ECMAScript numbers; the k-th pass of the loop consumes its k-th draw.
 */
module Shuffle {
  import opened Prelude

  type Rng = nat -> Num

  /** Maps any draw onto `[0, length)`. */
  function BoundedIndex(draw: Num, length: nat): (i: nat)
    requires length > 0
    ensures i < length
  {
    if !draw.Finite? || draw.v < 0.0 then 0
    else
      FloorOfProduct(draw.v, length);
      var index := (draw.v * length as real).Floor;
      if index >= length then length - 1 else index
  }

  lemma FloorOfProduct(d: real, length: nat)
    requires d >= 0.0
    ensures (d * length as real).Floor >= 0
  {
  }

  /** The draws that select index `i`: those that scale into `[i, i + 1)`. */
  ghost predicate InCell(d: real, length: nat, i: nat) {
    i as real <= d * length as real < (i + 1) as real
  }

  /** On the unit interval, each index is hit exactly on its cell. */
  lemma BoundedIndexCells(d: real, length: nat, i: nat)
    requires 0.0 <= d < 1.0 && i < length
    ensures BoundedIndex(Finite(d), length) == i <==> InCell(d, length, i)
  {
    assert d * length as real < length as real;
  }

  /** Every cell has the same width, `1 / length`. */
  lemma CellWidth(d: real, length: nat, i: nat)
    requires length > 0
    ensures InCell(d, length, i) <==> i as real / length as real <= d < (i + 1) as real / length as real
  {
    var n := length as real;
    var lo, hi := i as real / n, (i + 1) as real / n;
    assert lo * n == i as real && hi * n == (i + 1) as real;
    Scaled(lo, d, n);
    Scaled(hi, d, n);
    assert i as real <= d * n <==> lo <= d;
    assert d * n < (i + 1) as real <==> d < hi;
  }

  lemma Scaled(a: real, b: real, n: real)
    requires n > 0.0
    ensures a <= b <==> a * n <= b * n
  {
    if a <= b {
      assert (b - a) * n >= 0.0;
    } else {
      assert (a - b) * n > 0.0;
    }
  }

  /** A sloppy draw picks an end: the first item below zero or off the number line, the last from one on. */
  lemma SloppyDraws(draw: Num, length: nat)
    requires length > 0
    ensures !draw.Finite? || draw.v < 0.0 ==> BoundedIndex(draw, length) == 0
    ensures draw.Finite? && draw.v >= 1.0 ==> BoundedIndex(draw, length) == length - 1
  {
    if draw.Finite? && draw.v >= 1.0 {
      Scaled(1.0, draw.v, length as real);
    }
  }

  function Without<T>(s: seq<T>, i: nat): seq<T>
    requires i < |s|
  {
    s[..i] + s[i + 1..]
  }

  /** The order drawn from `pool` when the k-th pick is position `picks[k]` of what is left. */
  function Picked<T>(pool: seq<T>, picks: seq<nat>): seq<T>
    requires IsCode(|pool|, picks)
    decreases |pool|
  {
    if pool == [] then [] else [pool[picks[0]]] + Picked(Without(pool, picks[0]), picks[1..])
  }

  /** A Lehmer code for `n` items: `n` picks, the k-th below `n - k`. */
  ghost predicate IsCodeShape(n: nat, picks: seq<nat>) {
    |picks| == n && forall k :: 0 <= k < n ==> picks[k] < n - k
  }

  predicate IsCode(n: nat, picks: seq<nat>)
    ensures IsCode(n, picks) <==> IsCodeShape(n, picks)
    decreases picks
  {
    if n == 0 || picks == [] then n == 0 && picks == []
    else
      assert IsCodeShape(n, picks) ==> IsCodeShape(n - 1, picks[1..]) by {
        if IsCodeShape(n, picks) {
          assert forall k :: 0 <= k < n - 1 ==> picks[1..][k] == picks[k + 1] < n - (k + 1);
        }
      }
      assert IsCodeShape(n - 1, picks[1..]) && picks[0] < n ==> IsCodeShape(n, picks) by {
        if IsCodeShape(n - 1, picks[1..]) && picks[0] < n {
          assert forall k :: 1 <= k < n ==> picks[k] == picks[1..][k - 1] < n - k;
        }
      }
      picks[0] < n && IsCode(n - 1, picks[1..])
  }

  /** The positions a generator picks, from its `from`-th draw on. */
  function Picks(rng: Rng, from: nat, n: nat): (picks: seq<nat>)
    ensures IsCode(n, picks)
    decreases n
  {
    if n == 0 then [] else [BoundedIndex(rng(from), n)] + Picks(rng, from + 1, n - 1)
  }

  function Shuffled<T>(items: seq<T>, rng: Rng): seq<T> {
    Picked(items, Picks(rng, 0, |items|))
  }

  method ShuffleWith<T>(items: seq<T>, rng: Rng) returns (out: seq<T>)
    ensures out == Shuffled(items, rng)
  {
    var pool := items;
    out := [];
    ghost var left := Picks(rng, 0, |items|);
    while |pool| > 0
      invariant |pool| <= |items| && IsCode(|pool|, left) && left == Picks(rng, 0, |items|)[|items| - |pool|..]
      invariant out + Picked(pool, left) == Shuffled(items, rng)
    {
      var i := BoundedIndex(rng(|items| - |pool|), |pool|);
      NextPick(rng, |items|, |pool|, left);
      OnePick(out, pool, left);
      out := out + [pool[i]];
      pool := Without(pool, i);
      left := left[1..];
    }
  }

  /** The picks still to come, when `m` of `n` items are left. */
  lemma NextPick(rng: Rng, n: nat, m: nat, left: seq<nat>)
    requires 0 < m <= n && left == Picks(rng, 0, n)[n - m..]
    ensures left != [] && left[0] == BoundedIndex(rng(n - m), m) && left[1..] == Picks(rng, 0, n)[n - (m - 1)..]
  {
    PicksAt(rng, 0, n, n - m);
  }

  /** One turn of the loop moves the picked item over. */
  lemma OnePick<T>(out: seq<T>, pool: seq<T>, left: seq<nat>)
    requires IsCode(|pool|, left) && pool != []
    ensures IsCode(|pool| - 1, left[1..])
    ensures out + Picked(pool, left) == out + [pool[left[0]]] + Picked(Without(pool, left[0]), left[1..])
  {
  }

  // ---- Whatever the generator, the result is a permutation -----------------------------

  lemma WithoutMultiset<T>(s: seq<T>, i: nat)
    requires i < |s|
    ensures multiset(s) == multiset{s[i]} + multiset(Without(s, i))
  {
    assert s == s[..i] + [s[i]] + s[i + 1..];
  }

  lemma {:induction false} PickedIsPermutation<T>(pool: seq<T>, picks: seq<nat>)
    requires IsCode(|pool|, picks)
    ensures multiset(Picked(pool, picks)) == multiset(pool)
    ensures |Picked(pool, picks)| == |pool|
    decreases |pool|
  {
    if pool != [] {
      WithoutMultiset(pool, picks[0]);
      PickedIsPermutation(Without(pool, picks[0]), picks[1..]);
    }
  }

  lemma ShuffledIsPermutation<T>(items: seq<T>, rng: Rng)
    ensures multiset(Shuffled(items, rng)) == multiset(items)
    ensures |Shuffled(items, rng)| == |items|
  {
    PickedIsPermutation(items, Picks(rng, 0, |items|));
  }

  // ---- The Lehmer bijection ------------------------------------------------------------

  ghost predicate Distinct<T>(s: seq<T>) {
    forall i, j :: 0 <= i < j < |s| ==> s[i] != s[j]
  }

  ghost function IndexOf<T>(s: seq<T>, x: T): (i: nat)
    requires x in s
    ensures i < |s| && s[i] == x
  {
    var i :| 0 <= i < |s| && s[i] == x;
    i
  }

  lemma DistinctWithout<T>(s: seq<T>, i: nat)
    requires i < |s| && Distinct(s)
    ensures Distinct(Without(s, i))
  {
    var w := Without(s, i);
    forall a, b | 0 <= a < b < |w|
      ensures w[a] != w[b]
    {
      assert w[a] == s[if a < i then a else a + 1] && w[b] == s[if b < i then b else b + 1];
    }
  }

  lemma CancelMultiset<T>(a: multiset<T>, x: multiset<T>, y: multiset<T>)
    requires a + x == a + y
    ensures x == y
  {
    assert x == a + x - a && y == a + y - a;
  }

  lemma PermutationHead<T>(pool: seq<T>, order: seq<T>)
    requires multiset(order) == multiset(pool) && order != []
    ensures order[0] in pool
    ensures multiset(order[1..]) == multiset(Without(pool, IndexOf(pool, order[0])))
  {
    assert order[0] in multiset(order);
    assert order == [order[0]] + order[1..];
    var i := IndexOf(pool, order[0]);
    WithoutMultiset(pool, i);
    CancelMultiset(multiset{order[0]}, multiset(order[1..]), multiset(Without(pool, i)));
  }

  /** The code that draws a given order: the inverse of `Picked`. */
  ghost function CodeOf<T>(pool: seq<T>, order: seq<T>): (picks: seq<nat>)
    requires multiset(order) == multiset(pool)
    ensures IsCode(|pool|, picks)
    decreases |pool|
  {
    assert |order| == |multiset(order)| && |pool| == |multiset(pool)|;
    if pool == [] then []
    else
      PermutationHead(pool, order);
      var i := IndexOf(pool, order[0]);
      [i] + CodeOf(Without(pool, i), order[1..])
  }

  /** Every order of the items is drawn by some code. */
  lemma {:induction false} EveryOrderHasACode<T>(pool: seq<T>, order: seq<T>)
    requires multiset(order) == multiset(pool)
    ensures Picked(pool, CodeOf(pool, order)) == order
    decreases |pool|
  {
    assert |order| == |multiset(order)| && |pool| == |multiset(pool)|;
    if pool != [] {
      PermutationHead(pool, order);
      EveryOrderHasACode(Without(pool, IndexOf(pool, order[0])), order[1..]);
      assert order == [order[0]] + order[1..];
    }
  }

  /** For distinct items, only one code draws a given order. */
  lemma {:induction false} CodeIsUnique<T>(pool: seq<T>, picks: seq<nat>)
    requires IsCode(|pool|, picks) && Distinct(pool)
    ensures multiset(Picked(pool, picks)) == multiset(pool)
    ensures CodeOf(pool, Picked(pool, picks)) == picks
    decreases |pool|
  {
    PickedIsPermutation(pool, picks);
    if pool != [] {
      var order := Picked(pool, picks);
      PermutationHead(pool, order);
      assert IndexOf(pool, order[0]) == picks[0];
      DistinctWithout(pool, picks[0]);
      assert order[1..] == Picked(Without(pool, picks[0]), picks[1..]);
      CodeIsUnique(Without(pool, picks[0]), picks[1..]);
    }
  }

  /** The first draws are in the unit interval; later ones may be anything. */
  ghost predicate UnitDraws(rng: Rng, count: nat) {
    forall k: nat :: k < count ==> rng(k).Finite? && 0.0 <= rng(k).v < 1.0
  }

  /** Each of the first draws from `n` items falls in the cell of its index. */
  ghost predicate InBox(rng: Rng, n: nat, code: seq<nat>)
    requires |code| <= n && UnitDraws(rng, |code|)
  {
    forall k: nat :: k < |code| ==> InCell(rng(k).v, n - k, code[k])
  }

  lemma PickInCell(rng: Rng, n: nat, k: nat, i: nat)
    requires k < n && i < n - k && rng(k).Finite? && 0.0 <= rng(k).v < 1.0
    ensures Picks(rng, 0, n)[k] == i <==> InCell(rng(k).v, n - k, i)
  {
    var d := rng(k);
    assert Picks(rng, 0, n)[k] == BoundedIndex(d, n - k) by {
      PicksAt(rng, 0, n, k);
    }
    BoundedIndexCells(d.v, n - k, i);
    assert d == Finite(d.v);
  }

  lemma PicksInCells(rng: Rng, n: nat, code: seq<nat>)
    requires IsCodePrefix(n, code) && UnitDraws(rng, |code|)
    ensures forall k: nat :: k < |code| ==> (Picks(rng, 0, n)[k] == code[k] <==> InCell(rng(k).v, n - k, code[k]))
  {
    forall k: nat | k < |code|
      ensures Picks(rng, 0, n)[k] == code[k] <==> InCell(rng(k).v, n - k, code[k])
    {
      PickInCell(rng, n, k, code[k]);
    }
  }

  /** The first indices are given ones exactly when the draws fall in their box. */
  lemma CodeIsOneBox(rng: Rng, n: nat, code: seq<nat>)
    requires IsCodePrefix(n, code) && UnitDraws(rng, |code|)
    ensures Picks(rng, 0, n)[..|code|] == code <==> InBox(rng, n, code)
  {
    PicksInCells(rng, n, code);
    var picks := Picks(rng, 0, n);
    if picks[..|code|] == code {
      assert forall k: nat :: k < |code| ==> picks[k] == picks[..|code|][k];
    }
    if InBox(rng, n, code) {
      assert forall k: nat :: k < |code| ==> picks[k] == code[k];
    }
  }

  /**
   Uniformity: with draws in the unit interval, one prescribed order comes out exactly when every
   draw falls in that order's box of cells, and all boxes have the same volume, `1 / n!`.
   */
  lemma OrderIsOneBoxOfDraws<T>(items: seq<T>, order: seq<T>, rng: Rng)
    requires Distinct(items) && multiset(order) == multiset(items)
    requires UnitDraws(rng, |items|)
    ensures Shuffled(items, rng) == order <==> InBox(rng, |items|, CodeOf(items, order))
  {
    EveryOrderHasACode(items, order);
    CodeIsUnique(items, Picks(rng, 0, |items|));
    CodeIsOneBox(rng, |items|, CodeOf(items, order));
    assert Picks(rng, 0, |items|)[..|items|] == Picks(rng, 0, |items|);
  }

  // ---- Prefixes: what a draw of k items depends on ---------------------------------------

  /** The beginning of a code for `n` items. */
  ghost predicate IsCodePrefix(n: nat, code: seq<nat>) {
    |code| <= n && forall k :: 0 <= k < |code| ==> code[k] < n - k
  }

  /** Some of the items, in some order, none of them twice. */
  ghost predicate IsSelection<T>(pool: seq<T>, selection: seq<T>) {
    Distinct(selection) && forall k :: 0 <= k < |selection| ==> selection[k] in pool
  }

  lemma SelectionTail<T>(pool: seq<T>, selection: seq<T>)
    requires IsSelection(pool, selection) && selection != []
    ensures IsSelection(Without(pool, IndexOf(pool, selection[0])), selection[1..])
  {
    var i, tail := IndexOf(pool, selection[0]), selection[1..];
    forall k | 0 <= k < |tail|
      ensures tail[k] in Without(pool, i)
    {
      assert tail[k] == selection[k + 1] && tail[k] in pool;
      var j := IndexOf(pool, tail[k]);
      assert tail[k] == Without(pool, i)[if j < i then j else j - 1];
    }
  }

  /** The indices that draw a selection. */
  ghost function SelectionCode<T>(pool: seq<T>, selection: seq<T>): (code: seq<nat>)
    requires IsSelection(pool, selection)
    ensures IsCodePrefix(|pool|, code) && |code| == |selection|
    decreases |selection|
  {
    if selection == [] then []
    else
      assert selection[0] in pool;
      var i := IndexOf(pool, selection[0]);
      SelectionTail(pool, selection);
      var rest := SelectionCode(Without(pool, i), selection[1..]);
      [i] + rest
  }

  lemma PrefixSplits<T>(s: seq<T>, prefix: seq<T>)
    requires 0 < |prefix| <= |s|
    ensures s[..|prefix|] == prefix <==> s[0] == prefix[0] && s[1..][..|prefix| - 1] == prefix[1..]
  {
    assert s[..|prefix|] == [s[0]] + s[1..][..|prefix| - 1];
    assert prefix == [prefix[0]] + prefix[1..];
  }

  /** The first items are a given selection exactly when the first picks are its code. */
  lemma {:induction false} SelectionHasOneCode<T>(pool: seq<T>, picks: seq<nat>, selection: seq<T>)
    requires Distinct(pool) && IsCode(|pool|, picks) && IsSelection(pool, selection)
    ensures |selection| <= |picks| == |Picked(pool, picks)|
    ensures Picked(pool, picks)[..|selection|] == selection <==> picks[..|selection|] == SelectionCode(pool, selection)
    decreases |selection|
  {
    PickedIsPermutation(pool, picks);
    var code := SelectionCode(pool, selection);
    if selection != [] {
      assert selection[0] in pool;
      var rest := Without(pool, picks[0]);
      PrefixSplits(Picked(pool, picks), selection);
      PrefixSplits(picks, code);
      assert Picked(pool, picks)[1..] == Picked(rest, picks[1..]);
      assert pool[picks[0]] == selection[0] <==> picks[0] == code[0];
      if picks[0] == code[0] {
        SelectionTail(pool, selection);
        DistinctWithout(pool, picks[0]);
        SelectionHasOneCode(rest, picks[1..], selection[1..]);
      }
    }
  }

  /**
   Uniformity of what is served: the first k items are a given selection exactly when the first k
   draws fall in that selection's box. All such boxes have the same sides, `1 / n` to
   `1 / (n - k + 1)`, and later draws may be anything.
   */
  lemma SelectionIsOneBoxOfDraws<T>(items: seq<T>, selection: seq<T>, rng: Rng)
    requires Distinct(items) && IsSelection(items, selection) && UnitDraws(rng, |selection|)
    ensures |selection| <= |Shuffled(items, rng)|
    ensures Shuffled(items, rng)[..|selection|] == selection <==> InBox(rng, |items|, SelectionCode(items, selection))
  {
    SelectionHasOneCode(items, Picks(rng, 0, |items|), selection);
    CodeIsOneBox(rng, |items|, SelectionCode(items, selection));
  }

  /** The first picks alone decide the first items. */
  lemma {:induction false} PrefixNeedsPrefix<T>(pool: seq<T>, p: seq<nat>, q: seq<nat>, k: nat)
    requires IsCode(|pool|, p) && IsCode(|pool|, q) && k <= |pool| && p[..k] == q[..k]
    ensures |Picked(pool, p)| == |pool| == |Picked(pool, q)| && Picked(pool, p)[..k] == Picked(pool, q)[..k]
    decreases k
  {
    PickedIsPermutation(pool, p);
    PickedIsPermutation(pool, q);
    if k > 0 {
      PrefixSplits(p, q[..k]);
      assert q[..k][1..] == q[1..][..k - 1];
      var rest := Without(pool, p[0]);
      PrefixNeedsPrefix(rest, p[1..], q[1..], k - 1);
      PickedSplits(pool, p, k);
      PickedSplits(pool, q, k);
    }
  }

  lemma PickedSplits<T>(pool: seq<T>, picks: seq<nat>, k: nat)
    requires IsCode(|pool|, picks) && 0 < k <= |pool| && |Picked(pool, picks)| == |pool|
    ensures |Picked(Without(pool, picks[0]), picks[1..])| == |pool| - 1
    ensures Picked(pool, picks)[..k] == [pool[picks[0]]] + Picked(Without(pool, picks[0]), picks[1..])[..k - 1]
  {
  }

  /** Whatever the draws are, the first k of them alone decide the first k items. */
  lemma ShuffleUsesFirstDraws<T>(items: seq<T>, a: Rng, b: Rng, k: nat)
    requires k <= |items| && forall i: nat :: i < k ==> a(i) == b(i)
    ensures |Shuffled(items, a)| == |items| == |Shuffled(items, b)|
            && Shuffled(items, a)[..k] == Shuffled(items, b)[..k]
  {
    var p, q := Picks(a, 0, |items|), Picks(b, 0, |items|);
    forall i: nat | i < k
      ensures p[i] == q[i]
    {
      PicksAt(a, 0, |items|, i);
      PicksAt(b, 0, |items|, i);
    }
    assert p[..k] == q[..k];
    PrefixNeedsPrefix(items, p, q, k);
  }

  lemma {:induction false} PicksAt(rng: Rng, from: nat, n: nat, k: nat)
    requires k < n
    ensures Picks(rng, from, n)[k] == BoundedIndex(rng(from + k), n - k)
    decreases n
  {
    if k > 0 {
      PicksAt(rng, from + 1, n - 1, k - 1);
    }
  }

  /** Any code can be forced by a generator that aims at the middle of each cell. */
  lemma Aimed(picks: seq<nat>) returns (rng: Rng)
    requires IsCode(|picks|, picks)
    ensures Picks(rng, 0, |picks|) == picks
  {
    var n := |picks|;
    rng := (k: nat) => if k < n then Finite((picks[k] as real + 0.5) / (n - k) as real) else NaN;
    forall k: nat | k < n
      ensures Picks(rng, 0, n)[k] == picks[k]
    {
      PicksAt(rng, 0, n, k);
      MiddleOfCell(picks[k], n - k);
    }
  }

  lemma MiddleOfCell(i: nat, length: nat)
    requires i < length
    ensures BoundedIndex(Finite((i as real + 0.5) / length as real), length) == i
  {
    var d := (i as real + 0.5) / length as real;
    assert d * length as real == i as real + 0.5;
  }
}
