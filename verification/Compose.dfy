/**
 Composing an assessment from a role (packages/core-domain/src/compose.ts). Weights are integers at
 any common scale (hundredths, say): only their ratios matter, and shares are exact.
 */
module Compose {
  import opened Prelude
  import opened Sorting
  import opened Draw
  import opened Shuffle

  function Sum(s: seq<int>): int {
    if s == [] then 0 else Sum(s[..|s| - 1]) + s[|s| - 1]
  }

  // ---- Largest remainder -----------------------------------------------------------------

  /** An index and its remainder: the exact share is `floor + remainder / sum`. */
  datatype Slot = Slot(index: nat, remainder: int)

  /** Hardest rounded down first, the earlier index on a tie. */
  predicate Precedes(a: Slot, b: Slot) {
    a.remainder > b.remainder || (a.remainder == b.remainder && a.index <= b.index)
  }

  /** The exact shares, as numerators over the sum of the weights. */
  function Numerators(total: int, weights: seq<int>): (xs: seq<int>)
    ensures |xs| == |weights|
  {
    seq(|weights|, i requires 0 <= i < |weights| => weights[i] * total)
  }

  function Floors(xs: seq<int>, S: int): (f: seq<int>)
    requires S > 0
    ensures |f| == |xs|
  {
    seq(|xs|, i requires 0 <= i < |xs| => xs[i] / S)
  }

  function Slots(xs: seq<int>, S: int): (s: seq<Slot>)
    requires S > 0
    ensures |s| == |xs|
  {
    seq(|xs|, i requires 0 <= i < |xs| => Slot(i, xs[i] % S))
  }

  function Order(xs: seq<int>, S: int): seq<Slot>
    requires S > 0
  {
    Sorted(Precedes, Slots(xs, S))
  }

  /** One more for each slot in turn, while any remain. */
  function TopUp(out: seq<int>, order: seq<Slot>, remaining: int): (r: seq<int>)
    requires forall s :: s in order ==> s.index < |out|
    ensures |r| == |out|
    decreases order
  {
    if order == [] || remaining <= 0 then out
    else TopUp(out[order[0].index := out[order[0].index] + 1], order[1..], remaining - 1)
  }

  lemma OrderInRange(xs: seq<int>, S: int)
    requires S > 0
    ensures |Order(xs, S)| == |xs|
    ensures forall s :: s in Order(xs, S) ==> s.index < |xs| && s == Slots(xs, S)[s.index]
  {
    var slots, order := Slots(xs, S), Order(xs, S);
    SortedIsPermutation(Precedes, slots);
    forall s | s in order
      ensures s.index < |xs| && s == slots[s.index]
    {
      assert s in multiset(order);
      assert s in slots;
    }
  }

  /** Shares `xs[i] / S` rounded to integers that sum to `total`. */
  function Rounded(total: int, xs: seq<int>, S: int): (out: seq<int>)
    requires S > 0
    ensures |out| == |xs|
  {
    OrderInRange(xs, S);
    TopUp(Floors(xs, S), Order(xs, S), total - Sum(Floors(xs, S)))
  }

  function Allocation(total: int, weights: seq<int>): (out: seq<int>)
    ensures |out| == |weights|
  {
    if Sum(weights) <= 0 then seq(|weights|, _ => 0)
    else Rounded(total, Numerators(total, weights), Sum(weights))
  }

  /** `reduce` with addition. */
  method Added(s: seq<int>) returns (sum: int)
    ensures sum == Sum(s)
  {
    sum := 0;
    for i := 0 to |s|
      invariant sum == Sum(s[..i])
    {
      assert s[..i + 1][..i] == s[..i];
      sum := sum + s[i];
    }
    assert s[..|s|] == s;
  }

  method AllocateByWeight(total: int, weights: seq<int>) returns (out: seq<int>)
    ensures out == Allocation(total, weights)
  {
    var sum := Added(weights);
    if sum <= 0 {
      return seq(|weights|, _ => 0);
    }
    var exact := Numerators(total, weights);
    var floors := Floors(exact, sum);
    var floored := Added(floors);
    OrderInRange(exact, sum);
    out := HandOut(floors, Order(exact, sum), total - floored);
  }

  /** The leftover, one each down the order until it is gone. */
  method HandOut(floors: seq<int>, order: seq<Slot>, leftover: int) returns (out: seq<int>)
    requires forall s :: s in order ==> s.index < |floors|
    ensures out == TopUp(floors, order, leftover)
  {
    var remaining := leftover;
    out := floors;
    for k := 0 to |order|
      invariant |out| == |floors|
      invariant TopUp(out, order[k..], remaining) == TopUp(floors, order, leftover)
    {
      if remaining <= 0 {
        break;
      }
      assert order[k] in order && order[k..][1..] == order[k + 1..];
      var index := order[k].index;
      out := out[index := out[index] + 1];
      remaining := remaining - 1;
    }
  }

  // ---- The apportionment laws ---------------------------------------------------------------

  lemma {:induction false} SumUpdate(s: seq<int>, i: nat, v: int)
    requires i < |s|
    ensures Sum(s[i := v]) == Sum(s) - s[i] + v
    decreases |s|
  {
    var n := |s| - 1;
    if i < n {
      SumUpdate(s[..n], i, v);
      assert s[i := v][..n] == s[..n][i := v];
    } else {
      assert s[i := v][..n] == s[..n];
    }
  }

  lemma {:induction false} TopUpSum(out: seq<int>, order: seq<Slot>, remaining: int)
    requires forall s :: s in order ==> s.index < |out|
    requires 0 <= remaining <= |order|
    ensures Sum(TopUp(out, order, remaining)) == Sum(out) + remaining
    decreases order
  {
    if remaining > 0 {
      var i := order[0].index;
      SumUpdate(out, i, out[i] + 1);
      TopUpSum(out[i := out[i] + 1], order[1..], remaining - 1);
    }
  }

  ghost predicate DistinctIndices(order: seq<Slot>) {
    forall a, b :: 0 <= a < b < |order| ==> order[a].index != order[b].index
  }

  ghost predicate Topped(order: seq<Slot>, remaining: int, i: nat) {
    exists k :: 0 <= k < remaining && k < |order| && order[k].index == i
  }

  /** An index gains one exactly when it is among the first `remaining` of the order. */
  lemma {:induction false} TopUpAt(out: seq<int>, order: seq<Slot>, remaining: int, i: nat)
    requires forall s :: s in order ==> s.index < |out|
    requires DistinctIndices(order) && i < |out|
    ensures TopUp(out, order, remaining)[i] == out[i] + if Topped(order, remaining, i) then 1 else 0
    decreases order
  {
    if order != [] && remaining > 0 {
      var j, rest := order[0].index, order[1..];
      TopUpAt(out[j := out[j] + 1], rest, remaining - 1, i);
      if Topped(order, remaining, i) && i != j {
        var k :| 0 <= k < remaining && k < |order| && order[k].index == i;
        assert rest[k - 1].index == i;
      }
      if Topped(rest, remaining - 1, i) {
        var k :| 0 <= k < remaining - 1 && k < |rest| && rest[k].index == i;
        assert order[k + 1].index == i;
      }
    }
  }

  function RemainderSum(slots: seq<Slot>): int {
    if slots == [] then 0 else slots[0].remainder + RemainderSum(slots[1..])
  }

  lemma {:induction false} InsertRemainderSum(x: Slot, s: seq<Slot>)
    ensures RemainderSum(Insert(Precedes, x, s)) == x.remainder + RemainderSum(s)
  {
    if s != [] && !Precedes(x, s[0]) {
      InsertRemainderSum(x, s[1..]);
    }
  }

  lemma {:induction false} SortedRemainderSum(s: seq<Slot>)
    ensures RemainderSum(Sorted(Precedes, s)) == RemainderSum(s)
  {
    if s != [] {
      SortedRemainderSum(s[1..]);
      InsertRemainderSum(s[0], Sorted(Precedes, s[1..]));
    }
  }

  lemma SlotAt(xs: seq<int>, S: int, i: nat)
    requires S > 0 && i < |xs|
    ensures xs[i] == S * Floors(xs, S)[i] + Slots(xs, S)[i].remainder
    ensures 0 <= Slots(xs, S)[i].remainder < S
  {
  }

  /** Over the indices from `i` on, the remainders are what is left of the shares besides their whole parts. */
  lemma {:induction false} RemaindersAreRest(xs: seq<int>, wholes: seq<int>, slots: seq<Slot>, i: nat)
    requires |xs| == |wholes| == |slots| >= i
    requires forall k :: 0 <= k < |xs| ==> xs[k] == wholes[k] + slots[k].remainder
    ensures RemainderSum(slots[i..]) == (Sum(xs) - Sum(xs[..i])) - (Sum(wholes) - Sum(wholes[..i]))
    decreases |xs| - i
  {
    if i == |xs| {
      assert xs[..i] == xs && wholes[..i] == wholes;
    } else {
      RemaindersAreRest(xs, wholes, slots, i + 1);
      assert xs[..i + 1][..i] == xs[..i] && wholes[..i + 1][..i] == wholes[..i];
      assert slots[i..][1..] == slots[i + 1..];
    }
  }

  /** What flooring loses, in units of `1 / S`, is the sum of the remainders. */
  lemma FlooringLoss(xs: seq<int>, S: int)
    requires S > 0
    ensures RemainderSum(Slots(xs, S)) == Sum(xs) - S * Sum(Floors(xs, S))
  {
    SharesSplit(xs, S);
    SumOfMultiples(S, Floors(xs, S));
    RemaindersAreRest(xs, Multiples(S, Floors(xs, S)), Slots(xs, S), 0);
    assert Slots(xs, S)[0..] == Slots(xs, S);
  }

  lemma {:induction false} RemainderBounds(order: seq<Slot>, S: int, k: nat)
    requires k <= |order| && S > 0
    requires forall s :: s in order ==> 0 <= s.remainder < S
    requires forall j :: k <= j < |order| ==> order[j].remainder == 0
    ensures 0 <= RemainderSum(order) <= k * (S - 1)
    decreases order
  {
    if order != [] {
      var rest := order[1..];
      assert forall s :: s in rest ==> s in order;
      assert forall j :: 0 <= j < |rest| ==> rest[j] == order[j + 1];
      assert order[0] in order;
      if k > 0 {
        RemainderBounds(rest, S, k - 1);
        assert k * (S - 1) == (k - 1) * (S - 1) + (S - 1);
      } else {
        RemainderBounds(rest, S, 0);
      }
    }
  }

  lemma SmallMultiple(S: int, r: int, k: nat)
    requires S > 0 && 0 <= S * r <= k * (S - 1)
    ensures 0 <= r && (r < k || r == k == 0)
  {
    assert k * (S - 1) == S * k - k;
    assert S * (r - k) + k <= 0;
  }

  lemma OrderFacts(xs: seq<int>, S: int)
    requires S > 0
    ensures |Order(xs, S)| == |xs|
    ensures Lists(Order(xs, S), Slots(xs, S))
    ensures forall s :: s in Order(xs, S) ==> 0 <= s.remainder < S
  {
    var slots, order := Slots(xs, S), Order(xs, S);
    OrderInRange(xs, S);
    SortedIsPermutation(Precedes, slots);
    SortedIsAscending(Precedes, slots);
    forall i | 0 <= i < |xs|
      ensures slots[i] in order
    {
      assert slots[i] in multiset(slots);
    }
    OrderIsDistinct(slots, order);
  }

  lemma OrderIsDistinct(slots: seq<Slot>, order: seq<Slot>)
    requires DistinctIndices(slots) && multiset(order) == multiset(slots)
    requires forall s :: s in order ==> s.index < |slots| && s == slots[s.index]
    ensures DistinctIndices(order)
  {
    forall a, b | 0 <= a < b < |order|
      ensures order[a].index != order[b].index
    {
      if order[a].index == order[b].index {
        assert order[a] in order && order[b] in order;
        TwiceIn(order, a, b);
        OnceIn(slots, order[a]);
        assert false;
      }
    }
  }

  lemma LeftoverScaled(total: int, xs: seq<int>, S: int)
    requires S > 0 && Sum(xs) == S * total
    ensures RemainderSum(Order(xs, S)) == S * (total - Sum(Floors(xs, S)))
  {
    FlooringLoss(xs, S);
    SortedRemainderSum(Slots(xs, S));
    var F := Sum(Floors(xs, S));
    assert S * (total - F) == S * total - S * F;
  }

  /** The leftover fits in the slots, and no slot with nothing to round gets any of it. */
  lemma Leftover(total: int, xs: seq<int>, S: int)
    requires S > 0 && Sum(xs) == S * total
    ensures 0 <= total - Sum(Floors(xs, S)) <= |xs|
    ensures forall k :: 0 <= k < total - Sum(Floors(xs, S)) && k < |Order(xs, S)| ==> Order(xs, S)[k].remainder > 0
  {
    var order, r := Order(xs, S), total - Sum(Floors(xs, S));
    OrderFacts(xs, S);
    LeftoverScaled(total, xs, S);
    RemainderBounds(order, S, |order|);
    SmallMultiple(S, r, |order|);
    forall k | 0 <= k < r && k < |order|
      ensures order[k].remainder > 0
    {
      assert order[k] in order;
      if order[k].remainder == 0 {
        ZeroTail(order, S, k);
        RemainderBounds(order, S, k);
        SmallMultiple(S, r, k);
        assert false;
      }
    }
  }

  lemma ZeroTail(order: seq<Slot>, S: int, k: nat)
    requires k < |order| && order[k].remainder == 0 && Ascending(Precedes, order)
    requires forall s :: s in order ==> 0 <= s.remainder < S
    ensures forall j :: k <= j < |order| ==> order[j].remainder == 0
  {
    forall j | k <= j < |order|
      ensures order[j].remainder == 0
    {
      assert order[j] in order && (k < j ==> Precedes(order[k], order[j]));
    }
  }

  /** The order lists every slot once, best first. */
  ghost predicate Lists(order: seq<Slot>, slots: seq<Slot>) {
    && Ascending(Precedes, order) && DistinctIndices(order)
    && (forall s :: s in order ==> s.index < |slots| && s == slots[s.index])
    && (forall i :: 0 <= i < |slots| ==> slots[i] in order)
  }

  /** Every share split into a whole part and a remainder. */
  ghost predicate Splits(xs: seq<int>, S: int, floors: seq<int>, slots: seq<Slot>) {
    && |floors| == |slots| == |xs|
    && forall i :: 0 <= i < |xs| ==>
         slots[i].index == i && 0 <= slots[i].remainder < S && xs[i] == S * floors[i] + slots[i].remainder
  }

  /** Everything the laws need about the rounding of some shares. */
  lemma RoundingOf(total: int, xs: seq<int>, S: int)
      returns (floors: seq<int>, slots: seq<Slot>, order: seq<Slot>, r: int)
    requires S > 0 && Sum(xs) == S * total
    ensures Splits(xs, S, floors, slots) && Lists(order, slots) && |order| == |xs|
    ensures 0 <= r <= |order| && Sum(floors) + r == total
    ensures forall k :: 0 <= k < r ==> order[k].remainder > 0
    ensures Rounded(total, xs, S) == TopUp(floors, order, r)
    ensures slots == Slots(xs, S)
  {
    SharesSplit(xs, S);
    floors, slots := Floors(xs, S), Slots(xs, S);
    order, r := LeftoverOrder(total, xs, S, floors, slots);
  }

  lemma LeftoverOrder(total: int, xs: seq<int>, S: int, floors: seq<int>, slots: seq<Slot>)
      returns (order: seq<Slot>, r: int)
    requires S > 0 && Sum(xs) == S * total && floors == Floors(xs, S) && slots == Slots(xs, S)
    ensures Lists(order, slots) && |order| == |xs| == |floors| == |slots|
    ensures 0 <= r <= |order| && Sum(floors) + r == total
    ensures forall k :: 0 <= k < r ==> order[k].remainder > 0
    ensures Rounded(total, xs, S) == TopUp(floors, order, r)
  {
    order, r := Order(xs, S), total - Sum(floors);
    OrderFacts(xs, S);
    Leftover(total, xs, S);
  }

  lemma SharesSplit(xs: seq<int>, S: int)
    requires S > 0
    ensures Splits(xs, S, Floors(xs, S), Slots(xs, S))
  {
    var floors, slots := Floors(xs, S), Slots(xs, S);
    forall i | 0 <= i < |xs|
      ensures slots[i].index == i && 0 <= slots[i].remainder < S && xs[i] == S * floors[i] + slots[i].remainder
    {
      SlotAt(xs, S, i);
    }
  }

  lemma TopUpGain(floors: seq<int>, slots: seq<Slot>, order: seq<Slot>, r: int, i: nat)
    requires |floors| == |slots| && i < |slots| && Lists(order, slots)
    requires forall k :: 0 <= k < r && k < |order| ==> order[k].remainder > 0
    ensures TopUp(floors, order, r)[i] == floors[i]
            || (TopUp(floors, order, r)[i] == floors[i] + 1 && slots[i].remainder > 0)
    ensures TopUp(floors, order, r)[i] > floors[i] <==> Topped(order, r, i)
  {
    TopUpAt(floors, order, r, i);
    if Topped(order, r, i) {
      var k :| 0 <= k < r && k < |order| && order[k].index == i;
      assert order[k] in order;
    }
  }

  lemma ToppedInOrder(slots: seq<Slot>, order: seq<Slot>, r: int, i: nat, j: nat)
    requires i < |slots| && j < |slots| && Lists(order, slots)
    requires slots[i].index == i && slots[j].index == j
    requires Precedes(slots[i], slots[j]) && Topped(order, r, j)
    ensures Topped(order, r, i)
  {
    var k :| 0 <= k < r && k < |order| && order[k].index == j;
    assert order[k] in order && order[k] == slots[j];
    assert slots[i] in order;
    var m :| 0 <= m < |order| && order[m] == slots[i];
    assert order[m].index == i;
  }

  lemma RoundedSum(total: int, xs: seq<int>, S: int)
    requires S > 0 && Sum(xs) == S * total
    ensures Sum(Rounded(total, xs, S)) == total
  {
    var floors, slots, order, r := RoundingOf(total, xs, S);
    TopUpSum(floors, order, r);
  }

  /** `a` is the floor or the ceiling of `x / S`: it is less than one away from it. */
  ghost predicate RoundsShare(a: int, x: int, S: int) {
    x - S < S * a < x + S
  }

  ghost predicate RoundedUp(a: int, x: int, S: int) {
    S * a > x
  }

  lemma WholeAndRemainder(q: int, m: int, S: int)
    requires 0 <= m < S
    ensures RoundsShare(q, S * q + m, S) && !RoundedUp(q, S * q + m, S)
    ensures m > 0 ==> RoundsShare(q + 1, S * q + m, S)
    ensures RoundedUp(q + 1, S * q + m, S)
  {
    assert S * (q + 1) == S * q + S;
  }

  lemma RoundedShare(total: int, xs: seq<int>, S: int, i: nat)
    requires S > 0 && Sum(xs) == S * total && i < |xs|
    ensures RoundsShare(Rounded(total, xs, S)[i], xs[i], S)
  {
    var floors, slots, order, r := RoundingOf(total, xs, S);
    TopUpGain(floors, slots, order, r, i);
    GainRounds(Rounded(total, xs, S)[i], floors[i], slots[i].remainder, xs[i], S);
  }

  lemma GainRounds(a: int, q: int, m: int, x: int, S: int)
    requires 0 <= m < S && x == S * q + m && (a == q || (a == q + 1 && m > 0))
    ensures RoundsShare(a, x, S)
  {
    WholeAndRemainder(q, m, S);
  }

  lemma UpInOrder(total: int, xs: seq<int>, S: int, i: nat, j: nat)
    requires S > 0 && Sum(xs) == S * total && i < |xs| && j < |xs|
    requires Precedes(Slots(xs, S)[i], Slots(xs, S)[j])
    ensures RoundedUp(Rounded(total, xs, S)[j], xs[j], S) ==> RoundedUp(Rounded(total, xs, S)[i], xs[i], S)
  {
    var floors, slots, order, r := RoundingOf(total, xs, S);
    TopUpGain(floors, slots, order, r, i);
    TopUpGain(floors, slots, order, r, j);
    WholeAndRemainder(floors[i], slots[i].remainder, S);
    WholeAndRemainder(floors[j], slots[j].remainder, S);
    if Topped(order, r, j) {
      ToppedInOrder(slots, order, r, i, j);
    }
  }

  lemma {:induction false} NumeratorSum(total: int, weights: seq<int>)
    ensures Sum(Numerators(total, weights)) == Sum(weights) * total
  {
    if weights != [] {
      var n := |weights| - 1;
      NumeratorSum(total, weights[..n]);
      assert Numerators(total, weights)[..n] == Numerators(total, weights[..n]);
      var a, w := Sum(weights[..n]), weights[n];
      assert (a + w) * total == a * total + w * total;
    }
  }

  /** Exactly the total is handed out, and everyone gets their exact share rounded down or up. */
  lemma AllocationMeetsQuota(total: int, weights: seq<int>)
    requires Sum(weights) > 0
    ensures Sum(Allocation(total, weights)) == total
    ensures forall i :: 0 <= i < |weights| ==>
            RoundsShare(Allocation(total, weights)[i], weights[i] * total, Sum(weights))
  {
    var xs, S := Numerators(total, weights), Sum(weights);
    NumeratorSum(total, weights);
    RoundedSum(total, xs, S);
    forall i | 0 <= i < |weights|
      ensures RoundsShare(Allocation(total, weights)[i], weights[i] * total, S)
    {
      RoundedShare(total, xs, S, i);
    }
  }

  /** The shares rounded up are those with the largest remainders, the earlier index on a tie. */
  lemma LargestRemainderFirst(total: int, weights: seq<int>, i: nat, j: nat)
    requires Sum(weights) > 0 && i < |weights| && j < |weights|
    ensures
      var S := Sum(weights);
      Precedes(Slot(i, weights[i] * total % S), Slot(j, weights[j] * total % S))
      && RoundedUp(Allocation(total, weights)[j], weights[j] * total, S)
      ==> RoundedUp(Allocation(total, weights)[i], weights[i] * total, S)
  {
    NumeratorSum(total, weights);
    var slots := Slots(Numerators(total, weights), Sum(weights));
    if Precedes(slots[i], slots[j]) {
      UpInOrder(total, Numerators(total, weights), Sum(weights), i, j);
    }
  }

  /** A heavier weight never gets fewer; equal weights differ by at most one, the earlier ahead. */
  lemma AllocationIsMonotone(total: nat, weights: seq<int>, i: nat, j: nat)
    requires Sum(weights) > 0 && i < |weights| && j < |weights|
    ensures weights[i] > weights[j] ==> Allocation(total, weights)[i] >= Allocation(total, weights)[j]
    ensures weights[i] == weights[j] && i < j ==>
              Allocation(total, weights)[j] <= Allocation(total, weights)[i] <= Allocation(total, weights)[j] + 1
  {
    var xs, S := Numerators(total, weights), Sum(weights);
    NumeratorSum(total, weights);
    ScaledOrder(weights[j], weights[i], total);
    if weights[i] == weights[j] && i < j {
      LargerShareFirst(total, xs, S, i, j);
    } else if weights[i] > weights[j] {
      if total > 0 {
        LargerShareFirst(total, xs, S, i, j);
      } else {
        NothingToShare(weights, i);
        NothingToShare(weights, j);
      }
    }
  }

  lemma ScaledOrder(a: int, b: int, t: nat)
    ensures a <= b ==> a * t <= b * t
    ensures a < b && t > 0 ==> a * t < b * t
  {
    if a <= b {
      assert (b - a) * t >= 0;
    }
    if a < b && t > 0 {
      assert (b - a) * t > 0;
    }
  }

  lemma LargerShareFirst(total: int, xs: seq<int>, S: int, i: nat, j: nat)
    requires S > 0 && Sum(xs) == S * total && i < |xs| && j < |xs|
    requires xs[i] > xs[j] || (xs[i] == xs[j] && i < j)
    ensures Rounded(total, xs, S)[i] >= Rounded(total, xs, S)[j]
    ensures xs[i] == xs[j] ==> Rounded(total, xs, S)[i] <= Rounded(total, xs, S)[j] + 1
  {
    var floors, slots, order, r := RoundingOf(total, xs, S);
    TopUpGain(floors, slots, order, r, i);
    TopUpGain(floors, slots, order, r, j);
    FloorOrder(floors[i], slots[i].remainder, floors[j], slots[j].remainder, S);
    if floors[i] == floors[j] && Topped(order, r, j) {
      ToppedInOrder(slots, order, r, i, j);
    }
  }

  lemma FloorOrder(q: int, m: int, q': int, m': int, S: int)
    requires 0 <= m < S && 0 <= m' < S && S * q + m >= S * q' + m'
    ensures q >= q'
    ensures q == q' ==> m >= m'
    ensures S * q + m == S * q' + m' ==> q == q' && m == m'
  {
    if q < q' {
      Gap(S, q, q');
    } else if q > q' {
      Gap(S, q', q);
    }
  }

  lemma {:induction false} Gap(S: int, a: int, b: int)
    requires S > 0 && a < b
    ensures S * a + S <= S * b
    decreases b - a
  {
    assert S * b == S * (b - 1) + S;
    if a + 1 < b {
      Gap(S, a, b - 1);
    }
  }

  lemma NothingToShare(weights: seq<int>, i: nat)
    requires Sum(weights) > 0 && i < |weights|
    ensures Allocation(0, weights)[i] == 0
  {
    AllocationMeetsQuota(0, weights);
    assert weights[i] * 0 == 0;
    assert RoundsShare(Allocation(0, weights)[i], weights[i] * 0, Sum(weights));
    OnlyZeroRoundsZero(Allocation(0, weights)[i], Sum(weights));
  }

  lemma OnlyZeroRoundsZero(a: int, S: int)
    requires -S < S * a < S
    ensures a == 0
  {
    if a >= 1 {
      Gap(S, 0, a);
      assert false;
    } else if a <= -1 {
      Gap(S, a, 0);
      assert false;
    }
  }

  // ---- Only the ratios of the weights matter ---------------------------------------------------

  function Multiples(c: int, s: seq<int>): (t: seq<int>)
    ensures |t| == |s|
  {
    seq(|s|, i requires 0 <= i < |s| => c * s[i])
  }

  function Coarser(c: int, slots: seq<Slot>): (t: seq<Slot>)
    ensures |t| == |slots|
  {
    seq(|slots|, i requires 0 <= i < |slots| => Slot(slots[i].index, c * slots[i].remainder))
  }

  lemma {:induction false} SumOfMultiples(c: int, s: seq<int>)
    ensures Sum(Multiples(c, s)) == c * Sum(s)
  {
    if s != [] {
      var n := |s| - 1;
      SumOfMultiples(c, s[..n]);
      assert Multiples(c, s)[..n] == Multiples(c, s[..n]);
      assert c * (Sum(s[..n]) + s[n]) == c * Sum(s[..n]) + c * s[n];
    }
  }

  lemma DivisionIsUnique(a: int, b: int, q: int, m: int)
    requires b > 0 && 0 <= m < b && a == b * q + m
    ensures a / b == q && a % b == m
  {
    FloorOrder(a / b, a % b, q, m, b);
    FloorOrder(q, m, a / b, a % b, b);
  }

  lemma ScaledDivision(c: int, x: int, S: int)
    requires c > 0 && S > 0
    ensures c * S > 0 && c * x / (c * S) == x / S && c * x % (c * S) == c * (x % S)
  {
    var q, m := x / S, x % S;
    Gap(c, 0, S);
    Gap(c, m, S);
    assert c * m >= 0;
    assert c * x == c * (S * q + m) == (c * S) * q + c * m;
    DivisionIsUnique(c * x, c * S, q, c * m);
  }

  lemma SameOrder(c: int, a: Slot, b: Slot)
    requires c > 0
    ensures Precedes(Slot(a.index, c * a.remainder), Slot(b.index, c * b.remainder)) <==> Precedes(a, b)
  {
    if a.remainder < b.remainder {
      Gap(c, a.remainder, b.remainder);
    } else if b.remainder < a.remainder {
      Gap(c, b.remainder, a.remainder);
    }
  }

  lemma {:induction false} InsertCoarser(c: int, x: Slot, s: seq<Slot>)
    requires c > 0
    ensures Insert(Precedes, Slot(x.index, c * x.remainder), Coarser(c, s)) == Coarser(c, Insert(Precedes, x, s))
  {
    if s != [] {
      SameOrder(c, x, s[0]);
      InsertCoarser(c, x, s[1..]);
      assert Coarser(c, s)[1..] == Coarser(c, s[1..]);
    }
  }

  lemma {:induction false} SortedCoarser(c: int, s: seq<Slot>)
    requires c > 0
    ensures Sorted(Precedes, Coarser(c, s)) == Coarser(c, Sorted(Precedes, s))
  {
    if s != [] {
      SortedCoarser(c, s[1..]);
      InsertCoarser(c, s[0], Sorted(Precedes, s[1..]));
      assert Coarser(c, s)[1..] == Coarser(c, s[1..]);
    }
  }

  /** Only the indices of the order are used. */
  lemma {:induction false} TopUpCoarser(c: int, out: seq<int>, order: seq<Slot>, remaining: int)
    requires forall s :: s in order ==> s.index < |out|
    ensures forall s :: s in Coarser(c, order) ==> s.index < |out|
    ensures TopUp(out, Coarser(c, order), remaining) == TopUp(out, order, remaining)
    decreases order
  {
    forall s | s in Coarser(c, order)
      ensures s.index < |out|
    {
      var i :| 0 <= i < |order| && Coarser(c, order)[i] == s;
      assert order[i] in order;
    }
    if order != [] && remaining > 0 {
      assert Coarser(c, order)[1..] == Coarser(c, order[1..]);
      TopUpCoarser(c, out[order[0].index := out[order[0].index] + 1], order[1..], remaining - 1);
    }
  }

  lemma RoundedScales(total: int, c: int, xs: seq<int>, S: int)
    requires c > 0 && S > 0
    ensures c * S > 0 && Rounded(total, Multiples(c, xs), c * S) == Rounded(total, xs, S)
  {
    ScaledDivision(c, 0, S);
    forall i | 0 <= i < |xs|
      ensures c * xs[i] / (c * S) == xs[i] / S && c * xs[i] % (c * S) == c * (xs[i] % S)
    {
      ScaledDivision(c, xs[i], S);
    }
    assert Floors(Multiples(c, xs), c * S) == Floors(xs, S);
    assert Slots(Multiples(c, xs), c * S) == Coarser(c, Slots(xs, S));
    SortedCoarser(c, Slots(xs, S));
    OrderInRange(xs, S);
    TopUpCoarser(c, Floors(xs, S), Order(xs, S), total - Sum(Floors(xs, S)));
  }

  /** Writing every weight at another scale changes nothing. */
  lemma OnlyRatiosMatter(total: int, c: int, weights: seq<int>)
    requires c > 0
    ensures Allocation(total, Multiples(c, weights)) == Allocation(total, weights)
  {
    var S := Sum(weights);
    SumOfMultiples(c, weights);
    if S > 0 {
      NumeratorsScale(total, c, weights);
      RoundedScales(total, c, Numerators(total, weights), S);
    } else {
      assert c * S <= 0;
    }
  }

  lemma NumeratorsScale(total: int, c: int, weights: seq<int>)
    ensures Numerators(total, Multiples(c, weights)) == Multiples(c, Numerators(total, weights))
  {
    forall i | 0 <= i < |weights|
      ensures Numerators(total, Multiples(c, weights))[i] == Multiples(c, Numerators(total, weights))[i]
    {
      assert c * weights[i] * total == c * (weights[i] * total);
    }
  }

  // ---- Composing a paper ----------------------------------------------------------------------

  const SCORE_PER_QUESTION := 1

  datatype RoleSkill = RoleSkill(
    skillId: string,
    skillName: string,
    weight: int,
    minDifficulty: Option<Num>,
    maxDifficulty: Option<Num>,
    isRequired: bool)

  datatype ComposeOptions = ComposeOptions(
    questionCount: Num,
    kinds: Option<seq<QuestionKind>>,
    excludeSeenDays: Option<Num>)

  datatype ComposedRule = ComposedRule(skillName: string, rule: SectionRule)

  datatype ComposedSection = ComposedSection(name: string, rules: seq<ComposedRule>)

  datatype Composition = Composition(sections: seq<ComposedSection>, questionCount: int, totalScore: int)

  datatype ComposeError = NoRequiredSkill | BadQuestionCount | TooFewQuestions | WeightNotPositive

  function OrElse<T>(o: Option<T>, default: T): T {
    match o
    case Some(v) => v
    case None => default
  }

  function Required(skills: seq<RoleSkill>): seq<RoleSkill> {
    if skills == [] then []
    else (if skills[0].isRequired then [skills[0]] else []) + Required(skills[1..])
  }

  function Weights(skills: seq<RoleSkill>): seq<int> {
    seq(|skills|, i requires 0 <= i < |skills| => skills[i].weight)
  }

  function RuleFor(skill: RoleSkill, picks: int, options: ComposeOptions): ComposedRule {
    ComposedRule(skill.skillName,
                 SectionRule(Int(picks), [skill.skillId], OrElse(options.kinds, []),
                             OrElse(skill.minDifficulty, Int(1)), OrElse(skill.maxDifficulty, Int(5)),
                             OrElse(options.excludeSeenDays, Int(0)), Int(SCORE_PER_QUESTION)))
  }

  /** One question each first, then what is left by weight. */
  function PickCounts(count: int, weights: seq<int>): (picks: seq<int>)
    ensures |picks| == |weights|
  {
    var extra := Allocation(count - |weights|, weights);
    seq(|weights|, i requires 0 <= i < |weights| => 1 + extra[i])
  }

  function ComposeFromRole(skills: seq<RoleSkill>, options: ComposeOptions): Result<Composition, ComposeError> {
    var required := Required(skills);
    if |required| == 0 then Err(NoRequiredSkill)
    else if !options.questionCount.IsInteger() || options.questionCount.v <= 0.0 then Err(BadQuestionCount)
    else
      var count := options.questionCount.v.Floor;
      if count < |required| then Err(TooFewQuestions)
      else if exists i :: 0 <= i < |required| && required[i].weight <= 0 then Err(WeightNotPositive)
      else
        var picks := PickCounts(count, Weights(required));
        var rules := seq(|required|, i requires 0 <= i < |required| => RuleFor(required[i], picks[i], options));
        Ok(Composition([ComposedSection("Questions", rules)], Sum(picks), count * SCORE_PER_QUESTION))
  }

  lemma {:induction false} PositiveSum(weights: seq<int>)
    requires weights != [] && forall i :: 0 <= i < |weights| ==> weights[i] > 0
    ensures Sum(weights) > 0
  {
    var n := |weights| - 1;
    if n > 0 {
      PositiveSum(weights[..n]);
    }
  }

  lemma {:induction false} SumShifted(s: seq<int>, t: seq<int>)
    requires |s| == |t| && forall i :: 0 <= i < |s| ==> s[i] == 1 + t[i]
    ensures Sum(s) == |s| + Sum(t)
  {
    if s != [] {
      SumShifted(s[..|s| - 1], t[..|t| - 1]);
    }
  }

  /** A share of a non-negative total, by a positive weight, is not negative. */
  lemma AllocationNonNegative(total: nat, weights: seq<int>, i: nat)
    requires i < |weights| && weights[i] >= 0 && Sum(weights) > 0
    ensures Allocation(total, weights)[i] >= 0
  {
    AllocationMeetsQuota(total, weights);
    ScaledOrder(0, weights[i], total);
    RoundsNonNegative(Allocation(total, weights)[i], weights[i] * total, Sum(weights));
  }

  lemma RoundsNonNegative(a: int, x: int, S: int)
    requires S > 0 && x >= 0 && RoundsShare(a, x, S)
    ensures a >= 0
  {
    if a < 0 {
      Gap(S, a, 0);
      assert false;
    }
  }

  lemma PickCountsAddUp(count: int, weights: seq<int>)
    requires 1 <= |weights| <= count && forall i :: 0 <= i < |weights| ==> weights[i] > 0
    ensures Sum(PickCounts(count, weights)) == count
    ensures forall i :: 0 <= i < |weights| ==> PickCounts(count, weights)[i] >= 1
    ensures forall i, j :: 0 <= i < |weights| && 0 <= j < |weights| && weights[i] > weights[j] ==>
              PickCounts(count, weights)[i] >= PickCounts(count, weights)[j]
  {
    var spare := count - |weights|;
    PositiveSum(weights);
    AllocationMeetsQuota(spare, weights);
    SumShifted(PickCounts(count, weights), Allocation(spare, weights));
    forall i | 0 <= i < |weights|
      ensures PickCounts(count, weights)[i] >= 1
    {
      AllocationNonNegative(spare, weights, i);
    }
    forall i, j | 0 <= i < |weights| && 0 <= j < |weights| && weights[i] > weights[j]
      ensures PickCounts(count, weights)[i] >= PickCounts(count, weights)[j]
    {
      AllocationIsMonotone(spare, weights, i, j);
    }
  }

  /**
   A skill gets its one question and its share of the rest, rounded: less than one away from
   `1 + (count - n) * w / S`.
   */
  lemma PicksFollowWeights(count: int, weights: seq<int>, i: nat)
    requires 1 <= |weights| <= count && (forall j :: 0 <= j < |weights| ==> weights[j] > 0) && i < |weights|
    ensures RoundsShare(PickCounts(count, weights)[i] - 1, weights[i] * (count - |weights|), Sum(weights))
  {
    PositiveSum(weights);
    AllocationMeetsQuota(count - |weights|, weights);
  }

  /** Twice the weight need not bring twice the questions. */
  lemma DoubleWeightSameQuestions()
    ensures PickCounts(4, [2, 1]) == [2, 2]
  {
    var weights, picks := [2, 1], PickCounts(4, [2, 1]);
    SumOfTwo(2, 1);
    AllocationMeetsQuota(2, weights);
    AllocationIsMonotone(2, weights, 0, 1);
    SumOfTwo(Allocation(2, weights)[0], Allocation(2, weights)[1]);
    assert Allocation(2, weights) == [Allocation(2, weights)[0], Allocation(2, weights)[1]];
    assert RoundsShare(Allocation(2, weights)[0], 4, 3) && RoundsShare(Allocation(2, weights)[1], 2, 3);
    assert picks == [1 + Allocation(2, weights)[0], 1 + Allocation(2, weights)[1]];
  }

  lemma SumOfTwo(a: int, b: int)
    ensures Sum([a, b]) == a + b
  {
    assert [a, b][..1] == [a] && [a][..0] == [];
    assert Sum([a]) == Sum([]) + a;
  }

  ghost predicate Composable(skills: seq<RoleSkill>, options: ComposeOptions) {
    var required := Required(skills);
    && required != []
    && options.questionCount.IsInteger() && options.questionCount.v >= |required| as real
    && forall i :: 0 <= i < |required| ==> required[i].weight > 0
  }

  /** The paper covers each required skill, in order, and holds exactly the questions asked for. */
  ghost predicate CoversRole(paper: Composition, skills: seq<RoleSkill>, options: ComposeOptions) {
    var required := Required(skills);
    && |paper.sections| == 1 && |paper.sections[0].rules| == |required|
    && Int(paper.questionCount) == options.questionCount && paper.totalScore == paper.questionCount
    && Sum(AskedFor(paper.sections[0].rules)) == paper.questionCount
    && forall i :: 0 <= i < |required| ==>
         var r := paper.sections[0].rules[i];
         && r.skillName == required[i].skillName && r.rule.skillIds == [required[i].skillId]
         && r.rule.pickCount.IsInteger() && r.rule.pickCount.v >= 1.0
         && forall j :: 0 <= j < |required| && required[i].weight > required[j].weight ==>
              AskedFor(paper.sections[0].rules)[i] >= AskedFor(paper.sections[0].rules)[j]
  }

  function AskedFor(rules: seq<ComposedRule>): seq<int> {
    seq(|rules|, i requires 0 <= i < |rules| =>
      if rules[i].rule.pickCount.IsInteger() then rules[i].rule.pickCount.v.Floor else 0)
  }

  /** Composition succeeds exactly under its stated conditions, and then covers the role. */
  lemma ComposeSucceedsIff(skills: seq<RoleSkill>, options: ComposeOptions)
    ensures ComposeFromRole(skills, options).Ok? <==> Composable(skills, options)
    ensures Composable(skills, options) ==> CoversRole(ComposeFromRole(skills, options).value, skills, options)
  {
    if Composable(skills, options) {
      var required := Required(skills);
      var count, weights := options.questionCount.v.Floor, Weights(required);
      PickCountsAddUp(count, weights);
      var rules := ComposeFromRole(skills, options).value.sections[0].rules;
      assert AskedFor(rules) == PickCounts(count, weights);
    }
  }

  /** A band the draw accepts: integers, 1 to 5, in order, with the defaults filled in. */
  ghost predicate WellFormedBand(skill: RoleSkill) {
    var lo, hi := OrElse(skill.minDifficulty, Int(1)), OrElse(skill.maxDifficulty, Int(5));
    lo.IsInteger() && hi.IsInteger() && 1.0 <= lo.v <= hi.v <= 5.0
  }

  ghost predicate WellFormedExclusion(options: ComposeOptions) {
    var days := OrElse(options.excludeSeenDays, Int(0));
    days.IsInteger() && days.v >= 0.0
  }

  lemma RuleValidIff(skill: RoleSkill, picks: int, options: ComposeOptions)
    requires picks >= 1
    ensures ValidRule(RuleFor(skill, picks, options).rule) <==> WellFormedBand(skill) && WellFormedExclusion(options)
  {
  }

  ghost predicate AllValid(rules: seq<ComposedRule>) {
    forall i :: 0 <= i < |rules| ==> ValidRule(rules[i].rule)
  }

  ghost predicate AllBandsWellFormed(skills: seq<RoleSkill>) {
    forall i :: 0 <= i < |skills| ==> WellFormedBand(skills[i])
  }

  /** The draw accepts the composed rules exactly when the bands and the exclusion are well formed. */
  lemma ComposedRulesValidIff(skills: seq<RoleSkill>, options: ComposeOptions)
    requires Composable(skills, options)
    ensures ComposeFromRole(skills, options).Ok? && |ComposeFromRole(skills, options).value.sections| == 1
    ensures AllValid(ComposeFromRole(skills, options).value.sections[0].rules)
       <==> AllBandsWellFormed(Required(skills)) && WellFormedExclusion(options)
  {
    ComposeSucceedsIff(skills, options);
    var required, count := Required(skills), options.questionCount.v.Floor;
    PickCountsAddUp(count, Weights(required));
    RulesValidIff(required, PickCounts(count, Weights(required)), options,
        ComposeFromRole(skills, options).value.sections[0].rules);
  }

  lemma RulesValidIff(required: seq<RoleSkill>, picks: seq<int>, options: ComposeOptions, rules: seq<ComposedRule>)
    requires |required| == |picks| == |rules| >= 1
    requires forall i :: 0 <= i < |picks| ==> picks[i] >= 1
    requires forall i :: 0 <= i < |rules| ==> rules[i] == RuleFor(required[i], picks[i], options)
    ensures AllValid(rules) <==> AllBandsWellFormed(required) && WellFormedExclusion(options)
  {
    forall i | 0 <= i < |required|
      ensures ValidRule(rules[i].rule) <==> WellFormedBand(required[i]) && WellFormedExclusion(options)
    {
      RuleValidIff(required[i], picks[i], options);
    }
    if AllValid(rules) {
      assert ValidRule(rules[0].rule);
    }
  }

  /** What the composed rules draw from their pools, rule by rule. */
  ghost function Served(rules: seq<ComposedRule>, pools: seq<seq<DrawCandidate>>, rngs: seq<Rng>): int
    requires |rules| == |pools| == |rngs|
  {
    if rules == [] then 0
    else
      var n := |rules| - 1;
      var d := Drawn(rules[n].rule, pools[n], rngs[n]);
      Served(rules[..n], pools[..n], rngs[..n]) + if d.Ok? then |d.value| else 0
  }

  lemma {:induction false} ServedCounts(rules: seq<ComposedRule>, pools: seq<seq<DrawCandidate>>, rngs: seq<Rng>)
    requires |rules| == |pools| == |rngs|
    requires forall i :: 0 <= i < |rules| ==> ValidRule(rules[i].rule) && Drawn(rules[i].rule, pools[i], rngs[i]).Ok?
    ensures Served(rules, pools, rngs) == Sum(AskedFor(rules))
  {
    if rules != [] {
      var n := |rules| - 1;
      ServedCounts(rules[..n], pools[..n], rngs[..n]);
      assert AskedFor(rules)[..n] == AskedFor(rules[..n]);
      DrawIsExact(rules[n].rule, pools[n], rngs[n]);
    }
  }

  /** A paper drawn in full holds exactly the requested number of questions, whatever the pools. */
  lemma DrawnPaperIsComplete(
      skills: seq<RoleSkill>, options: ComposeOptions, pools: seq<seq<DrawCandidate>>, rngs: seq<Rng>)
    requires Composable(skills, options) && WellFormedExclusion(options) && AllBandsWellFormed(Required(skills))
    requires |pools| == |rngs| == |Required(skills)|
    ensures
      var paper := ComposeFromRole(skills, options);
      && paper.Ok? && |paper.value.sections| == 1 && |paper.value.sections[0].rules| == |pools|
      && ((forall i :: 0 <= i < |pools| ==> Drawn(paper.value.sections[0].rules[i].rule, pools[i], rngs[i]).Ok?) ==>
            Int(Served(paper.value.sections[0].rules, pools, rngs)) == options.questionCount)
  {
    ComposeSucceedsIff(skills, options);
    ComposedRulesValidIff(skills, options);
    var rules := ComposeFromRole(skills, options).value.sections[0].rules;
    if forall i :: 0 <= i < |pools| ==> Drawn(rules[i].rule, pools[i], rngs[i]).Ok? {
      ServedCounts(rules, pools, rngs);
    }
  }

  // ---- What the paper tests ---------------------------------------------------------------------

  /** A skill is in the paper exactly when the role requires it. */
  lemma {:induction false} RequiredAre(skills: seq<RoleSkill>)
    ensures forall s :: s in Required(skills) <==> s in skills && s.isRequired
  {
    if skills != [] {
      RequiredAre(skills[1..]);
      assert forall s :: s in skills <==> s == skills[0] || s in skills[1..];
    }
  }

  /** The required skills keep the role's order, each as often as it is listed. */
  lemma {:induction false} RequiredInOrder(skills: seq<RoleSkill>, skill: RoleSkill)
    ensures Required(skills + [skill]) == Required(skills) + if skill.isRequired then [skill] else []
  {
    if skills == [] {
      assert skills + [skill] == [skill] && [skill][1..] == [];
    } else {
      var first, last := if skills[0].isRequired then [skills[0]] else [], if skill.isRequired then [skill] else [];
      var rest := Required(skills[1..]);
      assert (skills + [skill])[1..] == skills[1..] + [skill];
      RequiredInOrder(skills[1..], skill);
      assert Required(skills) == first + rest && Required(skills + [skill]) == first + (rest + last);
    }
  }

  /** Each refusal is given exactly for its own reason, and the first that applies. */
  lemma RefusalsAreExact(skills: seq<RoleSkill>, options: ComposeOptions)
    ensures
      var paper, n := ComposeFromRole(skills, options), |Required(skills)|;
      && (paper == Err(NoRequiredSkill) <==> forall s :: s in skills ==> !s.isRequired)
      && (paper == Err(BadQuestionCount) <==> n > 0 && forall k :: k >= 1 ==> !IsWhole(options.questionCount, k))
      && (paper == Err(TooFewQuestions) <==> exists k :: 1 <= k < n && IsWhole(options.questionCount, k))
      && (paper == Err(WeightNotPositive) <==>
            && n > 0 && (exists k :: k >= n && IsWhole(options.questionCount, k))
            && exists s :: s in skills && TooLight(s))
  {
    var required := Required(skills);
    RequiredAre(skills);
    assert required != [] ==> required[0] in required;
    if options.questionCount.IsInteger() {
      assert IsWhole(options.questionCount, options.questionCount.v.Floor);
    }
    LightSkillIff(skills, required);
  }

  ghost predicate TooLight(skill: RoleSkill) {
    skill.isRequired && skill.weight <= 0
  }

  lemma LightSkillIff(skills: seq<RoleSkill>, required: seq<RoleSkill>)
    requires forall s :: s in required <==> s in skills && s.isRequired
    ensures (exists i :: 0 <= i < |required| && required[i].weight <= 0) <==> exists s :: s in skills && TooLight(s)
  {
    if i :| 0 <= i < |required| && required[i].weight <= 0 {
      assert required[i] in required;
      assert required[i] in skills && TooLight(required[i]);
    }
    if s :| s in skills && TooLight(s) {
      assert s in required;
    }
  }

  /**
   A question that tests a skill as the role asks: tagged with it, within its band, of a wanted kind,
   not seen too lately.
   */
  ghost predicate Tests(skill: RoleSkill, options: ComposeOptions, c: DrawCandidate) {
    && skill.skillId in c.skillIds
    && Between(Int(1), c.difficulty, Int(5))
    && (skill.minDifficulty.Some? ==> Between(skill.minDifficulty.value, c.difficulty, Int(5)))
    && (skill.maxDifficulty.Some? ==> Between(Int(1), c.difficulty, skill.maxDifficulty.value))
    && (options.kinds.Some? && options.kinds.value != [] ==> c.kind in options.kinds.value)
    && (options.excludeSeenDays.Some? && c.lastSeenDaysAgo.Some? ==>
          NotRecent(options.excludeSeenDays.value, c.lastSeenDaysAgo.value))
  }

  lemma SuitedTests(skill: RoleSkill, picks: int, options: ComposeOptions, c: DrawCandidate)
    requires picks >= 1 && WellFormedBand(skill) && WellFormedExclusion(options)
    ensures Suits(RuleFor(skill, picks, options).rule, c) ==> Tests(skill, options, c)
  {
    var rule := RuleFor(skill, picks, options).rule;
    if Suits(rule, c) {
      var lo, d, hi :| lo <= d <= hi && IsWhole(rule.minDifficulty, lo) && IsWhole(c.difficulty, d)
                       && IsWhole(rule.maxDifficulty, hi);
      assert IsWhole(Int(1), 1) && IsWhole(Int(5), 5);
    }
  }

  /** Every question a composed paper serves tests the required skill its rule stands for, for one mark. */
  lemma PaperTestsTheRole(skills: seq<RoleSkill>, options: ComposeOptions, i: nat, pool: seq<DrawCandidate>, rng: Rng)
    requires Composable(skills, options) && WellFormedExclusion(options) && AllBandsWellFormed(Required(skills))
    requires i < |Required(skills)|
    ensures
      var paper := ComposeFromRole(skills, options);
      && paper.Ok? && |paper.value.sections| == 1 && paper.value.sections[0].name == "Questions"
      && |paper.value.sections[0].rules| == |Required(skills)|
      && var rule := paper.value.sections[0].rules[i].rule;
         && rule.scorePerQuestion == Int(1)
         && (Drawn(rule, pool, rng).Ok? ==>
               forall c :: c in Drawn(rule, pool, rng).value ==> c in pool && Tests(Required(skills)[i], options, c))
  {
    ComposeSucceedsIff(skills, options);
    ComposedRulesValidIff(skills, options);
    var required, count := Required(skills), options.questionCount.v.Floor;
    var picks := PickCounts(count, Weights(required));
    PickCountsAddUp(count, Weights(required));
    var rule := ComposeFromRole(skills, options).value.sections[0].rules[i].rule;
    ServedSuits(rule, pool, rng);
    forall c {
      SuitedTests(required[i], picks[i], options, c);
    }
  }
}
