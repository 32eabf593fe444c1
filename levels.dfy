/** Pure model of the levels of a pairwise ("cascade") summation buffer.

    A buffer is the sequence of its levels, level 0 first.  Adding a value is
    a carry that walks up from level 0 like a binary counter increment: every
    occupied (nonzero) level is folded into the carried value and cleared, and
    the carry is stored in the first empty (zero) level.  Levels are exact
    integers, so the sum of the levels can be compared with the sum of the
    inputs. */
module Levels {

  /** `n` empty levels: what a fresh or freshly grown buffer holds. */
  function Zeros(n: nat): (r: seq<int>)
    ensures |r| == n
    ensures forall j :: 0 <= j < n ==> r[j] == 0
  {
    if n == 0 then [] else Zeros(n - 1) + [0]
  }

  /** `t` with the elements of `s` added to it one at a time, in increasing
      index order: the accumulation `t += *(a++)`. */
  function Accumulate(t: int, s: seq<int>): int
    decreases |s|
  {
    if s == [] then t else Accumulate(t + s[0], s[1..])
  }

  /** The elements of `s` accumulated into a fresh 0. */
  function Sum(s: seq<int>): int
  {
    Accumulate(0, s)
  }

  /** The last level is empty, so a scan for an empty level that starts
      inside the buffer stops inside it. */
  predicate Sentinel(s: seq<int>)
  {
    |s| > 0 && s[|s| - 1] == 0
  }

  /** The first empty level at or above level `i`. */
  function FirstZero(s: seq<int>, i: nat): (k: nat)
    requires i < |s| && Sentinel(s)
    ensures i <= k < |s| && s[k] == 0
    ensures forall j :: i <= j < k ==> s[j] != 0
    decreases |s| - i
  {
    if s[i] == 0 then i else FirstZero(s, i + 1)
  }

  /** The carry loop started at level `i` with carried value `x`, written as a
      single plain loop over the levels: an occupied level is folded into the
      carry and cleared, an empty level receives the carry and ends the loop. */
  function Carry(s: seq<int>, i: nat, x: int): (r: seq<int>)
    requires i < |s| && Sentinel(s)
    ensures |r| == |s|
    decreases |s| - i
  {
    if s[i] == 0 then s[i := x] else Carry(s[i := 0], i + 1, x + s[i])
  }

  /** One addition of `x`: the carry from level 0, then growth by `inc` empty
      levels exactly when the carry was stored in the last level. */
  function Step(s: seq<int>, inc: nat, x: int): (r: seq<int>)
    requires Sentinel(s) && inc >= 1
    ensures Sentinel(r)
    ensures |r| == if FirstZero(s, 0) == |s| - 1 then |s| + inc else |s|
    ensures forall j :: |s| <= j < |r| ==> r[j] == 0
  {
    CarryFrame(s, 0, x);
    if FirstZero(s, 0) == |s| - 1 then Carry(s, 0, x) + Zeros(inc) else Carry(s, 0, x)
  }

  /** The buffer reached from `s` by adding the inputs `xs` in order. */
  function Replay(s: seq<int>, inc: nat, xs: seq<int>): (r: seq<int>)
    requires Sentinel(s) && inc >= 1
    ensures Sentinel(r) && |s| <= |r|
    decreases |xs|
  {
    if xs == [] then s else Step(Replay(s, inc, xs[..|xs| - 1]), inc, xs[|xs| - 1])
  }

  /** Accumulating into `t` gives `t` plus the sum. */
  lemma {:induction false} AccumulateFrom(t: int, s: seq<int>)
    ensures Accumulate(t, s) == t + Sum(s)
    decreases |s|
  {
    if s != [] {
      AccumulateFrom(t + s[0], s[1..]);
      AccumulateFrom(s[0], s[1..]);
    }
  }

  lemma {:induction false} SumConcat(s: seq<int>, u: seq<int>)
    ensures Sum(s + u) == Sum(s) + Sum(u)
    decreases |s|
  {
    if s == [] {
      assert s + u == u;
    } else {
      assert (s + u)[1..] == s[1..] + u;
      AccumulateFrom(s[0], s[1..] + u);
      AccumulateFrom(s[0], s[1..]);
      SumConcat(s[1..], u);
    }
  }

  /** Overwriting one level changes the sum by the difference. */
  lemma {:induction false} SumUpdate(s: seq<int>, i: nat, v: int)
    requires i < |s|
    ensures Sum(s[i := v]) == Sum(s) - s[i] + v
  {
    assert s == s[..i] + [s[i]] + s[i + 1..];
    assert s[i := v] == s[..i] + [v] + s[i + 1..];
    SumConcat(s[..i] + [s[i]], s[i + 1..]);
    SumConcat(s[..i], [s[i]]);
    SumConcat(s[..i] + [v], s[i + 1..]);
    SumConcat(s[..i], [v]);
    SumSingleton(s[i]);
    SumSingleton(v);
  }

  lemma {:induction false} SumSingleton(v: int)
    ensures Sum([v]) == v
  {
    assert Accumulate(0, [v]) == Accumulate(v, []);
  }

  lemma {:induction false} SumZeros(n: nat)
    ensures Sum(Zeros(n)) == 0
  {
    if n > 0 {
      SumZeros(n - 1);
      SumConcat(Zeros(n - 1), [0]);
    }
  }

  /** The frame of the carry started at level `i`: levels below `i` and above
      the first empty level `k` keep their values, levels `i..k-1` are
      cleared, and level `k` holds `x` plus the old levels `i..k-1`, added in
      increasing index order. */
  lemma {:induction false} CarryFrame(s: seq<int>, i: nat, x: int)
    requires i < |s| && Sentinel(s)
    ensures var r, k := Carry(s, i, x), FirstZero(s, i);
      (forall j :: 0 <= j < i ==> r[j] == s[j]) &&
      (forall j :: i <= j < k ==> r[j] == 0) &&
      r[k] == Accumulate(x, s[i..k]) &&
      (forall j :: k < j < |s| ==> r[j] == s[j])
    decreases |s| - i
  {
    if s[i] != 0 {
      var t := s[i := 0];
      CarryFrame(t, i + 1, x + s[i]);
      CarryPast(s, i, x);
      var k := FirstZero(s, i);
      assert s[i..k][1..] == t[i + 1..k];
    }
  }

  /** Clearing an occupied level and moving past it with the level folded
      into the carry leaves the first empty level, and the outcome of the
      carry, as they were. */
  lemma {:induction false} CarryPast(s: seq<int>, i: nat, x: int)
    requires i < |s| && Sentinel(s) && s[i] != 0
    ensures i + 1 < |s| && Sentinel(s[i := 0])
    ensures FirstZero(s[i := 0], i + 1) == FirstZero(s, i)
    ensures Carry(s[i := 0], i + 1, x + s[i]) == Carry(s, i, x)
  {
    var t := s[i := 0];
    var k, k' := FirstZero(s, i), FirstZero(t, i + 1);
    assert t[k] == 0 && s[k'] == 0;
  }

  /** A carry loop that has reached an empty level `i` of the levels `t`,
      on the way from the levels `s` with the value `x`, stores its carry `c`
      there: that completes the addition, and the buffer grows exactly when
      `i` is the last level. */
  lemma {:induction false} CarryLands(s: seq<int>, inc: nat, x: int, t: seq<int>, i: nat, c: int)
    requires Sentinel(s) && inc >= 1 && |t| == |s| && i < |t| && Sentinel(t) && t[i] == 0
    requires Carry(t, i, c) == Carry(s, 0, x) && FirstZero(t, i) == FirstZero(s, 0)
    ensures FirstZero(s, 0) == i
    ensures Step(s, inc, x) == if i == |s| - 1 then t[i := c] + Zeros(inc) else t[i := c]
  {
  }

  /** The carry raises the sum of the levels by exactly the carried value. */
  lemma {:induction false} CarrySum(s: seq<int>, i: nat, x: int)
    requires i < |s| && Sentinel(s)
    ensures Sum(Carry(s, i, x)) == Sum(s) + x
    decreases |s| - i
  {
    if s[i] == 0 {
      SumUpdate(s, i, x);
    } else {
      SumUpdate(s, i, 0);
      CarrySum(s[i := 0], i + 1, x + s[i]);
    }
  }

  /** Each addition raises the sum of the levels by exactly the added value;
      growth adds only empty levels. */
  lemma {:induction false} StepSum(s: seq<int>, inc: nat, x: int)
    requires Sentinel(s) && inc >= 1
    ensures Sum(Step(s, inc, x)) == Sum(s) + x
  {
    CarrySum(s, 0, x);
    SumConcat(Carry(s, 0, x), Zeros(inc));
    SumZeros(inc);
  }

  /** Sum preservation: after any sequence of additions the levels sum to
      their starting sum plus the sum of the inputs. */
  lemma {:induction false} ReplaySum(s: seq<int>, inc: nat, xs: seq<int>)
    requires Sentinel(s) && inc >= 1
    ensures Sum(Replay(s, inc, xs)) == Sum(s) + Sum(xs)
    decreases |xs|
  {
    if xs != [] {
      var n := |xs| - 1;
      ReplaySum(s, inc, xs[..n]);
      StepSum(Replay(s, inc, xs[..n]), inc, xs[n]);
      assert xs == xs[..n] + [xs[n]];
      SumConcat(xs[..n], [xs[n]]);
      SumSingleton(xs[n]);
    }
  }

  /** The value of a buffer never depends on its growth policy: two buffers
      of any sizes and increments fed the same inputs from empty agree. */
  lemma {:induction false} GrowthIrrelevant(n1: nat, inc1: nat, n2: nat, inc2: nat, xs: seq<int>)
    requires n1 >= 1 && inc1 >= 1 && n2 >= 1 && inc2 >= 1
    ensures Sum(Replay(Zeros(n1), inc1, xs)) == Sum(xs)
    ensures Sum(Replay(Zeros(n1), inc1, xs)) == Sum(Replay(Zeros(n2), inc2, xs))
  {
    ReplaySum(Zeros(n1), inc1, xs);
    ReplaySum(Zeros(n2), inc2, xs);
    SumZeros(n1);
    SumZeros(n2);
  }
}
