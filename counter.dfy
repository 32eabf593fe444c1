/** The binary-counter shape of the cascade buffer.

    When every input is positive no level ever cancels to zero, and the
    buffer after `n` additions is the binary numeral of `n`: level `i` is
    occupied exactly when bit `i` of `n` is set, and then it holds the sum of
    a contiguous block of 2^i inputs.  As a consequence a buffer of `L` levels
    first grows on addition number 2^(L-1). */
module BinaryCounter {
  import opened Levels

  function Pow2(i: nat): (r: nat)
    ensures r >= 1
  {
    if i == 0 then 1 else 2 * Pow2(i - 1)
  }

  /** Bit `i` of `n`. */
  function Bit(n: nat, i: nat): (b: nat)
    ensures b <= 1
  {
    if i == 0 then n % 2 else Bit(n / 2, i - 1)
  }

  /** `n` with its `i` low bits cleared. */
  function Floor(n: nat, i: nat): (r: nat)
    ensures r <= n
  {
    if i == 0 then n else 2 * Floor(n / 2, i - 1)
  }

  /** The number of low one bits of `n`. */
  function TrailingOnes(n: nat): nat
  {
    if n % 2 == 1 then 1 + TrailingOnes(n / 2) else 0
  }

  predicate Positive(xs: seq<int>)
  {
    forall j :: 0 <= j < |xs| ==> xs[j] > 0
  }

  /** Clearing bit `i` after the bits below it removes bit `i`'s weight. */
  lemma {:induction false} FloorStep(n: nat, i: nat)
    ensures Floor(n, i) == Floor(n, i + 1) + (if Bit(n, i) == 1 then Pow2(i) else 0)
  {
    if i > 0 {
      FloorStep(n / 2, i - 1);
    }
  }

  /** The inputs, among the first `|xs|`, that the buffer keeps summed in
      level `i`: those between `|xs|` with its `i + 1` low bits cleared and
      `|xs|` with its `i` low bits cleared. */
  function Block(xs: seq<int>, i: nat): seq<int>
  {
    FloorStep(|xs|, i);
    xs[Floor(|xs|, i + 1)..Floor(|xs|, i)]
  }

  /** Level `i` holds either no input or 2^i consecutive inputs, according to
      bit `i` of the input count. */
  lemma {:induction false} BlockSize(xs: seq<int>, i: nat)
    ensures |Block(xs, i)| == if Bit(|xs|, i) == 1 then Pow2(i) else 0
  {
    FloorStep(|xs|, i);
  }

  /** The levels `r` are the binary numeral of the inputs `xs`: every level
      holds the sum of its block, and the count of inputs lies below the
      weight of the sentinel level. */
  ghost predicate Shaped(r: seq<int>, xs: seq<int>)
  {
    Sentinel(r) && |xs| < Pow2(|r| - 1) &&
    forall i {:trigger Block(xs, i)} :: 0 <= i < |r| ==> r[i] == Sum(Block(xs, i))
  }

  lemma {:induction false} SumPositive(s: seq<int>)
    requires Positive(s)
    ensures s == [] ==> Sum(s) == 0
    ensures s != [] ==> Sum(s) > 0
    decreases |s|
  {
    if s != [] {
      AccumulateFrom(s[0], s[1..]);
      SumPositive(s[1..]);
    }
  }

  /** With positive inputs a level is occupied exactly when its bit is set. */
  lemma {:induction false} LevelOccupied(r: seq<int>, xs: seq<int>, i: nat)
    requires Shaped(r, xs) && Positive(xs) && i < |r|
    ensures r[i] != 0 <==> Bit(|xs|, i) == 1
  {
    var lo, hi := Floor(|xs|, i + 1), Floor(|xs|, i);
    FloorStep(|xs|, i);
    var b := xs[lo..hi];
    assert Block(xs, i) == b;
    assert Positive(b);
    SumPositive(b);
    BlockSize(xs, i);
  }

  /** The low `TrailingOnes(n)` bits of `n` are set and the next one is clear. */
  lemma {:induction false} TrailingOnesBits(n: nat)
    ensures forall j :: 0 <= j < TrailingOnes(n) ==> Bit(n, j) == 1
    ensures Bit(n, TrailingOnes(n)) == 0
  {
    if n % 2 == 1 {
      TrailingOnesBits(n / 2);
      forall j | 0 < j < TrailingOnes(n)
        ensures Bit(n, j) == 1
      {
        assert Bit(n, j) == Bit(n / 2, j - 1);
      }
    }
  }

  /** What incrementing `n` does to the cleared forms of `n`: below and at
      the first clear bit `k`, `n + 1` has no low bits and `n` has all of
      them; above `k` nothing changes. */
  lemma {:induction false} CarryFloors(n: nat, j: nat)
    ensures j <= TrailingOnes(n) ==> Floor(n + 1, j) == n + 1 && Floor(n, j) + Pow2(j) == n + 1
    ensures TrailingOnes(n) < j ==> Floor(n + 1, j) == Floor(n, j)
  {
    if j > 0 {
      if n % 2 == 1 {
        assert (n + 1) / 2 == n / 2 + 1;
        CarryFloors(n / 2, j - 1);
      } else {
        assert (n + 1) / 2 == n / 2;
      }
    }
  }

  lemma {:induction false} FloorOfSmall(n: nat, j: nat)
    requires n < Pow2(j)
    ensures Floor(n, j) == 0
  {
    if j > 0 {
      FloorOfSmall(n / 2, j - 1);
    }
  }

  lemma {:induction false} TrailingOnesBound(n: nat)
    ensures Pow2(TrailingOnes(n)) <= n + 1
  {
    if n % 2 == 1 {
      TrailingOnesBound(n / 2);
    }
  }

  lemma {:induction false} TrailingOnesOfMask(t: nat)
    ensures TrailingOnes(Pow2(t) - 1) == t
  {
    if t > 0 {
      assert (Pow2(t) - 1) / 2 == Pow2(t - 1) - 1;
      TrailingOnesOfMask(t - 1);
    }
  }

  lemma {:induction false} Pow2Grows(a: nat, b: nat)
    requires a < b
    ensures Pow2(a) < Pow2(b)
    decreases b
  {
    if a < b - 1 {
      Pow2Grows(a, b - 1);
    }
  }

  /** Levels below the first clear bit `k` of the count `|xs|` hold the
      blocks that end at the last input, contiguously: together the first `t`
      of them hold the last 2^t - 1 inputs. */
  lemma {:induction false} Telescope(r: seq<int>, xs: seq<int>, t: nat)
    requires Shaped(r, xs) && t <= TrailingOnes(|xs|) && t <= |r|
    ensures Pow2(t) <= |xs| + 1
    ensures Sum(r[..t]) == Sum(xs[|xs| + 1 - Pow2(t)..|xs|])
  {
    var n := |xs|;
    if t == 0 {
      assert r[..0] == [] && xs[n..n] == [];
    } else {
      Telescope(r, xs, t - 1);
      var lo, mid := TelescopeFloors(n, t);
      BlockSlice(xs, n, t - 1, lo, mid);
      assert r[t - 1] == Sum(Block(xs, t - 1));
      TelescopeStep(r, xs, t, lo, mid);
    }
  }

  /** The floors that bound level `t - 1` below the first clear bit. */
  lemma {:induction false} TelescopeFloors(n: nat, t: nat) returns (lo: nat, mid: nat)
    requires 0 < t <= TrailingOnes(n)
    ensures lo == n + 1 - Pow2(t) && mid == n + 1 - Pow2(t - 1) && lo <= mid <= n
    ensures Floor(n, t) == lo && Floor(n, t - 1) == mid
  {
    CarryFloors(n, t);
    CarryFloors(n, t - 1);
    lo, mid := Floor(n, t), Floor(n, t - 1);
    Pow2Grows(t - 1, t);
  }

  /** Adding level `t - 1`, which holds the inputs just before those of the
      levels below it, extends the telescoped sum by one block. */
  lemma {:induction false} TelescopeStep(r: seq<int>, xs: seq<int>, t: nat, lo: nat, mid: nat)
    requires 0 < t <= |r| && lo <= mid <= |xs|
    requires r[t - 1] == Sum(xs[lo..mid]) && Sum(r[..t - 1]) == Sum(xs[mid..|xs|])
    ensures Sum(r[..t]) == Sum(xs[lo..|xs|])
  {
    assert r[..t] == r[..t - 1] + [r[t - 1]];
    SumConcat(r[..t - 1], [r[t - 1]]);
    SumSingleton(r[t - 1]);
    SliceSplit(xs, lo, mid, |xs|);
    SumConcat(xs[lo..mid], xs[mid..|xs|]);
  }

  lemma {:induction false} SliceSplit(s: seq<int>, lo: nat, mid: nat, hi: nat)
    requires lo <= mid <= hi <= |s|
    ensures s[lo..hi] == s[lo..mid] + s[mid..hi]
  {
  }

  /** With positive inputs the carry of the next addition stops at the first
      clear bit of the count. */
  lemma {:induction false} FirstZeroIsTrailingOnes(r: seq<int>, xs: seq<int>)
    requires Shaped(r, xs) && Positive(xs)
    ensures TrailingOnes(|xs|) < |r| && FirstZero(r, 0) == TrailingOnes(|xs|)
  {
    var n, k := |xs|, TrailingOnes(|xs|);
    TrailingOnesBits(n);
    LevelOccupied(r, xs, |r| - 1);
    assert k < |r|;
    LevelOccupied(r, xs, k);
    forall j | 0 <= j < k
      ensures r[j] != 0
    {
      LevelOccupied(r, xs, j);
    }
    var f := FirstZero(r, 0);
    assert r[f] == 0 && r[k] == 0;
  }

  /** One more positive input keeps the buffer the binary numeral of its
      inputs, and the buffer grows exactly when the new count reaches the
      weight of the sentinel level. */
  lemma {:induction false} CounterStep(r: seq<int>, xs: seq<int>, inc: nat, x: int)
    requires Shaped(r, xs) && Positive(xs) && x > 0 && inc >= 1
    ensures Shaped(Step(r, inc, x), xs + [x])
  {
    var n, k, m := |xs|, TrailingOnes(|xs|), |r| - 1;
    var ys, r' := xs + [x], Step(r, inc, x);
    StepSize(r, xs, inc, x);
    FirstZeroIsTrailingOnes(r, xs);
    assert n + 1 < Pow2(|r'| - 1) by {
      if k == m {
        Pow2Grows(m, |r'| - 1);
      }
    }
    forall i | 0 <= i < |r'|
      ensures r'[i] == Sum(Block(ys, i))
    {
      LevelAfterStep(r, xs, inc, x, i);
    }
  }

  /** The buffer grows exactly on the addition that brings the count up to
      the weight of the sentinel level. */
  lemma {:induction false} StepSize(r: seq<int>, xs: seq<int>, inc: nat, x: int)
    requires Shaped(r, xs) && Positive(xs) && inc >= 1
    ensures |Step(r, inc, x)| == if |xs| + 1 == Pow2(|r| - 1) then |r| + inc else |r|
  {
    var n, k, m := |xs|, TrailingOnes(|xs|), |r| - 1;
    FirstZeroIsTrailingOnes(r, xs);
    if k == m {
      TrailingOnesBound(n);
    }
    if n + 1 == Pow2(m) {
      TrailingOnesOfMask(m);
    }
  }

  /** Level `i` after one more positive input, case by case against the first
      clear bit `k` of the old count: cleared below `k`, the new block at `k`,
      unchanged above, and empty in the levels added by growth. */
  lemma {:induction false} LevelAfterStep(r: seq<int>, xs: seq<int>, inc: nat, x: int, i: nat)
    requires Shaped(r, xs) && Positive(xs) && x > 0 && inc >= 1
    requires i < |Step(r, inc, x)|
    ensures Step(r, inc, x)[i] == Sum(Block(xs + [x], i))
  {
    var n, k, m := |xs|, TrailingOnes(|xs|), |r| - 1;
    var r' := Step(r, inc, x);
    FirstZeroIsTrailingOnes(r, xs);
    if i <= m {
      CarryFrame(r, 0, x);
      assert r'[i] == Carry(r, 0, x)[i];
    }
    if i < k {
      BlockBelowCarry(xs + [x], i);
    } else if i == k {
      TrailingOnesBits(n);
      Telescope(r, xs, k);
      AccumulateFrom(x, r[..k]);
      BlockAtCarry(xs, x);
      SumConcat(xs[n + 1 - Pow2(k)..n], [x]);
      SumSingleton(x);
    } else if i <= m {
      BlockAboveCarry(xs, x, i);
    } else {
      if n + 1 == Pow2(m) {
        TrailingOnesOfMask(m);
      }
      BlockBeyondCount(xs + [x], m, i);
    }
  }

  /** Below the first clear bit of the old count the new count has no bits,
      so those levels hold no inputs. */
  lemma {:induction false} BlockBelowCarry(ys: seq<int>, i: nat)
    requires |ys| > 0 && i < TrailingOnes(|ys| - 1)
    ensures Block(ys, i) == []
  {
    CarryFloors(|ys| - 1, i);
    CarryFloors(|ys| - 1, i + 1);
  }

  /** At the first clear bit `k` of the old count the new block is the last
      2^k - 1 old inputs followed by the new one. */
  lemma {:induction false} BlockAtCarry(xs: seq<int>, x: int)
    ensures Pow2(TrailingOnes(|xs|)) <= |xs| + 1
    ensures Block(xs + [x], TrailingOnes(|xs|))
      == xs[|xs| + 1 - Pow2(TrailingOnes(|xs|))..|xs|] + [x]
  {
    var n, ys := |xs|, xs + [x];
    var k, lo := FloorsAtCarry(n);
    BlockSlice(ys, n + 1, k, lo, n + 1);
    SliceThroughAppend(xs, x, lo);
  }

  /** A block is the slice between its two floors. */
  lemma {:induction false} BlockSlice(xs: seq<int>, m: nat, i: nat, lo: nat, hi: nat)
    requires |xs| == m && Floor(m, i + 1) == lo && Floor(m, i) == hi
    ensures lo <= hi <= |xs| && Block(xs, i) == xs[lo..hi]
  {
    FloorStep(|xs|, i);
  }

  lemma {:induction false} SliceThroughAppend(xs: seq<int>, x: int, lo: nat)
    requires lo <= |xs|
    ensures (xs + [x])[lo..|xs| + 1] == xs[lo..|xs|] + [x]
  {
  }

  lemma {:induction false} FloorsAtCarry(n: nat) returns (k: nat, lo: nat)
    ensures k == TrailingOnes(n) && Pow2(k) <= n + 1 && lo == n + 1 - Pow2(k)
    ensures Floor(n + 1, k) == n + 1 && Floor(n + 1, k + 1) == lo
  {
    k := TrailingOnes(n);
    TrailingOnesBound(n);
    lo := n + 1 - Pow2(k);
    CarryFloors(n, k);
    CarryFloors(n, k + 1);
    FloorStep(n, k);
    TrailingOnesBits(n);
  }

  /** Above the first clear bit of the old count the blocks do not move. */
  lemma {:induction false} BlockAboveCarry(xs: seq<int>, x: int, i: nat)
    requires TrailingOnes(|xs|) < i
    ensures Block(xs + [x], i) == Block(xs, i)
  {
    var n, ys := |xs|, xs + [x];
    FloorsAboveCarry(n, i);
    var lo, hi := Floor(n, i + 1), Floor(n, i);
    BlockSlice(ys, n + 1, i, lo, hi);
    BlockSlice(xs, n, i, lo, hi);
    SliceOfAppend(xs, x, lo, hi);
  }

  lemma {:induction false} SliceOfAppend(xs: seq<int>, x: int, lo: nat, hi: nat)
    requires lo <= hi <= |xs|
    ensures (xs + [x])[lo..hi] == xs[lo..hi]
  {
  }

  lemma {:induction false} FloorsAboveCarry(n: nat, i: nat)
    requires TrailingOnes(n) < i
    ensures Floor(n + 1, i) == Floor(n, i) && Floor(n + 1, i + 1) == Floor(n, i + 1)
    ensures Floor(n, i + 1) <= Floor(n, i)
  {
    CarryFloors(n, i);
    CarryFloors(n, i + 1);
    FloorStep(n, i);
  }

  /** Levels of weight above the count hold no inputs. */
  lemma {:induction false} BlockBeyondCount(ys: seq<int>, m: nat, i: nat)
    requires |ys| <= Pow2(m) && m < i
    ensures Block(ys, i) == []
  {
    FloorsBeyondCount(|ys|, m, i);
  }

  lemma {:induction false} FloorsBeyondCount(n: nat, m: nat, i: nat)
    requires n <= Pow2(m) && m < i
    ensures Floor(n, i) == 0 && Floor(n, i + 1) == 0
  {
    Pow2Grows(m, i);
    Pow2Grows(m, i + 1);
    FloorOfSmall(n, i);
    FloorOfSmall(n, i + 1);
  }

  /** The number of levels of a buffer that started with `L` levels and
      grows by `inc`, after `n` additions of positive values: it grows
      exactly when the count reaches the weight 2^(size-1) of its sentinel
      level, so the count always stays below that weight. */
  function Depth(L: nat, inc: nat, n: nat): (d: nat)
    requires L >= 1 && inc >= 1
    ensures d >= L && n < Pow2(d - 1)
  {
    if n == 0 then L
    else
      var p := Depth(L, inc, n - 1);
      if n == Pow2(p - 1) then Pow2Grows(p - 1, p + inc - 1); p + inc else p
  }

  /** No growth while the count stays below the weight of the initial
      sentinel level. */
  lemma {:induction false} DepthBefore(L: nat, inc: nat, n: nat)
    requires L >= 1 && inc >= 1 && n < Pow2(L - 1)
    ensures Depth(L, inc, n) == L
  {
    if n > 0 {
      DepthBefore(L, inc, n - 1);
    }
  }

  /** After a growth to `d + inc` levels on addition number 2^(d-1), the size
      stays put until addition number 2^(d+inc-1): each growth by `inc`
      levels buys 2^inc times as many additions. */
  lemma {:induction false} GrowthSpacing(L: nat, inc: nat, n: nat, m: nat)
    requires L >= 1 && inc >= 1
    requires n + 1 == Pow2(Depth(L, inc, n) - 1)
    requires n < m < Pow2(Depth(L, inc, n) + inc - 1)
    ensures Depth(L, inc, m) == Depth(L, inc, n) + inc
    decreases m
  {
    if m > n + 1 {
      GrowthSpacing(L, inc, n, m - 1);
    }
  }

  /** The binary-counter shape of a buffer of `L` empty levels fed positive
      inputs: it is the binary numeral of the input count. */
  lemma {:induction false} CounterShape(L: nat, inc: nat, xs: seq<int>)
    requires L >= 1 && inc >= 1 && Positive(xs)
    ensures Shaped(Replay(Zeros(L), inc, xs), xs)
    decreases |xs|
  {
    if xs == [] {
      EmptyShaped(L);
    } else {
      var ys, x := xs[..|xs| - 1], xs[|xs| - 1];
      assert xs == ys + [x];
      CounterShape(L, inc, ys);
      CounterStep(Replay(Zeros(L), inc, ys), ys, inc, x);
    }
  }

  /** The size of a buffer of `L` empty levels fed positive inputs is the
      depth reached by their count. */
  lemma {:induction false} CounterDepth(L: nat, inc: nat, xs: seq<int>)
    requires L >= 1 && inc >= 1 && Positive(xs)
    ensures |Replay(Zeros(L), inc, xs)| == Depth(L, inc, |xs|)
    decreases |xs|
  {
    if xs != [] {
      var ys, x := xs[..|xs| - 1], xs[|xs| - 1];
      assert Positive(ys);
      CounterDepth(L, inc, ys);
      var r := Replay(Zeros(L), inc, ys);
      assert Replay(Zeros(L), inc, xs) == Step(r, inc, x);
      CounterShape(L, inc, ys);
      StepSize(r, ys, inc, x);
      DepthNext(L, inc, |ys|, |r|);
    }
  }

  lemma {:induction false} DepthNext(L: nat, inc: nat, n: nat, p: nat)
    requires L >= 1 && inc >= 1 && Depth(L, inc, n) == p
    ensures Depth(L, inc, n + 1) == if n + 1 == Pow2(p - 1) then p + inc else p
  {
  }

  /** The first growth: `L` levels while fewer than 2^(L-1) values have been
      added, then one increment more from addition number 2^(L-1) until
      addition number 2^(L+inc-1), 2^inc times as many. */
  lemma {:induction false} FirstGrowth(L: nat, inc: nat, xs: seq<int>)
    requires L >= 1 && inc >= 1 && Positive(xs)
    ensures |xs| < Pow2(L - 1) ==> |Replay(Zeros(L), inc, xs)| == L
    ensures Pow2(L - 1) <= |xs| < Pow2(L + inc - 1) ==> |Replay(Zeros(L), inc, xs)| == L + inc
  {
    CounterDepth(L, inc, xs);
    var n := |xs|;
    if n < Pow2(L - 1) {
      DepthBefore(L, inc, n);
    } else if n < Pow2(L + inc - 1) {
      DepthBefore(L, inc, Pow2(L - 1) - 1);
      GrowthSpacing(L, inc, Pow2(L - 1) - 1, n);
    }
  }

  /** A buffer of `L` empty levels is the numeral of no inputs. */
  lemma {:induction false} EmptyShaped(L: nat)
    requires L >= 1
    ensures Shaped(Zeros(L), [])
  {
    forall i | 0 <= i < L
      ensures Zeros(L)[i] == Sum(Block([], i))
    {
    }
  }

  /** Levels after positive inputs: occupied exactly at the set bits of the
      input count, each holding the sum of its own contiguous block of 2^i
      inputs. */
  lemma {:induction false} LevelsAreBits(L: nat, inc: nat, xs: seq<int>, i: nat)
    requires L >= 1 && inc >= 1 && Positive(xs) && i < |Replay(Zeros(L), inc, xs)|
    ensures Replay(Zeros(L), inc, xs)[i] == Sum(Block(xs, i))
    ensures Replay(Zeros(L), inc, xs)[i] != 0 <==> Bit(|xs|, i) == 1
  {
    CounterShape(L, inc, xs);
    LevelOccupied(Replay(Zeros(L), inc, xs), xs, i);
  }

  /** With the default tunables (20 initial levels, growth by 10) and
      positive inputs the buffer keeps 20 levels for the first 524287
      additions, grows to 30 levels on addition number 524288 = 2^19, and
      keeps 30 levels until addition number 536870912 = 2^29, 1024 times
      later. */
  lemma {:induction false} DefaultGrowth(xs: seq<int>)
    requires Positive(xs)
    ensures |xs| < 524288 ==> |Replay(Zeros(20), 10, xs)| == 20
    ensures 524288 <= |xs| < 536870912 ==> |Replay(Zeros(20), 10, xs)| == 30
  {
    assert Pow2(4) == 16;
    assert Pow2(8) == 256;
    assert Pow2(12) == 4096;
    assert Pow2(16) == 65536;
    assert Pow2(19) == 524288;
    assert Pow2(23) == 8388608;
    assert Pow2(27) == 134217728;
    assert Pow2(29) == 536870912;
    FirstGrowth(20, 10, xs);
  }
}
