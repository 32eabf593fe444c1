/** psum_add exactly as written, on a buffer of any size: three unrolled
    levels that store the carry and return without the boundary check,
    then the sentinel-terminated loop and the boundary check.  Nothing here
    relies on the four-level minimum; an access past the last level is an
    outcome of its own. */
module Unrolled {
  import opened Levels

  datatype Outcome = Done(levels: seq<int>) | OutOfBounds

  /** The number of levels psum_add handles before its loop. */
  const UNROLLED: nat := 3

  /** The carry of psum_add from level `a` with carried value `x`.  A level
      read at an index past the array is `OutOfBounds`.  The carry stored by
      one of the unrolled levels returns at once; the one stored by the loop
      is followed by growth when it lands on the last level. */
  function AddFrom(s: seq<int>, inc: nat, a: nat, x: int): (o: Outcome)
    ensures o.Done? ==> |s| <= |o.levels|
    decreases |s| - a
  {
    if a >= |s| then OutOfBounds
    else if s[a] != 0 then AddFrom(s[a := 0], inc, a + 1, x + s[a])
    else if a < UNROLLED then Done(s[a := x])
    else if a == |s| - 1 then Done(s[a := x] + Zeros(inc))
    else Done(s[a := x])
  }

  /** psum_add on the levels `s`. */
  function AddAsWritten(s: seq<int>, inc: nat, x: int): Outcome
  {
    AddFrom(s, inc, 0, x)
  }

  /** From a state of the plain carry, the code as written completes the
      carry the same way; it grows the buffer only when the carry lands on
      the last level past the unrolled levels, and then by `inc` levels,
      whatever `inc` is. */
  lemma {:induction false} AddFromCarries(s: seq<int>, inc: nat, x: int, t: seq<int>, a: nat, c: int)
    requires Sentinel(s) && |t| == |s| && a < |t| && Sentinel(t)
    requires Carry(t, a, c) == Carry(s, 0, x) && FirstZero(t, a) == FirstZero(s, 0)
    ensures AddFrom(t, inc, a, c) ==
      if UNROLLED <= FirstZero(s, 0) == |s| - 1 then Done(Carry(s, 0, x) + Zeros(inc))
      else Done(Carry(s, 0, x))
    decreases |t| - a
  {
    if t[a] != 0 {
      CarryPast(t, a, c);
      AddFromCarries(s, inc, x, t[a := 0], a + 1, c + t[a]);
    }
  }

  /** With at least four levels and an empty last level, psum_add as written
      is the plain carry followed by the boundary check. */
  lemma AddAgrees(s: seq<int>, inc: nat, x: int)
    requires |s| >= 4 && Sentinel(s) && inc >= 1
    ensures AddAsWritten(s, inc, x) == Done(Step(s, inc, x))
  {
    AddFromCarries(s, inc, x, s, 0, x);
  }

  /** A carry into levels that are all occupied folds every one of them and
      reads past the array: nothing stops the scan but an empty level. */
  lemma {:induction false} FullOverrun(s: seq<int>, inc: nat, a: nat, x: int)
    requires a <= |s| && forall j :: a <= j < |s| ==> s[j] != 0
    ensures AddFrom(s, inc, a, x) == OutOfBounds
    decreases |s| - a
  {
    if a < |s| {
      FullOverrun(s[a := 0], inc, a + 1, x + s[a]);
    }
  }

  /** With at most three levels, a carry that reaches the last level is
      stored there by an unrolled level, which returns before the boundary
      check: the buffer keeps its size and its last level now holds the
      carry, so the sentinel is gone whenever that carry is nonzero. */
  lemma UnrolledFillsLast(s: seq<int>, inc: nat, x: int)
    requires 1 <= |s| <= UNROLLED && s[|s| - 1] == 0
    requires forall j :: 0 <= j < |s| - 1 ==> s[j] != 0
    ensures AddAsWritten(s, inc, x) == Done(Carry(s, 0, x))
    ensures |Carry(s, 0, x)| == |s|
    ensures Carry(s, 0, x)[|s| - 1] == Accumulate(x, s[..|s| - 1])
  {
    assert FirstZero(s, 0) == |s| - 1;
    AddFromCarries(s, inc, x, s, 0, x);
    CarryFrame(s, 0, x);
  }

  /** With `psum_increase` set to 0, a carry that lands on the last level is
      left there: the boundary check grows the buffer by no levels. */
  lemma ZeroIncreaseKeepsLast(s: seq<int>, x: int)
    requires |s| > UNROLLED && s[|s| - 1] == 0
    requires forall j :: 0 <= j < |s| - 1 ==> s[j] != 0
    ensures AddAsWritten(s, 0, x) == Done(Carry(s, 0, x))
    ensures |Carry(s, 0, x)| == |s|
    ensures Carry(s, 0, x)[|s| - 1] == Accumulate(x, s[..|s| - 1])
  {
    assert FirstZero(s, 0) == |s| - 1;
    AddFromCarries(s, 0, x, s, 0, x);
    assert Carry(s, 0, x) + Zeros(0) == Carry(s, 0, x);
    CarryFrame(s, 0, x);
  }

  /** With `psum_minsize` set to 1 the first addition fills the only level,
      which is the last one, without growing the buffer, and the second
      addition reads past the end of the array. */
  lemma SingleLevelOverrun()
    ensures AddAsWritten(Zeros(1), 10, 1) == Done([1])
    ensures !Sentinel([1])
    ensures AddAsWritten([1], 10, 1) == OutOfBounds
  {
  }
}
