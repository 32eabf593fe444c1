/** The pairwise summation buffer `psum` of lsum.c as an object updated in
    place: a heap array of levels (`alloc`) and the index of its last level
    (`last`).  The two growth tunables, the initial size and the growth
    increment, are fixed when the buffer is created.  A ghost field records
    the values added since the buffer was last empty. */
module Pairwise {
  import opened Levels

  /** realloc(): a fresh array of `n` elements that starts with the first
      elements of `a`; elements beyond the old length are unspecified. */
  method Realloc(a: array<int>, n: nat) returns (b: array<int>)
    ensures fresh(b) && b.Length == n
    ensures forall j :: 0 <= j < n && j < a.Length ==> b[j] == a[j]
  {
    b := new int[n];
    var j := 0;
    while j < n && j < a.Length
      invariant 0 <= j <= n
      invariant forall m :: 0 <= m < j && m < a.Length ==> b[m] == a[m]
    {
      b[j] := a[j];
      j := j + 1;
    }
  }

  class Psum {
    var alloc: array<int>
    var last: int
    const increase: nat
    ghost var inputs: seq<int>

    /** `last` indexes the last element of `alloc` (-1 for no array yet). */
    ghost predicate Allocated()
      reads this
    {
      last == alloc.Length - 1
    }

    /** The buffer invariant: at least four levels, a growth increment of at
        least one, an empty last level (the sentinel that stops the carry scan
        of `Add` inside the array), and levels that sum to the values added
        since the buffer was last empty. */
    ghost predicate Valid()
      reads this, alloc
    {
      Allocated() && alloc.Length >= 4 && increase >= 1 &&
      Sentinel(alloc[..]) && Sum(alloc[..]) == Sum(inputs)
    }

    /** psum_alloc: a buffer of `minsize` empty levels, grown from no array by
        psum_expand.  The two parameters play the roles of the process-wide
        tunables `psum_minsize` and `psum_increase`. */
    constructor (minsize: nat, increase: nat)
      requires minsize >= 4 && increase >= 1
      ensures Valid() && fresh(alloc)
      ensures alloc.Length == minsize && alloc[..] == Zeros(minsize)
      ensures this.increase == increase && inputs == []
    {
      this.increase := increase;
      alloc := new int[0];
      last := -1;
      inputs := [];
      new;
      Expand(minsize);
      assert alloc[..] == Zeros(minsize);
      SumZeros(minsize);
    }

    /** psum_expand: grows the array by `n` levels, keeps the old levels and
        empties the new ones. */
    method Expand(n: nat)
      requires Allocated()
      modifies this`alloc, this`last
      ensures Allocated() && fresh(alloc)
      ensures alloc.Length == old(alloc.Length) + n
      ensures alloc[..] == old(alloc[..]) + Zeros(n)
    {
      var oldSize := last + 1;
      var newSize := oldSize + n;
      alloc := Realloc(alloc, newSize);
      last := newSize - 1;
      ZeroTail(oldSize);
      assert alloc[..] == old(alloc[..]) + Zeros(n);
    }

    /** psum_zero_tail: empties every level from `tail` up to `last` and
        changes nothing else. */
    method ZeroTail(tail: nat)
      requires Allocated()
      modifies alloc
      ensures forall j :: 0 <= j < alloc.Length ==>
        alloc[j] == if j < tail then old(alloc[j]) else 0
    {
      var a := tail;
      while a <= last
        invariant tail <= a && (a == tail || a <= alloc.Length)
        invariant forall j :: 0 <= j < alloc.Length ==>
          alloc[j] == if j < tail || a <= j then old(alloc[j]) else 0
      {
        alloc[a] := 0;
        a := a + 1;
      }
    }

    /** psum_zero: empties every level in place, keeping the capacity; the
        buffer then behaves as a fresh one of that many levels. */
    method Zero()
      requires Valid()
      modifies alloc, this`inputs
      ensures Valid() && alloc == old(alloc)
      ensures alloc[..] == Zeros(alloc.Length) && inputs == []
    {
      ZeroTail(0);
      inputs := [];
      assert alloc[..] == Zeros(alloc.Length);
      SumZeros(alloc.Length);
    }

    /** psum_add: the carry of `x` with its first three levels unrolled and
        no bounds check, then the rest of the carry (`Propagate`).  The result
        is the single plain carry loop from level 0 followed by the boundary
        check (`Step`); that the unrolled levels can never be the last one is
        what the invariant's four-level minimum guarantees. */
    method Add(x: int)
      requires Valid()
      modifies this`alloc, this`last, this`inputs, alloc
      ensures Valid() && inputs == old(inputs) + [x]
      ensures alloc[..] == Step(old(alloc[..]), increase, x)
      ensures alloc == old(alloc) || (fresh(alloc) && alloc.Length == old(alloc.Length) + increase)
    {
      ghost var s := alloc[..];
      StepSum(s, increase, x);
      SumConcat(inputs, [x]);
      SumSingleton(x);
      inputs := inputs + [x];
      var carry, a := x, 0;

      if alloc[a] != 0 {
        ghost var t := alloc[..];
        CarryPast(t, a, carry);
        carry := carry + alloc[a]; alloc[a] := 0; a := a + 1;
        assert alloc[..] == t[a - 1 := 0];
      } else {
        ghost var t := alloc[..];
        CarryLands(s, increase, x, t, a, carry);
        alloc[a] := carry;
        assert alloc[..] == t[a := carry];
        return;
      }
      if alloc[a] != 0 {
        ghost var t := alloc[..];
        CarryPast(t, a, carry);
        carry := carry + alloc[a]; alloc[a] := 0; a := a + 1;
        assert alloc[..] == t[a - 1 := 0];
      } else {
        ghost var t := alloc[..];
        CarryLands(s, increase, x, t, a, carry);
        alloc[a] := carry;
        assert alloc[..] == t[a := carry];
        return;
      }
      if alloc[a] != 0 {
        ghost var t := alloc[..];
        CarryPast(t, a, carry);
        carry := carry + alloc[a]; alloc[a] := 0; a := a + 1;
        assert alloc[..] == t[a - 1 := 0];
      } else {
        ghost var t := alloc[..];
        CarryLands(s, increase, x, t, a, carry);
        alloc[a] := carry;
        assert alloc[..] == t[a := carry];
        return;
      }

      Propagate(a, carry, s, x);
    }

    /** The rest of psum_add from level `a` on: an occupied level is folded
        into the carry and cleared until an empty level is found, which the
        sentinel guarantees without a bounds check; the carry is stored there,
        and the buffer grows by `increase` levels when that level is `last`.
        Given the levels `s` and the value `x` the whole addition started
        from, it completes that addition. */
    method Propagate(a: nat, carry: int, ghost s: seq<int>, ghost x: int)
      requires Allocated() && increase >= 1 && a <= last && alloc[last] == 0
      requires Sentinel(s) && |s| == alloc.Length
      requires Carry(alloc[..], a, carry) == Carry(s, 0, x)
      requires FirstZero(alloc[..], a) == FirstZero(s, 0)
      modifies this`alloc, this`last, alloc
      ensures Allocated() && alloc[..] == Step(s, increase, x)
      ensures alloc == old(alloc) || (fresh(alloc) && alloc.Length == old(alloc.Length) + increase)
    {
      var a, carry := a, carry;
      while alloc[a] != 0
        invariant Allocated() && alloc == old(alloc)
        invariant a <= last && alloc[last] == 0
        invariant Carry(alloc[..], a, carry) == Carry(s, 0, x)
        invariant FirstZero(alloc[..], a) == FirstZero(s, 0)
        decreases last - a
      {
        ghost var t := alloc[..];
        CarryPast(t, a, carry);
        carry := carry + alloc[a];
        alloc[a] := 0;
        a := a + 1;
        assert alloc[..] == t[a - 1 := 0];
      }
      ghost var t := alloc[..];
      CarryLands(s, increase, x, t, a, carry);
      alloc[a] := carry;
      assert alloc[..] == t[a := carry];

      if a == last {
        Expand(increase);
      }
    }

    /** psum_value: the levels added from level 0 upward into a fresh 0.  It
        changes nothing, and it is the sum of every value added since the
        buffer was last empty. */
    method Value() returns (t: int)
      requires Valid()
      ensures t == Sum(alloc[..])
      ensures t == Sum(inputs)
    {
      t := 0;
      var a := 0;
      while a <= last
        invariant 0 <= a <= alloc.Length
        invariant Accumulate(t, alloc[a..]) == Sum(alloc[..])
      {
        t := t + alloc[a];
        a := a + 1;
      }
    }
  }
}
