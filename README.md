# Cascade (pairwise) summation buffer of lsum

lsum sums long streams of floating-point values one value at a time. Its
pairwise ("cascade") accumulator `psum` keeps an array of levels. Adding a
value works like incrementing a binary counter. The carry starts at level 0;
every occupied level is folded into it and cleared; the carry is stored in the
first empty level. The last level is always left empty, as a sentinel, so the
scan for an empty level needs no bounds check. When a carry lands on the last
level, the array grows by `psum_increase` levels. The value of the buffer is
the sum of its levels, taken from level 0 upward.

This project models that buffer in Dafny:

- `levels.dfy` (module `Levels`) models the levels as a sequence, in pure
  functions:
  - the carry written as one plain loop (`Carry`);
  - one addition including growth (`Step`);
  - a whole run of additions (`Replay`);
  - the left-to-right accumulation used by `psum_value` (`Accumulate`, `Sum`).

  It proves the frame of the carry and that each addition raises the sum by
  exactly the added value.
- `psum.dfy` (module `Pairwise`) models the `psum` struct as the class
  `Psum`:
  - `alloc` is an `array<int>` of levels;
  - `last` indexes the last level;
  - `increase` holds the growth increment;
  - a ghost field `inputs` records the values added since the buffer was
    last empty.

  `psum_alloc`, `psum_expand`, `psum_zero_tail`, `psum_zero`, `psum_add` and
  `psum_value` become the constructor and methods that update the array in
  place. `psum_add` keeps its three unrolled levels and its sentinel loop, and
  is proved equal to `Step`. The class invariant `Valid` says five things:
  - `last` indexes the last element of `alloc` (`Allocated`);
  - there are at least four levels;
  - the last level is empty;
  - the growth increment is at least one;
  - the levels sum to the inputs.
- `counter.dfy` (module `BinaryCounter`) proves the binary-counter shape when
  every input is positive:
  - after `n` additions, level `i` is occupied exactly when bit `i` of `n` is
    set;
  - an occupied level holds the sum of 2^i consecutive inputs;
  - a buffer of `L` levels first grows on addition number 2^(L-1) (for
    `psum_add` as written this needs `L >= 4`; smaller buffers never grow
    and overrun instead, see Findings);
  - each growth by `inc` levels buys 2^inc times as many additions.
- `unrolled.dfy` (module `Unrolled`) models `psum_add` exactly as written, on
  a buffer of any size and with any non-negative growth increment, including the
  out-of-bounds outcome (see Findings).

Levels are exact integers, so "the value equals the sum of the inputs" is an
exact statement about the algorithm's bookkeeping, independent of rounding.

The two process-wide tunables `psum_minsize` and `psum_increase`
(lsum.c:36, lsum.c:39) become constructor parameters of `Psum`. Both are
writable globals (lsum.h:33-34), and the code checks neither. The only floor
the library mentions is the comment on the header's unrolled `psum_add`
(lsum.h:48-50), which calls 10 "the minimum alloc size"; `psum_alloc`
(lsum.c:73-79) does not enforce it. The constructor states the floor the
carry needs as preconditions, `minsize >= 4` and `increase >= 1`. Findings
shows what happens with a smaller initial size and with an increment of 0; a
negative increment is listed under Left out.

The comment at lsum.c:34-35 says the default of 20 levels allows "over a
million" additions before a realloc. When every input is positive, the code
grows the buffer on addition number 2^19 = 524288
(`BinaryCounter.DefaultGrowth`), because the carry lands on the last level,
level 19, as soon as the count reaches 2^19. Inputs that are zero, or that
cancel a level to zero, leave levels empty and delay the growth. The model
follows the code. The second comment (lsum.c:37-38) holds as written: the
next growth comes 1024 times later, at addition number 2^29
(`BinaryCounter.GrowthSpacing`).

## Model

| member | source | states |
|---|---|---|
| Levels.FirstZero | lsum.c:96-99 | the carry scan from a level inside a buffer with an empty last level stops inside the buffer, at an empty level, after only occupied levels |
| Levels.Carry | lsum.c:92-100 | the carry keeps the number of levels |
| Levels.CarryFrame | lsum.c:92-100 | the carry leaves the levels below its start and above the first empty level `k` unchanged, clears the levels from the start to `k-1`, and stores at `k` the carried value plus those levels, added in increasing index order |
| Levels.CarryPast | lsum.c:96-99 | folding one occupied level into the carry and clearing it changes neither the first empty level nor the outcome of the carry |
| Levels.CarryLands | lsum.c:100-103 | a carry that reaches an empty level completes the addition there, and the buffer grows exactly when that level is the last one |
| Levels.CarrySum | lsum.c:92-100 | the carry raises the sum of the levels by exactly the carried value |
| Levels.Step | lsum.c:88-104 | one addition keeps the last level empty, grows the buffer by the increment exactly when the carry lands on the last level, and adds only empty levels |
| Levels.StepSum | lsum.c:88-104 | one addition raises the sum of the levels by exactly the added value |
| Levels.Replay | lsum.c:88-104 | any run of additions keeps the last level empty and never shrinks the buffer |
| Levels.ReplaySum | lsum.c:88-111 | after any run of additions the levels sum to their starting sum plus the sum of the inputs |
| Levels.GrowthIrrelevant | lsum.c:34-39 | the value does not depend on the initial size or the growth increment: buffers fed the same inputs from empty agree, and both equal the sum of the inputs |
| Pairwise.Realloc | lsum.c:64 | the new array has the requested length, is fresh, and starts with the elements of the old one |
| Pairwise.Psum.constructor | lsum.c:73-79 | a new buffer has exactly `minsize` empty levels, no inputs and the given increment, and satisfies the invariant |
| Pairwise.Psum.Expand | lsum.c:60-70 | the buffer gets a fresh array, longer by `n`, that keeps the old levels in place and appends `n` empty levels, and `last` indexes its last level |
| Pairwise.Psum.ZeroTail | lsum.c:48-51 | levels from `tail` on are cleared and the levels below `tail` are unchanged |
| Pairwise.Psum.Zero | lsum.c:55-57 | every level is cleared in the same array; the buffer is empty and keeps its invariant |
| Pairwise.Psum.Add | lsum.c:88-104 | the unrolled carry with its loop yields exactly the plain carry followed by the boundary check (`Step`); it keeps the invariant, so the levels still sum to all values added; the array is either the same one or a fresh one longer by the increment |
| Pairwise.Psum.Propagate | lsum.c:96-103 | the sentinel-terminated loop, the store and the boundary check complete the addition begun by the unrolled levels |
| Pairwise.Psum.Value | lsum.c:107-111 | the result is the levels accumulated from level 0 upward, which equals the sum of every value added since the buffer was last empty; nothing is modified |
| BinaryCounter.BlockSize | lsum.c:92-100 | the block of inputs level `i` stands for is empty or has 2^i inputs, according to bit `i` of the count |
| BinaryCounter.LevelOccupied | lsum.c:92-100 | with positive inputs, a level in counter shape is occupied exactly when its bit of the count is set |
| BinaryCounter.Telescope | lsum.c:92-100 | the levels below the first clear bit of the count together hold the last 2^t - 1 inputs |
| BinaryCounter.CounterStep | lsum.c:88-104 | one more positive input keeps the buffer in counter shape: each level holds the sum of its block of the new count |
| BinaryCounter.StepSize | lsum.c:102-103 | in counter shape, an addition grows the buffer exactly when the new count equals the weight 2^(size-1) of the last level |
| BinaryCounter.CounterShape | lsum.c:88-104 | a buffer of empty levels fed positive inputs is the binary numeral of the input count |
| BinaryCounter.Depth | lsum.c:102-103 | the size after `n` positive additions is at least the initial size, and `n` stays below the weight of its last level |
| BinaryCounter.CounterDepth | lsum.c:88-104 | the size of a buffer fed positive inputs is the depth reached by their count, whatever the values |
| BinaryCounter.DepthBefore | lsum.c:34-36 | no growth while the count stays below 2^(L-1) |
| BinaryCounter.GrowthSpacing | lsum.c:37-39 | after a growth to `d + inc` levels on addition number 2^(d-1), the size stays `d + inc` until addition number 2^(d+inc-1), 2^inc times later |
| BinaryCounter.FirstGrowth | lsum.c:34-39 | `L` levels for fewer than 2^(L-1) additions, then `L + inc` levels until 2^(L+inc-1) additions |
| BinaryCounter.LevelsAreBits | lsum.c:88-104 | after positive inputs, level `i` holds the sum of its block and is occupied exactly when bit `i` of the count is set |
| BinaryCounter.DefaultGrowth | lsum.c:34-39 | with 20 levels and growth by 10: 20 levels for the first 524287 additions, 30 levels from addition 524288 until addition 536870912 |
| Unrolled.AddFrom | lsum.c:88-104 | `psum_add` as written, on any size, never shrinks the buffer when it completes |
| Unrolled.AddFromCarries | lsum.c:92-103 | from a state of the plain carry, the code as written completes the same carry, on any size and with any increment; it grows the buffer by the increment exactly when the carry lands on the last level past the unrolled levels |
| Unrolled.AddAgrees | lsum.c:88-104 | with at least four levels and an empty last level, `psum_add` as written equals the plain carry followed by the boundary check |
| Unrolled.FullOverrun | lsum.c:92-99 | a carry into levels that are all occupied reads past the end of the array |
| Unrolled.UnrolledFillsLast | lsum.c:92-94 | with at most three levels, a carry that reaches the last level is stored there by an unrolled level: the buffer keeps its size and its last level holds the carry |
| Unrolled.ZeroIncreaseKeepsLast | lsum.c:96-103 | with a growth increment of 0, a carry that lands on the last level stays there and the buffer keeps its size |
| Unrolled.SingleLevelOverrun | lsum.c:92-94 | with one level, the first addition fills the last level without growth and the second reads past the array |

## Left out

- Kahan–Neumaier summation (`ksum_*`, lsum.c:116-149 and lsum.h:59-83) is not part of this model.
- Floating point is not modelled. Levels and inputs are exact integers, so rounding, the order-dependent error behaviour, and the treatment of -0.0 (zero) and NaN (occupied) by the `if(*a)` tests are out of scope.
- `psum_free` (lsum.c:82-85) is left out: deallocation has no Dafny counterpart.
- Allocation failure of `malloc`/`realloc` is left out: the model's allocation always succeeds.
- The `DEBUG_ALLOC` trace output (lsum.c:67-69) is left out; it is I/O only.
- The header versions are left out. `psum_cadd` and `psum_loop_` are only declared (lsum.h:39, lsum.h:42); their bodies are not part of this model. The inline `psum_add` (lsum.h:45-57) unrolls four levels and hands the rest of the carry to `psum_loop_`. `Pairwise.Psum.Propagate` plays the role of such an out-of-line loop for the three-level `psum_add` of lsum.c.
- The test drivers (psum_test.c, ksum_test.c, longdouble_test.c) are left out.
- The tunables are read once, at construction. The code reads `psum_increase` again at every growth, so changing the global between additions is not modelled.
- A negative `psum_increase` is not modelled: the growth increment is a `nat` in `Levels.Step`, `Unrolled.AddFrom` and `Pairwise.Psum.Expand`. In the code (lsum.h:34, lsum.c:39, lsum.c:62-66, lsum.c:103) such a value makes `psum_expand` shrink the array right after the carry was stored in the old last level, so that carry is cut off, `psum_zero_tail` does nothing, and every input added so far is lost from `psum_value`.
- Integer widths are not modelled. The C `int` sizes and the byte count passed to `realloc` are unbounded here.
- Pairwise.Psum.Valid: the class invariant records that the levels sum to the inputs, not that they equal `Replay` of the inputs. Each `Add` call states its exact effect through `Step`, and the `Replay` facts follow by chaining those calls.

## Findings

| source | as written | input that shows it | evidently intended | confidence | as-written member | corrected member |
|---|---|---|---|---|---|---|
| lsum.c:92-94 | the three unrolled levels of `psum_add` store the carry and return without the boundary check, and `psum_minsize` (a writable global, lsum.c:36) is never checked | any `psum_minsize` below 4. With 1: `psum_add(s, 1.0)` twice; the first fills the only level, which is the last, without growing, and the second reads past the end. With 2 or 3: once the levels below the last are occupied, the next addition stores its carry in the last level without growing (`UnrolledFillsLast`), and a later carry through the now fully occupied levels reads past the end (`FullOverrun`) | an initial size of at least 4, so that an unrolled level is never the last one; lsum.h:48-50 calls 10 the minimum alloc size | medium, not executed | Unrolled.SingleLevelOverrun, Unrolled.UnrolledFillsLast, Unrolled.FullOverrun | Unrolled.AddAgrees |
| lsum.c:102-103 | the boundary check grows the buffer by `psum_increase` (a writable global, lsum.h:34, lsum.c:39), which is never checked; `psum_expand(s, 0)` (lsum.c:60-66) keeps the size | `psum_increase = 0` with 4 levels and inputs 1.0: the 8th addition stores 8 in the last level and the buffer stays at 4 levels (`ZeroIncreaseKeepsLast`); the 16th addition carries through all four occupied levels and reads past the end (`FullOverrun`) | growth by at least one level, so that the last level is empty again after every addition | medium, not executed | Unrolled.ZeroIncreaseKeepsLast, Unrolled.FullOverrun | Levels.Step (with Pairwise.Psum.Add) |
