/** Value-level model of the two array-sum kernels of benches/simd.rs.

    Elements have an arbitrary type T and element addition is the parameter
    `add`, which stands for f32 `+`; nothing here depends on what `add`
    computes, only on which index receives which sum. Sequences are the
    contents of the arrays `a`, `b` and `result`. */
module SumModel {

  /** `_mm_add_ps` (the ADDPS instruction): adds two 4-lane vectors lane by lane. */
  function AddPs<T>(x: seq<T>, y: seq<T>, add: (T, T) -> T): (r: seq<T>)
    requires |x| == 4 && |y| == 4
    ensures |r| == 4
    ensures forall k :: 0 <= k < 4 ==> r[k] == add(x[k], y[k])
  {
    [add(x[0], y[0]), add(x[1], y[1]), add(x[2], y[2]), add(x[3], y[3])]
  }

  /** `_mm_store_ps` at offset i: the 4-lane vector v replaces s[i..i + 4]. */
  function StorePs<T>(s: seq<T>, i: nat, v: seq<T>): (r: seq<T>)
    requires |v| == 4 && i + 4 <= |s|
    ensures |r| == |s|
    ensures r[i..i + 4] == v
    ensures forall j :: 0 <= j < |s| && !(i <= j < i + 4) ==> r[j] == s[j]
  {
    s[..i] + v + s[i + 4..]
  }

  /** The loop `for j in lo..hi { s[j] = a[j] + b[j] }`, one index at a time
      in increasing order. */
  function ScalarLoop<T>(a: seq<T>, b: seq<T>, s: seq<T>, lo: nat, hi: nat, add: (T, T) -> T): (r: seq<T>)
    requires lo <= hi && hi <= |a| && hi <= |b| && hi <= |s|
    ensures |r| == |s|
    ensures forall j :: 0 <= j < |s| ==> r[j] == if lo <= j < hi then add(a[j], b[j]) else s[j]
    decreases hi - lo
  {
    if lo == hi then s else ScalarLoop(a, b, s[lo := add(a[lo], b[lo])], lo + 1, hi, add)
  }

  /** `simd_chunks`: the length n rounded down to a whole number of 4-lane blocks. */
  function SimdChunks(n: nat): (c: nat)
    ensures c % 4 == 0 && c <= n && n - c < 4
  {
    n / 4 * 4
  }

  /** i is one of the offsets that `(0..simd_chunks).step_by(4)` visits. */
  predicate IsBlockStart(n: nat, i: nat)
  {
    i % 4 == 0 && i < SimdChunks(n)
  }

  /** The offset of the 4-lane block that holds index j. */
  function BlockOf(j: nat): nat
  {
    j / 4 * 4
  }

  /** The windows [i, i + 4) that the block loop loads and stores lie inside
      the arrays, never overlap, and together cover exactly [0, simd_chunks). */
  lemma BlockWindows(n: nat)
    ensures forall i: nat :: IsBlockStart(n, i) ==> i + 4 <= SimdChunks(n) <= n
    ensures forall i: nat, i': nat :: IsBlockStart(n, i) && IsBlockStart(n, i') && i != i' ==> i + 4 <= i' || i' + 4 <= i
    ensures forall j: nat :: j < SimdChunks(n) ==> IsBlockStart(n, BlockOf(j)) && BlockOf(j) <= j < BlockOf(j) + 4
  {
  }

  /** The body of the block loop at offset i: load s[i..i + 4] from a and b
      (`_mm_loadu_ps`), add them (`_mm_add_ps`) and store the sum into the
      same window (`_mm_store_ps`). */
  function StoreBlock<T>(a: seq<T>, b: seq<T>, s: seq<T>, i: nat, add: (T, T) -> T): (r: seq<T>)
    requires |a| == |s| && |b| == |s| && i + 4 <= |s|
    ensures |r| == |s|
    ensures forall j :: 0 <= j < |s| ==> r[j] == if i <= j < i + 4 then add(a[j], b[j]) else s[j]
  {
    var v := AddPs(a[i..i + 4], b[i..i + 4], add);
    var r := StorePs(s, i, v);
    assert forall j :: i <= j < i + 4 ==> r[j] == r[i..i + 4][j - i] == v[j - i];
    r
  }

  /** `result` after the first k iterations of a block loop that only loads,
      adds and stores (no remainder loop inside it). */
  function BlocksAfter<T>(a: seq<T>, b: seq<T>, s: seq<T>, k: nat, add: (T, T) -> T): (r: seq<T>)
    requires |a| == |s| && |b| == |s| && 4 * k <= |s|
    ensures |r| == |s|
  {
    if k == 0 then s else StoreBlock(a, b, BlocksAfter(a, b, s, k - 1, add), 4 * (k - 1), add)
  }

  /** One iteration of the block loop of sum_arrays_simd at offset i, as
      written: load, add and store the block, then run the remainder loop
      over [simd_chunks, n). */
  function SimdStep<T>(a: seq<T>, b: seq<T>, s: seq<T>, i: nat, add: (T, T) -> T): (r: seq<T>)
    requires |a| == |s| && |b| == |s| && i + 4 <= SimdChunks(|s|)
    ensures |r| == |s|
    ensures forall j :: 0 <= j < |s| ==>
      r[j] == if i <= j < i + 4 || SimdChunks(|s|) <= j then add(a[j], b[j]) else s[j]
  {
    ScalarLoop(a, b, StoreBlock(a, b, s, i, add), SimdChunks(|s|), |s|, add)
  }

  /** `result` after the first k iterations of the block loop of sum_arrays_simd. */
  function SimdAfter<T>(a: seq<T>, b: seq<T>, s: seq<T>, k: nat, add: (T, T) -> T): (r: seq<T>)
    requires |a| == |s| && |b| == |s| && 4 * k <= SimdChunks(|s|)
    ensures |r| == |s|
  {
    if k == 0 then s else SimdStep(a, b, SimdAfter(a, b, s, k - 1, add), 4 * (k - 1), add)
  }

  /** `result` when sum_arrays_simd returns: the block loop runs simd_chunks / 4 == n / 4 times. */
  function SimdResult<T>(a: seq<T>, b: seq<T>, s: seq<T>, add: (T, T) -> T): (r: seq<T>)
    requires |a| == |s| && |b| == |s|
    ensures |r| == |s|
  {
    SimdAfter(a, b, s, |s| / 4, add)
  }

  /** `result` when the remainder loop runs once, after the block loop. */
  function IntendedResult<T>(a: seq<T>, b: seq<T>, s: seq<T>, add: (T, T) -> T): (r: seq<T>)
    requires |a| == |s| && |b| == |s|
    ensures |r| == |s|
  {
    ScalarLoop(a, b, BlocksAfter(a, b, s, |s| / 4, add), SimdChunks(|s|), |s|, add)
  }

  /** After k blocks, exactly the first 4k entries hold their sums. */
  lemma {:induction false} BlocksAfterAt<T>(a: seq<T>, b: seq<T>, s: seq<T>, k: nat, add: (T, T) -> T, j: nat)
    requires |a| == |s| && |b| == |s| && 4 * k <= |s| && j < |s|
    ensures BlocksAfter(a, b, s, k, add)[j] == if j < 4 * k then add(a[j], b[j]) else s[j]
  {
    if k > 0 {
      var i := 4 * (k - 1);
      var prev := BlocksAfter(a, b, s, k - 1, add);
      var r := StoreBlock(a, b, prev, i, add);
      assert BlocksAfter(a, b, s, k, add) == r;
      if i <= j < i + 4 {
        assert r[j] == add(a[j], b[j]);
      } else {
        BlocksAfterAt(a, b, s, k - 1, add, j);
        assert r[j] == prev[j];
      }
    }
  }

  /** Running the remainder loop a second time changes nothing. */
  lemma ScalarLoopIdempotent<T>(a: seq<T>, b: seq<T>, s: seq<T>, lo: nat, hi: nat, add: (T, T) -> T)
    requires lo <= hi && hi <= |a| && hi <= |b| && hi <= |s|
    ensures ScalarLoop(a, b, ScalarLoop(a, b, s, lo, hi, add), lo, hi, add) == ScalarLoop(a, b, s, lo, hi, add)
  {
  }

  /** A block store and the remainder loop touch disjoint ranges, so their
      order does not matter. */
  lemma StoreBlockScalarLoopCommute<T>(a: seq<T>, b: seq<T>, s: seq<T>, i: nat, lo: nat, hi: nat, add: (T, T) -> T)
    requires |a| == |s| && |b| == |s| && i + 4 <= lo <= hi <= |s|
    ensures StoreBlock(a, b, ScalarLoop(a, b, s, lo, hi, add), i, add)
         == ScalarLoop(a, b, StoreBlock(a, b, s, i, add), lo, hi, add)
  {
  }

  /** A remainder pass followed by a block store and another remainder pass
      leaves what the block store followed by one remainder pass leaves. */
  lemma RemainderAbsorbed<T>(a: seq<T>, b: seq<T>, s: seq<T>, i: nat, lo: nat, add: (T, T) -> T)
    requires |a| == |s| && |b| == |s| && i + 4 <= lo <= |s|
    ensures ScalarLoop(a, b, StoreBlock(a, b, ScalarLoop(a, b, s, lo, |s|, add), i, add), lo, |s|, add)
         == ScalarLoop(a, b, StoreBlock(a, b, s, i, add), lo, |s|, add)
  {
    StoreBlockScalarLoopCommute(a, b, s, i, lo, |s|, add);
    ScalarLoopIdempotent(a, b, StoreBlock(a, b, s, i, add), lo, |s|, add);
  }

  /** Nesting the remainder loop inside the block loop only repeats it: once
      the block loop has run at least once, the state is that of the blocks
      followed by a single remainder pass, whatever the repetition count. */
  lemma {:induction false} RepeatedRemainder<T>(a: seq<T>, b: seq<T>, s: seq<T>, k: nat, add: (T, T) -> T)
    requires |a| == |s| && |b| == |s| && 4 * k <= SimdChunks(|s|) && 1 <= k
    ensures SimdAfter(a, b, s, k, add)
         == ScalarLoop(a, b, BlocksAfter(a, b, s, k, add), SimdChunks(|s|), |s|, add)
  {
    var c, n := SimdChunks(|s|), |s|;
    var i := 4 * (k - 1);
    if k > 1 {
      var blocks := BlocksAfter(a, b, s, k - 1, add);
      RepeatedRemainder(a, b, s, k - 1, add);
      assert SimdAfter(a, b, s, k - 1, add) == ScalarLoop(a, b, blocks, c, n, add);
      RemainderAbsorbed(a, b, blocks, i, c, add);
    }
  }

  /** The state after each block iteration of sum_arrays_simd: the blocks
      done so far and the remainder range hold their sums, every other entry
      keeps its value from before the call. */
  lemma {:induction false} SimdAfterAt<T>(a: seq<T>, b: seq<T>, s: seq<T>, k: nat, add: (T, T) -> T, j: nat)
    requires |a| == |s| && |b| == |s| && 4 * k <= SimdChunks(|s|) && j < |s|
    ensures SimdAfter(a, b, s, k, add)[j]
         == if 1 <= k && (j < 4 * k || SimdChunks(|s|) <= j) then add(a[j], b[j]) else s[j]
  {
    if k >= 1 {
      RepeatedRemainder(a, b, s, k, add);
      BlocksAfterAt(a, b, s, k, add, j);
    }
  }

  /** Running the remainder loop once after the block loop gives the scalar
      kernel's result for every length. */
  lemma IntendedMatchesScalar<T>(a: seq<T>, b: seq<T>, s: seq<T>, add: (T, T) -> T)
    requires |a| == |s| && |b| == |s|
    ensures IntendedResult(a, b, s, add) == ScalarLoop(a, b, s, 0, |s|, add)
  {
    var left := IntendedResult(a, b, s, add);
    forall j | 0 <= j < |s| ensures left[j] == add(a[j], b[j]) {
      BlocksAfterAt(a, b, s, |s| / 4, add, j);
    }
  }

  /** sum_arrays_simd as written: for n == 0 or n >= 4 it leaves the same
      result as sum_arrays_scalar; for 1 <= n <= 3 the block loop never runs,
      so neither does the remainder loop nested in it, and result is left
      as it was. */
  lemma SimdResultCharacterized<T>(a: seq<T>, b: seq<T>, s: seq<T>, add: (T, T) -> T)
    requires |a| == |s| && |b| == |s|
    ensures SimdResult(a, b, s, add) == if 1 <= |s| <= 3 then s else ScalarLoop(a, b, s, 0, |s|, add)
  {
    var k := |s| / 4;
    if k >= 1 {
      RepeatedRemainder(a, b, s, k, add);
      IntendedMatchesScalar(a, b, s, add);
    }
  }

  /** A concrete input on which sum_arrays_simd as written and sum_arrays_scalar
      disagree: one element, a = [1], b = [2], result = [0]. */
  lemma ShortInputCounterexample()
    ensures SimdResult([1], [2], [0], (x: int, y: int) => x + y) == [0]
    ensures ScalarLoop([1], [2], [0], 0, 1, (x: int, y: int) => x + y) == [3]
  {
  }
}
