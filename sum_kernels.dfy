/** The two kernels of benches/simd.rs as methods that update `result` in
    place. The inputs `a` and `b` are shared borrows that the kernels only
    read, so they are sequences here; `result`, the one exclusively borrowed
    vector, is the array written. A panic is returned as an Outcome, with
    every write made before it kept. */
module SumKernels {
  import opened SumModel

  /** How a kernel call ends. */
  datatype Outcome =
    | Completed
      /** `assert_eq!(left, right)` failed. */
    | AssertEqFailed(left: nat, right: nat)
      /** A bounds-checked `v[index]` on a vector of length `len` panicked. */
    | IndexOutOfBounds(len: nat, index: nat)

  /** The smaller of two lengths. */
  function Min(x: nat, y: nat): nat
  {
    if x <= y then x else y
  }

  /** The `unsafe` block of the block loop at offset i: load a[i..i + 4] and
      b[i..i + 4] (`_mm_loadu_ps`), add them lane by lane (`_mm_add_ps`) and
      store the sum into result[i..i + 4] (`_mm_store_ps`). */
  method StoreBlockInto<T>(a: seq<T>, b: seq<T>, result: array<T>, i: nat, add: (T, T) -> T)
    requires |a| == result.Length && |b| == result.Length && i + 4 <= result.Length
    modifies result
    ensures result[..] == StoreBlock(a, b, old(result[..]), i, add)
  {
    var aChunk := a[i..i + 4];
    var bChunk := b[i..i + 4];
    var sumChunk := AddPs(aChunk, bChunk, add);
    result[i] := sumChunk[0];
    result[i + 1] := sumChunk[1];
    result[i + 2] := sumChunk[2];
    result[i + 3] := sumChunk[3];
    assert result[..] == old(result[..])[..i] + sumChunk + old(result[..])[i + 4..];
  }

  /** One iteration of the block loop of sum_arrays_simd at offset i: the
      block store, then the nested remainder loop over [simd_chunks, n). */
  method SimdBlock<T>(a: seq<T>, b: seq<T>, result: array<T>, i: nat, add: (T, T) -> T)
    requires |a| == result.Length && |b| == result.Length && i + 4 <= SimdChunks(result.Length)
    modifies result
    ensures result[..] == SimdStep(a, b, old(result[..]), i, add)
  {
    StoreBlockInto(a, b, result, i, add);
    RemainderLoop(a, b, result, SimdChunks(|a|), add);
  }

  /** The remainder loop `for i in simd_chunks..a.len() { result[i] = a[i] + b[i] }`. */
  method RemainderLoop<T>(a: seq<T>, b: seq<T>, result: array<T>, lo: nat, add: (T, T) -> T)
    requires |a| == result.Length && |b| == result.Length && lo <= result.Length
    modifies result
    ensures result[..] == ScalarLoop(a, b, old(result[..]), lo, result.Length, add)
  {
    var n := |a|;
    var j := lo;
    while j < n
      invariant lo <= j <= n
      invariant ScalarLoop(a, b, result[..], j, n, add)
             == ScalarLoop(a, b, old(result[..]), lo, n, add)
    {
      result[j] := add(a[j], b[j]);
      j := j + 1;
    }
  }

  /** sum_arrays_simd as written: the length checks, the 4-lane block loop,
      and the remainder loop nested inside the block loop. */
  method SumArraysSimd<T>(a: seq<T>, b: seq<T>, result: array<T>, add: (T, T) -> T)
    returns (outcome: Outcome)
    modifies result
    ensures outcome == if |a| != |b| then AssertEqFailed(|a|, |b|)
                       else if |b| != result.Length then AssertEqFailed(|b|, result.Length)
                       else Completed
    ensures !outcome.Completed? ==> result[..] == old(result[..])
    ensures outcome.Completed? ==> result[..] == SimdResult(a, b, old(result[..]), add)
  {
    if |a| != |b| {
      return AssertEqFailed(|a|, |b|);
    }
    if |b| != result.Length {
      return AssertEqFailed(|b|, result.Length);
    }
    var n := |a|;
    var simdChunks := SimdChunks(n);
    ghost var blocks := n / 4;
    assert simdChunks == 4 * blocks;
    var i := 0;
    ghost var k: nat := 0;
    while i < simdChunks
      invariant i == 4 * k && k <= blocks
      invariant result[..] == SimdAfter(a, b, old(result[..]), k, add)
    {
      assert i + 4 <= simdChunks;
      assert SimdAfter(a, b, old(result[..]), k + 1, add)
          == SimdStep(a, b, SimdAfter(a, b, old(result[..]), k, add), i, add);
      SimdBlock(a, b, result, i, add);
      i, k := i + 4, k + 1;
    }
    assert k == blocks;
    return Completed;
  }

  /** sum_arrays_scalar: `result[i] = a[i] + b[i]` for i in 0..a.len(), each
      index bounds-checked. The sum is evaluated before the place it is
      assigned to, so a short `b` panics before a short `result` at the same
      index. */
  method SumArraysScalar<T>(a: seq<T>, b: seq<T>, result: array<T>, add: (T, T) -> T)
    returns (outcome: Outcome)
    modifies result
    ensures outcome == if |b| < |a| && |b| <= result.Length then IndexOutOfBounds(|b|, |b|)
                       else if result.Length < |a| then IndexOutOfBounds(result.Length, result.Length)
                       else Completed
    ensures result[..] == ScalarLoop(a, b, old(result[..]), 0, Min(|a|, Min(|b|, result.Length)), add)
  {
    ghost var m := Min(|a|, Min(|b|, result.Length));
    var i := 0;
    while i < |a|
      invariant i <= m
      invariant ScalarLoop(a, b, result[..], i, m, add)
             == ScalarLoop(a, b, old(result[..]), 0, m, add)
    {
      if i >= |b| {
        return IndexOutOfBounds(|b|, i);
      }
      if i >= result.Length {
        return IndexOutOfBounds(result.Length, i);
      }
      result[i] := add(a[i], b[i]);
      i := i + 1;
    }
    return Completed;
  }

  /** sum_arrays_simd with the remainder loop moved after the block loop, so
      that it runs exactly once. */
  method SumArraysSimdIntended<T>(a: seq<T>, b: seq<T>, result: array<T>, add: (T, T) -> T)
    returns (outcome: Outcome)
    modifies result
    ensures outcome == if |a| != |b| then AssertEqFailed(|a|, |b|)
                       else if |b| != result.Length then AssertEqFailed(|b|, result.Length)
                       else Completed
    ensures !outcome.Completed? ==> result[..] == old(result[..])
    ensures outcome.Completed? ==> result[..] == ScalarLoop(a, b, old(result[..]), 0, |a|, add)
  {
    if |a| != |b| {
      return AssertEqFailed(|a|, |b|);
    }
    if |b| != result.Length {
      return AssertEqFailed(|b|, result.Length);
    }
    var n := |a|;
    var simdChunks := SimdChunks(n);
    ghost var blocks := n / 4;
    assert simdChunks == 4 * blocks;
    var i := 0;
    ghost var k: nat := 0;
    while i < simdChunks
      invariant i == 4 * k && k <= blocks
      invariant result[..] == BlocksAfter(a, b, old(result[..]), k, add)
    {
      StoreBlockInto(a, b, result, i, add);
      i, k := i + 4, k + 1;
    }
    assert k == blocks;
    RemainderLoop(a, b, result, simdChunks, add);
    IntendedMatchesScalar(a, b, old(result[..]), add);
    return Completed;
  }
}
