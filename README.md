# simd_example: the array-sum kernels

The repository is a Criterion micro-benchmark that compares two ways of
adding two `f32` vectors element by element into a third one:

- `sum_arrays_simd` checks that the three lengths agree (`assert_eq!`),
  rounds the length `n` down to a multiple of four (`simd_chunks`), and walks
  that prefix in 4-lane blocks: `_mm_loadu_ps` loads a block of `a` and of
  `b`, `_mm_add_ps` adds them lane by lane, `_mm_store_ps` stores the sum
  into `result`. The scalar loop over the remainder `[simd_chunks, n)` is
  written *inside* the block loop, so it runs once per block.
- `sum_arrays_scalar` writes `result[i] = a[i] + b[i]` for every
  `i < a.len()`, with Rust's bounds-checked indexing.

This project models both kernels in Dafny as written, nesting included.
Elements have an arbitrary type `T`, and element addition is a parameter
`add: (T, T) -> T` that stands for `f32` `+`. Everything proved is about
which index receives which sum. None of it depends on what `add` computes.

- `sum_model.dfy`, module `SumModel`: value-level definitions on sequences.
  These are the packed add and store, one block iteration, the remainder
  loop, the state after `k` block iterations, and the final result. The
  lemmas about them are here too.
- `sum_kernels.dfy`, module `SumKernels`: the kernels as methods that
  update the array `result` in place. Each method is proved against the
  `SumModel` function that specifies it. A panic is an `Outcome` value:
  `AssertEqFailed(left, right)` for a failed `assert_eq!`, and
  `IndexOutOfBounds(len, index)` for a failed bounds check.

What is proved:

- The length checks fail before any write, and `result` is then unchanged.
- `simd_chunks` is a multiple of 4, is at most `n`, and leaves fewer than 4
  elements over.
- The block windows lie inside the arrays, do not overlap, and cover
  exactly `[0, simd_chunks)`.
- After `k` block iterations, the first `4k` entries and the remainder
  range hold their sums, and every other entry is unchanged. This holds
  for `k >= 1`; for `k == 0` nothing has been written.
- Re-running the remainder loop changes nothing. Any number of repetitions
  from one up gives the same state as a single pass after the block loop.
- For `n == 0` or `n >= 4` the SIMD kernel leaves exactly what the scalar
  kernel leaves. For `1 <= n <= 3` it leaves `result` as it was.

## Model

| member | source | states |
|---|---|---|
| `SumModel.AddPs` | benches/simd.rs:21 | `_mm_add_ps` gives a 4-lane vector whose lane k is `add(x[k], y[k])` |
| `SumModel.StorePs` | benches/simd.rs:23 | `_mm_store_ps` at offset i puts the vector in `[i, i+4)` and leaves every other index as it was |
| `SumModel.StoreBlock` | benches/simd.rs:17-24 | one load/add/store block at offset i sets `[i, i+4)` to the lane sums and changes nothing else |
| `SumModel.ScalarLoop` | benches/simd.rs:26-28 | the loop `for j in lo..hi { s[j] = a[j] + b[j] }` sets exactly the indices in `[lo, hi)` to their sums and leaves every other index unchanged |
| `SumModel.SimdChunks` | benches/simd.rs:14 | `n / 4 * 4` is a multiple of 4, at most n, and at most 3 below n |
| `SumModel.BlockWindows` | benches/simd.rs:14-23 | the windows `[i, i+4)` visited by `(0..simd_chunks).step_by(4)` end within `simd_chunks <= n` and are pairwise disjoint; every index below `simd_chunks` lies in the window of its own block |
| `SumModel.BlocksAfter` | benches/simd.rs:16-24 | state after k iterations of a block loop with the remainder loop taken out; length preserved |
| `SumModel.SimdStep` | benches/simd.rs:16-28 | one iteration of the outer loop as written sets the block `[i, i+4)` and the whole remainder `[simd_chunks, n)` to their sums, and leaves the rest unchanged |
| `SumModel.SimdAfter` | benches/simd.rs:16-29 | state after k iterations of the outer loop as written; length preserved |
| `SumModel.SimdResult` | benches/simd.rs:14-29 | state when the outer loop has run `simd_chunks / 4` times; length preserved |
| `SumModel.IntendedResult` | benches/simd.rs:14-28 | state when the remainder loop runs once, after the block loop; length preserved |
| `SumModel.BlocksAfterAt` | benches/simd.rs:16-24 | after k blocks, index j holds `add(a[j], b[j])` if `j < 4k`, and otherwise its old value |
| `SumModel.ScalarLoopIdempotent` | benches/simd.rs:26-28 | running the remainder loop a second time leaves the state unchanged |
| `SumModel.StoreBlockScalarLoopCommute` | benches/simd.rs:16-28 | a block store below `simd_chunks` and the remainder loop commute |
| `SumModel.RemainderAbsorbed` | benches/simd.rs:16-28 | an earlier remainder pass leaves no trace once the next block is stored and the remainder loop runs again |
| `SumModel.RepeatedRemainder` | benches/simd.rs:16-29 | after k >= 1 outer iterations as written, the state equals k plain block stores followed by one remainder pass, whatever k is |
| `SumModel.SimdAfterAt` | benches/simd.rs:16-29 | after k outer iterations as written, index j holds its sum iff `k >= 1` and (`j < 4k` or `j >= simd_chunks`); otherwise it keeps its pre-call value |
| `SumModel.IntendedMatchesScalar` | benches/simd.rs:14-28 | with the remainder loop run once after the block loop, the result equals the scalar loop over `[0, n)` for every n |
| `SumModel.SimdResultCharacterized` | benches/simd.rs:9-36 | for equal lengths, the SIMD kernel's result is the scalar kernel's result when `n == 0` or `n >= 4`, and the untouched `result` when `1 <= n <= 3` |
| `SumModel.ShortInputCounterexample` | benches/simd.rs:14-28 | with `a = [1]`, `b = [2]`, `result = [0]` and integer `+`, the SIMD kernel leaves `[0]` where the scalar kernel gives `[3]` |
| `SumKernels.StoreBlockInto` | benches/simd.rs:17-24 | the `unsafe` block writes `StoreBlock` of the old `result` into the array |
| `SumKernels.RemainderLoop` | benches/simd.rs:26-28 | the remainder loop leaves `ScalarLoop(a, b, old result, simd_chunks, n)` in the array |
| `SumKernels.SimdBlock` | benches/simd.rs:16-28 | one outer iteration (block store, then the nested remainder loop) leaves `SimdStep` of the old `result` |
| `SumKernels.SumArraysSimd` | benches/simd.rs:9-30 | panics with `AssertEqFailed(a.len, b.len)` or `AssertEqFailed(b.len, result.len)` exactly when the lengths differ, in that order, with `result` unchanged; otherwise leaves `SimdResult` of the old `result` |
| `SumKernels.SumArraysScalar` | benches/simd.rs:32-36 | writes the sum into every index below `min(a.len, b.len, result.len)` and nothing else; completes iff `b` and `result` are at least as long as `a`, otherwise panics on `b[m]` or `result[m]` at `m = min(...)` |
| `SumKernels.SumArraysSimdIntended` | benches/simd.rs:9-30 | the same length checks, with the remainder loop moved after the block loop; on equal lengths the result is the scalar kernel's for every n |

## Findings

| source | as written | input that shows it | evidently intended | confidence | as-written member | corrected member |
|---|---|---|---|---|---|---|
| benches/simd.rs:16-29 | the remainder loop `for i in simd_chunks..a.len()` sits inside `for i in (0..simd_chunks).step_by(4)`, so it runs `simd_chunks / 4` times, which is zero when `1 <= n <= 3` | `a = [1.0]`, `b = [2.0]`, `result = [0.0]`: the call leaves `result == [0.0]` | the remainder loop runs once after the block loop, giving `[3.0]`, the same as `sum_arrays_scalar` | high (not executed) | `SumModel.ShortInputCounterexample` | `SumKernels.SumArraysSimdIntended` |

For `n == 0` and `n >= 4`, the nesting only repeats writes that are already
done, as `SumModel.RepeatedRemainder` shows. The benchmark itself uses
`n = 1_000_000`, so its timings are unaffected. `SumKernels.SumArraysSimd`
models the code as written. `SumKernels.SumArraysSimdIntended` is the
corrected variant.

## Left out

- The Criterion harness (benches/simd.rs:38-61): `bench_function`, `b.iter`, `black_box`, `criterion_group!`, `criterion_main!`. It only measures time and has no behaviour to state.
- Input generation (benches/simd.rs:39-40, 50-51), including `ARRAY_SIZE` and the `n as f32 * PI` conversions. These only produce benchmark data.
- IEEE-754 binary32 arithmetic: NaN, infinities, rounding. Element addition is the abstract parameter `add`. The lane-wise add is the same `add` as the scalar `+`, which is what ADDPS guarantees per lane.
- The 16-byte alignment that `_mm_store_ps` demands of its address (benches/simd.rs:23). The loads use the unaligned `_mm_loadu_ps`. Alignment is a property of addresses, and sequences and arrays here have none, so this precondition of the store is not modelled.
- The `unsafe` blocks and the x86_64 intrinsics as instructions (benches/simd.rs:3, 17-24). Only their lane-wise value semantics is modelled: a 4-element load, a lane-wise add and a 4-element store.
- Aliasing: `a` and `b` are shared borrows that are only read, so they are modelled as sequences. `result` is an exclusive borrow, so it is modelled as an array that no other input can alias.
- Unwinding: the model keeps the writes made before a panic and returns an `Outcome`. It does not model what the unwinding does afterwards.
