# Vector scatter context and histogram value buffer

A Dafny model of two pieces of an early PETSc:

* **The vector-scatter context** (`src/vec/utils/vscat.c`). `VecScatterCtxCreate` looks at
  the storage kind of the two vectors (sequential or MPI-distributed) and of the two index
  sets (explicit list or stride). From those it picks a plan. Local plans run one of four
  sequential kernels, `y[iy[i]] = x[ix[i]]` (or `+=`) for `i = 0 .. n-1` in order. A parallel
  vector paired with a sequential one, both index sets strided, gets a local fast path when
  a logical-AND reduction over all processes says every process only touches its own
  ownership range. Every other parallel/sequential pairing goes to a remote schedule.
  `VecScatterBegin`/`VecScatterEnd` carry the in-use guard, `VecScatterCtxCopy` needs a
  copy hook, and `VecPipelineBegin`/`VecPipelineEnd` do nothing on a one-process
  communicator.
* **The histogram value buffer** (`src/sys/src/draw/utils/hists.c`). `_p_DrawHist` is an
  append buffer that grows by `CHUNKSIZE = 100` values when full and keeps running
  x-limits. It also has reset, bin-count, limit and colour setters. A histogram on a null
  window ignores all of these calls.

Files:

* `scatter_semantics.dfy`, module `ScatterSemantics`. `Scatter` is the meaning of the
  sequential scatter loop, a left fold over the iterations. The lemmas here say what it
  does to each slot: under INSERT the last writer wins, under ADD the slot gains the sum
  of what is scattered into it, and untouched slots keep their values. They also cover
  idempotence, double accumulation, the unit-stride block copy, and reading or writing
  through an ownership window.
* `vscat.dfy`, module `VecScatter`. `BuildPlan` is the plan-selection rule of
  `VecScatterCtxCreate` as a pure function, with one `Plan` constructor per variant. The
  kernels are methods over `array<int>` proved against `Scatter`. The `ScatterCtx` class
  holds the plan, its hooks, the communicator size and the `inuse` flag.
* `hists.dfy`, module `DrawHistogram`. The `DrawHist` class holds an `array<real>` that
  grows by `ChunkSize`. `NextLimits` is the x-limit update; a ghost flag keeps
  `xmin == SeqMin(values)` as long as no explicit limits have been set.

Where the design description of this system and the code differ, the model follows the
code:
* Plan construction checks no index against the vector length. The kernels therefore
  *require* in-range slots, which is what C needs to avoid undefined behaviour.
* `VecScatterBegin` never sets `inuse` itself.
* `VecScatterEnd` clears `inuse` unconditionally. It is not an error on an idle context.

## Model

| member | source | states |
|---|---|---|
| `ScatterSemantics.InsertSlot` | src/vec/utils/vscat.c:31-33 | under INSERT_VALUES, after k iterations slot t holds x at the last iteration that wrote t, or its old value if none did |
| `ScatterSemantics.AddSlot` | src/vec/utils/vscat.c:34-36 | under ADD_VALUES, slot t ends as its old value plus the sum of x[from(i)] over every i with to(i) = t |
| `ScatterSemantics.InsertLastWins` | src/vec/utils/vscat.c:32 | with duplicate destinations, the later iteration wins: iteration i sets y[to(i)] = x[from(i)] when no later iteration writes that slot |
| `ScatterSemantics.InsertDistinctCopiesAll` | src/vec/utils/vscat.c:345 | with pairwise distinct destination slots, y[iy[i]] = x[ix[i]] for every i |
| `ScatterSemantics.UntouchedSlotsKept` | src/vec/utils/vscat.c:22-37 | in either mode, a slot no iteration names keeps its old value |
| `ScatterSemantics.InsertIdempotent` | src/vec/utils/vscat.c:31-33 | running an INSERT scatter twice with unchanged source gives the same destination as running it once |
| `ScatterSemantics.AddTwice` | src/vec/utils/vscat.c:34-36 | running an ADD scatter twice with unchanged source adds the per-slot delta twice |
| `ScatterSemantics.UnitStrideIsBlockCopy` | src/vec/utils/vscat.c:85-86 | with unit steps on both sides, the INSERT scatter equals one contiguous block copy; n = 0 changes nothing |
| `ScatterSemantics.ReadThroughWindow` | src/vec/utils/vscat.c:259 | reading the owned window x[start..end) at slots shifted down by start equals reading x at the global slots |
| `ScatterSemantics.WriteThroughWindow` | src/vec/utils/vscat.c:294 | writing the owned window at shifted slots gives that window of the global scatter, and the global scatter writes nothing outside it |
| `ScatterSemantics.GeneralScatterExample` | src/vec/utils/vscat.c:32 | x=[10,20,30,40], from=[1,3], to=[0,4], y=[0,0,0,0,0] gives y=[20,0,0,0,40] |
| `VecScatter.AllReduceLandIff` | src/vec/utils/vscat.c:253 | the logical-AND reduction of the per-process flags is true exactly when every flag is true |
| `VecScatter.BuildPlan` | src/vec/utils/vscat.c:154-317 | a plan exists iff the kind combination is handled and the local sizes match; otherwise "Cannot generate" for unhandled kinds and "sizes don't match" for handled ones; a sequential/sequential plan reads ix[i] and writes iy[i] |
| `VecScatter.ParallelToSeqChoice` | src/vec/utils/vscat.c:243-277 | MPI-to-Seq: the fast path is taken iff both sets are strides and every process owns its part of ix; then the source first slot is shifted by -start; otherwise the remote schedule gets the full index lists |
| `VecScatter.SeqToParallelChoice` | src/vec/utils/vscat.c:281-315 | Seq-to-MPI mirror image: tests iy against y's ownership range and shifts the destination first slot |
| `VecScatter.ParallelToSeqFastPathExact` | src/vec/utils/vscat.c:252-266 | when the fast path is taken, it reads only owned slots and computes exactly the global-index scatter |
| `VecScatter.SeqToParallelFastPathExact` | src/vec/utils/vscat.c:290-304 | when the fast path is taken, it writes only owned slots and gives exactly the owned part of the global-index scatter |
| `VecScatter.CopyGeneralToGeneral` | src/vec/utils/vscat.c:22-38 | the kernel leaves y equal to Scatter(old y, x, fslots, tslots, mode) |
| `VecScatter.CopyGeneralToStride` | src/vec/utils/vscat.c:39-55 | the kernel leaves y equal to Scatter with destination slots first + i*step |
| `VecScatter.CopyStrideToGeneral` | src/vec/utils/vscat.c:57-73 | the kernel leaves y equal to Scatter with source slots first + i*step |
| `VecScatter.CopyStrideToStride` | src/vec/utils/vscat.c:75-108 | every branch (block copy, offset add, general strided loops) leaves y equal to the general strided Scatter |
| `VecScatter.BlockCopy` | src/vec/utils/vscat.c:85-86 | the memcpy branch equals the INSERT strided scatter with unit steps |
| `VecScatter.BlockAdd` | src/vec/utils/vscat.c:95-100 | the offset-pointer loop equals the ADD strided scatter with unit steps |
| `VecScatter.CreateScatterCtx` | src/vec/utils/vscat.c:139-318 | fails exactly when BuildPlan fails, with its error; otherwise a fresh context, not in use, holding the plan; local plans get no end, copy or pipeline hook |
| `VecScatter.ScatterCtx.constructor` | src/vec/utils/vscat.c:150-153 | the new context holds the given plan, hooks and communicator size and is not in use |
| `VecScatter.ScatterCtx.Begin` | src/vec/utils/vscat.c:351-358 | fails with "already in use" and leaves y unchanged when inuse is set; otherwise a local plan leaves y = Scatter(old y, x, From, To, mode); inuse is never changed |
| `VecScatter.ScatterCtx.End` | src/vec/utils/vscat.c:385-393 | always clears inuse; a no-op without an end hook, so always for local plans |
| `VecScatter.ScatterCtx.Copy` | src/vec/utils/vscat.c:424-432 | fails with "cannot copy this type" iff there is no copy hook, so always for local plans |
| `VecScatter.ScatterCtx.PipelineBegin` | src/vec/utils/vscat.c:460-469 | succeeds without touching y on a one-process communicator; otherwise fails iff there is no pipeline-begin hook, so always for local plans |
| `VecScatter.ScatterCtx.PipelineEnd` | src/vec/utils/vscat.c:497-506 | never fails; a no-op on one process or without a pipeline-end hook |
| `DrawHistogram.SeqMinAppend` | src/sys/src/draw/utils/hists.c:217-219 | appending a value makes the minimum the smaller of the old minimum and the value |
| `DrawHistogram.NextLimits` | src/sys/src/draw/utils/hists.c:200-220 | the first value since create or reset gives xmin = xmax = value; afterwards xmin becomes min(xmin, value); a value inside the limits leaves xmax alone |
| `DrawHistogram.NextLimitsCoverValue` | src/sys/src/draw/utils/hists.c:203-220 | with a positive bin count and ordered limits, the new limits stay ordered, contain the old ones and contain the new value |
| `DrawHistogram.DrawHist.constructor` | src/sys/src/draw/utils/hists.c:47-77 | numValues = 0, maxValues = CHUNKSIZE = 100, xmin/xmax are the sentinels PETSC_MAX/PETSC_MIN, ymin = 0, ymax = 1, the colour is green |
| `DrawHistogram.DrawHist.SetNumberBins` | src/sys/src/draw/utils/hists.c:93-107 | afterwards numBins = bins (no change if it already was); nothing changes on a null window |
| `DrawHistogram.DrawHist.Reset` | src/sys/src/draw/utils/hists.c:121-131 | numValues = 0, ymin = ymax = 0, xmin/xmax back to the sentinels; capacity, storage and bin count kept; nothing changes on a null window |
| `DrawHistogram.DrawHist.AddValue` | src/sys/src/draw/utils/hists.c:183-224 | the values become old values + [value]; capacity grows by exactly CHUNKSIZE into fresh storage when full, else the storage is kept; limits follow NextLimits; numValues <= maxValues and xmin = min of the values are kept; nothing changes on a null window |
| `DrawHistogram.DrawHist.Grow` | src/sys/src/draw/utils/hists.c:189-199 | fresh storage one chunk larger holding the old values in order |
| `DrawHistogram.DrawHist.UpdateLimits` | src/sys/src/draw/utils/hists.c:200-220 | the in-place limit update computes NextLimits of the old limits |
| `DrawHistogram.DrawHist.SetLimits` | src/sys/src/draw/utils/hists.c:329-338 | sets all four limits (the y-limits converted from int); nothing changes on a null window |
| `DrawHistogram.DrawHist.SetColor` | src/sys/src/draw/utils/hists.c:305-311 | sets the bar colour; nothing changes on a null window |

## Left out

- MPI calls are not modelled as communication. `MPI_Allreduce` is `AllReduceLand` over this process's flag plus `peerFlags`, the flags the other processes contribute. `MPI_Comm_size` is the `commSize` parameter. The choice of communicator at vscat.c:145-147 is not modelled.
- The remote schedule builders `PtoSScatterCtxCreate` and `StoPScatterCtxCreate` are only declared in vscat.c, so they are not part of this model. A remote plan records the index lists it would be built from. Its hooks are the `remoteHooks` parameter. `Begin`, `End`, `Copy` and the pipeline calls only report `Delegated` for it and leave `y` untouched. Failures of those builders are not modelled.
- `VecScatter.ScatterCtx.Begin`: does not model what a remote plan's begin hook does to `y` or to `inuse`.
- The `ScatterMode`/`PipelineMode` argument (forward, reverse, up, down) is ignored by every local kernel. It is left out, and so is the forward/reverse round trip.
- Scalars are unbounded `int` in the scatter model. There is no floating-point rounding under ADD_VALUES.
- Histogram values and limits are `real`. There is no floating-point rounding.
- `DrawHistogram.Overshoot`: with zero bins the C code divides by zero (an infinity or NaN). The model uses no overshoot there.
- `VecScatter.CopyGeneralToGeneral`, `CopyGeneralToStride`, `CopyStrideToGeneral`, `CopyStrideToStride`: they require distinct source and destination buffers. Scattering a vector into itself is not modelled.
- The kernels also require in-range slots. Out-of-range slots are undefined behaviour in C, which checks nothing.
- Index-set `min`/`max` are the values the index-set implementation records. The index-set code is not part of this model. `BoundsHold` states the assumption that they bracket the indices, and the fast-path exactness lemmas use it.
- Index lists are sequence values. The copy into context-owned storage (for example vscat.c:162-169) is therefore implicit: no later change to the caller's index set can reach the plan.
- The initial `inuse` value is taken as false. It comes from object-header creation, which is not part of this model.
- Header validation (`PETSCVALIDHEADERSPECIFIC`) is left out. So are logging and memory accounting (`PLogObject*`), allocation failures (`CHKPTRQ`), the `ISRestoreIndices` calls, and the destroy paths (`VecScatterCtxDestroy`, `SGtoSGDestroy`, `DrawHistDestroy`).
- The histogram's bin storage (`bins`) is left out, because only drawing uses it. `DrawHistDraw` (bin counting and rectangles), `DrawHistGetAxis`, `DrawHistGetDraw` and the axis creation are left out too.
- A null-window histogram is a `DrawHist` with `nullWindow` set, not the separate null drawing object of hists.c:53-57.
- `PETSC_MAX`/`PETSC_MIN` (±1e300) and the green colour index (3) come from headers that are not part of this model. No proved property depends on their values.
