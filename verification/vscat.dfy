/** The vector-scatter context: the plan chosen from the kinds of the two
    vectors and the two index sets, the four sequential kernels that execute
    local plans in place, and the begin/end, copy and pipeline entry points
    with their in-use guard and missing-hook checks. */
module VecScatter {
  import opened ScatterSemantics

  /** The storage kind of a vector.  A parallel vector is seen through the
      ownership range [ownStart, ownEnd) of the calling process; any other
      implementation is `OtherVec`. */
  datatype VecLayout = SeqVec | MpiVec(ownStart: int, ownEnd: int) | OtherVec

  /** An index set: an explicit list, a stride, or any other implementation.
      `min` and `max` are the bounds the index-set implementation records. */
  datatype IndexSet =
    | GeneralIS(indices: seq<int>, min: int, max: int)
    | StrideIS(first: int, step: int, n: nat, min: int, max: int)
    | OtherIS(indices: seq<int>, min: int, max: int)

  /** The indices the set enumerates, in order. */
  function Indices(indexSet: IndexSet): seq<int>
  {
    match indexSet
    case GeneralIS(idx, _, _) => idx
    case StrideIS(first, step, n, _, _) => StrideSlots(first, step, n)
    case OtherIS(idx, _, _) => idx
  }

  /** The number of indices the set holds on this process. */
  function LocalSize(indexSet: IndexSet): nat
  {
    |Indices(indexSet)|
  }

  /** The recorded `min` and `max` really bracket every index. */
  predicate BoundsHold(indexSet: IndexSet)
  {
    forall i :: 0 <= i < |Indices(indexSet)| ==> indexSet.min <= Indices(indexSet)[i] <= indexSet.max
  }

  /** The errors the context reports. */
  datatype ScatterError =
    | SizesDontMatch      // the two index sets have different local sizes
    | CannotGenerate      // no plan for this combination of vector and index-set kinds
    | ContextInUse        // begin called on a context marked in use
    | CannotCopy          // the plan has no copy hook
    | NoPipeline          // the plan has no pipeline-begin hook

  datatype Result<T> = Ok(value: T) | Err(error: ScatterError)

  /** How a call that did not fail ended: the model did all the work, or the
      variant's own hook (remote schedules, not part of this model) takes over. */
  datatype Outcome = Done | Delegated

  /** One constructor per execution strategy. */
  datatype Plan =
    | GeneralToGeneral(fromSlots: seq<int>, toSlots: seq<int>)
    | GeneralToStride(fromSlots: seq<int>, toFirst: int, toStep: int)
    | StrideToGeneral(fromFirst: int, fromStep: int, toSlots: seq<int>)
    | StrideToStride(fromFirst: int, fromStep: int, toFirst: int, toStep: int, n: nat)
    | ParallelToSeq(idx: seq<int>, idy: seq<int>)   // remote schedule built elsewhere
    | SeqToParallel(idx: seq<int>, idy: seq<int>)   // remote schedule built elsewhere
  {
    /** The plan is executed by one of the sequential kernels. */
    predicate IsLocal()
    {
      !ParallelToSeq? && !SeqToParallel?
    }

    /** The source slots read, in loop order. */
    function From(): seq<int>
      requires IsLocal()
    {
      match this
      case GeneralToGeneral(f, _) => f
      case GeneralToStride(f, _, _) => f
      case StrideToGeneral(first, step, t) => StrideSlots(first, step, |t|)
      case StrideToStride(first, step, _, _, n) => StrideSlots(first, step, n)
    }

    /** The destination slots written, in loop order. */
    function To(): seq<int>
      requires IsLocal()
    {
      match this
      case GeneralToGeneral(_, t) => t
      case GeneralToStride(f, first, step) => StrideSlots(first, step, |f|)
      case StrideToGeneral(_, _, t) => t
      case StrideToStride(_, _, first, step, n) => StrideSlots(first, step, n)
    }
  }

  /** The optional entry points a context carries besides begin. */
  datatype Hooks = Hooks(scatterEnd: bool, copy: bool, pipelineBegin: bool, pipelineEnd: bool)

  const NoHooks := Hooks(false, false, false, false)

  /** Local plans bind no end, copy or pipeline hook; remote plans bind whatever
      their builder installs. */
  function InstalledHooks(plan: Plan, remoteHooks: Hooks): Hooks
  {
    if plan.IsLocal() then NoHooks else remoteHooks
  }

  /** The combinations of vector kinds and index-set kinds a plan exists for. */
  predicate Handled(x: VecLayout, ix: IndexSet, y: VecLayout, iy: IndexSet)
  {
    (x.SeqVec? && y.SeqVec? && !ix.OtherIS? && !iy.OtherIS?) ||
    (x.MpiVec? && y.SeqVec?) ||
    (x.SeqVec? && y.MpiVec?)
  }

  /** One process's answer: its part of the index set lies inside its ownership range. */
  predicate OwnsRange(indexSet: IndexSet, start: int, end: int)
  {
    indexSet.min >= start && indexSet.max < end
  }

  /** Logical-AND reduction of the per-process answers. */
  function AllReduceLand(flags: seq<bool>): bool
  {
    if |flags| == 0 then true else flags[0] && AllReduceLand(flags[1..])
  }

  /** The reduction is true exactly when every process answered true. */
  lemma {:induction false} AllReduceLandIff(flags: seq<bool>)
    ensures AllReduceLand(flags) <==> forall i :: 0 <= i < |flags| ==> flags[i]
  {
    if |flags| > 0 {
      AllReduceLandIff(flags[1..]);
      assert forall i :: 1 <= i < |flags| ==> flags[i] == flags[1..][i - 1];
    }
  }

  /** The plan chosen for scattering `ix` of `x` into `iy` of `y`.  `peerFlags`
      are the answers the other processes contribute to the reduction. */
  function BuildPlan(x: VecLayout, ix: IndexSet, y: VecLayout, iy: IndexSet,
                     peerFlags: seq<bool>): (r: Result<Plan>)
    ensures r.Ok? <==> Handled(x, ix, y, iy) && LocalSize(ix) == LocalSize(iy)
    ensures !Handled(x, ix, y, iy) ==> r == Err(CannotGenerate)
    ensures Handled(x, ix, y, iy) && LocalSize(ix) != LocalSize(iy) ==> r == Err(SizesDontMatch)
    ensures r.Ok? && r.value.IsLocal() ==>
              |r.value.From()| == |r.value.To()| == LocalSize(ix)
    ensures r.Ok? && x.SeqVec? && y.SeqVec? ==>
              r.value.IsLocal() && r.value.From() == Indices(ix) && r.value.To() == Indices(iy)
  {
    if x.SeqVec? && y.SeqVec? then
      if ix.GeneralIS? && iy.GeneralIS? then
        if |ix.indices| != |iy.indices| then Err(SizesDontMatch)
        else Ok(GeneralToGeneral(ix.indices, iy.indices))
      else if ix.StrideIS? && iy.StrideIS? then
        if ix.n != iy.n then Err(SizesDontMatch)
        else Ok(StrideToStride(ix.first, ix.step, iy.first, iy.step, ix.n))
      else if ix.GeneralIS? && iy.StrideIS? then
        if |ix.indices| != iy.n then Err(SizesDontMatch)
        else Ok(GeneralToStride(ix.indices, iy.first, iy.step))
      else if ix.StrideIS? && iy.GeneralIS? then
        if ix.n != |iy.indices| then Err(SizesDontMatch)
        else Ok(StrideToGeneral(ix.first, ix.step, iy.indices))
      else Err(CannotGenerate)
    else if x.MpiVec? && y.SeqVec? then
      if LocalSize(ix) != LocalSize(iy) then Err(SizesDontMatch)
      else if ix.StrideIS? && iy.StrideIS? &&
              AllReduceLand([OwnsRange(ix, x.ownStart, x.ownEnd)] + peerFlags) then
        Ok(StrideToStride(ix.first - x.ownStart, ix.step, iy.first, iy.step, ix.n))
      else Ok(ParallelToSeq(Indices(ix), Indices(iy)))
    else if x.SeqVec? && y.MpiVec? then
      if LocalSize(ix) != LocalSize(iy) then Err(SizesDontMatch)
      else if ix.StrideIS? && iy.StrideIS? &&
              AllReduceLand([OwnsRange(iy, y.ownStart, y.ownEnd)] + peerFlags) then
        Ok(StrideToStride(ix.first, ix.step, iy.first - y.ownStart, iy.step, ix.n))
      else Ok(SeqToParallel(Indices(ix), Indices(iy)))
    else Err(CannotGenerate)
  }

  /** Parallel source, sequential destination: the local fast path is chosen
      exactly when both sets are strides and every process owns its part of
      `ix`; it then reads global index g at local slot g - ownStart.
      Otherwise the remote schedule gets the full index lists. */
  lemma ParallelToSeqChoice(x: VecLayout, ix: IndexSet, y: VecLayout, iy: IndexSet,
                            peerFlags: seq<bool>)
    requires x.MpiVec? && y.SeqVec? && LocalSize(ix) == LocalSize(iy)
    ensures var r := BuildPlan(x, ix, y, iy, peerFlags);
            var everyoneLocal := OwnsRange(ix, x.ownStart, x.ownEnd) &&
                                 forall i :: 0 <= i < |peerFlags| ==> peerFlags[i];
            r.Ok? &&
            (r.value.IsLocal() <==> ix.StrideIS? && iy.StrideIS? && everyoneLocal) &&
            (r.value.IsLocal() ==>
               r.value.From() == Shifted(Indices(ix), x.ownStart) && r.value.To() == Indices(iy)) &&
            (!r.value.IsLocal() ==> r.value == ParallelToSeq(Indices(ix), Indices(iy)))
  {
    var flags := [OwnsRange(ix, x.ownStart, x.ownEnd)] + peerFlags;
    AllReduceLandIff(flags);
    assert forall i :: 0 <= i < |peerFlags| ==> peerFlags[i] == flags[i + 1];
    if ix.StrideIS? {
      StrideShift(ix.first, ix.step, ix.n, x.ownStart);
    }
  }

  /** Sequential source, parallel destination: the mirror image, testing `iy`
      and writing global index g at local slot g - ownStart. */
  lemma SeqToParallelChoice(x: VecLayout, ix: IndexSet, y: VecLayout, iy: IndexSet,
                            peerFlags: seq<bool>)
    requires x.SeqVec? && y.MpiVec? && LocalSize(ix) == LocalSize(iy)
    ensures var r := BuildPlan(x, ix, y, iy, peerFlags);
            var everyoneLocal := OwnsRange(iy, y.ownStart, y.ownEnd) &&
                                 forall i :: 0 <= i < |peerFlags| ==> peerFlags[i];
            r.Ok? &&
            (r.value.IsLocal() <==> ix.StrideIS? && iy.StrideIS? && everyoneLocal) &&
            (r.value.IsLocal() ==>
               r.value.From() == Indices(ix) && r.value.To() == Shifted(Indices(iy), y.ownStart)) &&
            (!r.value.IsLocal() ==> r.value == SeqToParallel(Indices(ix), Indices(iy)))
  {
    var flags := [OwnsRange(iy, y.ownStart, y.ownEnd)] + peerFlags;
    AllReduceLandIff(flags);
    assert forall i :: 0 <= i < |peerFlags| ==> peerFlags[i] == flags[i + 1];
    if iy.StrideIS? {
      StrideShift(iy.first, iy.step, iy.n, y.ownStart);
    }
  }

  /** The fast path for a parallel source is only an optimisation: run on the
      owned part `gx[ownStart..ownEnd]` of the global source it computes what
      `y[iy[i]] = x[ix[i]]` computes on global indices, and every slot it reads
      lies inside the owned part. */
  lemma ParallelToSeqFastPathExact(x: VecLayout, ix: IndexSet, y: VecLayout, iy: IndexSet,
                                   peerFlags: seq<bool>, gx: seq<int>, ys: seq<int>,
                                   addv: InsertMode)
    requires x.MpiVec? && y.SeqVec? && BoundsHold(ix)
    requires 0 <= x.ownStart <= x.ownEnd <= |gx|
    requires BuildPlan(x, ix, y, iy, peerFlags).Ok?
    requires BuildPlan(x, ix, y, iy, peerFlags).value.IsLocal()
    requires InRange(Indices(iy), |ys|)
    ensures var p := BuildPlan(x, ix, y, iy, peerFlags).value;
            InRange(p.From(), x.ownEnd - x.ownStart) &&
            Fits(ys, gx[x.ownStart..x.ownEnd], p.From(), p.To()) &&
            Fits(ys, gx, Indices(ix), Indices(iy)) &&
            Scatter(ys, gx[x.ownStart..x.ownEnd], p.From(), p.To(), addv)
              == Scatter(ys, gx, Indices(ix), Indices(iy), addv)
  {
    ParallelToSeqChoice(x, ix, y, iy, peerFlags);
    ReadThroughWindow(ys, gx, Indices(ix), Indices(iy), addv, x.ownStart, x.ownEnd);
  }

  /** The fast path for a parallel destination is only an optimisation: run on
      the owned part of the global destination it gives that part of what the
      global scatter gives, and the global scatter writes nothing outside it. */
  lemma SeqToParallelFastPathExact(x: VecLayout, ix: IndexSet, y: VecLayout, iy: IndexSet,
                                   peerFlags: seq<bool>, xs: seq<int>, gy: seq<int>,
                                   addv: InsertMode)
    requires x.SeqVec? && y.MpiVec? && BoundsHold(iy)
    requires 0 <= y.ownStart <= y.ownEnd <= |gy|
    requires BuildPlan(x, ix, y, iy, peerFlags).Ok?
    requires BuildPlan(x, ix, y, iy, peerFlags).value.IsLocal()
    requires InRange(Indices(ix), |xs|)
    ensures var p := BuildPlan(x, ix, y, iy, peerFlags).value;
            var s, e := y.ownStart, y.ownEnd;
            InRange(p.To(), e - s) &&
            Fits(gy[s..e], xs, p.From(), p.To()) &&
            Fits(gy, xs, Indices(ix), Indices(iy)) &&
            var whole := Scatter(gy, xs, Indices(ix), Indices(iy), addv);
            Scatter(gy[s..e], xs, p.From(), p.To(), addv) == whole[s..e] &&
            whole[..s] == gy[..s] && whole[e..] == gy[e..]
  {
    SeqToParallelChoice(x, ix, y, iy, peerFlags);
    var to := Indices(iy);
    WriteThroughWindow(gy, xs, Indices(ix), to, addv, y.ownStart, y.ownEnd, |to|);
  }

  /** General to general: `y[tslots[i]] = x[fslots[i]]` (or `+=`) for i in order. */
  method CopyGeneralToGeneral(x: array<int>, y: array<int>, addv: InsertMode,
                              fslots: seq<int>, tslots: seq<int>)
    requires x != y && Fits(y[..], x[..], fslots, tslots)
    modifies y
    ensures y[..] == Scatter(old(y[..]), x[..], fslots, tslots, addv)
  {
    var n := |fslots|;
    var i := 0;
    if addv == InsertValues {
      while i < n
        invariant 0 <= i <= n
        invariant y[..] == ScatterPrefix(old(y[..]), x[..], fslots, tslots, addv, i)
      {
        y[tslots[i]] := x[fslots[i]];
        i := i + 1;
      }
    } else {
      while i < n
        invariant 0 <= i <= n
        invariant y[..] == ScatterPrefix(old(y[..]), x[..], fslots, tslots, addv, i)
      {
        y[tslots[i]] := y[tslots[i]] + x[fslots[i]];
        i := i + 1;
      }
    }
  }

  /** General to stride: `y[first + i*step] = x[fslots[i]]` (or `+=`). */
  method CopyGeneralToStride(x: array<int>, y: array<int>, addv: InsertMode,
                             fslots: seq<int>, first: int, step: int)
    requires x != y && Fits(y[..], x[..], fslots, StrideSlots(first, step, |fslots|))
    modifies y
    ensures y[..] == Scatter(old(y[..]), x[..], fslots, StrideSlots(first, step, |fslots|), addv)
  {
    var n := |fslots|;
    ghost var to := StrideSlots(first, step, n);
    var i := 0;
    if addv == InsertValues {
      while i < n
        invariant 0 <= i <= n
        invariant y[..] == ScatterPrefix(old(y[..]), x[..], fslots, to, addv, i)
      {
        assert to[i] == first + i * step;
        y[first + i * step] := x[fslots[i]];
        i := i + 1;
      }
    } else {
      while i < n
        invariant 0 <= i <= n
        invariant y[..] == ScatterPrefix(old(y[..]), x[..], fslots, to, addv, i)
      {
        assert to[i] == first + i * step;
        y[first + i * step] := y[first + i * step] + x[fslots[i]];
        i := i + 1;
      }
    }
  }

  /** Stride to general: `y[tslots[i]] = x[first + i*step]` (or `+=`). */
  method CopyStrideToGeneral(x: array<int>, y: array<int>, addv: InsertMode,
                             first: int, step: int, tslots: seq<int>)
    requires x != y && Fits(y[..], x[..], StrideSlots(first, step, |tslots|), tslots)
    modifies y
    ensures y[..] == Scatter(old(y[..]), x[..], StrideSlots(first, step, |tslots|), tslots, addv)
  {
    var n := |tslots|;
    ghost var from := StrideSlots(first, step, n);
    var i := 0;
    if addv == InsertValues {
      while i < n
        invariant 0 <= i <= n
        invariant y[..] == ScatterPrefix(old(y[..]), x[..], from, tslots, addv, i)
      {
        assert from[i] == first + i * step;
        y[tslots[i]] := x[first + i * step];
        i := i + 1;
      }
    } else {
      while i < n
        invariant 0 <= i <= n
        invariant y[..] == ScatterPrefix(old(y[..]), x[..], from, tslots, addv, i)
      {
        assert from[i] == first + i * step;
        y[tslots[i]] := y[tslots[i]] + x[first + i * step];
        i := i + 1;
      }
    }
  }

  /** Copies the `n` contiguous source values starting at `fromFirst` over the
      `n` destination values starting at `toFirst` in one block (a memcpy). */
  method BlockCopy(x: array<int>, y: array<int>, fromFirst: int, toFirst: int, n: nat)
    requires x != y
    requires Fits(y[..], x[..], StrideSlots(fromFirst, 1, n), StrideSlots(toFirst, 1, n))
    modifies y
    ensures y[..] == Scatter(old(y[..]), x[..], StrideSlots(fromFirst, 1, n),
                             StrideSlots(toFirst, 1, n), InsertValues)
  {
    ghost var from, to := StrideSlots(fromFirst, 1, n), StrideSlots(toFirst, 1, n);
    ghost var ys, xs := y[..], x[..];
    if n > 0 {
      assert from[0] == fromFirst && from[n - 1] == fromFirst + (n - 1);
      assert to[0] == toFirst && to[n - 1] == toFirst + (n - 1);
      UnitStrideIsBlockCopy(ys, xs, fromFirst, toFirst, n);
    }
    forall k | 0 <= k < n {
      y[toFirst + k] := x[fromFirst + k];
    }
    assert x[..] == xs;
    if n > 0 {
      assert y[..] == ys[..toFirst] + xs[fromFirst..fromFirst + n] + ys[toFirst + n..];
    } else {
      assert |to| == 0 && y[..] == ys;
    }
  }

  /** Adds the `n` contiguous source values starting at `fromFirst` into the
      `n` destination values starting at `toFirst`, walking both buffers from
      those offsets. */
  method BlockAdd(x: array<int>, y: array<int>, fromFirst: int, toFirst: int, n: nat)
    requires x != y
    requires Fits(y[..], x[..], StrideSlots(fromFirst, 1, n), StrideSlots(toFirst, 1, n))
    modifies y
    ensures y[..] == Scatter(old(y[..]), x[..], StrideSlots(fromFirst, 1, n),
                             StrideSlots(toFirst, 1, n), AddValues)
  {
    ghost var from, to := StrideSlots(fromFirst, 1, n), StrideSlots(toFirst, 1, n);
    var i := 0;
    while i < n
      invariant 0 <= i <= n
      invariant y[..] == ScatterPrefix(old(y[..]), x[..], from, to, AddValues, i)
    {
      assert from[i] == fromFirst + i && to[i] == toFirst + i;
      y[toFirst + i] := y[toFirst + i] + x[fromFirst + i];
      i := i + 1;
    }
  }

  /** Stride to stride.  With unit steps on both sides INSERT_VALUES is one
      block copy and ADD_VALUES walks both buffers from their offsets; the
      result is the same as the general strided loop's. */
  method CopyStrideToStride(x: array<int>, y: array<int>, addv: InsertMode,
                            fromFirst: int, fromStep: int, toFirst: int, toStep: int, n: nat)
    requires x != y
    requires Fits(y[..], x[..], StrideSlots(fromFirst, fromStep, n), StrideSlots(toFirst, toStep, n))
    modifies y
    ensures y[..] == Scatter(old(y[..]), x[..], StrideSlots(fromFirst, fromStep, n),
                             StrideSlots(toFirst, toStep, n), addv)
  {
    ghost var from, to := StrideSlots(fromFirst, fromStep, n), StrideSlots(toFirst, toStep, n);
    var i := 0;
    if addv == InsertValues {
      if toStep == 1 && fromStep == 1 {
        BlockCopy(x, y, fromFirst, toFirst, n);
      } else {
        while i < n
          invariant 0 <= i <= n
          invariant y[..] == ScatterPrefix(old(y[..]), x[..], from, to, addv, i)
        {
          assert from[i] == fromFirst + i * fromStep && to[i] == toFirst + i * toStep;
          y[toFirst + i * toStep] := x[fromFirst + i * fromStep];
          i := i + 1;
        }
      }
    } else {
      if toStep == 1 && fromStep == 1 {
        BlockAdd(x, y, fromFirst, toFirst, n);
      } else {
        while i < n
          invariant 0 <= i <= n
          invariant y[..] == ScatterPrefix(old(y[..]), x[..], from, to, addv, i)
        {
          assert from[i] == fromFirst + i * fromStep && to[i] == toFirst + i * toStep;
          y[toFirst + i * toStep] := y[toFirst + i * toStep] + x[fromFirst + i * fromStep];
          i := i + 1;
        }
      }
    }
  }

  /** A scatter context: a plan fixed at creation, the hooks bound to it, the
      size of its communicator, and the in-use flag. */
  class ScatterCtx {
    const plan: Plan
    const hooks: Hooks
    const commSize: nat
    var inuse: bool

    /** Local plans carry no end, copy or pipeline hook. */
    predicate Valid()
    {
      plan.IsLocal() ==> hooks == NoHooks
    }

    constructor (plan: Plan, hooks: Hooks, commSize: nat)
      requires plan.IsLocal() ==> hooks == NoHooks
      ensures Valid()
      ensures this.plan == plan && this.hooks == hooks && this.commSize == commSize
      ensures !inuse
    {
      this.plan := plan;
      this.hooks := hooks;
      this.commSize := commSize;
      inuse := false;
    }

    /** Starts a scatter.  A context marked in use is refused; otherwise a local
        plan runs its kernel to completion and a remote plan hands over to its
        own begin hook.  Begin itself never marks the context in use. */
    method Begin(x: array<int>, y: array<int>, addv: InsertMode) returns (r: Result<Outcome>)
      requires x != y
      requires plan.IsLocal() ==> Fits(y[..], x[..], plan.From(), plan.To())
      modifies y
      ensures inuse == old(inuse)
      ensures inuse ==> r == Err(ContextInUse) && y[..] == old(y[..])
      ensures !inuse && plan.IsLocal() ==>
                r == Ok(Done) && y[..] == Scatter(old(y[..]), x[..], plan.From(), plan.To(), addv)
      ensures !inuse && !plan.IsLocal() ==> r == Ok(Delegated) && y[..] == old(y[..])
    {
      if inuse {
        return Err(ContextInUse);
      }
      match plan
      case GeneralToGeneral(f, t) =>
        CopyGeneralToGeneral(x, y, addv, f, t);
        r := Ok(Done);
      case GeneralToStride(f, first, step) =>
        CopyGeneralToStride(x, y, addv, f, first, step);
        r := Ok(Done);
      case StrideToGeneral(first, step, t) =>
        CopyStrideToGeneral(x, y, addv, first, step, t);
        r := Ok(Done);
      case StrideToStride(ff, fs, tf, ts, n) =>
        CopyStrideToStride(x, y, addv, ff, fs, tf, ts, n);
        r := Ok(Done);
      case ParallelToSeq(_, _) =>
        r := Ok(Delegated);
      case SeqToParallel(_, _) =>
        r := Ok(Delegated);
    }

    /** Ends a scatter: always clears the in-use flag, then hands over to the
        end hook if there is one; for a local plan it does nothing else. */
    method End(x: array<int>, y: array<int>, addv: InsertMode) returns (r: Result<Outcome>)
      requires Valid()
      modifies this`inuse
      ensures !inuse
      ensures r == (if hooks.scatterEnd then Ok(Delegated) else Ok(Done))
      ensures plan.IsLocal() ==> r == Ok(Done)
    {
      inuse := false;
      if hooks.scatterEnd {
        r := Ok(Delegated);
      } else {
        r := Ok(Done);
      }
    }

    /** Copying needs the plan's copy hook; local plans have none. */
    method Copy() returns (r: Result<Outcome>)
      requires Valid()
      ensures r.Err? <==> !hooks.copy
      ensures r.Err? ==> r.error == CannotCopy
      ensures plan.IsLocal() ==> r == Err(CannotCopy)
    {
      if !hooks.copy {
        return Err(CannotCopy);
      }
      r := Ok(Delegated);
    }

    /** On a one-process communicator the pipeline is a no-op; otherwise it
        needs the pipeline-begin hook, which local plans do not have. */
    method PipelineBegin(x: array<int>, y: array<int>, addv: InsertMode) returns (r: Result<Outcome>)
      requires Valid()
      ensures commSize == 1 ==> r == Ok(Done)
      ensures commSize != 1 ==> (r.Err? <==> !hooks.pipelineBegin)
      ensures r.Err? ==> r.error == NoPipeline
      ensures commSize != 1 && plan.IsLocal() ==> r == Err(NoPipeline)
    {
      if commSize == 1 {
        return Ok(Done);
      }
      if !hooks.pipelineBegin {
        return Err(NoPipeline);
      }
      r := Ok(Delegated);
    }

    /** Pipeline end never fails: it is a no-op on one process or without a
        pipeline-end hook, and hands over to that hook otherwise. */
    method PipelineEnd(x: array<int>, y: array<int>, addv: InsertMode) returns (r: Result<Outcome>)
      requires Valid()
      ensures r.Ok?
      ensures r == Ok(Delegated) <==> commSize != 1 && hooks.pipelineEnd
      ensures plan.IsLocal() ==> r == Ok(Done)
    {
      if commSize == 1 {
        return Ok(Done);
      }
      if hooks.pipelineEnd {
        r := Ok(Delegated);
      } else {
        r := Ok(Done);
      }
    }
  }

  /** Creates a scatter context: builds the plan, binds the hooks (none for a
      local plan) and returns a fresh context that is not in use, or the
      error the plan builder reports. */
  method CreateScatterCtx(x: VecLayout, ix: IndexSet, y: VecLayout, iy: IndexSet,
                          peerFlags: seq<bool>, remoteHooks: Hooks, commSize: nat)
    returns (r: Result<ScatterCtx>)
    ensures r.Ok? <==> BuildPlan(x, ix, y, iy, peerFlags).Ok?
    ensures r.Err? ==> r.error == BuildPlan(x, ix, y, iy, peerFlags).error
    ensures r.Ok? ==>
              fresh(r.value) && r.value.Valid() && !r.value.inuse &&
              r.value.plan == BuildPlan(x, ix, y, iy, peerFlags).value &&
              r.value.hooks == InstalledHooks(r.value.plan, remoteHooks) &&
              r.value.commSize == commSize
  {
    var built := BuildPlan(x, ix, y, iy, peerFlags);
    if built.Err? {
      return Err(built.error);
    }
    var ctx := new ScatterCtx(built.value, InstalledHooks(built.value, remoteHooks), commSize);
    r := Ok(ctx);
  }
}
