/** Meaning of the sequential scatter loop `y[to[i]] = x[from[i]]` (or `+=`),
    run for i = 0, 1, ..., n-1 in that order.  Every local kernel of the
    vector-scatter context is proved against `Scatter` below, and the lemmas
    of this module say what `Scatter` does slot by slot. */
module ScatterSemantics {

  /** INSERT_VALUES overwrites the destination slot, ADD_VALUES accumulates into it. */
  datatype InsertMode = InsertValues | AddValues

  /** The slots first, first+step, ..., first+(n-1)*step of a stride index set. */
  function StrideSlots(first: int, step: int, n: nat): seq<int>
  {
    seq(n, i => first + i * step)
  }

  /** Every slot lies inside a buffer of length `len`. */
  predicate InRange(slots: seq<int>, len: int)
  {
    forall i :: 0 <= i < |slots| ==> 0 <= slots[i] < len
  }

  /** Source and destination slot lists pair up and address the two buffers. */
  predicate Fits(ys: seq<int>, xs: seq<int>, from: seq<int>, to: seq<int>)
  {
    |from| == |to| && InRange(from, |xs|) && InRange(to, |ys|)
  }

  /** The destination after the first `k` iterations of the scatter loop. */
  function ScatterPrefix(ys: seq<int>, xs: seq<int>, from: seq<int>, to: seq<int>,
                         addv: InsertMode, k: nat): (r: seq<int>)
    requires Fits(ys, xs, from, to) && k <= |to|
    ensures |r| == |ys|
    decreases k
  {
    if k == 0 then ys
    else
      var p := ScatterPrefix(ys, xs, from, to, addv, k - 1);
      var t := to[k - 1];
      p[t := if addv == InsertValues then xs[from[k - 1]] else p[t] + xs[from[k - 1]]]
  }

  /** The destination after the whole scatter loop. */
  function Scatter(ys: seq<int>, xs: seq<int>, from: seq<int>, to: seq<int>,
                   addv: InsertMode): (r: seq<int>)
    requires Fits(ys, xs, from, to)
  {
    ScatterPrefix(ys, xs, from, to, addv, |to|)
  }

  /** The last of the first `k` iterations that writes slot `t`, or -1 if none does. */
  function LastWriter(to: seq<int>, t: int, k: nat): (r: int)
    requires k <= |to|
    ensures -1 <= r < k
    ensures r >= 0 ==> to[r] == t
    ensures forall j :: r < j < k ==> to[j] != t
  {
    if k == 0 then -1
    else if to[k - 1] == t then k - 1
    else LastWriter(to, t, k - 1)
  }

  /** The sum of the source values that the first `k` iterations add into slot `t`. */
  function Delta(xs: seq<int>, from: seq<int>, to: seq<int>, t: int, k: nat): int
    requires |from| == |to| && InRange(from, |xs|) && k <= |to|
  {
    if k == 0 then 0
    else Delta(xs, from, to, t, k - 1) + (if to[k - 1] == t then xs[from[k - 1]] else 0)
  }

  /** Under INSERT_VALUES slot `t` holds the value of its last writer, or its old value. */
  lemma {:induction false} InsertSlot(ys: seq<int>, xs: seq<int>, from: seq<int>, to: seq<int>,
                                      k: nat, t: int)
    requires Fits(ys, xs, from, to) && k <= |to| && 0 <= t < |ys|
    ensures var w := LastWriter(to, t, k);
            ScatterPrefix(ys, xs, from, to, InsertValues, k)[t] == if w < 0 then ys[t] else xs[from[w]]
  {
    if k > 0 {
      InsertSlot(ys, xs, from, to, k - 1, t);
    }
  }

  /** Under ADD_VALUES slot `t` grows by the sum of everything scattered into it. */
  lemma {:induction false} AddSlot(ys: seq<int>, xs: seq<int>, from: seq<int>, to: seq<int>,
                                   k: nat, t: int)
    requires Fits(ys, xs, from, to) && k <= |to| && 0 <= t < |ys|
    ensures ScatterPrefix(ys, xs, from, to, AddValues, k)[t] == ys[t] + Delta(xs, from, to, t, k)
  {
    if k > 0 {
      AddSlot(ys, xs, from, to, k - 1, t);
    }
  }

  /** INSERT_VALUES: iteration `i` wins its slot when no later iteration writes the same slot. */
  lemma InsertLastWins(ys: seq<int>, xs: seq<int>, from: seq<int>, to: seq<int>, i: int)
    requires Fits(ys, xs, from, to) && 0 <= i < |to|
    requires forall j :: i < j < |to| ==> to[j] != to[i]
    ensures Scatter(ys, xs, from, to, InsertValues)[to[i]] == xs[from[i]]
  {
    InsertSlot(ys, xs, from, to, |to|, to[i]);
    var w := LastWriter(to, to[i], |to|);
    assert w == i;
  }

  /** When the destination slots are pairwise distinct, every pair `(from[i], to[i])` is copied. */
  lemma InsertDistinctCopiesAll(ys: seq<int>, xs: seq<int>, from: seq<int>, to: seq<int>)
    requires Fits(ys, xs, from, to)
    requires forall i, j :: 0 <= i < j < |to| ==> to[i] != to[j]
    ensures forall i :: 0 <= i < |to| ==> Scatter(ys, xs, from, to, InsertValues)[to[i]] == xs[from[i]]
  {
    forall i | 0 <= i < |to|
      ensures Scatter(ys, xs, from, to, InsertValues)[to[i]] == xs[from[i]]
    {
      InsertLastWins(ys, xs, from, to, i);
    }
  }

  /** In either mode a slot that no iteration names keeps its old value. */
  lemma UntouchedSlotsKept(ys: seq<int>, xs: seq<int>, from: seq<int>, to: seq<int>,
                           addv: InsertMode, t: int)
    requires Fits(ys, xs, from, to) && 0 <= t < |ys| && t !in to
    ensures Scatter(ys, xs, from, to, addv)[t] == ys[t]
  {
    if addv == InsertValues {
      InsertSlot(ys, xs, from, to, |to|, t);
    } else {
      AddSlot(ys, xs, from, to, |to|, t);
      DeltaOfUntouched(xs, from, to, t, |to|);
    }
  }

  lemma {:induction false} DeltaOfUntouched(xs: seq<int>, from: seq<int>, to: seq<int>, t: int, k: nat)
    requires |from| == |to| && InRange(from, |xs|) && k <= |to|
    requires forall j :: 0 <= j < k ==> to[j] != t
    ensures Delta(xs, from, to, t, k) == 0
  {
    if k > 0 {
      DeltaOfUntouched(xs, from, to, t, k - 1);
    }
  }

  /** INSERT_VALUES is idempotent: scattering again with unchanged source changes nothing. */
  lemma InsertIdempotent(ys: seq<int>, xs: seq<int>, from: seq<int>, to: seq<int>)
    requires Fits(ys, xs, from, to)
    ensures var once := Scatter(ys, xs, from, to, InsertValues);
            Fits(once, xs, from, to) && Scatter(once, xs, from, to, InsertValues) == once
  {
    var once := Scatter(ys, xs, from, to, InsertValues);
    var twice := Scatter(once, xs, from, to, InsertValues);
    forall t | 0 <= t < |ys|
      ensures twice[t] == once[t]
    {
      InsertSlot(ys, xs, from, to, |to|, t);
      InsertSlot(once, xs, from, to, |to|, t);
    }
  }

  /** ADD_VALUES scattered twice with unchanged source adds the delta twice. */
  lemma AddTwice(ys: seq<int>, xs: seq<int>, from: seq<int>, to: seq<int>, t: int)
    requires Fits(ys, xs, from, to) && 0 <= t < |ys|
    ensures var once := Scatter(ys, xs, from, to, AddValues);
            Fits(once, xs, from, to) &&
            Scatter(once, xs, from, to, AddValues)[t] == ys[t] + 2 * Delta(xs, from, to, t, |to|)
  {
    var once := Scatter(ys, xs, from, to, AddValues);
    AddSlot(ys, xs, from, to, |to|, t);
    AddSlot(once, xs, from, to, |to|, t);
  }

  /** The loop reads the source only at `from[i]`: two runs that read the same values agree. */
  lemma {:induction false} SameReadsSameResult(ys: seq<int>, xs1: seq<int>, from1: seq<int>,
                                               xs2: seq<int>, from2: seq<int>, to: seq<int>,
                                               addv: InsertMode, k: nat)
    requires Fits(ys, xs1, from1, to) && Fits(ys, xs2, from2, to) && k <= |to|
    requires forall i :: 0 <= i < k ==> xs1[from1[i]] == xs2[from2[i]]
    ensures ScatterPrefix(ys, xs1, from1, to, addv, k) == ScatterPrefix(ys, xs2, from2, to, addv, k)
  {
    if k > 0 {
      SameReadsSameResult(ys, xs1, from1, xs2, from2, to, addv, k - 1);
    }
  }

  /** Every slot moved down by `offset`. */
  function Shifted(slots: seq<int>, offset: int): (r: seq<int>)
    ensures |r| == |slots|
    ensures forall i :: 0 <= i < |slots| ==> r[i] + offset == slots[i]
  {
    seq(|slots|, i requires 0 <= i < |slots| => slots[i] - offset)
  }

  /** A stride with a shifted first slot is the shifted stride. */
  lemma StrideShift(first: int, step: int, n: nat, offset: int)
    ensures StrideSlots(first - offset, step, n) == Shifted(StrideSlots(first, step, n), offset)
  {
  }

  /** Reading a window `xs[s..e]` at shifted slots is reading `xs` at the original slots. */
  lemma ReadThroughWindow(ys: seq<int>, xs: seq<int>, from: seq<int>, to: seq<int>,
                          addv: InsertMode, s: int, e: int)
    requires 0 <= s <= e <= |xs|
    requires |from| == |to| && InRange(to, |ys|)
    requires forall i :: 0 <= i < |from| ==> s <= from[i] < e
    ensures Fits(ys, xs[s..e], Shifted(from, s), to) && Fits(ys, xs, from, to)
    ensures Scatter(ys, xs[s..e], Shifted(from, s), to, addv) == Scatter(ys, xs, from, to, addv)
  {
    var local := Shifted(from, s);
    assert forall i :: 0 <= i < |from| ==> xs[s..e][local[i]] == xs[from[i]];
    SameReadsSameResult(ys, xs[s..e], local, xs, from, to, addv, |to|);
  }

  /** Writing a window `ys[s..e]` at shifted slots is writing `ys` at the original slots and
      then looking at the window; outside the window nothing is written. */
  lemma {:induction false} WriteThroughWindow(ys: seq<int>, xs: seq<int>, from: seq<int>, to: seq<int>,
                                              addv: InsertMode, s: int, e: int, k: nat)
    requires 0 <= s <= e <= |ys|
    requires |from| == |to| && InRange(from, |xs|) && k <= |to|
    requires forall i :: 0 <= i < |to| ==> s <= to[i] < e
    ensures Fits(ys[s..e], xs, from, Shifted(to, s)) && Fits(ys, xs, from, to)
    ensures var whole := ScatterPrefix(ys, xs, from, to, addv, k);
            ScatterPrefix(ys[s..e], xs, from, Shifted(to, s), addv, k) == whole[s..e] &&
            whole[..s] == ys[..s] && whole[e..] == ys[e..]
  {
    if k > 0 {
      WriteThroughWindow(ys, xs, from, to, addv, s, e, k - 1);
    }
  }

  /** With unit steps on both sides, INSERT_VALUES is one contiguous block copy (a memcpy);
      with n = 0 it changes nothing. */
  lemma UnitStrideIsBlockCopy(ys: seq<int>, xs: seq<int>, fromFirst: int, toFirst: int, n: nat)
    requires 0 <= fromFirst && fromFirst + n <= |xs|
    requires 0 <= toFirst && toFirst + n <= |ys|
    ensures Fits(ys, xs, StrideSlots(fromFirst, 1, n), StrideSlots(toFirst, 1, n))
    ensures Scatter(ys, xs, StrideSlots(fromFirst, 1, n), StrideSlots(toFirst, 1, n), InsertValues)
            == ys[..toFirst] + xs[fromFirst..fromFirst + n] + ys[toFirst + n..]
  {
    var from, to := StrideSlots(fromFirst, 1, n), StrideSlots(toFirst, 1, n);
    var r := Scatter(ys, xs, from, to, InsertValues);
    var block := ys[..toFirst] + xs[fromFirst..fromFirst + n] + ys[toFirst + n..];
    forall t | 0 <= t < |ys|
      ensures r[t] == block[t]
    {
      if toFirst <= t < toFirst + n {
        InsertLastWins(ys, xs, from, to, t - toFirst);
      } else {
        UntouchedSlotsKept(ys, xs, from, to, InsertValues, t);
      }
    }
  }

  /** The worked example: x = [10,20,30,40], from = [1,3], to = [0,4], y = [0,0,0,0,0]. */
  lemma GeneralScatterExample()
    ensures Scatter([0, 0, 0, 0, 0], [10, 20, 30, 40], [1, 3], [0, 4], InsertValues)
            == [20, 0, 0, 0, 40]
  {
    var ys, xs, from, to := [0, 0, 0, 0, 0], [10, 20, 30, 40], [1, 3], [0, 4];
    assert ScatterPrefix(ys, xs, from, to, InsertValues, 1) == [20, 0, 0, 0, 0];
  }
}
