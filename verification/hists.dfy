/** The value buffer of a histogram: an append buffer that grows by a fixed
    chunk when full, the running x-limits kept while values are added, and the
    reset, bin-count and limit setters.  A histogram opened on a null window
    ignores every call. */
module DrawHistogram {

  /** Capacity is allocated in chunks of this many values. */
  const ChunkSize: nat := 100

  /** Sentinels for "no lower limit yet" and "no upper limit yet". */
  const PetscMax: real := 1.0e300
  const PetscMin: real := -1.0e300

  /** The colour index of green in the drawing layer's colour table. */
  const DrawGreen: int := 3

  function Min(a: real, b: real): real
  {
    if a <= b then a else b
  }

  /** The smallest value of a non-empty sequence. */
  function SeqMin(s: seq<real>): (r: real)
    requires |s| > 0
    ensures forall i :: 0 <= i < |s| ==> r <= s[i]
    ensures exists i :: 0 <= i < |s| && r == s[i]
  {
    if |s| == 1 then s[0]
    else
      var m := SeqMin(s[..|s| - 1]);
      assert forall i :: 0 <= i < |s| - 1 ==> s[..|s| - 1][i] == s[i];
      Min(m, s[|s| - 1])
  }

  /** Appending a value lowers the minimum to that value or keeps it. */
  lemma SeqMinAppend(s: seq<real>, v: real)
    requires |s| > 0
    ensures SeqMin(s + [v]) == Min(SeqMin(s), v)
  {
    assert (s + [v])[..|s|] == s;
  }

  /** How far the upper limit is pushed past a new largest value: a thousandth
      of `span` per bin.  With zero bins there is no overshoot. */
  function Overshoot(span: real, numBins: int): real
  {
    if numBins == 0 then 0.0 else 0.001 * span / (numBins as real)
  }

  lemma OvershootNonNegative(span: real, numBins: int)
    requires span >= 0.0 && numBins > 0
    ensures Overshoot(span, numBins) >= 0.0
  {
    var q := 0.001 * span;
    assert q >= 0.0;
    assert q / (numBins as real) >= 0.0;
  }

  /** The limits (xmin, xmax) after adding `value` to a histogram holding
      `count` values with limits (xmin, xmax). */
  function NextLimits(count: nat, xmin: real, xmax: real, numBins: int, value: real): (r: (real, real))
    ensures r.0 == if count == 0 then value else Min(xmin, value)
    ensures count == 0 ==> r.1 == value
    ensures count > 0 && xmin <= value <= xmax ==> r.1 == xmax
  {
    if count == 0 then (value, value)
    else if count == 1 then
      var hi := if value > xmax then value + Overshoot(value - xmin, numBins) else xmax;
      if value < xmin then (value, hi + Overshoot(hi - value, numBins)) else (xmin, hi)
    else
      var hi := if value > xmax then value + Overshoot(xmax - xmin, numBins) else xmax;
      (if value < xmin then value else xmin, hi)
  }

  /** With a positive bin count and ordered limits, the new limits stay ordered,
      widen the old ones, and take in the new value. */
  lemma NextLimitsCoverValue(count: nat, xmin: real, xmax: real, numBins: int, value: real)
    requires numBins > 0 && (count == 0 || xmin <= xmax)
    ensures var r := NextLimits(count, xmin, xmax, numBins, value);
            r.0 <= value <= r.1 && (count > 0 ==> r.0 <= xmin && xmax <= r.1)
  {
    if count > 0 && value > xmax {
      if count == 1 {
        OvershootNonNegative(value - xmin, numBins);
      } else {
        OvershootNonNegative(xmax - xmin, numBins);
      }
    }
  }

  class DrawHist {
    /** Opened on a null window: every setter is a no-op. */
    const nullWindow: bool
    var xmin: real
    var xmax: real
    var ymin: real
    var ymax: real
    var numBins: int
    var numValues: nat
    var maxValues: nat
    var values: array<real>
    var color: int
    /** No explicit limits were set since the values were last cleared. */
    ghost var limitsFromData: bool

    ghost predicate Valid()
      reads this, values
    {
      numValues <= maxValues && maxValues == values.Length &&
      (!nullWindow ==> maxValues >= ChunkSize && maxValues % ChunkSize == 0) &&
      (nullWindow ==> numValues == 0) &&
      (limitsFromData && numValues > 0 ==> xmin == SeqMin(values[..numValues]))
    }

    /** The values added since creation or the last reset, in order. */
    ghost function Values(): seq<real>
      reads this, values
      requires Valid()
    {
      values[..numValues]
    }

    constructor (nullWindow: bool, bins: int)
      ensures Valid() && fresh(values)
      ensures this.nullWindow == nullWindow
      ensures !nullWindow ==> numValues == 0 && maxValues == ChunkSize && numBins == bins
      ensures !nullWindow ==> xmin == PetscMax && xmax == PetscMin && ymin == 0.0 && ymax == 1.0
      ensures !nullWindow ==> color == DrawGreen && limitsFromData
      ensures Values() == []
    {
      this.nullWindow := nullWindow;
      if nullWindow {
        values := new real[0];
        numValues, maxValues := 0, 0;
        xmin, xmax, ymin, ymax := 0.0, 0.0, 0.0, 0.0;
        numBins, color := 0, 0;
        limitsFromData := true;
      } else {
        color := DrawGreen;
        xmin, xmax := PetscMax, PetscMin;
        ymin, ymax := 0.0, 1.0;
        numBins := bins;
        numValues := 0;
        maxValues := ChunkSize;
        values := new real[ChunkSize];
        limitsFromData := true;
      }
    }

    /** Changes the number of bins; nothing happens when it is already `bins`. */
    method SetNumberBins(bins: int)
      requires Valid()
      modifies this`numBins
      ensures Valid()
      ensures numBins == if nullWindow then old(numBins) else bins
    {
      if nullWindow {
        return;
      }
      if numBins == bins {
        return;
      }
      numBins := bins;
    }

    /** Clears the values for reuse, keeping the capacity and the bin count. */
    method Reset()
      requires Valid()
      modifies this`xmin, this`xmax, this`ymin, this`ymax, this`numValues, this`limitsFromData
      ensures Valid()
      ensures nullWindow ==> unchanged(this)
      ensures !nullWindow ==> numValues == 0 && Values() == [] && limitsFromData
      ensures !nullWindow ==> xmin == PetscMax && xmax == PetscMin && ymin == 0.0 && ymax == 0.0
    {
      if nullWindow {
        return;
      }
      xmin, xmax := PetscMax, PetscMin;
      ymin, ymax := 0.0, 0.0;
      numValues := 0;
      limitsFromData := true;
    }

    /** Appends a value, growing the storage by one chunk when it is full, and
        updates the x-limits. */
    method AddValue(value: real)
      requires Valid()
      modifies this`values, this`maxValues, this`xmin, this`xmax, this`numValues
      modifies this`limitsFromData, values
      ensures Valid()
      ensures nullWindow ==> unchanged(this) && unchanged(values)
      ensures !nullWindow ==> Values() == old(Values()) + [value]
      ensures !nullWindow ==>
                if old(numValues) >= old(maxValues)
                then fresh(values) && maxValues == old(maxValues) + ChunkSize
                else values == old(values) && maxValues == old(maxValues)
      ensures !nullWindow ==>
                (xmin, xmax) == NextLimits(old(numValues), old(xmin), old(xmax), numBins, value)
      ensures !nullWindow ==> limitsFromData == (old(limitsFromData) || old(numValues) == 0)
    {
      if nullWindow {
        return;
      }
      ghost var before := values[..numValues];
      ghost var wasEmpty := numValues == 0;
      if numValues >= maxValues {
        Grow();
      }
      assert values[..numValues] == before;
      UpdateLimits(value);
      values[numValues] := value;
      numValues := numValues + 1;
      assert values[..numValues] == before + [value];
      limitsFromData := limitsFromData || wasEmpty;
      if !wasEmpty && limitsFromData {
        SeqMinAppend(before, value);
        assert xmin == SeqMin(values[..numValues]);
      }
    }

    /** Moves the values into storage one chunk larger. */
    method Grow()
      requires Valid() && !nullWindow
      modifies this`values, this`maxValues
      ensures fresh(values) && maxValues == old(maxValues) + ChunkSize
      ensures numValues <= maxValues == values.Length
      ensures maxValues >= ChunkSize && maxValues % ChunkSize == 0
      ensures values[..numValues] == old(values[..numValues])
    {
      var tmp := new real[maxValues + ChunkSize];
      forall k | 0 <= k < maxValues {
        tmp[k] := values[k];
      }
      values := tmp;
      maxValues := maxValues + ChunkSize;
    }

    /** The x-limit update for a new value, before it is stored. */
    method UpdateLimits(value: real)
      modifies this`xmin, this`xmax
      ensures (xmin, xmax) == NextLimits(numValues, old(xmin), old(xmax), numBins, value)
    {
      if numValues == 0 {
        xmin := value;
        xmax := value;
      } else if numValues == 1 {
        if value > xmax {
          xmax := value + Overshoot(value - xmin, numBins);
        }
        if value < xmin {
          xmin := value;
          xmax := xmax + Overshoot(xmax - xmin, numBins);
        }
      } else {
        if value > xmax {
          xmax := value + Overshoot(xmax - xmin, numBins);
        }
        if value < xmin {
          xmin := value;
        }
      }
    }

    /** Sets the axis limits explicitly; later values still widen them. */
    method SetLimits(xMin: real, xMax: real, yMin: int, yMax: int)
      requires Valid()
      modifies this`xmin, this`xmax, this`ymin, this`ymax, this`limitsFromData
      ensures Valid()
      ensures nullWindow ==> unchanged(this)
      ensures !nullWindow ==> xmin == xMin && xmax == xMax && ymin == yMin as real && ymax == yMax as real
    {
      if nullWindow {
        return;
      }
      xmin, xmax := xMin, xMax;
      ymin, ymax := yMin as real, yMax as real;
      limitsFromData := false;
    }

    /** Sets the colour the bars are drawn with. */
    method SetColor(c: int)
      requires Valid()
      modifies this`color
      ensures Valid()
      ensures color == if nullWindow then old(color) else c
    {
      if nullWindow {
        return;
      }
      color := c;
    }
  }
}
