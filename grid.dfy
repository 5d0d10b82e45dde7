/**
  Grids of cell values as numpy handles them in the yearly stack script. A
  grid is flattened to a sequence of cells; a cell is None where numpy holds
  NaN (land, or no data). The running statistics use np.nansum over a stack
  of two grids (a missing value counts as 0, and a cell missing in both gives
  0), np.fmin and np.fmax (a missing value is ignored unless both are
  missing), and plain subtraction and division (NaN propagates).
 */
module Grid {
  import opened Text

  type Cell = Option<real>
  type Field = seq<Cell>

  /** np.full(shape, np.nan), flattened. */
  function MissingField(n: nat): (f: Field)
    ensures |f| == n && forall i :: 0 <= i < n ==> f[i] == None
  {
    seq(n, i => None)
  }

  function ValueOrZero(c: Cell): real {
    if c.Some? then c.value else 0.0
  }

  /** The per-cell refractive index: the formula where both inputs are present, NaN otherwise. */
  function RiCell(formula: (real, real) -> real, s: Cell, t: Cell): Cell {
    if s.Some? && t.Some? then Some(formula(s.value, t.value)) else None
  }

  /** The formula applied elementwise to a salinity grid and a temperature grid. */
  function RiField(formula: (real, real) -> real, so: Field, to: Field): (r: Field)
    requires |so| == |to|
    ensures |r| == |so|
    ensures forall i :: 0 <= i < |r| ==> (r[i] == None <==> so[i] == None || to[i] == None)
    ensures forall i :: 0 <= i < |r| && r[i].Some? ==> r[i].value == formula(so[i].value, to[i].value)
  {
    seq(|so|, i requires 0 <= i < |so| => RiCell(formula, so[i], to[i]))
  }

  function NanSumCell(a: Cell, b: Cell): Cell {
    Some(ValueOrZero(a) + ValueOrZero(b))
  }

  function FMinCell(a: Cell, b: Cell): (r: Cell)
    ensures r == a || r == b
    ensures r == None <==> a == None && b == None
    ensures r.Some? && a.Some? ==> r.value <= a.value
    ensures r.Some? && b.Some? ==> r.value <= b.value
  {
    if a == None then b
    else if b == None then a
    else if b.value < a.value then b
    else a
  }

  function FMaxCell(a: Cell, b: Cell): (r: Cell)
    ensures r == a || r == b
    ensures r == None <==> a == None && b == None
    ensures r.Some? && a.Some? ==> a.value <= r.value
    ensures r.Some? && b.Some? ==> b.value <= r.value
  {
    if a == None then b
    else if b == None then a
    else if b.value > a.value then b
    else a
  }

  function DiffCell(a: Cell, b: Cell): Cell {
    if a.Some? && b.Some? then Some(a.value - b.value) else None
  }

  function DivCell(a: Cell, d: real): Cell
    requires d != 0.0
  {
    if a.Some? then Some(a.value / d) else None
  }

  /** np.nansum(np.dstack((a, b)), 2). */
  function NanSum(a: Field, b: Field): (r: Field)
    requires |a| == |b|
    ensures |r| == |a| && forall i :: 0 <= i < |r| ==> r[i] == NanSumCell(a[i], b[i])
  {
    seq(|a|, i requires 0 <= i < |a| => NanSumCell(a[i], b[i]))
  }

  /** np.fmin(a, b). */
  function FMin(a: Field, b: Field): (r: Field)
    requires |a| == |b|
    ensures |r| == |a| && forall i :: 0 <= i < |r| ==> r[i] == FMinCell(a[i], b[i])
  {
    seq(|a|, i requires 0 <= i < |a| => FMinCell(a[i], b[i]))
  }

  /** np.fmax(a, b). */
  function FMax(a: Field, b: Field): (r: Field)
    requires |a| == |b|
    ensures |r| == |a| && forall i :: 0 <= i < |r| ==> r[i] == FMaxCell(a[i], b[i])
  {
    seq(|a|, i requires 0 <= i < |a| => FMaxCell(a[i], b[i]))
  }

  /** a - b. */
  function Diff(a: Field, b: Field): (r: Field)
    requires |a| == |b|
    ensures |r| == |a| && forall i :: 0 <= i < |r| ==> r[i] == DiffCell(a[i], b[i])
  {
    seq(|a|, i requires 0 <= i < |a| => DiffCell(a[i], b[i]))
  }

  /** a / d. */
  function Div(a: Field, d: real): (r: Field)
    requires d != 0.0
    ensures |r| == |a| && forall i :: 0 <= i < |r| ==> r[i] == DivCell(a[i], d)
  {
    seq(|a|, i requires 0 <= i < |a| => DivCell(a[i], d))
  }

  predicate SameWidth(fs: seq<Field>, w: nat) {
    forall j :: 0 <= j < |fs| ==> |fs[j]| == w
  }

  /** The running sum, minimum and maximum grids of a year. */
  datatype Acc = Acc(sum: Field, lo: Field, hi: Field)

  predicate AccWidth(a: Acc, w: nat) {
    |a.sum| == w && |a.lo| == w && |a.hi| == w
  }

  /** Folds one more grid into the accumulators (every slice after the first). */
  function Fold(a: Acc, x: Field): (r: Acc)
    requires AccWidth(a, |x|)
    ensures AccWidth(r, |x|)
  {
    Acc(NanSum(a.sum, x), FMin(a.lo, x), FMax(a.hi, x))
  }

  /** The accumulators after the grids fs: the first sets all three, the rest are folded in. */
  function Accumulate(fs: seq<Field>): (a: Acc)
    requires |fs| >= 1 && SameWidth(fs, |fs[0]|)
    ensures AccWidth(a, |fs[0]|)
  {
    if |fs| == 1 then Acc(fs[0], fs[0], fs[0])
    else Fold(Accumulate(fs[..|fs| - 1]), fs[|fs| - 1])
  }

  /** Every present value lies between the running minimum and maximum, which are then present. */
  lemma {:induction false} AccumulateBounds(fs: seq<Field>, j: nat, i: nat)
    requires |fs| >= 1 && SameWidth(fs, |fs[0]|)
    requires j < |fs| && i < |fs[0]| && fs[j][i].Some?
    ensures var a := Accumulate(fs);
      a.lo[i].Some? && a.hi[i].Some? && a.lo[i].value <= fs[j][i].value <= a.hi[i].value
  {
    if |fs| > 1 && j < |fs| - 1 {
      AccumulateBounds(fs[..|fs| - 1], j, i);
    }
  }

  /** The running minimum and maximum are missing exactly where every grid so far is missing. */
  lemma {:induction false} AccumulateMissing(fs: seq<Field>, i: nat)
    requires |fs| >= 1 && SameWidth(fs, |fs[0]|) && i < |fs[0]|
    ensures var a := Accumulate(fs);
      (a.lo[i] == None <==> forall j :: 0 <= j < |fs| ==> fs[j][i] == None)
      && (a.hi[i] == None <==> forall j :: 0 <= j < |fs| ==> fs[j][i] == None)
  {
    if |fs| > 1 {
      AccumulateMissing(fs[..|fs| - 1], i);
      var p := fs[..|fs| - 1];
      assert forall j :: 0 <= j < |p| ==> p[j] == fs[j];
    }
  }

  /** The running minimum and maximum are values some grid actually holds. */
  lemma {:induction false} AccumulateAttained(fs: seq<Field>, i: nat)
    requires |fs| >= 1 && SameWidth(fs, |fs[0]|) && i < |fs[0]|
    ensures var a := Accumulate(fs);
      (a.lo[i].Some? ==> exists j :: 0 <= j < |fs| && fs[j][i] == a.lo[i])
      && (a.hi[i].Some? ==> exists j :: 0 <= j < |fs| && fs[j][i] == a.hi[i])
  {
    if |fs| > 1 {
      var p := fs[..|fs| - 1];
      AccumulateAttained(p, i);
      var a := Accumulate(fs);
      var b := Accumulate(p);
      var n := |fs| - 1;
      if a.lo[i].Some? {
        if a.lo[i] == fs[n][i] {
        } else {
          assert a.lo[i] == b.lo[i];
          var j :| 0 <= j < |p| && p[j][i] == b.lo[i];
          assert fs[j][i] == a.lo[i];
        }
      }
      if a.hi[i].Some? {
        if a.hi[i] == fs[n][i] {
        } else {
          assert a.hi[i] == b.hi[i];
          var j :| 0 <= j < |p| && p[j][i] == b.hi[i];
          assert fs[j][i] == a.hi[i];
        }
      }
    }
  }

  /** The range grid (max - min) is never negative where it is present. */
  lemma RangeNonNegative(fs: seq<Field>, i: nat)
    requires |fs| >= 1 && SameWidth(fs, |fs[0]|) && i < |fs[0]|
    ensures var a := Accumulate(fs); var r := Diff(a.hi, a.lo);
      r[i].Some? ==> r[i].value >= 0.0
  {
    var a := Accumulate(fs);
    AccumulateAttained(fs, i);
    if a.lo[i].Some? {
      var j :| 0 <= j < |fs| && fs[j][i] == a.lo[i];
      AccumulateBounds(fs, j, i);
    }
  }

  /** The sum of the present values of cell i over the grids fs, a missing value counting 0. */
  function ColumnSum(fs: seq<Field>, i: nat): real
    requires forall j :: 0 <= j < |fs| ==> i < |fs[j]|
  {
    if fs == [] then 0.0 else ColumnSum(fs[..|fs| - 1], i) + ValueOrZero(fs[|fs| - 1][i])
  }

  /**
    After one grid the running sum is that grid, missing cells included; from
    the second grid on every cell of it is present and holds the sum of the
    present values.
   */
  lemma {:induction false} AccumulateSum(fs: seq<Field>, i: nat)
    requires |fs| >= 1 && SameWidth(fs, |fs[0]|) && i < |fs[0]|
    ensures |fs| == 1 ==> Accumulate(fs).sum[i] == fs[0][i]
    ensures |fs| >= 2 ==> Accumulate(fs).sum[i] == Some(ColumnSum(fs, i))
  {
    if |fs| >= 2 {
      var p := fs[..|fs| - 1];
      AccumulateSum(p, i);
      if |fs| == 2 {
        assert p[..0] == [];
        assert ColumnSum(p, i) == ValueOrZero(fs[0][i]);
      }
    }
  }
}
