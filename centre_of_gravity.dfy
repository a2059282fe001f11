/**
  Centre-of-gravity routines of the wavefront sensor: the intensity-weighted
  mean row and column of a 2-D array of pixel values, reported relative to a
  fixed centre offset.

  The source accumulates three sums in nested loops and divides two of them
  by the third without a guard; here the division is taken only when the
  total is nonzero, and `None` stands for the NaN or infinity that `f32`
  arithmetic produces otherwise.
*/
module CentreOfGravity {
  import opened Wrappers

  /** A 2-D array of pixel values, row by row. */
  type Grid = seq<seq<real>>

  /** The shape of an `Array2`: every row has the same number of columns. */
  predicate Rectangular(g: Grid) {
    forall i :: 0 <= i < |g| ==> |g[i]| == |g[0]|
  }

  function Cols(g: Grid): nat {
    if |g| == 0 then 0 else |g[0]|
  }

  // ---------------------------------------------------------------------
  // Reference sums, defined by recursion on prefixes (the order in which
  // the loops visit the pixels). Without a threshold every pixel enters
  // the sums; with one, only the pixels strictly above it.
  // ---------------------------------------------------------------------

  predicate Kept(v: real, threshold: Option<real>) {
    threshold.None? || v > threshold.value
  }

  /** Sum of the kept values of one row. */
  function RowSum(r: seq<real>, threshold: Option<real>): real {
    if |r| == 0 then 0.0
    else RowSum(r[..|r| - 1], threshold) + (if Kept(r[|r| - 1], threshold) then r[|r| - 1] else 0.0)
  }

  /** Sum over the kept values of one row of value times a fixed weight `w`
      (the row's index). */
  function RowWeighted(r: seq<real>, w: real, threshold: Option<real>): real {
    if |r| == 0 then 0.0
    else RowWeighted(r[..|r| - 1], w, threshold) + (if Kept(r[|r| - 1], threshold) then r[|r| - 1] * w else 0.0)
  }

  /** Sum over the kept values of one row of value times column index. */
  function RowColMoment(r: seq<real>, threshold: Option<real>): real {
    if |r| == 0 then 0.0
    else RowColMoment(r[..|r| - 1], threshold)
         + (if Kept(r[|r| - 1], threshold) then r[|r| - 1] * (|r| - 1) as real else 0.0)
  }

  /** Sum of all kept values. */
  function Total(g: Grid, threshold: Option<real>): real {
    if |g| == 0 then 0.0 else Total(g[..|g| - 1], threshold) + RowSum(g[|g| - 1], threshold)
  }

  /** Sum over all kept pixels of value times row index. */
  function RowMoment(g: Grid, threshold: Option<real>): real {
    if |g| == 0 then 0.0
    else RowMoment(g[..|g| - 1], threshold) + RowWeighted(g[|g| - 1], (|g| - 1) as real, threshold)
  }

  /** Sum over all kept pixels of value times column index. */
  function ColMoment(g: Grid, threshold: Option<real>): real {
    if |g| == 0 then 0.0 else ColMoment(g[..|g| - 1], threshold) + RowColMoment(g[|g| - 1], threshold)
  }

  /** One more kept pixel `v` of a row: how the inner loop extends each row sum. */
  lemma {:induction false} RowStepKept(r: seq<real>, j: nat, v: real, w: real, threshold: Option<real>)
    requires j < |r| && r[j] == v && Kept(v, threshold)
    ensures RowSum(r[..j + 1], threshold) == RowSum(r[..j], threshold) + v
    ensures RowWeighted(r[..j + 1], w, threshold) == RowWeighted(r[..j], w, threshold) + v * w
    ensures RowColMoment(r[..j + 1], threshold) == RowColMoment(r[..j], threshold) + v * j as real
  {
    assert r[..j + 1][..j] == r[..j];
  }

  /** One more skipped pixel of a row leaves each row sum as it was. */
  lemma {:induction false} RowStepSkipped(r: seq<real>, j: nat, w: real, threshold: Option<real>)
    requires j < |r| && !Kept(r[j], threshold)
    ensures RowSum(r[..j + 1], threshold) == RowSum(r[..j], threshold)
    ensures RowWeighted(r[..j + 1], w, threshold) == RowWeighted(r[..j], w, threshold)
    ensures RowColMoment(r[..j + 1], threshold) == RowColMoment(r[..j], threshold)
  {
    assert r[..j + 1][..j] == r[..j];
  }

  /** One more row of a grid: how the outer loop extends each grid sum. */
  lemma {:induction false} GridStep(g: Grid, i: nat, threshold: Option<real>)
    requires i < |g|
    ensures Total(g[..i + 1], threshold) == Total(g[..i], threshold) + RowSum(g[i], threshold)
    ensures RowMoment(g[..i + 1], threshold) == RowMoment(g[..i], threshold) + RowWeighted(g[i], i as real, threshold)
    ensures ColMoment(g[..i + 1], threshold) == ColMoment(g[..i], threshold) + RowColMoment(g[i], threshold)
  {
    assert g[..i + 1][..i] == g[..i];
  }

  /** The final expression of both routines: the two means `x / total`
      and `y / total`, each shifted by half the number of ROWS less one
      half (the column mean too uses the row count); `None` when `total`
      is zero. */
  function Offset(x: real, y: real, total: real, nRows: nat): Option<(real, real)> {
    if total == 0.0 then None
    else Some((x / total - nRows as real / 2.0 + 0.5, y / total - nRows as real / 2.0 + 0.5))
  }

  /** The centre of gravity of the kept pixels of `g`. */
  function Centroid(g: Grid, threshold: Option<real>): Option<(real, real)> {
    Offset(RowMoment(g, threshold), ColMoment(g, threshold), Total(g, threshold), |g|)
  }

  /** What `simple_centre_of_gravity` computes. */
  function Cog(g: Grid): Option<(real, real)> {
    Centroid(g, None)
  }

  /** What `threshold_centre_of_gravity` computes. */
  function ThresholdCog(g: Grid, threshold: real): Option<(real, real)> {
    Centroid(g, Some(threshold))
  }

  /** Row `r` with every pixel at or below `threshold` replaced by zero. */
  function MaskRow(r: seq<real>, threshold: real): (m: seq<real>)
    ensures |m| == |r|
    ensures forall j :: 0 <= j < |r| ==> m[j] == if r[j] > threshold then r[j] else 0.0
  {
    seq(|r|, j requires 0 <= j < |r| => if r[j] > threshold then r[j] else 0.0)
  }

  /** `g` with every pixel at or below `threshold` replaced by zero. */
  function Mask(g: Grid, threshold: real): (m: Grid)
    ensures |m| == |g|
    ensures forall i :: 0 <= i < |g| ==> m[i] == MaskRow(g[i], threshold)
  {
    seq(|g|, i requires 0 <= i < |g| => MaskRow(g[i], threshold))
  }

  // ---------------------------------------------------------------------
  // The two routines, as the nested accumulation loops of the source.
  // ---------------------------------------------------------------------

  /** The inner loop of both routines: adds the kept pixels of row `i`
      to the running sums `x` (value times row), `y` (value times column)
      and `total`. */
  method AccumulateRow(row: seq<real>, i: nat, threshold: Option<real>, x0: real, y0: real, total0: real)
    returns (x: real, y: real, total: real)
    ensures x == x0 + RowWeighted(row, i as real, threshold)
    ensures y == y0 + RowColMoment(row, threshold)
    ensures total == total0 + RowSum(row, threshold)
  {
    x, y, total := x0, y0, total0;
    for j := 0 to |row|
      invariant x == x0 + RowWeighted(row[..j], i as real, threshold)
      invariant y == y0 + RowColMoment(row[..j], threshold)
      invariant total == total0 + RowSum(row[..j], threshold)
    {
      var val := row[j];
      if Kept(val, threshold) {
        RowStepKept(row, j, val, i as real, threshold);
        x := x + val * i as real;
        y := y + val * j as real;
        total := total + val;
      } else {
        RowStepSkipped(row, j, i as real, threshold);
      }
    }
    assert row[..|row|] == row;
  }

  /** Intensity-weighted mean row and column of `data`, minus the offset. */
  method SimpleCentreOfGravity(data: Grid) returns (r: Option<(real, real)>)
    requires Rectangular(data)
    ensures r == Cog(data)
    ensures r.Some? <==> Total(data, None) != 0.0
  {
    r := Accumulate(data, None);
  }

  /** As `SimpleCentreOfGravity`, skipping every pixel at or below `threshold`. */
  method ThresholdCentreOfGravity(data: Grid, threshold: real) returns (r: Option<(real, real)>)
    requires Rectangular(data)
    ensures r == ThresholdCog(data, threshold)
    ensures r.Some? <==> Total(data, Some(threshold)) != 0.0
  {
    r := Accumulate(data, Some(threshold));
  }

  /** The outer loop of both routines, then the final division and offset. */
  method Accumulate(data: Grid, threshold: Option<real>) returns (r: Option<(real, real)>)
    requires Rectangular(data)
    ensures r == Centroid(data, threshold)
    ensures r.Some? <==> Total(data, threshold) != 0.0
  {
    var nRows := |data|;
    var x, y, total := 0.0, 0.0, 0.0;
    for i := 0 to nRows
      invariant x == RowMoment(data[..i], threshold)
      invariant y == ColMoment(data[..i], threshold)
      invariant total == Total(data[..i], threshold)
    {
      GridStep(data, i, threshold);
      x, y, total := AccumulateRow(data[i], i, threshold, x, y, total);
    }
    assert data[..nRows] == data;
    r := Offset(x, y, total, nRows);
  }

  // ---------------------------------------------------------------------
  // Properties.
  // ---------------------------------------------------------------------

  /** Equal factors give equal products (stated apart, so that the solver
      need not find it among the sequence facts around it). */
  lemma {:induction false} SameProduct(a: real, b: real, w: real)
    requires a == b
    ensures a * w == b * w
  {
  }

  /** `a / t == q` whenever `a == q * t` and `t` is nonzero. */
  lemma {:induction false} QuotientOf(a: real, q: real, t: real)
    requires t != 0.0 && a == q * t
    ensures a / t == q
  {
  }

  /** The triangle number `0 + 1 + … + (n-1)`, the sum of the indices of
      `n` consecutive rows or columns. */
  function Tri(n: nat): real {
    if n == 0 then 0.0 else Tri(n - 1) + (n - 1) as real
  }

  lemma {:induction false} TriClosedForm(n: nat)
    ensures 2.0 * Tri(n) == n as real * (n as real - 1.0)
  {
    if n > 0 {
      TriClosedForm(n - 1);
    }
  }

  /** An `n`-pixel row of constant value `c` sums to `n·c`. */
  lemma {:induction false} ConstantRowSum(r: seq<real>, n: nat, c: real)
    requires |r| == n
    requires forall j :: 0 <= j < n ==> r[j] == c
    ensures RowSum(r, None) == n as real * c
  {
    if n > 0 {
      ConstantRowSum(r[..n - 1], n - 1, c);
    }
  }

  /** An `n`-pixel row of constant value `c` has column moment `Tri(n)·c`. */
  lemma {:induction false} ConstantRowColMoment(r: seq<real>, n: nat, c: real)
    requires |r| == n
    requires forall j :: 0 <= j < n ==> r[j] == c
    ensures RowColMoment(r, None) == Tri(n) * c
  {
    if n > 0 {
      ConstantRowColMoment(r[..n - 1], n - 1, c);
    }
  }

  /** `t·s` split along `t == a + b`. */
  lemma {:induction false} SplitProduct(t: real, a: real, b: real, s: real)
    requires t == a + b
    ensures t * s == a * s + b * s
  {
  }

  /** Weighting every kept pixel of a row by the same `w` weights its sum by `w`. */
  lemma {:induction false} WeightedRow(r: seq<real>, w: real, threshold: Option<real>)
    ensures RowWeighted(r, w, threshold) == RowSum(r, threshold) * w
  {
    if |r| > 0 {
      var n := |r| - 1;
      WeightedRow(r[..n], w, threshold);
      var last := if Kept(r[n], threshold) then r[n] else 0.0;
      SplitProduct(RowSum(r, threshold), RowSum(r[..n], threshold), last, w);
    }
  }

  /** Rows that all sum to `s` give a total of `n·s`. */
  lemma {:induction false} EqualRowsTotal(g: Grid, n: nat, s: real)
    requires |g| == n
    requires forall i :: 0 <= i < n ==> RowSum(g[i], None) == s
    ensures Total(g, None) == n as real * s
  {
    if n > 0 {
      EqualRowsTotal(g[..n - 1], n - 1, s);
    }
  }

  /** Rows that all sum to `s` give a row moment of `Tri(n)·s`. */
  lemma {:induction false} EqualRowsRowMoment(g: Grid, n: nat, s: real)
    requires |g| == n
    requires forall i :: 0 <= i < n ==> RowSum(g[i], None) == s
    ensures RowMoment(g, None) == Tri(n) * s
  {
    if n > 0 {
      var w := (n - 1) as real;
      EqualRowsRowMoment(g[..n - 1], n - 1, s);
      WeightedRow(g[n - 1], w, None);
      SameProduct(RowSum(g[n - 1], None), s, w);
      SplitProduct(Tri(n), Tri(n - 1), w, s);
    }
  }

  /** Rows that all have column moment `w` give a column moment of `n·w`. */
  lemma {:induction false} EqualRowsColMoment(g: Grid, n: nat, w: real)
    requires |g| == n
    requires forall i :: 0 <= i < n ==> RowColMoment(g[i], None) == w
    ensures ColMoment(g, None) == n as real * w
  {
    if n > 0 {
      EqualRowsColMoment(g[..n - 1], n - 1, w);
    }
  }

  /** Cancelling a common nonzero factor from a quotient. */
  lemma {:induction false} CancelFactor(a: real, b: real, s: real)
    requires b != 0.0 && s != 0.0
    ensures (a * s) / (b * s) == a / b
  {
  }

  /** `g` is a `rows × cols` grid every pixel of which is `c`. */
  predicate Uniform(g: Grid, rows: nat, cols: nat, c: real) {
    |g| == rows &&
    (forall i :: 0 <= i < rows ==> |g[i]| == cols) &&
    (forall i, j :: 0 <= i < rows && 0 <= j < cols ==> g[i][j] == c)
  }

  /** The `rows × cols` grid of constant value `c`. */
  function Constant(rows: nat, cols: nat, c: real): (g: Grid)
    ensures Uniform(g, rows, cols, c) && Rectangular(g)
  {
    seq(rows, _ => seq(cols, _ => c))
  }

  /** A uniformly lit `rows × cols` array is centred in x, and off by
      `(cols - rows) / 2` in y, because the y offset uses the row count.
      For square input both coordinates are zero. */
  lemma {:induction false} UniformGridCog(rows: nat, cols: nat, c: real)
    requires rows > 0 && cols > 0 && c != 0.0
    ensures Cog(Constant(rows, cols, c)) == Some((0.0, (cols as real - rows as real) / 2.0))
  {
    var g := Constant(rows, cols, c);
    UniformMeanRow(g, rows, cols, c);
    UniformMeanCol(g, rows, cols, c);
  }

  /** The y offset computed from the row count puts a uniformly lit
      2 × 4 array one pixel off centre. */
  lemma {:induction false} WideUniformOffCentre()
    ensures Cog(Constant(2, 4, 1.0)) == Some((0.0, 1.0))
  {
    UniformGridCog(2, 4, 1.0);
  }

  /** The centre of gravity with each coordinate shifted by its own
      dimension: the row mean by half the row count, the column mean by
      half the column count. */
  function CentredCog(g: Grid): Option<(real, real)> {
    var total := Total(g, None);
    if total == 0.0 then None
    else Some((RowMoment(g, None) / total - |g| as real / 2.0 + 0.5,
               ColMoment(g, None) / total - Cols(g) as real / 2.0 + 0.5))
  }

  /** With each coordinate shifted by its own dimension, every uniformly
      lit array is centred, square or not. */
  lemma {:induction false} UniformGridCentredCog(rows: nat, cols: nat, c: real)
    requires rows > 0 && cols > 0 && c != 0.0
    ensures CentredCog(Constant(rows, cols, c)) == Some((0.0, 0.0))
  {
    var g := Constant(rows, cols, c);
    UniformMeanRow(g, rows, cols, c);
    UniformMeanCol(g, rows, cols, c);
  }

  /** On square input the two agree, so the sensor, whose subapertures are
      square, is unaffected. */
  lemma {:induction false} SquareCogsAgree(g: Grid)
    requires Rectangular(g) && |g| == Cols(g)
    ensures CentredCog(g) == Cog(g)
  {
  }

  lemma {:induction false} UniformMeanRow(g: Grid, rows: nat, cols: nat, c: real)
    requires Uniform(g, rows, cols, c)
    requires rows > 0 && cols > 0 && c != 0.0
    ensures Total(g, None) != 0.0
    ensures RowMoment(g, None) / Total(g, None) == (rows as real - 1.0) / 2.0
  {
    var s := cols as real * c;
    UniformTotal(g, rows, cols, c, s);
    UniformRowMoment(g, rows, cols, c, s);
    TriClosedForm(rows);
    RowMean(RowMoment(g, None), Total(g, None), rows as real, cols as real, Tri(rows), c, s);
  }

  lemma {:induction false} UniformMeanCol(g: Grid, rows: nat, cols: nat, c: real)
    requires Uniform(g, rows, cols, c)
    requires rows > 0 && cols > 0 && c != 0.0
    ensures Total(g, None) != 0.0
    ensures ColMoment(g, None) / Total(g, None) == (cols as real - 1.0) / 2.0
  {
    var t := Tri(cols);
    var s, w := cols as real * c, t * c;
    UniformTotal(g, rows, cols, c, s);
    UniformColMoment(g, rows, cols, c, w);
    TriClosedForm(cols);
    ColumnMean(ColMoment(g, None), Total(g, None), rows as real, cols as real, t, c, s, w);
  }

  lemma {:induction false} UniformTotal(g: Grid, rows: nat, cols: nat, c: real, s: real)
    requires Uniform(g, rows, cols, c)
    requires s == cols as real * c
    ensures Total(g, None) == rows as real * s
  {
    UniformRowSums(g, rows, cols, c, s);
    EqualRowsTotal(g, rows, s);
  }

  lemma {:induction false} UniformRowMoment(g: Grid, rows: nat, cols: nat, c: real, s: real)
    requires Uniform(g, rows, cols, c)
    requires s == cols as real * c
    ensures RowMoment(g, None) == Tri(rows) * s
  {
    UniformRowSums(g, rows, cols, c, s);
    EqualRowsRowMoment(g, rows, s);
  }

  lemma {:induction false} UniformColMoment(g: Grid, rows: nat, cols: nat, c: real, w: real)
    requires Uniform(g, rows, cols, c)
    requires w == Tri(cols) * c
    ensures ColMoment(g, None) == rows as real * w
  {
    UniformRowColMoments(g, rows, cols, c, w);
    EqualRowsColMoment(g, rows, w);
  }

  /** The arithmetic of the row mean: `Tri(n)·(k·c)` over `n·(k·c)`. */
  lemma {:induction false} RowMean(moment: real, total: real, n: real, k: real, tri: real, c: real, s: real)
    requires n != 0.0 && k != 0.0 && c != 0.0
    requires s == k * c && moment == tri * s && total == n * s
    requires 2.0 * tri == n * (n - 1.0)
    ensures total != 0.0
    ensures moment / total == (n - 1.0) / 2.0
  {
    NonzeroProduct(k, c);
    MeanOfTriangle(moment, total, tri, n, s);
  }

  /** The arithmetic of the column mean: `n·(Tri(k)·c)` over `n·(k·c)`. */
  lemma {:induction false} ColumnMean(moment: real, total: real, n: real, k: real, tri: real, c: real, s: real, w: real)
    requires n != 0.0 && k != 0.0 && c != 0.0
    requires s == k * c && w == tri * c
    requires moment == n * w && total == n * s
    requires 2.0 * tri == k * (k - 1.0)
    ensures total != 0.0
    ensures moment / total == (k - 1.0) / 2.0
  {
    var u := n * c;
    NonzeroProduct(n, c);
    Regroup(moment, n, tri, c, w, u);
    Regroup(total, n, k, c, s, u);
    MeanOfTriangle(moment, total, tri, k, u);
  }

  lemma {:induction false} NonzeroProduct(a: real, b: real)
    requires a != 0.0 && b != 0.0
    ensures a * b != 0.0
  {
  }

  /** `n·(a·c) == a·(n·c)`, with the inner products named. */
  lemma {:induction false} Regroup(x: real, n: real, a: real, c: real, ac: real, nc: real)
    requires ac == a * c && nc == n * c && x == n * ac
    ensures x == a * nc
  {
  }

  /** Every row of a uniform grid sums to `s == cols·c`. */
  lemma {:induction false} UniformRowSums(g: Grid, rows: nat, cols: nat, c: real, s: real)
    requires Uniform(g, rows, cols, c)
    requires s == cols as real * c
    ensures forall i :: 0 <= i < rows ==> RowSum(g[i], None) == s
  {
    forall i | 0 <= i < rows ensures RowSum(g[i], None) == s {
      ConstantRowSum(g[i], cols, c);
    }
  }

  /** Every row of a uniform grid has column moment `w == Tri(cols)·c`. */
  lemma {:induction false} UniformRowColMoments(g: Grid, rows: nat, cols: nat, c: real, w: real)
    requires Uniform(g, rows, cols, c)
    requires w == Tri(cols) * c
    ensures forall i :: 0 <= i < rows ==> RowColMoment(g[i], None) == w
  {
    forall i | 0 <= i < rows ensures RowColMoment(g[i], None) == w {
      ConstantRowColMoment(g[i], cols, c);
    }
  }

  /** A moment `tri·s` over a total `n·s`, with `tri` the triangle number
      of `n`, is the mean index `(n - 1) / 2`. */
  lemma {:induction false} MeanOfTriangle(moment: real, total: real, tri: real, n: real, s: real)
    requires n != 0.0 && s != 0.0
    requires moment == tri * s && total == n * s
    requires 2.0 * tri == n * (n - 1.0)
    ensures total != 0.0
    ensures moment / total == (n - 1.0) / 2.0
  {
    CancelFactor(tri, n, s);
    QuotientOf(tri, (n - 1.0) / 2.0, n);
  }

  /** The in-file test: an 8×8 array of ones yields exactly (0, 0). */
  lemma {:induction false} OnesEightByEightCentred()
    ensures Cog(Constant(8, 8, 1.0)) == Some((0.0, 0.0))
  {
    UniformGridCog(8, 8, 1.0);
  }

  lemma {:induction false} MaskRowLast(r: seq<real>, threshold: real)
    requires |r| > 0
    ensures MaskRow(r, threshold)[..|r| - 1] == MaskRow(r[..|r| - 1], threshold)
    ensures MaskRow(r, threshold)[|r| - 1] == if Kept(r[|r| - 1], Some(threshold)) then r[|r| - 1] else 0.0
  {
    assert MaskRow(r, threshold)[..|r| - 1] == MaskRow(r[..|r| - 1], threshold);
  }

  /** Thresholding one row is the same as summing its masked copy. */
  lemma {:induction false} MaskedRowSum(r: seq<real>, threshold: real)
    ensures RowSum(r, Some(threshold)) == RowSum(MaskRow(r, threshold), None)
  {
    if |r| > 0 {
      var n := |r| - 1;
      MaskRowLast(r, threshold);
      MaskedRowSum(r[..n], threshold);
    }
  }

  lemma {:induction false} MaskedRowWeighted(r: seq<real>, threshold: real, w: real)
    ensures RowWeighted(r, w, Some(threshold)) == RowWeighted(MaskRow(r, threshold), w, None)
  {
    var m := MaskRow(r, threshold);
    WeightedRow(r, w, Some(threshold));
    WeightedRow(m, w, None);
    MaskedRowSum(r, threshold);
    SameProduct(RowSum(r, Some(threshold)), RowSum(m, None), w);
  }

  lemma {:induction false} MaskedRowColMoment(r: seq<real>, threshold: real)
    ensures RowColMoment(r, Some(threshold)) == RowColMoment(MaskRow(r, threshold), None)
  {
    if |r| > 0 {
      var n := |r| - 1;
      var m := MaskRow(r, threshold);
      MaskRowLast(r, threshold);
      MaskedRowColMoment(r[..n], threshold);
      if r[n] > threshold {
        SameProduct(m[n], r[n], n as real);
      } else {
        SameProduct(m[n], 0.0, n as real);
      }
    }
  }

  /** Thresholding a grid is the same as summing its masked copy. */
  lemma {:induction false} MaskedGridSums(g: Grid, threshold: real)
    ensures Total(g, Some(threshold)) == Total(Mask(g, threshold), None)
    ensures RowMoment(g, Some(threshold)) == RowMoment(Mask(g, threshold), None)
    ensures ColMoment(g, Some(threshold)) == ColMoment(Mask(g, threshold), None)
  {
    if |g| > 0 {
      var n := |g| - 1;
      var m := Mask(g, threshold);
      assert m[..n] == Mask(g[..n], threshold);
      MaskedGridSums(g[..n], threshold);
      MaskedRowSum(g[n], threshold);
      MaskedRowWeighted(g[n], threshold, n as real);
      MaskedRowColMoment(g[n], threshold);
    }
  }

  /** The thresholded routine is the simple routine applied to the array
      with every pixel at or below the threshold set to zero. */
  lemma {:induction false} ThresholdIsMaskedCog(g: Grid, threshold: real)
    ensures ThresholdCog(g, threshold) == Cog(Mask(g, threshold))
  {
    MaskedGridSums(g, threshold);
  }

  /** When every pixel is above the threshold, the thresholded routine
      agrees with the simple one. */
  lemma {:induction false} ThresholdAllAbove(g: Grid, threshold: real)
    requires forall i, j :: 0 <= i < |g| && 0 <= j < |g[i]| ==> g[i][j] > threshold
    ensures ThresholdCog(g, threshold) == Cog(g)
  {
    var m := Mask(g, threshold);
    forall i | 0 <= i < |g| ensures m[i] == g[i] {
      assert m[i] == g[i];
    }
    assert m == g;
    ThresholdIsMaskedCog(g, threshold);
  }

  /** The in-file test: threshold 0 on an 8×8 array of ones yields (0, 0). */
  lemma {:induction false} ThresholdOnesEightByEightCentred()
    ensures ThresholdCog(Constant(8, 8, 1.0), 0.0) == Some((0.0, 0.0))
  {
    ThresholdAllAbove(Constant(8, 8, 1.0), 0.0);
    OnesEightByEightCentred();
  }

  /** A pixel at or below the threshold contributes to none of the sums:
      changing it to any other value at or below the threshold leaves the
      thresholded result as it was. */
  lemma {:induction false} ThresholdIgnoresLowPixel(g: Grid, threshold: real, i: nat, j: nat, v: real)
    requires i < |g| && j < |g[i]|
    requires g[i][j] <= threshold && v <= threshold
    ensures ThresholdCog(g[i := g[i][j := v]], threshold) == ThresholdCog(g, threshold)
  {
    var h := g[i := g[i][j := v]];
    var mg, mh := Mask(g, threshold), Mask(h, threshold);
    forall k | 0 <= k < |g| ensures mh[k] == mg[k] {
      assert mh[k] == mg[k];
    }
    assert mh == mg;
    ThresholdIsMaskedCog(g, threshold);
    ThresholdIsMaskedCog(h, threshold);
  }

  /** The `rows × cols` grid that is dark except for value `v` at `(r, c)`. */
  function Spot(rows: nat, cols: nat, r: nat, c: nat, v: real): (g: Grid)
    ensures |g| == rows && Rectangular(g)
    ensures forall i :: 0 <= i < rows ==> |g[i]| == cols
    ensures forall i, j :: 0 <= i < rows && 0 <= j < cols ==> g[i][j] == if i == r && j == c then v else 0.0
  {
    seq(rows, i => seq(cols, j => if i == r && j == c then v else 0.0))
  }

  /** A row dark except for value `v` at column `c` (no lit pixel when
      `c` is past its end). */
  predicate DarkBut(row: seq<real>, n: nat, c: nat, v: real) {
    |row| == n && forall j :: 0 <= j < n ==> row[j] == if j == c then v else 0.0
  }

  lemma {:induction false} DarkButRowSum(row: seq<real>, n: nat, c: nat, v: real)
    requires DarkBut(row, n, c, v)
    ensures RowSum(row, None) == if c < n then v else 0.0
  {
    if n > 0 {
      DarkButRowSum(row[..n - 1], n - 1, c, v);
    }
  }

  lemma {:induction false} DarkButRowWeighted(row: seq<real>, n: nat, c: nat, v: real, w: real)
    requires DarkBut(row, n, c, v)
    ensures RowWeighted(row, w, None) == if c < n then w * v else 0.0
  {
    if n > 0 {
      DarkButRowWeighted(row[..n - 1], n - 1, c, v, w);
    }
  }

  lemma {:induction false} DarkButRowColMoment(row: seq<real>, n: nat, c: nat, v: real)
    requires DarkBut(row, n, c, v)
    ensures RowColMoment(row, None) == if c < n then c as real * v else 0.0
  {
    if n > 0 {
      DarkButRowColMoment(row[..n - 1], n - 1, c, v);
    }
  }

  /** The first `n` rows of a spot grid, lit at `(r, c)` with `c < cols`. */
  predicate SpotRows(g: Grid, n: nat, cols: nat, r: nat, c: nat, v: real) {
    |g| == n && c < cols &&
    (forall i :: 0 <= i < n ==> DarkBut(g[i], cols, if i == r then c else cols, v))
  }

  lemma {:induction false} SpotTotal(g: Grid, n: nat, cols: nat, r: nat, c: nat, v: real)
    requires SpotRows(g, n, cols, r, c, v)
    ensures Total(g, None) == if r < n then v else 0.0
  {
    if n > 0 {
      assert SpotRows(g[..n - 1], n - 1, cols, r, c, v);
      SpotTotal(g[..n - 1], n - 1, cols, r, c, v);
      DarkButRowSum(g[n - 1], cols, if n - 1 == r then c else cols, v);
    }
  }

  lemma {:induction false} SpotRowMoment(g: Grid, n: nat, cols: nat, r: nat, c: nat, v: real)
    requires SpotRows(g, n, cols, r, c, v)
    ensures RowMoment(g, None) == if r < n then r as real * v else 0.0
  {
    if n > 0 {
      assert SpotRows(g[..n - 1], n - 1, cols, r, c, v);
      SpotRowMoment(g[..n - 1], n - 1, cols, r, c, v);
      DarkButRowWeighted(g[n - 1], cols, if n - 1 == r then c else cols, v, (n - 1) as real);
    }
  }

  lemma {:induction false} SpotColMoment(g: Grid, n: nat, cols: nat, r: nat, c: nat, v: real)
    requires SpotRows(g, n, cols, r, c, v)
    ensures ColMoment(g, None) == if r < n then c as real * v else 0.0
  {
    if n > 0 {
      assert SpotRows(g[..n - 1], n - 1, cols, r, c, v);
      SpotColMoment(g[..n - 1], n - 1, cols, r, c, v);
      DarkButRowColMoment(g[n - 1], cols, if n - 1 == r then c else cols, v);
    }
  }

  lemma {:induction false} SpotIsSpotRows(rows: nat, cols: nat, r: nat, c: nat, v: real)
    requires c < cols
    ensures SpotRows(Spot(rows, cols, r, c, v), rows, cols, r, c, v)
  {
    var g := Spot(rows, cols, r, c, v);
    forall i | 0 <= i < rows ensures DarkBut(g[i], cols, if i == r then c else cols, v) {
    }
  }

  /** A single lit pixel at `(r, c)` of an `n`-row array is its own centre
      of gravity: `(r - n/2 + 0.5, c - n/2 + 0.5)`. */
  lemma {:induction false} SinglePixelCog(rows: nat, cols: nat, r: nat, c: nat, v: real)
    requires r < rows && c < cols && v != 0.0
    ensures Cog(Spot(rows, cols, r, c, v))
            == Some((r as real - rows as real / 2.0 + 0.5, c as real - rows as real / 2.0 + 0.5))
  {
    var g := Spot(rows, cols, r, c, v);
    SpotIsSpotRows(rows, cols, r, c, v);
    SpotTotal(g, rows, cols, r, c, v);
    SpotRowMoment(g, rows, cols, r, c, v);
    SpotColMoment(g, rows, cols, r, c, v);
    QuotientOf(RowMoment(g, None), r as real, v);
    QuotientOf(ColMoment(g, None), c as real, v);
  }
}
