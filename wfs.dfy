/**
  The Shack-Hartmann wavefront sensor: it cuts a detector frame into
  subaperture rectangles, calibrates each subaperture's pixels against
  dark, background and flat-field maps, and reports each subaperture's
  centre of gravity as one x and one y slope in a measurement vector.
*/
module Wfs {
  import opened Wrappers
  import opened CentreOfGravity
  import opened Vectors

  /** A detector pixel: an unsigned 16-bit count. */
  type Pixel = x: nat | x < 65536

  /** A detector frame as its rows of pixels. */
  type Frame = seq<seq<Pixel>>

  /** One row of the subaperture coordinate array: the subaperture covers
      frame rows `rowStart..rowEnd` and columns `colStart..colEnd`, ends
      excluded. */
  datatype SubapCoords = SubapCoords(rowStart: nat, rowEnd: nat, colStart: nat, colEnd: nat)

  /** A three-dimensional map: one square grid per subaperture. */
  type Maps = seq<Grid>

  /** The sensor's configuration and calibration maps. No operation of the
      sensor updates any of them after construction. */
  datatype ShackHartmann = ShackHartmann(
    nRows: nat,
    nCols: nat,
    nMeasurements: nat,
    nSubaps: nat,
    pixelsPerSubap: nat,
    subapCoordinates: seq<SubapCoords>,
    darkSubaps: Maps,
    flatSubaps: Maps,
    bgSubaps: Maps,
    calSubaps: Maps)

  /** `m` holds `n` grids of `p × p`. */
  predicate MapShape(m: Maps, n: nat, p: nat) {
    |m| == n && forall i :: 0 <= i < n ==> Shape(m[i], p, p)
  }

  /** `m` holds `n` grids of `p × p`, every entry `c`. */
  predicate Filled(m: Maps, n: nat, p: nat, c: real) {
    |m| == n && forall i :: 0 <= i < n ==> Uniform(m[i], p, p, c)
  }

  /** No entry of the `p × p` grid `flat` is zero. */
  predicate NonzeroFlat(flat: Grid, p: nat) {
    Shape(flat, p, p) && forall x, y :: 0 <= x < p && 0 <= y < p ==> flat[x][y] != 0.0
  }

  /** The shape relations every sensor keeps: two measurements per
      subaperture, four maps of one `p × p` grid per subaperture, and a
      flat field that can be divided by. */
  predicate Valid(sh: ShackHartmann) {
    var n, p := sh.nSubaps, sh.pixelsPerSubap;
    n == |sh.subapCoordinates| && sh.nMeasurements == 2 * n &&
    MapShape(sh.darkSubaps, n, p) && MapShape(sh.flatSubaps, n, p) &&
    MapShape(sh.bgSubaps, n, p) && MapShape(sh.calSubaps, n, p) &&
    forall i :: 0 <= i < n ==> NonzeroFlat(sh.flatSubaps[i], p)
  }

  /** The maps as construction leaves them: dark, background and
      calibrated frames all zero, the flat field all one. */
  predicate DefaultMaps(sh: ShackHartmann) {
    var n, p := sh.nSubaps, sh.pixelsPerSubap;
    Filled(sh.darkSubaps, n, p, 0.0) && Filled(sh.bgSubaps, n, p, 0.0) &&
    Filled(sh.calSubaps, n, p, 0.0) && Filled(sh.flatSubaps, n, p, 1.0)
  }

  /** `n` grids of `p × p`, every entry `c`. */
  function Fill(n: nat, p: nat, c: real): (m: Maps)
    ensures Filled(m, n, p, c) && MapShape(m, n, p)
  {
    seq(n, _ => Constant(p, p, c))
  }

  /** `ShackHartmann::new`: one subaperture per coordinate row, two
      measurements per subaperture, and default calibration maps. */
  function New(nRows: nat, nCols: nat, pixelsPerSubap: nat, subapCoordinates: seq<SubapCoords>): (sh: ShackHartmann)
    ensures Valid(sh) && DefaultMaps(sh)
    ensures sh.nSubaps == |subapCoordinates| && sh.nMeasurements == 2 * |subapCoordinates|
    ensures sh.pixelsPerSubap == pixelsPerSubap && sh.subapCoordinates == subapCoordinates
    ensures sh.nRows == nRows && sh.nCols == nCols
  {
    var n := |subapCoordinates|;
    ShackHartmann(nRows, nCols, 2 * n, n, pixelsPerSubap, subapCoordinates,
                  Fill(n, pixelsPerSubap, 0.0), Fill(n, pixelsPerSubap, 1.0),
                  Fill(n, pixelsPerSubap, 0.0), Fill(n, pixelsPerSubap, 0.0))
  }

  // ---------------------------------------------------------------------
  // Slicing and calibration
  // ---------------------------------------------------------------------

  /** The rectangle `c` lies inside `frame`, and it is at least `p` pixels
      high and wide, so that the `p × p` calibration loop stays inside it. */
  predicate FitsFrame(frame: Frame, c: SubapCoords, p: nat) {
    c.rowStart <= c.rowEnd <= |frame| && c.colStart <= c.colEnd &&
    (forall r :: c.rowStart <= r < c.rowEnd ==> c.colEnd <= |frame[r]|) &&
    c.rowEnd - c.rowStart >= p && c.colEnd - c.colStart >= p
  }

  /** Every subaperture of `sh` fits `frame`. */
  predicate Observes(sh: ShackHartmann, frame: Frame) {
    forall i :: 0 <= i < |sh.subapCoordinates| ==> FitsFrame(frame, sh.subapCoordinates[i], sh.pixelsPerSubap)
  }

  /** The frame rectangle `c`, as numbers: entry `[r][k]` is the pixel at
      row `rowStart + r` and column `colStart + k`. */
  function SubapData(frame: Frame, c: SubapCoords): (g: Grid)
    requires c.rowStart <= c.rowEnd <= |frame| && c.colStart <= c.colEnd
    requires forall r :: c.rowStart <= r < c.rowEnd ==> c.colEnd <= |frame[r]|
    ensures |g| == c.rowEnd - c.rowStart
    ensures forall r :: 0 <= r < |g| ==> |g[r]| == c.colEnd - c.colStart
    ensures forall r, k :: 0 <= r < |g| && 0 <= k < c.colEnd - c.colStart ==>
              g[r][k] == frame[c.rowStart + r][c.colStart + k] as real
  {
    seq(c.rowEnd - c.rowStart, r requires 0 <= r < c.rowEnd - c.rowStart =>
      seq(c.colEnd - c.colStart, k requires 0 <= k < c.colEnd - c.colStart =>
        frame[c.rowStart + r][c.colStart + k] as real))
  }

  /** One calibrated pixel: the raw count less background and dark, divided
      by the flat field. Stated as its inverse: scaling the result back by
      the flat field recovers the corrected count. */
  function CalibratePixel(raw: real, bg: real, dark: real, flat: real): (v: real)
    requires flat != 0.0
    ensures v * flat == raw - bg - dark
  {
    (raw - bg - dark) / flat
  }

  /** `data` has at least `p` rows, each of at least `p` entries. */
  predicate Covers(data: Grid, p: nat) {
    |data| >= p && forall x :: 0 <= x < p ==> |data[x]| >= p
  }

  /** The top-left `p × p` of `data`, calibrated pixel by pixel. */
  function Calibrated(data: Grid, dark: Grid, bg: Grid, flat: Grid, p: nat): (g: Grid)
    requires Covers(data, p) && Shape(dark, p, p) && Shape(bg, p, p) && Shape(flat, p, p)
    requires NonzeroFlat(flat, p)
    ensures Shape(g, p, p)
  {
    seq(p, x requires 0 <= x < p =>
      seq(p, y requires 0 <= y < p => CalibratePixel(data[x][y], bg[x][y], dark[x][y], flat[x][y])))
  }

  /** The numbers held by a two-dimensional array, row by row. */
  function Contents(a: array2<real>): (g: Grid)
    reads a
    ensures |g| == a.Length0
    ensures forall x :: 0 <= x < |g| ==> |g[x]| == a.Length1
  {
    seq(a.Length0, x requires 0 <= x < a.Length0 reads a =>
      seq(a.Length1, y requires 0 <= y < a.Length1 reads a => a[x, y]))
  }

  /** The pixel-calibration loop: an owned copy of the stored grid `cal0`
      whose every pixel is then overwritten with its calibrated value. */
  method CalibrateSubap(data: Grid, cal0: Grid, dark: Grid, bg: Grid, flat: Grid, p: nat) returns (cal: array2<real>)
    requires Covers(data, p) && Shape(cal0, p, p) && Shape(dark, p, p) && Shape(bg, p, p) && Shape(flat, p, p)
    requires NonzeroFlat(flat, p)
    ensures fresh(cal)
    ensures Contents(cal) == Calibrated(data, dark, bg, flat, p)
  {
    cal := new real[p, p]((x, y) requires 0 <= x < p && 0 <= y < p => cal0[x][y]);
    for x := 0 to p
      invariant forall i, j :: 0 <= i < x && 0 <= j < p ==>
                  cal[i, j] == CalibratePixel(data[i][j], bg[i][j], dark[i][j], flat[i][j])
    {
      for y := 0 to p
        invariant forall i, j :: 0 <= i < x && 0 <= j < p ==>
                    cal[i, j] == CalibratePixel(data[i][j], bg[i][j], dark[i][j], flat[i][j])
        invariant forall j :: 0 <= j < y ==>
                    cal[x, j] == CalibratePixel(data[x][j], bg[x][j], dark[x][j], flat[x][j])
      {
        cal[x, y] := CalibratePixel(data[x][y], bg[x][y], dark[x][y], flat[x][y]);
      }
    }
    forall x | 0 <= x < p ensures Contents(cal)[x] == Calibrated(data, dark, bg, flat, p)[x] {
    }
  }

  /** Subaperture `i` of `frame`, calibrated with the sensor's maps. */
  function SubapCalibrated(sh: ShackHartmann, frame: Frame, i: nat): (g: Grid)
    requires Valid(sh) && Observes(sh, frame) && i < sh.nSubaps
    ensures Shape(g, sh.pixelsPerSubap, sh.pixelsPerSubap)
  {
    var p := sh.pixelsPerSubap;
    Calibrated(SubapData(frame, sh.subapCoordinates[i]), sh.darkSubaps[i], sh.bgSubaps[i], sh.flatSubaps[i], p)
  }

  // ---------------------------------------------------------------------
  // Measurement
  // ---------------------------------------------------------------------

  /** The x part of a centroid; undefined when the centroid is. */
  function X(c: Option<(real, real)>): Option<real> {
    if c.Some? then Some(c.value.0) else None
  }

  /** The y part of a centroid; undefined when the centroid is. */
  function Y(c: Option<(real, real)>): Option<real> {
    if c.Some? then Some(c.value.1) else None
  }

  /** The measurement vector of `n` centroids: every x first, then every y. */
  function Layout(cs: seq<Option<(real, real)>>): (m: seq<Option<real>>)
    ensures |m| == 2 * |cs|
    ensures forall i :: 0 <= i < |cs| ==> m[i] == X(cs[i]) && m[i + |cs|] == Y(cs[i])
  {
    seq(2 * |cs|, k requires 0 <= k < 2 * |cs| => if k < |cs| then X(cs[k]) else Y(cs[k - |cs|]))
  }

  /** The centroid of each subaperture: of the stored calibrated map
      (`corrected` false, as `measure` is written) or of the freshly
      calibrated frame data (`corrected` true). */
  function Centroids(sh: ShackHartmann, frame: Frame, corrected: bool): (cs: seq<Option<(real, real)>>)
    requires Valid(sh) && Observes(sh, frame)
    ensures |cs| == sh.nSubaps
  {
    seq(sh.nSubaps, i requires 0 <= i < sh.nSubaps =>
      if corrected then Cog(SubapCalibrated(sh, frame, i)) else Cog(sh.calSubaps[i]))
  }

  /** What `measure` returns. */
  function Measurement(sh: ShackHartmann, frame: Frame, corrected: bool): (m: seq<Option<real>>)
    requires Valid(sh) && Observes(sh, frame)
    ensures |m| == sh.nMeasurements
  {
    Layout(Centroids(sh, frame, corrected))
  }

  /** One pass of the subaperture loop: slice, calibrate into an owned copy,
      and take a centre of gravity. */
  method SubapCentroid(sh: ShackHartmann, frame: Frame, i: nat, corrected: bool) returns (c: Option<(real, real)>)
    requires Valid(sh) && Observes(sh, frame) && i < sh.nSubaps
    ensures c == Centroids(sh, frame, corrected)[i]
  {
    var p := sh.pixelsPerSubap;
    var subapData := SubapData(frame, sh.subapCoordinates[i]);
    var calSubap := CalibrateSubap(subapData, sh.calSubaps[i], sh.darkSubaps[i], sh.bgSubaps[i], sh.flatSubaps[i], p);
    if corrected {
      c := SimpleCentreOfGravity(Contents(calSubap));
    } else {
      c := SimpleCentreOfGravity(sh.calSubaps[i]);
    }
  }

  /** The subaperture loop of `measure`, filling a zeroed vector with each
      subaperture's x at index `i` and its y at index `i + nSubaps`. */
  method MeasureWith(sh: ShackHartmann, frame: Frame, corrected: bool) returns (measurements: seq<Option<real>>)
    requires Valid(sh) && Observes(sh, frame)
    ensures measurements == Measurement(sh, frame, corrected)
  {
    var n := sh.nSubaps;
    ghost var cs := Centroids(sh, frame, corrected);
    var m := new Option<real>[sh.nMeasurements](_ => Some(0.0));
    for i := 0 to n
      invariant forall k :: 0 <= k < i ==> m[k] == X(cs[k]) && m[k + n] == Y(cs[k])
    {
      var c := SubapCentroid(sh, frame, i, corrected);
      m[i] := X(c);
      m[i + n] := Y(c);
    }
    measurements := m[..];
    assert forall k :: 0 <= k < 2 * n ==> measurements[k] == Layout(cs)[k] by {
      forall k | 0 <= k < 2 * n ensures measurements[k] == Layout(cs)[k] {
        if k >= n {
          assert measurements[(k - n) + n] == Y(cs[k - n]);
        }
      }
    }
  }

  /** `measure` as written: it calibrates each subaperture but takes the
      centroid of the stored calibrated map instead. */
  method Measure(sh: ShackHartmann, frame: Frame) returns (measurements: seq<Option<real>>)
    requires Valid(sh) && Observes(sh, frame)
    ensures measurements == Measurement(sh, frame, false)
    ensures |measurements| == sh.nMeasurements
  {
    measurements := MeasureWith(sh, frame, false);
  }

  /** `measure` as evidently intended: the centroid of the calibrated
      frame data. */
  method MeasureCorrected(sh: ShackHartmann, frame: Frame) returns (measurements: seq<Option<real>>)
    requires Valid(sh) && Observes(sh, frame)
    ensures measurements == Measurement(sh, frame, true)
    ensures |measurements| == sh.nMeasurements
  {
    measurements := MeasureWith(sh, frame, true);
  }

  // ---------------------------------------------------------------------
  // Properties
  // ---------------------------------------------------------------------

  /** With the default maps calibration is the identity on the top-left
      `p × p` of the data. */
  lemma {:induction false} DefaultCalibrationIsIdentity(data: Grid, dark: Grid, bg: Grid, flat: Grid, p: nat)
    requires Covers(data, p)
    requires Uniform(dark, p, p, 0.0) && Uniform(bg, p, p, 0.0) && Uniform(flat, p, p, 1.0)
    ensures forall x, y :: 0 <= x < p && 0 <= y < p ==> Calibrated(data, dark, bg, flat, p)[x][y] == data[x][y]
  {
    forall x, y | 0 <= x < p && 0 <= y < p
      ensures Calibrated(data, dark, bg, flat, p)[x][y] == data[x][y]
    {
      var v := CalibratePixel(data[x][y], bg[x][y], dark[x][y], flat[x][y]);
      assert v * 1.0 == data[x][y] - 0.0 - 0.0;
    }
  }

  /** A grid of zeros has no centre of gravity: its total is zero. */
  lemma {:induction false} ZeroGridUndefined(g: Grid, p: nat)
    requires Uniform(g, p, p, 0.0)
    ensures Cog(g) == None
  {
    UniformTotal(g, p, p, 0.0, p as real * 0.0);
  }

  /** As written, `measure` returns an undefined (not-a-number) entry in
      every slot for every frame, since the stored calibrated maps stay
      zero. */
  lemma {:induction false} AsWrittenUndefined(sh: ShackHartmann, frame: Frame)
    requires Valid(sh) && DefaultMaps(sh) && Observes(sh, frame)
    ensures forall k :: 0 <= k < sh.nMeasurements ==> Measurement(sh, frame, false)[k] == None
  {
    var cs := Centroids(sh, frame, false);
    forall i | 0 <= i < sh.nSubaps ensures cs[i] == None {
      ZeroGridUndefined(sh.calSubaps[i], sh.pixelsPerSubap);
    }
    var m := Measurement(sh, frame, false);
    forall k | 0 <= k < sh.nMeasurements ensures m[k] == None {
      if k >= sh.nSubaps {
        assert m[(k - sh.nSubaps) + sh.nSubaps] == Y(cs[k - sh.nSubaps]);
      }
    }
  }

  /** As written, the frame has no influence on what `measure` returns. */
  lemma {:induction false} AsWrittenIgnoresFrame(sh: ShackHartmann, frame: Frame, other: Frame)
    requires Valid(sh) && Observes(sh, frame) && Observes(sh, other)
    ensures Measurement(sh, frame, false) == Measurement(sh, other, false)
  {
    assert Centroids(sh, frame, false) == Centroids(sh, other, false);
  }

  /** Locality: slots `i` and `i + nSubaps` depend only on subaperture
      `i`'s rectangle of the frame. */
  lemma {:induction false} MeasurementLocality(sh: ShackHartmann, frame: Frame, other: Frame, i: nat)
    requires Valid(sh) && Observes(sh, frame) && Observes(sh, other) && i < sh.nSubaps
    requires SubapData(frame, sh.subapCoordinates[i]) == SubapData(other, sh.subapCoordinates[i])
    ensures Measurement(sh, frame, true)[i] == Measurement(sh, other, true)[i]
    ensures Measurement(sh, frame, true)[i + sh.nSubaps] == Measurement(sh, other, true)[i + sh.nSubaps]
  {
    assert Centroids(sh, frame, true)[i] == Centroids(sh, other, true)[i];
  }

  /** With the default maps, a subaperture whose pixels all read the same
      nonzero count is measured as centred: x and y are both zero. */
  lemma {:induction false} UniformSubapCentred(sh: ShackHartmann, frame: Frame, i: nat, v: Pixel)
    requires Valid(sh) && DefaultMaps(sh) && Observes(sh, frame) && i < sh.nSubaps
    requires sh.pixelsPerSubap > 0 && v != 0
    requires Uniform(SubapData(frame, sh.subapCoordinates[i]), |SubapData(frame, sh.subapCoordinates[i])|,
                     sh.subapCoordinates[i].colEnd - sh.subapCoordinates[i].colStart, v as real)
    ensures Measurement(sh, frame, true)[i] == Some(0.0)
    ensures Measurement(sh, frame, true)[i + sh.nSubaps] == Some(0.0)
  {
    var p := sh.pixelsPerSubap;
    var g := SubapCalibrated(sh, frame, i);
    var data := SubapData(frame, sh.subapCoordinates[i]);
    DefaultCalibrationIsIdentity(data, sh.darkSubaps[i], sh.bgSubaps[i], sh.flatSubaps[i], p);
    forall x | 0 <= x < p ensures g[x] == Constant(p, p, v as real)[x] {
    }
    assert g == Constant(p, p, v as real);
    UniformGridCog(p, p, v as real);
  }

  /** With the default maps, a subaperture dark but for one pixel at
      `(r, c)` of its calibrated square is measured at that pixel:
      `r − p/2 + 0.5` and `c − p/2 + 0.5`. */
  lemma {:induction false} SinglePixelSubap(sh: ShackHartmann, frame: Frame, i: nat, r: nat, c: nat, v: Pixel)
    requires Valid(sh) && DefaultMaps(sh) && Observes(sh, frame) && i < sh.nSubaps
    requires r < sh.pixelsPerSubap && c < sh.pixelsPerSubap && v != 0
    requires forall x, y :: 0 <= x < sh.pixelsPerSubap && 0 <= y < sh.pixelsPerSubap ==>
               SubapData(frame, sh.subapCoordinates[i])[x][y] == if x == r && y == c then v as real else 0.0
    ensures Measurement(sh, frame, true)[i] == Some(r as real - sh.pixelsPerSubap as real / 2.0 + 0.5)
    ensures Measurement(sh, frame, true)[i + sh.nSubaps] == Some(c as real - sh.pixelsPerSubap as real / 2.0 + 0.5)
  {
    var p := sh.pixelsPerSubap;
    var g := SubapCalibrated(sh, frame, i);
    var data := SubapData(frame, sh.subapCoordinates[i]);
    DefaultCalibrationIsIdentity(data, sh.darkSubaps[i], sh.bgSubaps[i], sh.flatSubaps[i], p);
    forall x | 0 <= x < p ensures g[x] == Spot(p, p, r, c, v as real)[x] {
    }
    assert g == Spot(p, p, r, c, v as real);
    SinglePixelCog(p, p, r, c, v as real);
  }
}
