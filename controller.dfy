/**
  The integrator controller: a persistent command vector to which every
  call adds the gain times the control matrix applied to the latest
  wavefront measurement.
*/
module Controller {
  import opened Wrappers
  import opened Vectors
  import opened Floats

  /** One step of the integrator control law: `commands + gain·(matrix·m)`,
      which adds `gain·(row i · m)` to command `i`. */
  function Integrate(commands: Vector, gain: real, matrix: Matrix, m: Vector): (r: Vector)
    requires Shape(matrix, |commands|, |m|)
    ensures |r| == |commands|
    ensures forall i :: 0 <= i < |r| ==> r[i] == commands[i] + gain * Dot(matrix[i], m)
  {
    Add(commands, Scale(gain, MatVec(matrix, m)))
  }

  /** The commands after one step per measurement of `ms`, in order. */
  function IntegrateAll(commands: Vector, gain: real, matrix: Matrix, ms: seq<Vector>): (r: Vector)
    requires forall t :: 0 <= t < |ms| ==> Shape(matrix, |commands|, |ms[t]|)
    ensures |r| == |commands|
  {
    if |ms| == 0 then commands
    else Integrate(IntegrateAll(commands, gain, matrix, ms[..|ms| - 1]), gain, matrix, ms[|ms| - 1])
  }

  /** `Σ_t row·ms[t]`: what row `row` of the matrix has seen of all the
      measurements so far. */
  function SumDots(row: Vector, ms: seq<Vector>): real
    requires forall t :: 0 <= t < |ms| ==> |ms[t]| == |row|
  {
    if |ms| == 0 then 0.0 else SumDots(row, ms[..|ms| - 1]) + Dot(row, ms[|ms| - 1])
  }

  /** The same measurement `m`, `k` times. */
  function Repeat(m: Vector, k: nat): (ms: seq<Vector>)
    ensures |ms| == k && forall t :: 0 <= t < k ==> ms[t] == m
  {
    seq(k, _ => m)
  }

  /** `a·b == a·c + d` whenever `b == c + d`: a product split along a sum. */
  lemma {:induction false} SplitFactor(a: real, b: real, c: real, d: real)
    requires b == c + d
    ensures a * b == a * c + a * d
  {
  }

  /** The integrator integrates: after any sequence of measurements, each
      command is its start value plus the gain times the sum of what its
      matrix row has seen. */
  lemma {:induction false} IntegratorSums(commands: Vector, gain: real, matrix: Matrix, ms: seq<Vector>, cols: nat, i: nat)
    requires Shape(matrix, |commands|, cols)
    requires forall t :: 0 <= t < |ms| ==> |ms[t]| == cols
    requires i < |commands|
    ensures IntegrateAll(commands, gain, matrix, ms)[i] == commands[i] + gain * SumDots(matrix[i], ms)
  {
    if |ms| > 0 {
      var n := |ms| - 1;
      var before := IntegrateAll(commands, gain, matrix, ms[..n]);
      var seen, latest := SumDots(matrix[i], ms[..n]), Dot(matrix[i], ms[n]);
      IntegratorSums(commands, gain, matrix, ms[..n], cols, i);
      assert IntegrateAll(commands, gain, matrix, ms) == Integrate(before, gain, matrix, ms[n]);
      SplitFactor(gain, SumDots(matrix[i], ms), seen, latest);
    }
  }

  /** Until a control matrix is set, the commands stay zero however many
      measurements arrive. */
  lemma {:induction false} FreshControllerStaysZero(nCommands: nat, nMeasurements: nat, gain: real, ms: seq<Vector>)
    requires forall t :: 0 <= t < |ms| ==> |ms[t]| == nMeasurements
    ensures IntegrateAll(Zeros(nCommands), gain, ZeroMatrix(nCommands, nMeasurements), ms) == Zeros(nCommands)
  {
    if |ms| > 0 {
      var n := |ms| - 1;
      FreshControllerStaysZero(nCommands, nMeasurements, gain, ms[..n]);
      ZeroMatrixAnnihilates(nCommands, nMeasurements, ms[n]);
      ScaleZeros(gain, nCommands);
      AddZeros(Zeros(nCommands));
    }
  }

  /** Two steps from zero with the same inputs give twice the first. */
  lemma {:induction false} TwoStepsDouble(nCommands: nat, gain: real, matrix: Matrix, m: Vector)
    requires Shape(matrix, nCommands, |m|)
    ensures Integrate(Integrate(Zeros(nCommands), gain, matrix, m), gain, matrix, m)
            == Scale(2.0, Integrate(Zeros(nCommands), gain, matrix, m))
  {
    var once := Integrate(Zeros(nCommands), gain, matrix, m);
    var twice := Integrate(once, gain, matrix, m);
    assert forall i :: 0 <= i < nCommands ==> twice[i] == 2.0 * once[i];
  }

  /** A step is idempotent exactly when it adds nothing: when
      `gain·(matrix·m)` is the zero vector. */
  lemma {:induction false} StepIdempotentIff(commands: Vector, gain: real, matrix: Matrix, m: Vector)
    requires Shape(matrix, |commands|, |m|)
    ensures Integrate(Integrate(commands, gain, matrix, m), gain, matrix, m) == Integrate(commands, gain, matrix, m)
            <==> IsZero(Scale(gain, MatVec(matrix, m)))
  {
    var once := Integrate(commands, gain, matrix, m);
    var twice := Integrate(once, gain, matrix, m);
    var step := Scale(gain, MatVec(matrix, m));
    if twice == once {
      forall i | 0 <= i < |step| ensures step[i] == 0.0 {
        assert twice[i] == once[i] + step[i];
      }
    }
    if IsZero(step) {
      forall i | 0 <= i < |once| ensures twice[i] == once[i] {
        assert twice[i] == once[i] + step[i];
      }
    }
  }

  /** `k` steps from zero with the same inputs give `k` times `gain·(matrix·m)`. */
  lemma {:induction false} RepeatedSteps(nCommands: nat, gain: real, matrix: Matrix, m: Vector, k: nat, i: nat)
    requires Shape(matrix, nCommands, |m|) && i < nCommands
    ensures IntegrateAll(Zeros(nCommands), gain, matrix, Repeat(m, k))[i] == gain * (k as real * Dot(matrix[i], m))
  {
    IntegratorSums(Zeros(nCommands), gain, matrix, Repeat(m, k), |m|, i);
    SumDotsRepeat(matrix[i], m, k);
  }

  /** Seeing `m` `k` times sums to `k·(row·m)`. */
  lemma {:induction false} SumDotsRepeat(row: Vector, m: Vector, k: nat)
    requires |m| == |row|
    ensures SumDots(row, Repeat(m, k)) == k as real * Dot(row, m)
  {
    if k > 0 {
      assert Repeat(m, k)[..k - 1] == Repeat(m, k - 1);
      SumDotsRepeat(row, m, k - 1);
    }
  }

  /** One step of the control law as the controller evaluates it, in `f32`:
      `commands + gain·(matrix·m)`. */
  function Update(commands: F32Vector, gain: real, matrix: Matrix, m: F32Vector): (r: F32Vector)
    requires Shape(matrix, |commands|, |m|)
    ensures |r| == |commands|
  {
    AddF32(commands, ScaleF32(gain, MatVecF32(matrix, m)))
  }

  /** The `f32` commands after one step per measurement of `ms`, in order. */
  function UpdateAll(commands: F32Vector, gain: real, matrix: Matrix, ms: seq<F32Vector>): (r: F32Vector)
    requires forall t :: 0 <= t < |ms| ==> Shape(matrix, |commands|, |ms[t]|)
    ensures |r| == |commands|
  {
    if |ms| == 0 then commands
    else Update(UpdateAll(commands, gain, matrix, ms[..|ms| - 1]), gain, matrix, ms[|ms| - 1])
  }

  /** The numbers of a sequence of finite measurements. */
  function AllValues(ms: seq<F32Vector>): (vs: seq<Vector>)
    requires forall t :: 0 <= t < |ms| ==> Finite(ms[t])
    ensures |vs| == |ms|
    ensures forall t :: 0 <= t < |ms| ==> vs[t] == Values(ms[t])
  {
    seq(|ms|, t requires 0 <= t < |ms| => Values(ms[t]))
  }

  /** On finite commands and a finite measurement the `f32` step is the
      exact integrator step. */
  lemma {:induction false} UpdateFinite(commands: F32Vector, gain: real, matrix: Matrix, m: F32Vector)
    requires Shape(matrix, |commands|, |m|) && Finite(commands) && Finite(m)
    ensures Update(commands, gain, matrix, m) == Lift(Integrate(Values(commands), gain, matrix, Values(m)))
  {
    var r := Update(commands, gain, matrix, m);
    var exact := Integrate(Values(commands), gain, matrix, Values(m));
    forall i | 0 <= i < |commands| ensures r[i] == Some(exact[i]) {
      DotF32Exact(matrix[i], m);
      assert r[i].Some? && r[i].value == exact[i];
    }
  }

  /** One non-finite measurement entry makes every command non-finite: it
      enters every row's inner product. */
  lemma {:induction false} UpdateNonFinite(commands: F32Vector, gain: real, matrix: Matrix, m: F32Vector)
    requires Shape(matrix, |commands|, |m|) && !Finite(m)
    ensures Update(commands, gain, matrix, m) == NonFinite(|commands|)
  {
    forall i | 0 <= i < |commands| ensures Update(commands, gain, matrix, m)[i] == None {
      DotF32Exact(matrix[i], m);
    }
  }

  /** Non-finite commands stay non-finite, whatever the measurement. */
  lemma {:induction false} UpdateStaysNonFinite(n: nat, gain: real, matrix: Matrix, m: F32Vector)
    requires Shape(matrix, n, |m|)
    ensures Update(NonFinite(n), gain, matrix, m) == NonFinite(n)
  {
  }

  /** While every measurement is finite, the `f32` commands are the exact
      integral of the measurements. */
  lemma {:induction false} UpdateAllFinite(commands: F32Vector, gain: real, matrix: Matrix, ms: seq<F32Vector>)
    requires Finite(commands)
    requires forall t :: 0 <= t < |ms| ==> Finite(ms[t]) && Shape(matrix, |commands|, |ms[t]|)
    ensures UpdateAll(commands, gain, matrix, ms) == Lift(IntegrateAll(Values(commands), gain, matrix, AllValues(ms)))
  {
    if |ms| > 0 {
      var n := |ms| - 1;
      var before := IntegrateAll(Values(commands), gain, matrix, AllValues(ms[..n]));
      UpdateAllFinite(commands, gain, matrix, ms[..n]);
      assert AllValues(ms)[..n] == AllValues(ms[..n]);
      UpdateFinite(Lift(before), gain, matrix, ms[n]);
      ValuesOfLift(before);
    }
  }

  /** One non-finite entry anywhere in the measurements leaves every command
      non-finite for good. */
  lemma {:induction false} UpdateAllNonFinite(commands: F32Vector, gain: real, matrix: Matrix, ms: seq<F32Vector>, t: nat)
    requires forall s :: 0 <= s < |ms| ==> Shape(matrix, |commands|, |ms[s]|)
    requires t < |ms| && !Finite(ms[t])
    ensures UpdateAll(commands, gain, matrix, ms) == NonFinite(|commands|)
  {
    var n := |ms| - 1;
    var before := UpdateAll(commands, gain, matrix, ms[..n]);
    if t == n {
      UpdateNonFinite(before, gain, matrix, ms[n]);
    } else {
      UpdateAllNonFinite(commands, gain, matrix, ms[..n], t);
      UpdateStaysNonFinite(|commands|, gain, matrix, ms[n]);
    }
  }

  /** A controller as constructed, with its zero matrix: its `f32`
      commands stay zero while every measurement is finite. A single
      non-finite measurement turns them all non-finite instead
      (`UpdateAllNonFinite`). */
  lemma {:induction false} FreshControllerStaysZeroWhileFinite(nCommands: nat, nMeasurements: nat, gain: real, ms: seq<F32Vector>)
    requires forall t :: 0 <= t < |ms| ==> Finite(ms[t]) && |ms[t]| == nMeasurements
    ensures UpdateAll(Lift(Zeros(nCommands)), gain, ZeroMatrix(nCommands, nMeasurements), ms) == Lift(Zeros(nCommands))
  {
    UpdateAllFinite(Lift(Zeros(nCommands)), gain, ZeroMatrix(nCommands, nMeasurements), ms);
    ValuesOfLift(Zeros(nCommands));
    FreshControllerStaysZero(nCommands, nMeasurements, gain, AllValues(ms));
  }

  /** The controller's state: gain, control matrix (one row per command,
      one column per measurement) and the running command vector. */
  class IntegratorController {
    const nMeasurements: nat
    const nCommands: nat
    var gain: real
    var controlMatrix: Matrix
    var actuatorCommands: F32Vector

    /** The command vector always has one entry per command. */
    predicate Valid()
      reads this
    {
      |actuatorCommands| == nCommands
    }

    /** A zero `nCommands × nMeasurements` matrix and zero commands. */
    constructor (nMeasurements: nat, nCommands: nat, gain: real)
      ensures Valid()
      ensures this.nMeasurements == nMeasurements && this.nCommands == nCommands
      ensures this.gain == gain
      ensures controlMatrix == ZeroMatrix(nCommands, nMeasurements)
      ensures actuatorCommands == Lift(Zeros(nCommands))
    {
      this.nMeasurements := nMeasurements;
      this.nCommands := nCommands;
      this.gain := gain;
      controlMatrix := ZeroMatrix(nCommands, nMeasurements);
      actuatorCommands := Lift(Zeros(nCommands));
    }

    /** Replaces the matrix; no shape is checked. */
    method SetControlMatrix(controlMatrix: Matrix)
      requires Valid()
      modifies this
      ensures Valid()
      ensures GetControlMatrix() == controlMatrix
      ensures gain == old(gain) && actuatorCommands == old(actuatorCommands)
    {
      this.controlMatrix := controlMatrix;
    }

    /** The stored control matrix. */
    function GetControlMatrix(): (m: Matrix)
      reads this
      ensures m == controlMatrix
    {
      controlMatrix
    }

    method SetGain(gain: real)
      requires Valid()
      modifies this
      ensures Valid()
      ensures GetGain() == gain
      ensures controlMatrix == old(controlMatrix) && actuatorCommands == old(actuatorCommands)
    {
      this.gain := gain;
    }

    /** The stored gain. */
    function GetGain(): (g: real)
      reads this
      ensures g == gain
    {
      gain
    }

    /** Adds `gain·(controlMatrix·measurements)` to the stored commands in
        `f32` and returns a copy of the new commands. */
    method ComputeCommands(measurements: F32Vector) returns (commands: F32Vector)
      requires Valid() && Shape(controlMatrix, |actuatorCommands|, |measurements|)
      modifies this
      ensures Valid()
      ensures actuatorCommands == Update(old(actuatorCommands), old(gain), old(controlMatrix), measurements)
      ensures commands == actuatorCommands
      ensures gain == old(gain) && controlMatrix == old(controlMatrix)
    {
      actuatorCommands := AddF32(actuatorCommands, ScaleF32(gain, MatVecF32(controlMatrix, measurements)));
      commands := actuatorCommands;
    }
  }
}
