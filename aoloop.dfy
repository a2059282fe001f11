/**
  The adaptive-optics loop: while running, each iteration takes one frame
  per camera, measures every wavefront sensor on its camera's frame, feeds
  the first sensor's measurement to the controller, applies the resulting
  commands to every deformable mirror and counts the iteration.
*/
module ControlLoop {
  import opened Wrappers
  import opened Vectors
  import opened Floats
  import opened Controller
  import opened FakeDm
  import Wfs

  /** One past the largest value of an unsigned 64-bit counter. */
  const U64_MODULUS: nat := 0x1_0000_0000_0000_0000

  type U64 = n: nat | n < U64_MODULUS

  /** An atomic `fetch_add(1)` on a 64-bit counter: it wraps to zero. */
  function Increment(n: U64): U64 {
    if n + 1 == U64_MODULUS then 0 else n + 1
  }

  /** The counter after `k` increments from `n`. */
  function Iterate(n: U64, k: nat): U64 {
    if k == 0 then n else Increment(Iterate(n, k - 1))
  }

  /** One more increment extends the count by one. */
  lemma {:induction false} IterateNext(n: U64, k: nat, before: U64, after: U64)
    requires before == Iterate(n, k) && after == Increment(before)
    ensures after == Iterate(n, k + 1)
  {
  }

  /** Incrementing a residue gives the residue of the successor. */
  lemma {:induction false} IncrementMod(a: nat)
    ensures Increment(a % U64_MODULUS) == (a + 1) % U64_MODULUS
  {
  }

  /** `k` iterations advance the counter by `k`, modulo 2^64. */
  lemma {:induction false} IterateAdds(n: U64, k: nat)
    ensures Iterate(n, k) == (n + k) % U64_MODULUS
  {
    if k > 0 {
      IterateAdds(n, k - 1);
      IncrementMod(n + k - 1);
    }
  }

  /** Below 2^64 iterations from zero, the counter is exactly the number of
      iterations. */
  lemma {:induction false} CounterCountsIterations(k: nat)
    requires k < U64_MODULUS
    ensures Iterate(0, k) == k
  {
    IterateAdds(0, k);
  }

  /** The loop's running flag. */
  datatype LoopState = Stopped | Running

  /** A wavefront sensor and the index of the camera whose frames it reads. */
  datatype Sensor = Sensor(wfs: Wfs.ShackHartmann, detectorId: nat)

  /** The camera of sensor `s` is among `frames`, and its subapertures fit
      that camera's frame. */
  predicate Sees(s: Sensor, frames: seq<Wfs.Frame>) {
    Wfs.Valid(s.wfs) && s.detectorId < |frames| && Wfs.Observes(s.wfs, frames[s.detectorId])
  }

  /** What sensor `s` measures when the cameras deliver `frames`: with
      `measure` as written (`corrected` false) or as intended. */
  function SensorMeasurement(s: Sensor, frames: seq<Wfs.Frame>, corrected: bool): (m: F32Vector)
    requires Sees(s, frames)
    ensures |m| == s.wfs.nMeasurements
  {
    Wfs.Measurement(s.wfs, frames[s.detectorId], corrected)
  }

  class AOLoop {
    const nCameras: nat
    const sensors: seq<Sensor>
    const controller: IntegratorController
    const dms: seq<DM>
    var state: LoopState
    var iterationNumber: U64

    predicate Valid()
      reads this, controller
    {
      controller.Valid()
    }

    /** The controller's matrix can take the first sensor's measurements. */
    predicate Wired()
      reads controller
    {
      |sensors| > 0 &&
      Shape(controller.controlMatrix, controller.nCommands, sensors[0].wfs.nMeasurements)
    }

    /** `frames` holds one frame per camera, and every sensor's camera
        exists and its subapertures fit that camera's frame. */
    predicate Ready(frames: seq<Wfs.Frame>) {
      |frames| == nCameras &&
      forall k :: 0 <= k < |sensors| ==> Sees(sensors[k], frames)
    }

    /** Every batch of a run is ready for the sensors. */
    predicate ReadyAll(batches: seq<seq<Wfs.Frame>>) {
      forall b, k :: 0 <= b < |batches| && 0 <= k < |sensors| ==>
        |batches[b]| == nCameras && Sees(sensors[k], batches[b])
    }

    /** Every mirror holds `commands`. */
    predicate Applied(commands: F32Vector)
      reads set d | d in dms
    {
      forall k :: 0 <= k < |dms| ==> dms[k].actBuffer == commands
    }

    /** A stopped loop whose counter is zero. */
    constructor (nCameras: nat, sensors: seq<Sensor>, controller: IntegratorController, dms: seq<DM>)
      requires controller.Valid()
      ensures Valid()
      ensures this.nCameras == nCameras && this.sensors == sensors
      ensures this.controller == controller && this.dms == dms
      ensures state == Stopped && GetIterationNumber() == 0
    {
      this.nCameras := nCameras;
      this.sensors := sensors;
      this.controller := controller;
      this.dms := dms;
      state := Stopped;
      iterationNumber := 0;
    }

    /** Raises the running flag; the counter keeps its value. */
    method StartLoop()
      modifies this
      ensures state == Running && iterationNumber == old(iterationNumber)
    {
      state := Running;
    }

    /** Lowers the running flag; no iteration starts after it. */
    method StopLoop()
      modifies this
      ensures state == Stopped && iterationNumber == old(iterationNumber)
    {
      state := Stopped;
    }

    /** The number of completed iterations, modulo 2^64. */
    function GetIterationNumber(): (n: U64)
      reads this
      ensures n == iterationNumber
    {
      iterationNumber
    }

    /** One pass of the loop body: measure every sensor on its camera's
        frame, feed the first sensor's measurement to the controller, apply
        the commands it returns to every mirror, count the iteration. */
    method Step(frames: seq<Wfs.Frame>, corrected: bool)
      requires Valid() && Wired() && Ready(frames)
      modifies this, controller, set d | d in dms
      ensures Valid() && state == old(state)
      ensures controller.gain == old(controller.gain) && controller.controlMatrix == old(controller.controlMatrix)
      ensures controller.actuatorCommands
                == Update(old(controller.actuatorCommands), controller.gain, controller.controlMatrix,
                          SensorMeasurement(sensors[0], frames, corrected))
      ensures Applied(controller.actuatorCommands)
      ensures iterationNumber == Increment(old(iterationNumber))
    {
      var measurements := MeasureAll(frames, corrected);
      var commands := controller.ComputeCommands(measurements[0]);
      ApplyToAll(commands);
      iterationNumber := Increment(iterationNumber);
    }

    /** One measurement per sensor, in sensor order, each on its camera's
        frame. */
    method MeasureAll(frames: seq<Wfs.Frame>, corrected: bool) returns (measurements: seq<F32Vector>)
      requires Ready(frames)
      ensures |measurements| == |sensors|
      ensures forall j :: 0 <= j < |sensors| ==> measurements[j] == SensorMeasurement(sensors[j], frames, corrected)
    {
      measurements := [];
      for k := 0 to |sensors|
        invariant |measurements| == k
        invariant forall j :: 0 <= j < k ==> measurements[j] == SensorMeasurement(sensors[j], frames, corrected)
      {
        var m;
        if corrected {
          m := Wfs.MeasureCorrected(sensors[k].wfs, frames[sensors[k].detectorId]);
        } else {
          m := Wfs.Measure(sensors[k].wfs, frames[sensors[k].detectorId]);
        }
        measurements := measurements + [m];
      }
    }

    /** Every mirror receives the same command vector. */
    method ApplyToAll(commands: F32Vector)
      modifies set d | d in dms
      ensures Applied(commands)
    {
      for k := 0 to |dms|
        invariant forall j :: 0 <= j < k ==> dms[j].actBuffer == commands
      {
        dms[k].SetActuators(commands);
      }
    }

    /** The first sensor's readings over the first `n` batches of a run. */
    function Readings(batches: seq<seq<Wfs.Frame>>, n: nat, corrected: bool): (ms: seq<F32Vector>)
      requires |sensors| > 0 && n <= |batches| && ReadyAll(batches)
      ensures |ms| == n
      ensures forall b :: 0 <= b < n ==> ms[b] == SensorMeasurement(sensors[0], batches[b], corrected)
    {
      seq(n, b requires 0 <= b < n => SensorMeasurement(sensors[0], batches[b], corrected))
    }

    /** One more batch feeds one more reading to the controller. */
    lemma {:induction false} ReadingsStep(batches: seq<seq<Wfs.Frame>>, b: nat, corrected: bool, start: F32Vector, gain: real, matrix: Matrix)
      requires |sensors| > 0 && b < |batches| && ReadyAll(batches)
      requires Shape(matrix, |start|, sensors[0].wfs.nMeasurements)
      ensures UpdateAll(start, gain, matrix, Readings(batches, b + 1, corrected))
              == Update(UpdateAll(start, gain, matrix, Readings(batches, b, corrected)), gain, matrix,
                        SensorMeasurement(sensors[0], batches[b], corrected))
    {
      assert Readings(batches, b + 1, corrected)[..b] == Readings(batches, b, corrected);
    }

    /** The loop as written: with the sensor's maps as constructed, every
        reading of `measure` is non-finite, so after one pass every command
        is non-finite, and stays so. */
    lemma {:induction false} AsWrittenCommandsNonFinite(batches: seq<seq<Wfs.Frame>>, start: F32Vector, gain: real, matrix: Matrix)
      requires |sensors| > 0 && |batches| > 0 && ReadyAll(batches)
      requires Wfs.DefaultMaps(sensors[0].wfs) && sensors[0].wfs.nSubaps > 0
      requires Shape(matrix, |start|, sensors[0].wfs.nMeasurements)
      ensures UpdateAll(start, gain, matrix, Readings(batches, |batches|, false)) == NonFinite(|start|)
    {
      var ms := Readings(batches, |batches|, false);
      Wfs.AsWrittenUndefined(sensors[0].wfs, batches[0][sensors[0].detectorId]);
      assert ms[0][0] == None;
      UpdateAllNonFinite(start, gain, matrix, ms, 0);
    }

    /** The `while` loop over the running flag, fed with one batch of
        frames per pass: a running loop makes one pass per batch, a stopped
        loop none and changes nothing. The mirrors take the commands only
        when at least one pass is made. */
    method Run(batches: seq<seq<Wfs.Frame>>, corrected: bool)
      requires Valid()
      requires state == Running ==> Wired() && ReadyAll(batches)
      modifies this, controller, set d | d in dms
      ensures Valid() && state == old(state)
      ensures controller.gain == old(controller.gain) && controller.controlMatrix == old(controller.controlMatrix)
      ensures old(state) == Stopped ==>
                iterationNumber == old(iterationNumber) &&
                controller.actuatorCommands == old(controller.actuatorCommands) &&
                forall k :: 0 <= k < |dms| ==> dms[k].actBuffer == old(dms[k].actBuffer)
      ensures old(state) == Running ==>
                iterationNumber == Iterate(old(iterationNumber), |batches|) &&
                controller.actuatorCommands
                  == UpdateAll(old(controller.actuatorCommands), controller.gain, controller.controlMatrix,
                               Readings(batches, |batches|, corrected))
      ensures old(state) == Running && |batches| > 0 ==> Applied(controller.actuatorCommands)
      ensures |batches| == 0 ==> forall k :: 0 <= k < |dms| ==> dms[k].actBuffer == old(dms[k].actBuffer)
    {
      if state == Stopped {
        return;
      }
      ghost var count0, commands0 := iterationNumber, controller.actuatorCommands;
      ghost var gain, matrix := controller.gain, controller.controlMatrix;
      var b := 0;
      while b < |batches|
        invariant 0 <= b <= |batches|
        invariant Valid() && Wired() && state == Running
        invariant controller.gain == gain && controller.controlMatrix == matrix
        invariant iterationNumber == Iterate(count0, b)
        invariant controller.actuatorCommands == UpdateAll(commands0, gain, matrix, Readings(batches, b, corrected))
        invariant b > 0 ==> Applied(controller.actuatorCommands)
        invariant b == 0 ==> unchanged(set d | d in dms)
      {
        ghost var count := iterationNumber;
        Step(batches[b], corrected);
        IterateNext(count0, b, count, iterationNumber);
        ReadingsStep(batches, b, corrected, commands0, gain, matrix);
        b := b + 1;
      }
    }
  }
}
