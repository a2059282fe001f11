/**
  The simulated deformable mirror: an actuator buffer that is overwritten
  wholesale with each command vector and copied out on request.
*/
module FakeDm {
  import opened Vectors
  import opened Floats

  class DM {
    /** The actuator count given at construction; nothing reassigns it. */
    const nActs: nat
    /** The last command vector applied, non-finite entries included. */
    var actBuffer: F32Vector

    /** A buffer of `nActs` zeros. */
    constructor (nActs: nat)
      ensures this.nActs == nActs
      ensures GetActuators() == Lift(Zeros(nActs))
    {
      this.nActs := nActs;
      actBuffer := Lift(Zeros(nActs));
    }

    /** Replaces the whole buffer with a copy of `actuatorValues`, whatever
        its length: neither `nActs` nor the previous contents constrain it. */
    method SetActuators(actuatorValues: F32Vector)
      modifies this
      ensures GetActuators() == actuatorValues
    {
      actBuffer := actuatorValues;
    }

    /** A copy of the buffer. */
    function GetActuators(): (a: F32Vector)
      reads this
      ensures a == actBuffer
    {
      actBuffer
    }
  }
}
