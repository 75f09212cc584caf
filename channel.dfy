/**
 * Generation of one BB84 transmission per key bit: Alice's random bit and
 * basis, Bob's random basis and Bob's measurement. Every call to the
 * platform's random number generator is an explicit `Draw` here.
 */
module Channel {
  import opened Encoding

  /** One value of the random number generator: a number in [0, 1). */
  type Draw = r: real | 0.0 <= r < 1.0

  /** Below this draw a bit measured in Alice's own basis arrives unchanged (a 5% flip otherwise). */
  const KeepThreshold: real := 0.95

  /** A random bit: 0 when the draw is below one half, 1 otherwise. */
  function RandomBit(u: Draw): (b: Bit)
    ensures b == 0 <==> u < 0.5
  {
    if u < 0.5 then 0 else 1
  }

  /** A random basis: rectilinear when the draw is below one half, diagonal otherwise. */
  function RandomBasis(u: Draw): (basis: Basis)
    ensures basis == Rectilinear <==> u < 0.5
  {
    if u < 0.5 then Rectilinear else Diagonal
  }

  /**
   * Bob's measurement. In Alice's basis he reads her bit unless the draw
   * reaches KeepThreshold, in which case he reads its complement; in the
   * other basis his result is a fresh random bit.
   */
  function MeasureBit(aliceBit: Bit, aliceBasis: Basis, bobBasis: Basis, u: Draw): (r: Bit)
    ensures aliceBasis == bobBasis ==> (r == aliceBit <==> u < KeepThreshold)
    ensures aliceBasis == bobBasis && u >= KeepThreshold ==> r == 1 - aliceBit
    ensures aliceBasis != bobBasis ==> r == RandomBit(u)
  {
    if aliceBasis == bobBasis then
      if u < KeepThreshold then aliceBit else 1 - aliceBit
    else
      RandomBit(u)
  }

  /** With mismatched bases the measurement does not depend on Alice's bit at all. */
  lemma MismatchIndependentOfAliceBit(aliceBasis: Basis, bobBasis: Basis, u: Draw)
    requires aliceBasis != bobBasis
    ensures MeasureBit(0, aliceBasis, bobBasis, u) == MeasureBit(1, aliceBasis, bobBasis, u)
  {
  }

  /** The four draws one loop iteration makes, in the order it makes them. */
  datatype Roll = Roll(aliceBit: Draw, aliceBasis: Draw, bobBasis: Draw, measurement: Draw)

  /** One row of the simulation: what Alice sent, what Bob measured, and how sifting classifies it. */
  datatype BitTransmission = BitTransmission(
    aliceBit: Bit,
    aliceBasis: Basis,
    alicePolarization: string,
    bobBasis: Basis,
    bobMeasurement: Bit,
    basisMatch: bool,
    kept: bool,
    error: bool)

  /** The relations every generated record satisfies between its fields. */
  predicate WellFormed(t: BitTransmission)
  {
    && t.basisMatch == (t.aliceBasis == t.bobBasis)
    && t.kept == t.basisMatch
    && t.error == (t.basisMatch && t.aliceBit != t.bobMeasurement)
    && t.alicePolarization == Polarization(t.aliceBit, t.aliceBasis)
  }

  /** The record one loop iteration of the simulation pushes, given its draws. */
  function Transmit(roll: Roll): (t: BitTransmission)
    ensures WellFormed(t)
    ensures t.aliceBit == RandomBit(roll.aliceBit)
    ensures t.aliceBasis == RandomBasis(roll.aliceBasis)
    ensures t.bobBasis == RandomBasis(roll.bobBasis)
    ensures t.error <==> t.basisMatch && roll.measurement >= KeepThreshold
    ensures !t.basisMatch ==> t.bobMeasurement == RandomBit(roll.measurement)
  {
    var aliceBit := RandomBit(roll.aliceBit);
    var aliceBasis := RandomBasis(roll.aliceBasis);
    var bobBasis := RandomBasis(roll.bobBasis);
    var bobMeasurement := MeasureBit(aliceBit, aliceBasis, bobBasis, roll.measurement);
    var basisMatch := aliceBasis == bobBasis;
    var error := basisMatch && aliceBit != bobMeasurement;
    BitTransmission(aliceBit, aliceBasis, Polarization(aliceBit, aliceBasis),
                    bobBasis, bobMeasurement, basisMatch, basisMatch, error)
  }

  /** The records of a whole run, one per roll, in order. */
  function Transmissions(rolls: seq<Roll>): (ts: seq<BitTransmission>)
    ensures |ts| == |rolls|
    ensures forall i :: 0 <= i < |ts| ==> WellFormed(ts[i])
  {
    seq(|rolls|, i requires 0 <= i < |rolls| => Transmit(rolls[i]))
  }

  /** Rolls whose bases agree and whose measurement draw triggers the 5% flip. */
  function Flips(rolls: seq<Roll>): (n: nat)
    ensures n <= |rolls|
  {
    if rolls == [] then 0
    else
      var r := rolls[0];
      (if RandomBasis(r.aliceBasis) == RandomBasis(r.bobBasis) && r.measurement >= KeepThreshold then 1 else 0)
      + Flips(rolls[1..])
  }

  /** The records of a run split at its first roll. */
  lemma TransmissionsCons(rolls: seq<Roll>)
    requires rolls != []
    ensures Transmissions(rolls) == [Transmit(rolls[0])] + Transmissions(rolls[1..])
  {
  }
}
