/**
 * The simulation session: the generated records, the step cursor used by
 * step-by-step mode, and the flags for the results panel and a running
 * quick run. Animation delays are not part of the state.
 */
module Session {
  import opened Wrappers
  import opened Encoding
  import opened Channel

  /** Key length the page starts with. */
  const DefaultKeyLength: nat := 8

  /** The record on show at a step: none before the first step, the step-th record after it. */
  function CurrentTransmission(ts: seq<BitTransmission>, step: nat): (r: Option<BitTransmission>)
    ensures r.Some? <==> 1 <= step <= |ts|
    ensures r.Some? ==> r.value == ts[step - 1]
  {
    if step == 0 || |ts| == 0 then None
    // past the end the array read yields undefined, which the page treats like null
    else if step <= |ts| then Some(ts[step - 1])
    else None
  }

  class Simulation {
    var keyLength: nat
    var transmissions: seq<BitTransmission>
    var currentStep: nat
    var showResults: bool
    var isRunning: bool

    /**
     * The cursor never passes the last record, the results are open only
     * once every record is revealed, and every record is a generated one.
     */
    ghost predicate Valid()
      reads this
    {
      && currentStep <= |transmissions|
      && (showResults ==> currentStep == |transmissions|)
      && forall i :: 0 <= i < |transmissions| ==> WellFormed(transmissions[i])
    }

    /** The initial page state. */
    constructor ()
      ensures Valid()
      ensures keyLength == DefaultKeyLength && transmissions == [] && currentStep == 0
      ensures !showResults && !isRunning
    {
      keyLength := DefaultKeyLength;
      transmissions := [];
      currentStep := 0;
      showResults := false;
      isRunning := false;
    }

    /** Choosing a key length; the records already generated stay as they are. */
    method SetKeyLength(n: nat)
      requires Valid()
      modifies this
      ensures Valid()
      ensures keyLength == n
      ensures transmissions == old(transmissions) && currentStep == old(currentStep)
      ensures showResults == old(showResults) && isRunning == old(isRunning)
    {
      keyLength := n;
    }

    /** Generates one record per key bit from the given draws and rewinds the cursor. */
    method RunSimulation(rolls: seq<Roll>)
      requires Valid()
      requires |rolls| == keyLength
      modifies this
      ensures Valid()
      ensures transmissions == Transmissions(rolls)
      ensures currentStep == 0 && !showResults
      ensures keyLength == old(keyLength) && isRunning == old(isRunning)
    {
      var newTransmissions: seq<BitTransmission> := [];
      for i := 0 to keyLength
        invariant |newTransmissions| == i
        invariant forall k :: 0 <= k < i ==> newTransmissions[k] == Transmit(rolls[k])
      {
        var roll := rolls[i];
        var aliceBit := RandomBit(roll.aliceBit);
        var aliceBasis := RandomBasis(roll.aliceBasis);
        var bobBasis := RandomBasis(roll.bobBasis);
        var bobMeasurement := MeasureBit(aliceBit, aliceBasis, bobBasis, roll.measurement);
        var basisMatch := aliceBasis == bobBasis;
        var error := basisMatch && aliceBit != bobMeasurement;
        newTransmissions := newTransmissions + [BitTransmission(
          aliceBit, aliceBasis, Polarization(aliceBit, aliceBasis),
          bobBasis, bobMeasurement, basisMatch, basisMatch, error)];
      }
      transmissions := newTransmissions;
      currentStep := 0;
      showResults := false;
    }

    /** Reveals the next record, or opens the results once every record is revealed. */
    method NextStep()
      requires Valid()
      modifies this
      ensures Valid()
      ensures old(currentStep) < |transmissions| ==> currentStep == old(currentStep) + 1 && showResults == old(showResults)
      ensures old(currentStep) == |transmissions| ==> currentStep == old(currentStep) && showResults
      ensures transmissions == old(transmissions) && keyLength == old(keyLength) && isRunning == old(isRunning)
      ensures CurrentTransmission(transmissions, currentStep).Some? <==> currentStep > 0
    {
      if currentStep < |transmissions| {
        currentStep := currentStep + 1;
      } else {
        showResults := true;
      }
    }

    /** Goes back one record and hides the results; does nothing at step 0. */
    method PrevStep()
      requires Valid()
      modifies this
      ensures Valid()
      ensures old(currentStep) > 0 ==> currentStep == old(currentStep) - 1 && !showResults
      ensures old(currentStep) == 0 ==> currentStep == 0 && showResults == old(showResults)
      ensures transmissions == old(transmissions) && keyLength == old(keyLength) && isRunning == old(isRunning)
    {
      if currentStep > 0 {
        currentStep := currentStep - 1;
        showResults := false;
      }
    }

    /** Discards the run. */
    method ResetSimulation()
      requires Valid()
      modifies this
      ensures Valid()
      ensures transmissions == [] && currentStep == 0 && !showResults && !isRunning
      ensures keyLength == old(keyLength)
      ensures CurrentTransmission(transmissions, currentStep) == None
    {
      transmissions := [];
      currentStep := 0;
      showResults := false;
      isRunning := false;
    }

    /** Quick run: generates the records, steps the cursor through all of them and shows the results. */
    method RunAutoSimulation(rolls: seq<Roll>)
      requires Valid()
      requires |rolls| == keyLength
      modifies this
      ensures Valid()
      ensures transmissions == Transmissions(rolls)
      ensures currentStep == keyLength == |transmissions|
      ensures showResults && !isRunning
      ensures keyLength == old(keyLength)
      ensures keyLength > 0 ==> CurrentTransmission(transmissions, currentStep) == Some(transmissions[keyLength - 1])
    {
      isRunning := true;
      RunSimulation(rolls);
      for i := 0 to keyLength + 1
        invariant Valid()
        invariant transmissions == Transmissions(rolls) && keyLength == |rolls| && !showResults
        invariant i > 0 ==> currentStep == i - 1
      {
        currentStep := i;
      }
      showResults := true;
      isRunning := false;
    }
  }
}
