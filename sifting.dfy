/**
 * Sifting and analysis of a completed run: the number of basis-matched
 * records, the errors among them, the quantum bit error rate (QBER), the
 * final key and the security verdict. QBER is an exact rational here.
 */
module Sifting {
  import opened Encoding
  import opened Channel

  /** Percentage at and above which the key is reported as potentially compromised. */
  const SecurityThreshold: real := 11.0

  /** Number of records whose bases matched. */
  function Matched(ts: seq<BitTransmission>): (n: nat)
    ensures n <= |ts|
  {
    if ts == [] then 0
    else (if ts[0].basisMatch then 1 else 0) + Matched(ts[1..])
  }

  /** Number of basis-matched records that are flagged as errors. */
  function Errors(ts: seq<BitTransmission>): (n: nat)
    ensures n <= Matched(ts)
  {
    if ts == [] then 0
    else (if ts[0].basisMatch && ts[0].error then 1 else 0) + Errors(ts[1..])
  }

  /** Number of records flagged `kept`. */
  function KeptCount(ts: seq<BitTransmission>): (n: nat)
    ensures n <= |ts|
  {
    if ts == [] then 0
    else (if ts[0].kept then 1 else 0) + KeptCount(ts[1..])
  }

  /** QBER in percent: errors over matched records, and 0 when no record matched. */
  function Qber(ts: seq<BitTransmission>): (q: real)
    ensures 0.0 <= q <= 100.0
    ensures Matched(ts) == 0 || Errors(ts) == 0 <==> q == 0.0
    ensures Matched(ts) > 0 ==> q * Matched(ts) as real == 100.0 * Errors(ts) as real
  {
    var m := Matched(ts);
    var e := Errors(ts);
    if m > 0 then
      PercentFacts(e as real, m as real);
      (e as real / m as real) * 100.0
    else
      0.0
  }

  /** The arithmetic behind Qber: e/m*100 scaled back by m, and its range when 0 <= e <= m. */
  lemma PercentFacts(e: real, m: real)
    requires 0.0 <= e <= m && m > 0.0
    ensures (e / m) * 100.0 * m == 100.0 * e
    ensures 0.0 <= (e / m) * 100.0 <= 100.0
    ensures (e / m) * 100.0 == 0.0 <==> e == 0.0
  {
  }

  /** A percentage q = 100e/m lies below the threshold exactly when 100e < 11m. */
  lemma ThresholdCrossMultiplied(q: real, e: nat, m: nat)
    requires m > 0 && q * m as real == 100.0 * e as real
    ensures q < SecurityThreshold <==> 100 * e < 11 * m
  {
  }

  /** The security verdict: secure exactly when QBER is strictly below the threshold. */
  function IsSecure(ts: seq<BitTransmission>): (secure: bool)
    ensures secure <==> Matched(ts) == 0 || 100 * Errors(ts) < 11 * Matched(ts)
  {
    var q := Qber(ts);
    if Matched(ts) > 0 then
      ThresholdCrossMultiplied(q, Errors(ts), Matched(ts));
      q < SecurityThreshold
    else
      q < SecurityThreshold
  }

  /** The character a bit contributes when the key is joined into a string. */
  function BitChar(b: Bit): (c: char)
    ensures c == '0' || c == '1'
    ensures (c == '0') == (b == 0)
  {
    if b == 0 then '0' else '1'
  }

  /** The final key: Alice's bits of the basis-matched, error-free records, joined in order. */
  function FinalKey(ts: seq<BitTransmission>): (key: string)
    ensures |key| == Matched(ts) - Errors(ts)
    ensures forall i :: 0 <= i < |key| ==> key[i] == '0' || key[i] == '1'
  {
    if ts == [] then ""
    else
      var t := ts[0];
      (if t.basisMatch && !t.error then [BitChar(t.aliceBit)] else []) + FinalKey(ts[1..])
  }

  /** The same selection of records read with Bob's measurements instead of Alice's bits. */
  function BobKey(ts: seq<BitTransmission>): (key: string)
  {
    if ts == [] then ""
    else
      var t := ts[0];
      (if t.basisMatch && !t.error then [BitChar(t.bobMeasurement)] else []) + BobKey(ts[1..])
  }

  /** The final key keeps the order of the records: it distributes over concatenation. */
  lemma {:induction false} FinalKeyAppend(a: seq<BitTransmission>, b: seq<BitTransmission>)
    ensures FinalKey(a + b) == FinalKey(a) + FinalKey(b)
  {
    if a == [] {
      assert a + b == b;
    } else {
      assert (a + b)[1..] == a[1..] + b;
      FinalKeyAppend(a[1..], b);
    }
  }

  /** On generated records Bob holds the same key as Alice. */
  lemma {:induction false} SharedKey(ts: seq<BitTransmission>)
    requires forall i :: 0 <= i < |ts| ==> WellFormed(ts[i])
    ensures BobKey(ts) == FinalKey(ts)
  {
    if ts != [] {
      assert WellFormed(ts[0]);
      SharedKey(ts[1..]);
    }
  }

  /** On generated records `kept` marks the matched records, errors included. */
  lemma {:induction false} KeptIsMatched(ts: seq<BitTransmission>)
    requires forall i :: 0 <= i < |ts| ==> WellFormed(ts[i])
    ensures KeptCount(ts) == Matched(ts)
    ensures |FinalKey(ts)| <= KeptCount(ts)
    ensures |FinalKey(ts)| == KeptCount(ts) <==> Errors(ts) == 0
  {
    if ts != [] {
      assert WellFormed(ts[0]);
      KeptIsMatched(ts[1..]);
    }
  }

  /** The errors of a run are exactly its rolls that drew the 5% flip in matching bases. */
  lemma {:induction false} ErrorsAreFlips(rolls: seq<Roll>)
    ensures Errors(Transmissions(rolls)) == Flips(rolls)
    ensures Matched(Transmissions(rolls)) >= Flips(rolls)
  {
    if rolls != [] {
      TransmissionsCons(rolls);
      ErrorsAreFlips(rolls[1..]);
      assert Transmissions(rolls)[1..] == Transmissions(rolls[1..]);
    }
  }

  /** Without a flip draw the run has no error: QBER 0, secure, and every matched bit is in the key. */
  lemma NoFlipsNoErrors(rolls: seq<Roll>)
    requires forall i :: 0 <= i < |rolls| ==> rolls[i].measurement < KeepThreshold
    ensures Qber(Transmissions(rolls)) == 0.0
    ensures IsSecure(Transmissions(rolls))
    ensures |FinalKey(Transmissions(rolls))| == Matched(Transmissions(rolls))
  {
    NoFlipsCount(rolls);
    ErrorsAreFlips(rolls);
  }

  lemma {:induction false} NoFlipsCount(rolls: seq<Roll>)
    requires forall i :: 0 <= i < |rolls| ==> rolls[i].measurement < KeepThreshold
    ensures Flips(rolls) == 0
  {
    if rolls != [] {
      NoFlipsCount(rolls[1..]);
    }
  }
}
