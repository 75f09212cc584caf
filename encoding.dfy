/**
 * The fixed BB84 encoding of the simulator: the symbol shown for a basis,
 * the ket label of a (bit, basis) pair and its polarization glyph.
 * Each table comes with its inverse, so that the encoding is shown to be
 * one-to-one on the four qubit states.
 */
module Encoding {
  import opened Wrappers

  /** A bit as the simulator stores it: the number 0 or 1. */
  type Bit = b: int | 0 <= b <= 1

  /** The two bases, spelt 'rectilinear' and 'diagonal' in the source. */
  datatype Basis = Rectilinear | Diagonal

  /** One of the four states Alice can prepare. */
  datatype QubitState = QubitState(bit: Bit, basis: Basis)

  /** Symbol of a basis: '+' for rectilinear and '×' for anything else. */
  function BasisSymbol(basis: Basis): (c: char)
    ensures SymbolBasis(c) == Some(basis)
  {
    match basis
    case Rectilinear => '+'
    case Diagonal => '×'
  }

  /** Inverse of BasisSymbol: which basis a table symbol stands for. */
  function SymbolBasis(c: char): Option<Basis>
  {
    if c == '+' then Some(Rectilinear)
    else if c == '×' then Some(Diagonal)
    else None
  }

  /** The two ket labels of a basis, indexed by bit. */
  function BasisVectors(basis: Basis): (labels: seq<string>)
    ensures |labels| == 2
    ensures forall bit: Bit :: LabelState(labels[bit]) == Some(QubitState(bit, basis))
  {
    match basis
    case Rectilinear => ["|0⟩", "|1⟩"]
    case Diagonal => ["|+⟩", "|-⟩"]
  }

  /** The ket label the views show for a bit sent in a basis: `getBasisVectors(basis)[bit]`. */
  function Label(bit: Bit, basis: Basis): string
  {
    BasisVectors(basis)[bit]
  }

  /** Inverse of Label. */
  function LabelState(ket: string): Option<QubitState>
  {
    if ket == "|0⟩" then Some(QubitState(0, Rectilinear))
    else if ket == "|1⟩" then Some(QubitState(1, Rectilinear))
    else if ket == "|+⟩" then Some(QubitState(0, Diagonal))
    else if ket == "|-⟩" then Some(QubitState(1, Diagonal))
    else None
  }

  /** Polarization glyph of a bit sent in a basis. */
  function Polarization(bit: Bit, basis: Basis): (glyph: string)
    ensures GlyphState(glyph) == Some(QubitState(bit, basis))
    ensures |glyph| == 1
  {
    match basis
    case Rectilinear => if bit == 0 then "↑" else "→"
    case Diagonal => if bit == 0 then "↗" else "↖"
  }

  /** Inverse of Polarization. */
  function GlyphState(glyph: string): Option<QubitState>
  {
    if glyph == "↑" then Some(QubitState(0, Rectilinear))
    else if glyph == "→" then Some(QubitState(1, Rectilinear))
    else if glyph == "↗" then Some(QubitState(0, Diagonal))
    else if glyph == "↖" then Some(QubitState(1, Diagonal))
    else None
  }

  /** Different states get different glyphs and different labels. */
  lemma EncodingInjective(s: QubitState, t: QubitState)
    requires s != t
    ensures Polarization(s.bit, s.basis) != Polarization(t.bit, t.basis)
    ensures Label(s.bit, s.basis) != Label(t.bit, t.basis)
    ensures s.basis != t.basis ==> BasisSymbol(s.basis) != BasisSymbol(t.basis)
  {
  }

  /** The label and the glyph the record table shows for a bit always name the same state. */
  lemma LabelAgreesWithGlyph(bit: Bit, basis: Basis)
    ensures LabelState(Label(bit, basis)) == GlyphState(Polarization(bit, basis))
  {
  }
}
