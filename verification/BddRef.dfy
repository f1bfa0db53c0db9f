/** Attributed references to BDD nodes (Minato's attributed edges). */
module BddRef {

  /** The unpacked form of a 64-bit reference: node id, variable shift, input inverter, output inverter. */
  datatype Ref = Ref(id: nat, shift: nat, invIn: bool, invOut: bool)

  const T := Ref(1, 0, false, false)
  const F := Ref(1, 0, false, true)

  /** Terminals carry neither shift nor input inverter; the dummy node 0 carries no attribute at all. */
  function MakeRef(id: nat, shift: nat, invIn: bool, invOut: bool): Ref {
    Ref(id, if id <= 1 then 0 else shift, id > 1 && invIn, id != 0 && invOut)
  }

  function Flip(r: Ref): Ref {
    if r.id == 0 then r else r.(invOut := !r.invOut)
  }

  function Abs(r: Ref): Ref {
    r.(invOut := false)
  }

  function Plus(r: Ref, k: nat): Ref {
    if r.id > 1 then r.(shift := r.shift + k) else r
  }

  function Minus(r: Ref, k: nat): Ref
    requires r.id > 1 ==> k <= r.shift
  {
    if r.id > 1 then r.(shift := r.shift - k) else r
  }

  predicate Leaf(r: Ref) {
    Abs(r) == T
  }

  predicate TrueLeaf(r: Ref) {
    !r.invOut
  }

  /** Order of the absolute 63-bit values. */
  predicate AbsLt(x: Ref, y: Ref) {
    if x.invIn != y.invIn then y.invIn
    else if x.shift != y.shift then x.shift < y.shift
    else x.id < y.id
  }

  /** Signed order: output-inverted references come first. */
  predicate Lt(x: Ref, y: Ref) {
    if x.invOut != y.invOut then x.invOut else AbsLt(x, y)
  }

  /** Unsigned order: output-inverted references come last. */
  predicate UnsignedLt(x: Ref, y: Ref) {
    if x.invOut != y.invOut then y.invOut else AbsLt(x, y)
  }

  /** The order used to sort operand lists: by absolute value, ties inverted-first. */
  predicate AmLt(x: Ref, y: Ref) {
    AbsLt(x, y) || (Abs(x) == Abs(y) && Lt(x, y))
  }

  const ID_LIMIT: nat := 0x40_0000_0000
  const SHIFT_LIMIT: nat := 0x100_0000
  const IN_BIT: nat := 0x4000_0000_0000_0000
  const OUT_BIT: nat := 0x8000_0000_0000_0000

  /** The 64-bit word that stores a reference: bits 0-38 id, 38-62 shift, 62 input and 63 output inverter. */
  function Pack(r: Ref): nat {
    r.id + r.shift * ID_LIMIT + (if r.invIn then IN_BIT else 0) + (if r.invOut then OUT_BIT else 0)
  }

  predicate Fits(r: Ref) {
    r.id < ID_LIMIT && r.shift < SHIFT_LIMIT
  }

  function Signed64(w: nat): int {
    if w >= OUT_BIT then w - 2 * OUT_BIT else w
  }

  /** The field-wise orders used by the model are the integer orders of the packed words. */
  lemma PackedOrders(x: Ref, y: Ref)
    requires Fits(x) && Fits(y)
    ensures Lt(x, y) <==> Signed64(Pack(x)) < Signed64(Pack(y))
    ensures UnsignedLt(x, y) <==> Pack(x) < Pack(y)
    ensures AbsLt(x, y) <==> Pack(Abs(x)) < Pack(Abs(y))
    ensures Pack(x) == Pack(y) <==> x == y
  {
    assert x.id + x.shift * ID_LIMIT < IN_BIT;
    assert y.id + y.shift * ID_LIMIT < IN_BIT;
  }
}
