/** The 64 KiB address space that `Bus::read` and `Bus::write` reach, as a value: a
    byte at every 16-bit address. Addresses are wrapped in `Cell` so that the map is
    keyed by a datatype. */
module Memory {
  datatype Cell = Cell(address: bv16)

  type Bytes = map<Cell, bv8>

  /** Every address holds a byte. */
  ghost predicate Total(m: Bytes)
  {
    forall a: bv16 :: Cell(a) in m
  }

  /** The byte at address `a`. */
  function Read(m: Bytes, a: bv16): bv8
    requires Total(m)
  {
    m[Cell(a)]
  }

  /** `m` with the byte at `a` replaced by `v`: reading `a` gives `v` and every other
      address reads as before. */
  function Write(m: Bytes, a: bv16, v: bv8): (r: Bytes)
    requires Total(m)
    ensures Total(r)
    ensures Read(r, a) == v
    ensures forall b: bv16 :: b != a ==> Read(r, b) == Read(m, b)
  {
    m[Cell(a) := v]
  }
}
