/** Words and their bytes: network order, and the machine's own. */
module ByteOrder {
  /** Four bytes, most significant first, as a number. */
  function FromBe(a: bv8, b: bv8, c: bv8, d: bv8): bv32 {
    ((a as bv32) << 24) | ((b as bv32) << 16) | ((c as bv32) << 8) | (d as bv32)
  }

  datatype Machine = Little | Big

  function Swap(x: bv32): bv32 {
    (x << 24) | ((x & 0xFF00) << 8) | ((x >> 8) & 0xFF00) | (x >> 24)
  }

  /** `u32::to_be` on this machine. */
  function ToBe(m: Machine, x: bv32): bv32 {
    match m
    case Little => Swap(x)
    case Big => x
  }

  /** Four bytes of a frame as a word in this machine's own order. */
  function Load32(m: Machine, a: bv8, b: bv8, c: bv8, d: bv8): bv32 {
    match m
    case Little => FromBe(d, c, b, a)
    case Big => FromBe(a, b, c, d)
  }

  function Load16(m: Machine, a: bv8, b: bv8): bv16 {
    match m
    case Little => ((b as bv16) << 8) | (a as bv16)
    case Big => ((a as bv16) << 8) | (b as bv16)
  }

  function FromBe16(m: Machine, x: bv16): bv16 {
    match m
    case Little => (x << 8) | (x >> 8)
    case Big => x
  }

  /** Loading the bytes of an address natively is putting the address in network order. */
  lemma LoadIsToBe(m: Machine, a: bv8, b: bv8, c: bv8, d: bv8)
    ensures Load32(m, a, b, c, d) == ToBe(m, FromBe(a, b, c, d))
  {
  }

  lemma EtherType(m: Machine, a: bv8, b: bv8)
    ensures FromBe16(m, Load16(m, a, b)) == 0x0800 <==> a == 8 && b == 0
  {
  }

  function Masked(x: bv32, mask: bv32): bv32 { x & mask }

  lemma ToBeMasked(m: Machine, x: bv32, mask: bv32)
    ensures Masked(ToBe(m, x), ToBe(m, mask)) == ToBe(m, Masked(x, mask))
  {
  }

  lemma ToBeInjective(m: Machine, x: bv32, y: bv32)
    ensures ToBe(m, x) == ToBe(m, y) <==> x == y
  {
  }

  /** Masking and comparing commute with the change of byte order. */
  lemma ToBeMatches(m: Machine, x: bv32, mask: bv32, net: bv32)
    ensures Masked(ToBe(m, x), ToBe(m, mask)) == ToBe(m, net) <==> Masked(x, mask) == net
  {
    hide ToBe, Masked;
    ToBeMasked(m, x, mask);
    ToBeInjective(m, Masked(x, mask), net);
  }
}
