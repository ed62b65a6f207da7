/** The network gate (crates/asmodeus-dsl/src/lib.rs): IPv4 CIDR strings and the reserved blocks, that is
    the documentation blocks of section 3 of RFC 5737 and the loopback block of section 3.2.1.3 of RFC 1122.
    Prefix notation is section 3.1 of RFC 4632. Addresses are 32-bit words in host order. */
module NetScope {
  import opened Wrappers
  import opened ByteOrder
  import opened Text

  // ----- numbers and parts of a string, as the standard library reads them -----

  predicate AllDigits(s: string) { forall i | 0 <= i < |s| :: '0' <= s[i] <= '9' }

  function DigitsValue(s: string): nat
    requires AllDigits(s)
  {
    if s == [] then 0 else 10 * DigitsValue(s[..|s| - 1]) + (s[|s| - 1] - '0') as nat
  }

  /** `str::parse` for an unsigned type with largest value `max`: an optional plus sign, at least one digit,
      leading zeros allowed. */
  function ParseUnsigned(s: string, max: nat): (r: Option<nat>)
    ensures r.Some? ==> r.value <= max
  {
    var digits := if s != [] && s[0] == '+' then s[1..] else s;
    if digits != [] && AllDigits(digits) && DigitsValue(digits) <= max then Some(DigitsValue(digits)) else None
  }

  function ParseOctet(s: string): Option<bv8> {
    var r := ParseUnsigned(s, 255);
    if r.Some? then Some(r.value as bv8) else None
  }

  // ----- CIDR blocks -----

  function Mask(prefix: nat): bv32
    requires prefix <= 32
  {
    if prefix == 0 then 0 else 0xFFFF_FFFF << (32 - prefix)
  }

  /** The addresses with this network under this prefix. */
  predicate Denotes(net: bv32, prefix: nat, x: bv32)
    requires prefix <= 32
  {
    Masked(x, Mask(prefix)) == net
  }

  /** What a CIDR string means: four octets, a prefix length, host bits cleared. */
  function Parsed(cidr: string): (r: Option<(bv32, nat)>)
    ensures r.Some? ==> r.value.1 <= 32 && Masked(r.value.0, Mask(r.value.1)) == r.value.0
  {
    match SplitOnce(cidr, '/')
    case None => None
    case Some((addr, len)) =>
      var prefix := ParseUnsigned(len, 0xFFFF_FFFF);
      var parts := Split(addr, '.');
      if prefix.None? || prefix.value > 32 || |parts| != 4 then None
      else
        var a, b, c, d := ParseOctet(parts[0]), ParseOctet(parts[1]), ParseOctet(parts[2]), ParseOctet(parts[3]);
        if a.None? || b.None? || c.None? || d.None? then None
        else Some((Masked(FromBe(a.value, b.value, c.value, d.value), Mask(prefix.value)), prefix.value))
  }

  /** `parse_ipv4_cidr`: counts the parts while it fills the octets. */
  method ParseIpv4Cidr(cidr: string) returns (r: Option<(bv32, nat)>)
    ensures r == Parsed(cidr)
  {
    hide ParseUnsigned, Split, SplitOnce, Mask, FromBe;
    var halves := SplitOnce(cidr, '/');
    if halves.None? { return None; }
    var prefix := ParseUnsigned(halves.value.1, 0xFFFF_FFFF);
    if prefix.None? || prefix.value > 32 { return None; }
    var parts := Split(halves.value.0, '.');
    var octets := new bv8[4](_ => 0);
    var n := 0;
    for i := 0 to |parts|
      invariant n == i <= 4
      invariant forall j | 0 <= j < i :: ParseOctet(parts[j]) == Some(octets[j])
    {
      if n == 4 { return None; }
      var octet := ParseOctet(parts[i]);
      if octet.None? { return None; }
      octets[n] := octet.value;
      n := n + 1;
    }
    if n != 4 { return None; }
    var ip := FromBe(octets[0], octets[1], octets[2], octets[3]);
    r := Some((Masked(ip, Mask(prefix.value)), prefix.value));
  }

  // ----- writing a block down -----

  function Decimal(n: nat): (s: string)
    ensures s != [] && AllDigits(s) && DigitsValue(s) == n
  {
    if n < 10 then [(n as char) + '0']
    else
      var head, last := Decimal(n / 10), ((n % 10) as char) + '0';
      var s := head + [last];
      assert s[..|s| - 1] == head;
      s
  }

  function Octets(net: bv32): (octets: seq<bv8>)
    ensures |octets| == 4
  {
    [((net >> 24) & 0xFF) as bv8, ((net >> 16) & 0xFF) as bv8, ((net >> 8) & 0xFF) as bv8, (net & 0xFF) as bv8]
  }

  function Written(net: bv32, prefix: nat): string {
    var o := Octets(net);
    Dotted(Decimal(o[0] as nat), Decimal(o[1] as nat), Decimal(o[2] as nat), Decimal(o[3] as nat)) + ("/" + Decimal(prefix))
  }

  lemma OctetsRejoin(net: bv32)
    ensures var o := Octets(net); FromBe(o[0], o[1], o[2], o[3]) == net
  {
  }

  lemma OctetNumber(o: bv8)
    ensures ParseOctet(Decimal(o as nat)) == Some(o)
  {
    hide Decimal;
    assert (o as nat) <= 255 && (o as nat) as bv8 == o;
  }

  lemma SplitDotted(a: string, b: string, c: string, d: string)
    requires AllDigits(a) && AllDigits(b) && AllDigits(c) && AllDigits(d)
    ensures Split(a + ("." + (b + ("." + (c + ("." + d))))), '.') == [a, b, c, d]
  {
    SplitAt(a, '.', b + ("." + (c + ("." + d))));
    SplitAt(b, '.', c + ("." + d));
    SplitAt(c, '.', d);
    SplitLast(d, '.');
  }

  lemma PrefixNumber(prefix: nat)
    requires prefix <= 32
    ensures ParseUnsigned(Decimal(prefix), 0xFFFF_FFFF) == Some(prefix)
  {
    hide Decimal, DigitsValue;
  }

  lemma ParsedParts(cidr: string, addr: string, len: string, prefix: nat, a: string, b: string, c: string, d: string, o: seq<bv8>)
    requires SplitOnce(cidr, '/') == Some((addr, len)) && ParseUnsigned(len, 0xFFFF_FFFF) == Some(prefix) && prefix <= 32
    requires Split(addr, '.') == [a, b, c, d] && |o| == 4
    requires ParseOctet(a) == Some(o[0]) && ParseOctet(b) == Some(o[1]) && ParseOctet(c) == Some(o[2]) && ParseOctet(d) == Some(o[3])
    ensures Parsed(cidr) == Some((Masked(FromBe(o[0], o[1], o[2], o[3]), Mask(prefix)), prefix))
  {
    hide Split, SplitOnce, Mask, ParseOctet, ParseUnsigned, FromBe, Masked;
  }

  function Dotted(a: string, b: string, c: string, d: string): string {
    a + ("." + (b + ("." + (c + ("." + d)))))
  }

  lemma DottedSplits(a: string, b: string, c: string, d: string, len: string)
    requires AllDigits(a) && AllDigits(b) && AllDigits(c) && AllDigits(d)
    ensures Split(Dotted(a, b, c, d), '.') == [a, b, c, d]
    ensures SplitOnce(Dotted(a, b, c, d) + ("/" + len), '/') == Some((Dotted(a, b, c, d), len))
  {
    hide Split, SplitOnce;
    SplitDotted(a, b, c, d);
    SplitAt(Dotted(a, b, c, d), '/', len);
  }

  /** Every block can be written down, and its canonical text means exactly that block. */
  lemma WrittenIsParsed(net: bv32, prefix: nat)
    requires prefix <= 32 && Masked(net, Mask(prefix)) == net
    ensures Parsed(Written(net, prefix)) == Some((net, prefix))
  {
    hide Decimal, Split, SplitOnce, Mask, ParseOctet, ParseUnsigned, FromBe, Octets, DigitsValue, Masked, Parsed, Dotted, AllDigits;
    var o := Octets(net);
    OctetNumber(o[0]);
    OctetNumber(o[1]);
    OctetNumber(o[2]);
    OctetNumber(o[3]);
    WrittenParts(net, prefix, o, Decimal(o[0] as nat), Decimal(o[1] as nat), Decimal(o[2] as nat), Decimal(o[3] as nat));
  }

  lemma WrittenParts(net: bv32, prefix: nat, o: seq<bv8>, a: string, b: string, c: string, d: string)
    requires prefix <= 32 && Masked(net, Mask(prefix)) == net && o == Octets(net)
    requires AllDigits(a) && AllDigits(b) && AllDigits(c) && AllDigits(d)
    requires ParseOctet(a) == Some(o[0]) && ParseOctet(b) == Some(o[1]) && ParseOctet(c) == Some(o[2]) && ParseOctet(d) == Some(o[3])
    ensures Parsed(Dotted(a, b, c, d) + ("/" + Decimal(prefix))) == Some((net, prefix))
  {
    hide Decimal, Split, SplitOnce, Mask, ParseOctet, ParseUnsigned, FromBe, Octets, DigitsValue, Masked, Parsed, Dotted, AllDigits;
    DottedSplits(a, b, c, d, Decimal(prefix));
    PrefixNumber(prefix);
    OctetsRejoin(net);
    ParsedParts(Dotted(a, b, c, d) + ("/" + Decimal(prefix)), Dotted(a, b, c, d), Decimal(prefix), prefix, a, b, c, d, o);
  }

  // ----- which strings are numbers and which are blocks -----

  function Zeros(z: nat): string { if z == 0 then "" else "0" + Zeros(z - 1) }

  /** An optional plus sign, any number of zeros, and the canonical numeral. */
  ghost predicate IsNumeral(s: string, n: nat) {
    exists z: nat, plus: bool :: s == Numeral(z, plus, n)
  }

  function Numeral(z: nat, plus: bool, n: nat): string { (if plus then "+" else "") + (Zeros(z) + Decimal(n)) }

  lemma {:induction false} ZerosEnd(z: nat)
    ensures Zeros(z + 1) == Zeros(z) + "0"
  {
    if z > 0 {
      ZerosEnd(z - 1);
      assert "0" + (Zeros(z - 1) + "0") == ("0" + Zeros(z - 1)) + "0";
    }
  }

  lemma {:induction false} DigitsAreNumeral(s: string) returns (z: nat)
    requires s != [] && AllDigits(s)
    ensures s == Zeros(z) + Decimal(DigitsValue(s))
  {
    var head, last := s[..|s| - 1], s[|s| - 1];
    var d := (last - '0') as nat;
    assert s == head + [last];
    if head == [] {
      z := 0;
      assert DigitsValue(s) == d by { assert DigitsValue(head) == 0; }
    } else {
      z := DigitsAreNumeral(head);
      if DigitsValue(head) == 0 {
        ZerosEnd(z);
        assert Decimal(0) == "0";
        z := z + 1;
      } else {
        NextDigit(DigitsValue(head), d, last);
        assert Zeros(z) + (Decimal(DigitsValue(head)) + [last]) == (Zeros(z) + Decimal(DigitsValue(head))) + [last];
      }
    }
  }

  lemma NextDigit(v: nat, d: nat, last: char)
    requires v > 0 && d < 10 && '0' <= last <= '9' && d == (last - '0') as nat
    ensures Decimal(10 * v + d) == Decimal(v) + [last]
  {
    assert (10 * v + d) / 10 == v && (10 * v + d) % 10 == d;
  }

  lemma {:induction false} ZeroFirst(s: string)
    requires AllDigits(s)
    ensures AllDigits("0" + s) && DigitsValue("0" + s) == DigitsValue(s)
  {
    var t := "0" + s;
    if s == [] {
      assert t[..0] == [];
    } else {
      ZeroFirst(s[..|s| - 1]);
      assert t[..|t| - 1] == "0" + s[..|s| - 1];
    }
  }

  lemma {:induction false} NumeralIsDigits(z: nat, n: nat)
    ensures AllDigits(Zeros(z) + Decimal(n)) && DigitsValue(Zeros(z) + Decimal(n)) == n
  {
    hide Decimal, DigitsValue;
    if z == 0 { assert "" + Decimal(n) == Decimal(n); }
    else {
      NumeralIsDigits(z - 1, n);
      ZeroFirst(Zeros(z - 1) + Decimal(n));
      assert "0" + (Zeros(z - 1) + Decimal(n)) == Zeros(z) + Decimal(n);
    }
  }

  /** Exactly the numerals up to the type's largest value are read, and as what they say. */
  lemma ReadsExactlyNumerals(s: string, max: nat, n: nat)
    ensures ParseUnsigned(s, max) == Some(n) <==> n <= max && IsNumeral(s, n)
  {
    hide Decimal, DigitsValue;
    var digits := if s != [] && s[0] == '+' then s[1..] else s;
    if ParseUnsigned(s, max) == Some(n) {
      var z := DigitsAreNumeral(digits);
      assert s == Numeral(z, s[0] == '+', n);
    }
    if z: nat, plus: bool :| s == Numeral(z, plus, n) {
      NumeralIsDigits(z, n);
      NumeralDigits(s, z, plus, n);
    }
  }

  lemma NumeralDigits(s: string, z: nat, plus: bool, n: nat)
    requires s == Numeral(z, plus, n) && AllDigits(Zeros(z) + Decimal(n))
    ensures s != [] && (if s[0] == '+' then s[1..] else s) == Zeros(z) + Decimal(n)
  {
    var digits := Zeros(z) + Decimal(n);
    assert digits != [] && '0' <= digits[0] <= '9';
    if plus { assert s[0] == '+' && s[1..] == digits; } else { assert s == digits; }
  }

  lemma NumeralUnbroken(s: string, n: nat)
    requires IsNumeral(s, n)
    ensures Unbroken(s, '.') && Unbroken(s, '/')
  {
    hide Decimal, DigitsValue, Zeros;
    var z: nat, plus: bool :| s == Numeral(z, plus, n);
    NumeralIsDigits(z, n);
    NumeralDigits(s, z, plus, n);
    forall i | 0 <= i < |s| ensures s[i] != '.' && s[i] != '/' {
      if s[0] == '+' { assert i > 0 ==> s[i] == s[1..][i - 1]; }
    }
  }

  ghost predicate IsOctet(s: string, o: bv8) {
    exists n: nat :: IsNumeral(s, n) && IsByte(n, o)
  }

  predicate IsByte(n: nat, o: bv8) { n <= 255 && n as bv8 == o }

  lemma OctetUnbroken(s: string, o: bv8)
    requires IsOctet(s, o)
    ensures Unbroken(s, '.') && Unbroken(s, '/')
  {
    hide IsNumeral;
    var n: nat :| IsNumeral(s, n) && IsByte(n, o);
    NumeralUnbroken(s, n);
  }

  /** The text of a block: four numerals up to 255 with dots between them, a slash, and a numeral up to 32. */
  ghost predicate Writes(cidr: string, a: string, b: string, c: string, d: string, len: string, o: seq<bv8>, prefix: nat) {
    && |o| == 4 && prefix <= 32 && cidr == Dotted(a, b, c, d) + ("/" + len) && IsNumeral(len, prefix)
    && IsOctet(a, o[0]) && IsOctet(b, o[1]) && IsOctet(c, o[2]) && IsOctet(d, o[3])
  }

  lemma OctetIs(s: string, o: bv8)
    ensures ParseOctet(s) == Some(o) <==> IsOctet(s, o)
  {
    hide IsNumeral, ParseUnsigned;
    if ParseOctet(s) == Some(o) {
      ReadsExactlyNumerals(s, 255, ParseUnsigned(s, 255).value);
      assert IsByte(ParseUnsigned(s, 255).value, o);
    }
    if n: nat :| IsNumeral(s, n) && IsByte(n, o) { ReadsExactlyNumerals(s, 255, n); }
  }

  lemma FourParts(addr: string, parts: seq<string>)
    requires Split(addr, '.') == parts && |parts| == 4
    ensures addr == Dotted(parts[0], parts[1], parts[2], parts[3])
  {
    hide Split;
    var one := SplitHead(addr, '.');
    var two := SplitHead(one, '.');
    var three := SplitHead(two, '.');
    SplitOnly(three, '.');
    assert parts[1..][1..] == parts[2..] && parts[2..][1..] == parts[3..];
  }

  /** The first part, the separator, and the rest with the other parts. */
  lemma {:induction false} SplitHead(s: string, sep: char) returns (rest: string)
    requires |Split(s, sep)| > 1
    ensures s == Split(s, sep)[0] + ([sep] + rest) && Split(rest, sep) == Split(s, sep)[1..]
  {
    if s[0] == sep {
      rest := s[1..];
      assert s == [sep] + rest;
    } else {
      rest := SplitHead(s[1..], sep);
      assert s == [s[0]] + s[1..];
    }
  }

  lemma {:induction false} SplitOnly(s: string, sep: char)
    requires |Split(s, sep)| == 1
    ensures s == Split(s, sep)[0]
  {
    if s != [] {
      SplitOnly(s[1..], sep);
      assert s == [s[0]] + s[1..];
    }
  }

  /** Exactly which strings are read as blocks, and as which block. */
  lemma ReadsExactlyBlocks(cidr: string, net: bv32, prefix: nat)
    ensures Parsed(cidr) == Some((net, prefix)) ==>
              exists a, b, c, d, len, o :: Writes(cidr, a, b, c, d, len, o, prefix) && net == Masked(FromBe(o[0], o[1], o[2], o[3]), Mask(prefix))
    ensures forall a, b, c, d, len, o | Writes(cidr, a, b, c, d, len, o, prefix) ::
              Parsed(cidr) == Some((Masked(FromBe(o[0], o[1], o[2], o[3]), Mask(prefix)), prefix))
  {
    hide Parsed, IsNumeral, IsOctet, FromBe, Masked, Mask;
    if Parsed(cidr) == Some((net, prefix)) {
      var a, b, c, d, len, o := BlockIsWritten(cidr, net, prefix);
    }
    forall a, b, c, d, len, o | Writes(cidr, a, b, c, d, len, o, prefix)
      ensures Parsed(cidr) == Some((Masked(FromBe(o[0], o[1], o[2], o[3]), Mask(prefix)), prefix))
    {
      WrittenIsBlock(cidr, a, b, c, d, len, o, prefix);
    }
  }

  lemma WrittenIsBlock(cidr: string, a: string, b: string, c: string, d: string, len: string, o: seq<bv8>, prefix: nat)
    requires Writes(cidr, a, b, c, d, len, o, prefix)
    ensures Parsed(cidr) == Some((Masked(FromBe(o[0], o[1], o[2], o[3]), Mask(prefix)), prefix))
  {
    hide IsNumeral, IsOctet, ParseUnsigned, ParseOctet, Split, SplitOnce, FromBe, Masked, Mask, Parsed;
    OctetIs(a, o[0]);
    OctetIs(b, o[1]);
    OctetIs(c, o[2]);
    OctetIs(d, o[3]);
    ReadsExactlyNumerals(len, 0xFFFF_FFFF, prefix);
    OctetUnbroken(a, o[0]);
    OctetUnbroken(b, o[1]);
    OctetUnbroken(c, o[2]);
    OctetUnbroken(d, o[3]);
    PartsSplit(a, b, c, d, len);
    ParsedParts(cidr, Dotted(a, b, c, d), len, prefix, a, b, c, d, o);
  }

  lemma PartsSplit(a: string, b: string, c: string, d: string, len: string)
    requires Unbroken(a, '.') && Unbroken(b, '.') && Unbroken(c, '.') && Unbroken(d, '.')
    requires Unbroken(a, '/') && Unbroken(b, '/') && Unbroken(c, '/') && Unbroken(d, '/')
    ensures Split(Dotted(a, b, c, d), '.') == [a, b, c, d]
    ensures SplitOnce(Dotted(a, b, c, d) + ("/" + len), '/') == Some((Dotted(a, b, c, d), len))
  {
    hide Split, SplitOnce;
    SplitAt(a, '.', b + ("." + (c + ("." + d))));
    SplitAt(b, '.', c + ("." + d));
    SplitAt(c, '.', d);
    SplitLast(d, '.');
    SplitAt(Dotted(a, b, c, d), '/', len);
  }

  lemma BlockIsWritten(cidr: string, net: bv32, prefix: nat)
      returns (a: string, b: string, c: string, d: string, len: string, o: seq<bv8>)
    requires Parsed(cidr) == Some((net, prefix))
    ensures Writes(cidr, a, b, c, d, len, o, prefix) && net == Masked(FromBe(o[0], o[1], o[2], o[3]), Mask(prefix))
  {
    hide IsNumeral, IsOctet, ParseUnsigned, ParseOctet, Split, SplitOnce, FromBe, Masked, Mask;
    var (addr, tail) := SplitOnce(cidr, '/').value;
    len := tail;
    var parts := Split(addr, '.');
    a, b, c, d := parts[0], parts[1], parts[2], parts[3];
    o := [ParseOctet(a).value, ParseOctet(b).value, ParseOctet(c).value, ParseOctet(d).value];
    SplitOnceParts(cidr, '/');
    FourParts(addr, parts);
    OctetIs(a, o[0]);
    OctetIs(b, o[1]);
    OctetIs(c, o[2]);
    OctetIs(d, o[3]);
    ReadsExactlyNumerals(len, 0xFFFF_FFFF, prefix);
  }

  // ----- the reserved blocks -----

  const LOOPBACK: bv32 := 0x7F00_0000      // 127.0.0.0/8
  const TEST_NET_1: bv32 := 0xC000_0200    // 192.0.2.0/24
  const TEST_NET_2: bv32 := 0xC633_6400    // 198.51.100.0/24
  const TEST_NET_3: bv32 := 0xCB00_7100    // 203.0.113.0/24

  /** The address lies in a reserved block. */
  predicate Reserved(x: bv32) {
    || Masked(x, 0xFF00_0000) == LOOPBACK || Masked(x, 0xFFFF_FF00) == TEST_NET_1
    || Masked(x, 0xFFFF_FF00) == TEST_NET_2 || Masked(x, 0xFFFF_FF00) == TEST_NET_3
  }

  /** Exactly the addresses 127.x.x.x, 192.0.2.x, 198.51.100.x and 203.0.113.x are reserved. */
  lemma ReservedExactly(a: bv8, b: bv8, c: bv8, d: bv8)
    ensures Reserved(FromBe(a, b, c, d)) <==>
            || a == 127
            || (a == 192 && b == 0 && c == 2)
            || (a == 198 && b == 51 && c == 100)
            || (a == 203 && b == 0 && c == 113)
  {
  }

  /** The body of the gate's `any`. */
  predicate WithinBlock(net: bv32, prefix: nat, blockNet: bv32, blockPrefix: nat)
    requires prefix <= 32 && blockPrefix <= 32
  {
    prefix >= blockPrefix && Masked(net, Mask(blockPrefix)) == blockNet
  }

  predicate WithinAny(net: bv32, prefix: nat)
    requires prefix <= 32
  {
    || WithinBlock(net, prefix, LOOPBACK, 8) || WithinBlock(net, prefix, TEST_NET_1, 24)
    || WithinBlock(net, prefix, TEST_NET_2, 24) || WithinBlock(net, prefix, TEST_NET_3, 24)
  }

  predicate NetTargetInScope(cidr: string) {
    var c := Parsed(cidr);
    c.Some? && WithinAny(c.value.0, c.value.1)
  }

  lemma BlockMasks()
    ensures Mask(8) == 0xFF00_0000 && Mask(24) == 0xFFFF_FF00
  {
  }

  lemma LoopbackMaskNests(p: nat)
    requires 8 <= p <= 32
    ensures Mask(p) & 0xFF00_0000 == 0xFF00_0000
  {
  }

  lemma TestNetMaskNests(p: nat)
    requires 24 <= p <= 32
    ensures Mask(p) & 0xFFFF_FF00 == 0xFFFF_FF00
  {
  }

  lemma NestedAddress(x: bv32, net: bv32, m: bv32, n: bv32, block: bv32)
    requires m & n == n && Masked(x, m) == net && Masked(net, n) == block
    ensures Masked(x, n) == block
  {
  }

  /** Soundness: whatever the gate lets in is reserved. The network's mask is `m`. */
  lemma GateIsSound(net: bv32, prefix: nat, x: bv32, m: bv32)
    requires prefix <= 32 && m == Mask(prefix) && WithinAny(net, prefix) && Masked(x, m) == net
    ensures Reserved(x)
  {
    hide Mask;
    BlockMasks();
    if prefix >= 8 { LoopbackMaskNests(prefix); }
    if prefix >= 24 { TestNetMaskNests(prefix); }
    if WithinBlock(net, prefix, LOOPBACK, 8) { NestedAddress(x, net, m, 0xFF00_0000, LOOPBACK); }
    else if WithinBlock(net, prefix, TEST_NET_1, 24) { NestedAddress(x, net, m, 0xFFFF_FF00, TEST_NET_1); }
    else if WithinBlock(net, prefix, TEST_NET_2, 24) { NestedAddress(x, net, m, 0xFFFF_FF00, TEST_NET_2); }
    else { NestedAddress(x, net, m, 0xFFFF_FF00, TEST_NET_3); }
  }

  // The completeness argument runs on prefix lengths as words, where the solver can shift.

  function WordMask(p: bv32): bv32
    requires p <= 32
  {
    if p == 0 then 0 else 0xFFFF_FFFF << (32 - p)
  }

  /** Bit i of the mask is set exactly when it belongs to the prefix, that is to the top p bits. */
  lemma WordMaskBits(p: bv32, i: bv32)
    requires p <= 32 && i < 32
    ensures (WordMask(p) >> i) & 1 == 1 <==> i >= 32 - p
  {
  }

  lemma WordInRange(p: nat)
    requires p <= 32
    ensures (p as bv32) <= 32
  {
  }

  lemma ShortWordMaskLow(p: nat)
    requires 0 <= p <= 4 && (p as bv32) <= 32
    ensures Mask(p) == WordMask(p as bv32)
  {
  }

  lemma ShortWordMaskHigh(p: nat)
    requires 5 <= p <= 8 && (p as bv32) <= 32
    ensures Mask(p) == WordMask(p as bv32)
  {
  }

  lemma MediumWordMaskLow(p: nat)
    requires 9 <= p <= 12 && (p as bv32) <= 32
    ensures Mask(p) == WordMask(p as bv32)
  {
  }

  lemma MediumWordMaskHigh(p: nat)
    requires 13 <= p <= 16 && (p as bv32) <= 32
    ensures Mask(p) == WordMask(p as bv32)
  {
  }

  lemma LongWordMaskLow(p: nat)
    requires 17 <= p <= 20 && (p as bv32) <= 32
    ensures Mask(p) == WordMask(p as bv32)
  {
  }

  lemma LongWordMaskHigh(p: nat)
    requires 21 <= p <= 24 && (p as bv32) <= 32
    ensures Mask(p) == WordMask(p as bv32)
  {
  }

  lemma LongestWordMaskLow(p: nat)
    requires 25 <= p <= 28 && (p as bv32) <= 32
    ensures Mask(p) == WordMask(p as bv32)
  {
  }

  lemma LongestWordMaskHigh(p: nat)
    requires 29 <= p <= 32 && (p as bv32) <= 32
    ensures Mask(p) == WordMask(p as bv32)
  {
  }

  lemma WordMaskIs(p: nat)
    requires p <= 32
    ensures (p as bv32) <= 32 && Mask(p) == WordMask(p as bv32)
  {
    hide Mask, WordMask;
    WordInRange(p);
    if p <= 4 { ShortWordMaskLow(p); } else if p <= 8 { ShortWordMaskHigh(p); }
    else if p <= 12 { MediumWordMaskLow(p); } else if p <= 16 { MediumWordMaskHigh(p); }
    else if p <= 20 { LongWordMaskLow(p); } else if p <= 24 { LongWordMaskHigh(p); }
    else if p <= 28 { LongestWordMaskLow(p); } else { LongestWordMaskHigh(p); }
  }

  /** The address that differs from the network in the first bit the prefix leaves open. */
  function Sibling(net: bv32, p: bv32): bv32
    requires p < 32
  {
    net ^ (0x8000_0000 >> p)
  }

  lemma SiblingDenoted(net: bv32, p: bv32, m: bv32)
    requires p < 32 && m == WordMask(p) && Masked(net, m) == net
    ensures Sibling(net, p) & m == net
  {
  }

  /** How many of the reserved blocks an address lies in. */
  function BlocksOf(x: bv32): nat {
    (if Masked(x, 0xFF00_0000) == LOOPBACK then 1 else 0) + (if Masked(x, 0xFFFF_FF00) == TEST_NET_1 then 1 else 0)
    + (if Masked(x, 0xFFFF_FF00) == TEST_NET_2 then 1 else 0) + (if Masked(x, 0xFFFF_FF00) == TEST_NET_3 then 1 else 0)
  }

  /** The blocks are disjoint: an address lies in one of them if it is reserved and in none if it is not. */
  lemma BlocksAreDisjoint(x: bv32)
    ensures BlocksOf(x) == if Reserved(x) then 1 else 0
  {
    if Masked(x, 0xFF00_0000) == LOOPBACK {
      assert Masked(x, 0xFFFF_FF00) != TEST_NET_1 && Masked(x, 0xFFFF_FF00) != TEST_NET_2 && Masked(x, 0xFFFF_FF00) != TEST_NET_3;
    }
  }

  /** No two blocks are halves of a larger block: a block whose network and sibling are both reserved lies
      within one of them. */
  lemma BlocksDoNotMerge(net: bv32, p: bv32, m: bv32)
    requires p < 32 && m == WordMask(p) && Masked(net, m) == net && Reserved(net) && Reserved(Sibling(net, p))
    ensures p >= 24 || (p >= 8 && Masked(net, 0xFF00_0000) == LOOPBACK)
  {
  }

  lemma WordOrder(p: nat)
    requires p <= 32
    ensures ((p as bv32) >= 24 ==> p >= 24) && ((p as bv32) >= 8 ==> p >= 8) && (p < 32 ==> (p as bv32) < 32)
  {
  }

  /** Completeness, one address at a time: a CIDR whose network and sibling are reserved is within one block. */
  lemma ContainedIsWithin(net: bv32, prefix: nat, p: bv32, m: bv32)
    requires prefix <= 32 && p == prefix as bv32 && p <= 32 && m == WordMask(p) && Masked(net, m) == net
    requires Reserved(net) && (p < 32 ==> Reserved(Sibling(net, p)))
    ensures prefix >= 24 || (prefix >= 8 && Masked(net, 0xFF00_0000) == LOOPBACK)
  {
    hide WordMask, Reserved, Sibling;
    WordOrder(prefix);
    if p < 32 { BlocksDoNotMerge(net, p, m); }
  }

  lemma GateOpens(net: bv32, prefix: nat)
    requires prefix <= 32 && Reserved(net)
    requires prefix >= 24 || (prefix >= 8 && Masked(net, 0xFF00_0000) == LOOPBACK)
    ensures WithinAny(net, prefix)
  {
    hide Mask;
    BlockMasks();
  }

  ghost predicate AllReserved(net: bv32, prefix: nat)
    requires prefix <= 32
  {
    forall x: bv32 :: Denotes(net, prefix, x) ==> Reserved(x)
  }

  lemma AllReservedAt(net: bv32, prefix: nat, x: bv32)
    requires prefix <= 32 && AllReserved(net, prefix) && Denotes(net, prefix, x)
    ensures Reserved(x)
  {
    hide Reserved, Denotes;
  }

  lemma ReservedAt(net: bv32, prefix: nat, m: bv32, x: bv32)
    requires prefix <= 32 && m == Mask(prefix) && AllReserved(net, prefix) && Masked(x, m) == net
    ensures Reserved(x)
  {
    hide Reserved, AllReserved, Mask;
    AllReservedAt(net, prefix, x);
  }

  lemma GateIsComplete(net: bv32, prefix: nat, p: bv32, m: bv32)
    requires prefix <= 32 && p == prefix as bv32 && p <= 32 && m == Mask(prefix) && m == WordMask(p)
    requires Masked(net, m) == net && AllReserved(net, prefix)
    ensures WithinAny(net, prefix)
  {
    hide Reserved, WordMask, Sibling, WithinAny, AllReserved, Mask;
    ReservedAt(net, prefix, m, net);
    if p < 32 {
      SiblingDenoted(net, p, m);
      ReservedAt(net, prefix, m, Sibling(net, p));
    }
    ContainedIsWithin(net, prefix, p, m);
    GateOpens(net, prefix);
  }

  lemma SoundAt(net: bv32, prefix: nat, x: bv32)
    requires prefix <= 32 && WithinAny(net, prefix) && Denotes(net, prefix, x)
    ensures Reserved(x)
  {
    hide WithinAny, Reserved;
    GateIsSound(net, prefix, x, Mask(prefix));
  }

  lemma CompleteAt(net: bv32, prefix: nat)
    requires prefix <= 32 && Masked(net, Mask(prefix)) == net && AllReserved(net, prefix)
    ensures WithinAny(net, prefix)
  {
    hide WithinAny, AllReserved;
    WordMaskIs(prefix);
    GateIsComplete(net, prefix, prefix as bv32, Mask(prefix));
  }

  /** The gate accepts a string exactly when it is a CIDR and every address it denotes is reserved: no
      production address gets in, and no purely reserved target is kept out. */
  lemma ScopeIsExact(cidr: string)
    ensures NetTargetInScope(cidr) <==> Parsed(cidr).Some? && AllReserved(Parsed(cidr).value.0, Parsed(cidr).value.1)
  {
    hide Parsed, Mask, Reserved, WithinAny, Denotes;
    if Parsed(cidr).Some? {
      var (net, prefix) := Parsed(cidr).value;
      if WithinAny(net, prefix) {
        forall x: bv32 | Denotes(net, prefix, x) ensures Reserved(x) { SoundAt(net, prefix, x); }
      }
      if AllReserved(net, prefix) { CompleteAt(net, prefix); }
    }
  }
}
