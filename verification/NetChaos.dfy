/** The armed rule and the kernel-side verdict (crates/asmodeus-runner/src/aya_backend.rs, netchaos.rs,
    crates/asmodeus-netchaos-ebpf): the same address set in network byte order, and rollback. */
module NetChaos {
  import opened Wrappers
  import opened ByteOrder
  import opened NetScope
  import opened Text
  import opened RunnerEvents

  // ----- the second parser -----

  /** What the backend's parser has to return on each string. */
  function ParsedBe(m: Machine, cidr: string): Option<(bv32, bv32)> {
    match Parsed(cidr)
    case None => None
    case Some((net, prefix)) => Some((ToBe(m, net), ToBe(m, Mask(prefix))))
  }

  /** `parse_cidr_be` walks an iterator over the parts instead of counting them. It accepts the same strings
      as the gate's parser and returns the same block in network order. */
  method ParseCidrBe(m: Machine, cidr: string) returns (r: Option<(bv32, bv32)>)
    ensures r == ParsedBe(m, cidr)
  {
    hide ParseUnsigned, Split, SplitOnce, Mask, FromBe, ToBe;
    var halves := SplitOnce(cidr, '/');
    if halves.None? { return None; }
    var prefix := ParseUnsigned(halves.value.1, 0xFFFF_FFFF);
    if prefix.None? { return None; }
    if prefix.value > 32 { return None; }
    var octets := new bv8[4](_ => 0);
    var parts := Split(halves.value.0, '.');
    var next := 0;
    for i := 0 to 4
      invariant next == i <= |parts|
      invariant forall j | 0 <= j < i :: ParseOctet(parts[j]) == Some(octets[j])
    {
      if next == |parts| { return None; }
      var octet := ParseOctet(parts[next]);
      next := next + 1;
      if octet.None? { return None; }
      octets[i] := octet.value;
    }
    if next != |parts| { return None; }
    var mask := Mask(prefix.value);
    var net := Masked(FromBe(octets[0], octets[1], octets[2], octets[3]), mask);
    r := Some((ToBe(m, net), ToBe(m, mask)));
  }

  // ----- the rule and the verdict -----

  const CHAOS_FLAG_ARMED: bv32 := 1

  const LOSS_SCALE: bv32 := 1000

  datatype ChaosRule = ChaosRule(dstNetBe: bv32, prefixMaskBe: bv32, lossPermille: bv32, flags: bv32)

  const ZEROED := ChaosRule(0, 0, 0, 0)

  predicate IsArmed(rule: ChaosRule) { rule.flags & CHAOS_FLAG_ARMED != 0 }

  predicate MatchesDst(rule: ChaosRule, dstBe: bv32) { Masked(dstBe, rule.prefixMaskBe) == rule.dstNetBe }

  /** The synthetic loss: the draw, in thousandths, falls below the configured rate. */
  predicate Loses(random: bv32, permille: bv32) { Drawn(random, LOSS_SCALE) < permille }

  /** A draw from 0 up to the scale. */
  function Drawn(random: bv32, scale: bv32): bv32
    requires scale != 0
  {
    random % scale
  }

  datatype Verdict = Pass | Drop

  /** `decide` on the frame's bytes, with the random draw as an input; a frame too short to read passes. */
  function Decide(m: Machine, slot: Option<ChaosRule>, frame: seq<bv8>, random: bv32): Verdict {
    if slot.None? || !IsArmed(slot.value) then Pass
    else if |frame| < 14 then Pass
    else if FromBe16(m, Load16(m, frame[12], frame[13])) != 0x0800 then Pass
    else if |frame| < 34 then Pass
    else if !MatchesDst(slot.value, Load32(m, frame[30], frame[31], frame[32], frame[33])) then Pass
    else if Loses(random, slot.value.lossPermille) then Drop
    else Pass
  }

  /** A frame that carries IPv4 over untagged Ethernet and is long enough to hold a destination. */
  predicate Ipv4(frame: seq<bv8>) {
    |frame| >= 34 && frame[12] == 8 && frame[13] == 0
  }

  /** The destination address in host order. */
  function Destination(frame: seq<bv8>): bv32
    requires Ipv4(frame)
  {
    FromBe(frame[30], frame[31], frame[32], frame[33])
  }

  // ----- specs -----

  datatype NetChaosSpec = NetChaosSpec(
    iface: string, targetCidr: string, latencyMs: nat, jitterMs: nat, lossPct: bv8, durationMs: nat)

  datatype NetChaosError = OutOfScope | IfaceOutOfScope | BudgetExceeded | Backend

  const MAX_LATENCY_MS: nat := 5000
  const MAX_JITTER_MS: nat := 1000
  const MAX_LOSS_PCT: bv8 := 50
  const MAX_DURATION_MS: nat := 120000

  predicate IsLoopback(iface: string) {
    iface == "lo" || ("lo" < iface && AllDigits(iface[2..]))
  }

  predicate IfaceInScope(iface: string) {
    && iface != "" && Utf8Length(iface) <= 15
    && (IsLoopback(iface) || Contains(iface, "test") || Contains(iface, "chaos") || Contains(iface, "veth") || Contains(iface, "dummy"))
  }

  /** The first check that fails names the error. */
  function Validate(spec: NetChaosSpec): Result<(), NetChaosError> {
    if !NetTargetInScope(spec.targetCidr) then Err(OutOfScope)
    else if !IfaceInScope(spec.iface) then Err(IfaceOutOfScope)
    else if spec.latencyMs > MAX_LATENCY_MS || spec.jitterMs > MAX_JITTER_MS || spec.lossPct > MAX_LOSS_PCT
            || spec.durationMs == 0 || spec.durationMs > MAX_DURATION_MS then Err(BudgetExceeded)
    else Ok(())
  }

  function Permille(percent: bv8): bv32 { (percent as bv32) * 10 }

  /** The rule the backend arms for a spec. */
  function Armed(m: Machine, spec: NetChaosSpec): Option<ChaosRule> {
    var c := ParsedBe(m, spec.targetCidr);
    if c.None? then None
    else Some(ChaosRule(c.value.0, c.value.1, Permille(spec.lossPct), CHAOS_FLAG_ARMED))
  }

  // ----- what the datapath promises -----

  lemma RuleMatches(m: Machine, rule: ChaosRule, x: bv32, dst: bv32, net: bv32, mask: bv32)
    requires dst == ToBe(m, x) && rule.dstNetBe == ToBe(m, net) && rule.prefixMaskBe == ToBe(m, mask)
    ensures MatchesDst(rule, dst) <==> Masked(x, mask) == net
  {
    ToBeMatches(m, x, mask, net);
  }

  /** The armed rule matches a destination in network order exactly when its host-order address is denoted
      by the spec's CIDR, whatever the machine's byte order. */
  lemma ArmedRuleMatches(m: Machine, spec: NetChaosSpec, net: bv32, prefix: nat, x: bv32, dst: bv32)
    requires Parsed(spec.targetCidr) == Some((net, prefix)) && prefix <= 32 && dst == ToBe(m, x)
    ensures Armed(m, spec).Some? && (MatchesDst(Armed(m, spec).value, dst) <==> Denotes(net, prefix, x))
  {
    hide Parsed, Mask, ToBe, MatchesDst;
    var mask := Mask(prefix);
    RuleMatches(m, Armed(m, spec).value, x, dst, net, mask);
  }

  /** The draw is one of the first n of every thousand. */
  predicate Below(random: bv32, n: bv32) { Drawn(random, 1000) < n }

  /** One percent of loss is ten draws in a thousand. */
  predicate Draws(random: bv32, percent: bv8) { Below(random, (percent as bv32) * 10) }

  lemma BelowIs(random: bv32, n: bv32)
    ensures Below(random, n) <==> Loses(random, n)
  {
    hide Drawn;
  }

  lemma PermilleIs(percent: bv8)
    ensures Permille(percent) == (percent as bv32) * 10
  {
  }

  lemma DrawsIs(random: bv32, percent: bv8)
    ensures Draws(random, percent) <==> Loses(random, Permille(percent))
  {
    hide Below, Loses, Permille;
    PermilleIs(percent);
    BelowIs(random, Permille(percent));
  }

  /** The word stands somewhere in the name. */
  ghost predicate Holds(name: string, word: string) {
    exists a, b :: name == a + (word + b)
  }

  lemma HoldsIs(name: string, word: string)
    ensures Holds(name, word) <==> Contains(name, word)
  {
    if a, b :| name == a + (word + b) { assert word <= name[|a|..]; }
    if i :| 0 <= i <= |name| && word <= name[i..] {
      assert name == name[..i] + (word + name[i..][|word|..]);
    }
  }

  /** An interface for tests: the loopback, with or without a number, or one whose name says so; at most 15 bytes. */
  ghost predicate TestInterface(iface: string) {
    && 0 < Utf8Length(iface) <= 15
    && (|| (|iface| >= 2 && iface[0] == 'l' && iface[1] == 'o' && forall i | 2 <= i < |iface| :: '0' <= iface[i] <= '9')
        || Holds(iface, "test") || Holds(iface, "chaos") || Holds(iface, "veth") || Holds(iface, "dummy"))
  }

  lemma LoopbackIs(iface: string)
    ensures IsLoopback(iface) <==>
            |iface| >= 2 && iface[0] == 'l' && iface[1] == 'o' && forall i | 2 <= i < |iface| :: '0' <= iface[i] <= '9'
  {
    if |iface| >= 2 && iface[0] == 'l' && iface[1] == 'o' {
      assert iface == "lo" + iface[2..];
      if |iface| == 2 { assert iface == "lo"; }
      if AllDigits(iface[2..]) {
        forall i | 2 <= i < |iface| ensures '0' <= iface[i] <= '9' { assert iface[2..][i - 2] == iface[i]; }
      }
    }
  }

  lemma TestInterfaceIs(iface: string)
    ensures TestInterface(iface) <==> IfaceInScope(iface)
  {
    hide Contains, Holds, IsLoopback;
    LoopbackIs(iface);
    HoldsIs(iface, "test");
    HoldsIs(iface, "chaos");
    HoldsIs(iface, "veth");
    HoldsIs(iface, "dummy");
  }

  /** Exactly which specs validate, and which check names the error. */
  lemma ValidatesExactly(spec: NetChaosSpec)
    ensures var r := Validate(spec);
            && (r == Err(OutOfScope) <==> !NetTargetInScope(spec.targetCidr))
            && (r == Err(IfaceOutOfScope) <==> NetTargetInScope(spec.targetCidr) && !TestInterface(spec.iface))
            && (r.Ok? <==> && NetTargetInScope(spec.targetCidr) && TestInterface(spec.iface)
                           && spec.latencyMs <= 5000 && spec.jitterMs <= 1000 && spec.lossPct <= 50
                           && 1 <= spec.durationMs <= 120000)
            && r != Err(Backend)
  {
    hide NetTargetInScope, IfaceInScope, TestInterface;
    TestInterfaceIs(spec.iface);
  }

  /** Exactly which frames an armed spec drops: IPv4 frames whose destination is in the CIDR, when the draw
      falls below the configured loss. Everything else passes, as does everything that cannot be parsed. */
  lemma DropsExactly(m: Machine, spec: NetChaosSpec, net: bv32, prefix: nat, frame: seq<bv8>, random: bv32)
    requires Parsed(spec.targetCidr) == Some((net, prefix)) && prefix <= 32
    ensures Decide(m, Armed(m, spec), frame, random) == Drop <==>
            Ipv4(frame) && Denotes(net, prefix, Destination(frame)) && Draws(random, spec.lossPct)
  {
    hide Armed, Parsed, Mask, ToBe, MatchesDst, Denotes, IsArmed, FromBe, Decide, Load32, Loses, Permille, Draws;
    DrawsIs(random, spec.lossPct);
    ArmedIsArmed(m, spec, net, prefix);
    DropsWhen(m, Armed(m, spec).value, frame, random);
    if Ipv4(frame) {
      LoadIsToBe(m, frame[30], frame[31], frame[32], frame[33]);
      ArmedRuleMatches(m, spec, net, prefix, Destination(frame), Load32(m, frame[30], frame[31], frame[32], frame[33]));
    }
  }

  /** The verdict of an armed rule, in terms of the frame's bytes. */
  lemma DropsWhen(m: Machine, rule: ChaosRule, frame: seq<bv8>, random: bv32)
    requires IsArmed(rule)
    ensures Decide(m, Some(rule), frame, random) == Drop <==>
            Ipv4(frame) && MatchesDst(rule, Load32(m, frame[30], frame[31], frame[32], frame[33])) && Loses(random, rule.lossPermille)
  {
    hide Load32, Load16, FromBe16, MatchesDst, IsArmed, Loses;
    if |frame| >= 14 { EtherType(m, frame[12], frame[13]); }
  }

  lemma ArmedIsArmed(m: Machine, spec: NetChaosSpec, net: bv32, prefix: nat)
    requires Parsed(spec.targetCidr) == Some((net, prefix)) && prefix <= 32
    ensures Armed(m, spec).Some? && IsArmed(Armed(m, spec).value) && Armed(m, spec).value.lossPermille == Permille(spec.lossPct)
  {
    hide Parsed, Mask, ToBe;
  }

  /** A validated spec always yields a rule, and every packet that rule drops is bound for a reserved address. */
  lemma DropsOnlyReserved(m: Machine, spec: NetChaosSpec, frame: seq<bv8>, random: bv32)
    requires Validate(spec).Ok?
    ensures Armed(m, spec).Some?
    ensures Decide(m, Armed(m, spec), frame, random) == Drop ==> Ipv4(frame) && Reserved(Destination(frame))
  {
    hide Armed, Parsed, Mask, ToBe, FromBe, Decide, Reserved, Denotes, WithinAny, IfaceInScope, AllReserved;
    ScopeIsExact(spec.targetCidr);
    var (net, prefix) := Parsed(spec.targetCidr).value;
    ArmedIsArmed(m, spec, net, prefix);
    DropsExactly(m, spec, net, prefix, frame, random);
    if Decide(m, Armed(m, spec), frame, random) == Drop { AllReservedAt(net, prefix, Destination(frame)); }
  }

  /** A slot that was never armed, or was zeroed on revert, drops nothing. */
  lemma ZeroedDropsNothing(m: Machine, frame: seq<bv8>, random: bv32)
    ensures Decide(m, Some(ZEROED), frame, random) == Pass && Decide(m, None, frame, random) == Pass
  {
    hide Load32, Load16, FromBe16;
  }
}
