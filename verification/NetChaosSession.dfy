/** Rollback of network chaos (crates/asmodeus-runner/src/netchaos.rs): the in-process backend and the
    session whose revert, explicit or on drop, removes exactly what it installed. */
module NetChaosSession {
  import opened Wrappers
  import opened NetChaos

  datatype RuleHandle = RuleHandle(iface: string, targetCidr: string, token: nat)

  /** `retain`: every rule but those with this token, in order. */
  function Without(rules: seq<RuleHandle>, token: nat): (kept: seq<RuleHandle>)
    ensures |kept| <= |rules|
    ensures |kept| == |rules| <==> forall i | 0 <= i < |rules| :: rules[i].token != token
    ensures forall r | r in kept :: r in rules && r.token != token
  {
    if rules == [] then []
    else (if rules[0].token == token then [] else [rules[0]]) + Without(rules[1..], token)
  }

  lemma {:induction false} WithoutNewest(rules: seq<RuleHandle>, handle: RuleHandle)
    requires forall r | r in rules :: r.token != handle.token
    ensures Without(rules + [handle], handle.token) == rules
  {
    var all := rules + [handle];
    if rules == [] {
      assert all == [handle] && all[1..] == [];
    } else {
      assert all[0] == rules[0] && all[1..] == rules[1..] + [handle];
      assert forall r | r in rules[1..] :: r in rules;
      WithoutNewest(rules[1..], handle);
      assert [rules[0]] + rules[1..] == rules;
    }
  }

  /** Removals of different rules commute. */
  lemma {:induction false} WithoutCommutes(rules: seq<RuleHandle>, a: nat, b: nat)
    ensures Without(Without(rules, a), b) == Without(Without(rules, b), a)
  {
    if rules != [] {
      var rest, x := rules[1..], rules[0];
      WithoutCommutes(rest, a, b);
      assert rules == [x] + rest;
      hide Without;
      WithoutHead(x, rest, a);
      WithoutHead(x, rest, b);
      WithoutHead(x, Without(rest, a), b);
      WithoutHead(x, Without(rest, b), a);
    }
  }

  lemma WithoutHead(x: RuleHandle, rest: seq<RuleHandle>, token: nat)
    ensures Without([x] + rest, token) == if x.token == token then Without(rest, token) else [x] + Without(rest, token)
  {
    assert ([x] + rest)[1..] == rest;
  }

  lemma WithoutStep(kept: seq<RuleHandle>, rules: seq<RuleHandle>, i: nat, token: nat)
    requires i < |rules|
    ensures kept + Without(rules[i..], token) ==
            (if rules[i].token == token then kept else kept + [rules[i]]) + Without(rules[i + 1..], token)
  {
    hide Without;
    assert rules[i..] == [rules[i]] + rules[i + 1..];
    WithoutHead(rules[i], rules[i + 1..], token);
  }

  class SimBackend {
    var installed: seq<RuleHandle>
    var nextToken: nat

    ghost predicate Valid()
      reads this
    {
      forall r | r in installed :: r.token < nextToken
    }

    constructor ()
      ensures Valid() && installed == []
    {
      installed, nextToken := [], 0;
    }

    method Apply(spec: NetChaosSpec) returns (handle: RuleHandle)
      requires Valid()
      modifies this
      ensures Valid() && installed == old(installed) + [handle]
      ensures handle == RuleHandle(spec.iface, spec.targetCidr, old(nextToken)) && nextToken == old(nextToken) + 1
    {
      handle := RuleHandle(spec.iface, spec.targetCidr, nextToken);
      nextToken := nextToken + 1;
      installed := installed + [handle];
    }

    /** Reverting an unknown handle is an error and changes nothing. */
    method Revert(handle: RuleHandle) returns (r: Result<(), NetChaosError>)
      requires Valid()
      modifies this`installed
      ensures Valid() && installed == Without(old(installed), handle.token)
      ensures r.Ok? <==> exists x | x in old(installed) :: x.token == handle.token
      ensures r.Err? ==> r == Err(Backend) && installed == old(installed)
    {
      assert Without([], handle.token) == [];
      hide Without;
      var rules := installed;
      var kept: seq<RuleHandle> := [];
      for i := 0 to |rules|
        invariant kept + Without(rules[i..], handle.token) == Without(rules, handle.token)
      {
        WithoutStep(kept, rules, i, handle.token);
        if rules[i].token != handle.token { kept := kept + [rules[i]]; }
      }
      Unchanged(rules, handle.token);
      var before := |rules|;
      installed := kept;
      r := if |installed| == before then Err(Backend) else Ok(());
    }
  }

  lemma {:induction false} Unchanged(rules: seq<RuleHandle>, token: nat)
    ensures |Without(rules, token)| == |rules| ==> Without(rules, token) == rules
    ensures (exists x | x in rules :: x.token == token) <==> |Without(rules, token)| != |rules|
  {
    if rules != [] {
      Unchanged(rules[1..], token);
      assert rules == [rules[0]] + rules[1..];
    }
    if |Without(rules, token)| != |rules| {
      var i :| 0 <= i < |rules| && rules[i].token == token;
      assert rules[i] in rules;
    }
  }

  class Session {
    const backend: SimBackend
    var handle: Option<RuleHandle>

    constructor (backend: SimBackend, handle: RuleHandle)
      ensures this.backend == backend && this.handle == Some(handle)
    {
      this.backend, this.handle := backend, Some(handle);
    }

    /** Reverts what the session installed, once; a second call or the drop guard does nothing. */
    method Revert() returns (r: Result<(), NetChaosError>)
      requires backend.Valid()
      modifies this, backend`installed
      ensures backend.Valid() && handle.None?
      ensures old(handle).None? ==> r == Ok(()) && backend.installed == old(backend.installed)
      ensures old(handle).Some? ==> backend.installed == Without(old(backend.installed), old(handle).value.token)
    {
      if handle.None? { return Ok(()); }
      var taken := handle.value;
      handle := None;
      r := backend.Revert(taken);
    }
  }

  /** Nothing is installed for a spec that does not validate. */
  method Start(backend: SimBackend, spec: NetChaosSpec) returns (session: Result<Session, NetChaosError>)
    requires backend.Valid()
    modifies backend
    ensures backend.Valid()
    ensures session.Ok? <==> Validate(spec).Ok?
    ensures session.Err? ==> session.error == Validate(spec).error && backend.installed == old(backend.installed)
    ensures session.Ok? ==> fresh(session.value) && session.value.backend == backend && session.value.handle.Some?
                            && backend.installed == old(backend.installed) + [session.value.handle.value]
                            && session.value.handle.value.token == old(backend.nextToken)
  {
    match Validate(spec)
    case Err(e) => return Err(e);
    case Ok(_) =>
      var handle := backend.Apply(spec);
      var s := new Session(backend, handle);
      session := Ok(s);
  }

  /** A session that overlaps another one still leaves behind exactly what was there before both. */
  method OverlappingSessions(backend: SimBackend, a: NetChaosSpec, b: NetChaosSpec, firstFirst: bool)
    requires backend.Valid()
    modifies backend
    ensures backend.installed == old(backend.installed)
  {
    hide Without, Validate;
    ghost var before := backend.installed;
    var x := Start(backend, a);
    ghost var middle := backend.installed;
    var y := Start(backend, b);
    if x.Ok? { WithoutNewest(before, x.value.handle.value); }
    if y.Ok? { WithoutNewest(middle, y.value.handle.value); }
    if x.Ok? && y.Ok? {
      WithoutCommutes(backend.installed, x.value.handle.value.token, y.value.handle.value.token);
      if firstFirst { var _ := x.value.Revert(); var _ := y.value.Revert(); }
      else { var _ := y.value.Revert(); var _ := x.value.Revert(); }
    } else if x.Ok? {
      var _ := x.value.Revert();
    } else if y.Ok? {
      var _ := y.value.Revert();
    }
  }
}
