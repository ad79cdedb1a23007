/** The peer's process-wide ACL registry and the facade it hands out.

    The process state is the slot `aclProvider` together with the one-time guard `once`
    (reset by `reinit` in core/aclmgmt/aclmgmt_test.go), and the facade's per-resource
    `aclOverrides` map. `RegisterACLProvider` installs a provider only on its first call,
    installing the fallback default provider when handed `nil`; `GetACLProvider` panics
    while nothing is registered; the facade's `CheckACL` consults an override for the
    resource first and delegates to the installed provider only when there is none. */
module AclMgmt {
  import opened Wrappers

  /** The resource name checked when a transaction is proposed for endorsement. */
  const PROPOSE: string := "PROPOSE"

  /** A signed proposal: the only identity shape a provider accepts. */
  datatype SignedProposal = SignedProposal(proposalBytes: seq<int>, signature: seq<int>)

  /** The `idinfo` argument of CheckACL: either an arbitrary value of the wrong shape
      (the tests pass a bare string) or a signed proposal. */
  datatype IdentityInfo = Raw(blob: string) | Signed(proposal: SignedProposal)

  /** The triple every CheckACL receives. */
  datatype Request = Request(resource: string, channel: string, id: IdentityInfo)

  datatype AclError =
    | UnmappedResource(resource: string)
    | UnmappedIdentity(resource: string)
    | PolicyViolation(reason: string)

  /** A CheckACL result: `Pass` allows (Go's `nil`), `Fail` denies. */
  type Decision = Outcome<AclError>

  /** The CheckACL of a provider, or an override function stored in `aclOverrides`. */
  type AclCheck = Request -> Decision

  /** The fallback provider's configuration: the resources it maps to a policy, and the
      policy evaluation it applies to a well-formed request, left abstract. */
  datatype DefaultPolicy = DefaultPolicy(
    resources: set<string>,
    evaluate: (string, string, SignedProposal) -> Decision)

  /** The provider behind the facade: the fallback, or one handed to RegisterACLProvider. */
  datatype Provider = Default(policy: DefaultPolicy) | Custom(check: AclCheck)

  /** The fallback provider never allows an unmapped resource or an identity that is not a
      signed proposal; a well-formed request for a mapped resource goes to its policy. */
  function DefaultCheckACL(policy: DefaultPolicy, req: Request): (d: Decision)
    ensures req.resource !in policy.resources ==> d == Fail(UnmappedResource(req.resource))
    ensures req.id.Raw? ==> d.Fail?
    ensures d.Pass? ==>
      && req.resource in policy.resources
      && req.id.Signed?
      && policy.evaluate(req.resource, req.channel, req.id.proposal).Pass?
  {
    if req.resource !in policy.resources then Fail(UnmappedResource(req.resource))
    else match req.id
      case Raw(_) => Fail(UnmappedIdentity(req.resource))
      case Signed(prop) => policy.evaluate(req.resource, req.channel, prop)
  }

  /** CheckACL of the installed provider: a custom provider answers the very request it
      is given; the fallback never allows a malformed or unmapped one. */
  function ProviderCheckACL(p: Provider, req: Request): (d: Decision)
    ensures p.Custom? ==> d == p.check(req)
    ensures p.Default? ==> d == DefaultCheckACL(p.policy, req)
    ensures p.Default? && d.Pass? ==> req.id.Signed? && req.resource in p.policy.resources
  {
    match p
    case Default(policy) => DefaultCheckACL(policy, req)
    case Custom(check) => check(req)
  }

  /** What RegisterACLProvider(prov) installs: `nil` becomes the fallback provider rather
      than an empty slot; any other provider is installed as given. */
  function Install(fallback: DefaultPolicy, prov: Option<AclCheck>): (p: Provider)
    ensures p.Default? <==> prov.None?
    ensures p.Default? ==> p.policy == fallback
    ensures p.Custom? ==> prov == Some(p.check)
  {
    match prov
    case None => Default(fallback)
    case Some(check) => Custom(check)
  }

  /** The process state as a value: the fallback provider's configuration, the slot
      `aclProvider`, whether `once` has fired, and the facade's override map. */
  datatype Registry = Registry(
    fallback: DefaultPolicy,
    installed: Option<Provider>,
    once: bool,
    overrides: map<string, AclCheck>)
  {
    /** The guard has fired exactly when a provider is installed; before that there is no
        facade, hence no override. */
    predicate Valid()
    {
      && (once <==> installed.Some?)
      && (!once ==> overrides == map[])
    }
  }

  /** The facade's CheckACL on a registered state: an override for the resource decides
      alone; otherwise the installed provider gets exactly the same triple and its answer
      is returned unchanged. */
  function Decide(s: Registry, req: Request): (d: Decision)
    requires s.installed.Some?
    ensures req.resource in s.overrides ==> d == s.overrides[req.resource](req)
    ensures req.resource !in s.overrides && s.installed.value.Custom? ==>
      d == s.installed.value.check(req)
    ensures req.resource !in s.overrides && s.installed.value.Default? ==>
      d == DefaultCheckACL(s.installed.value.policy, req)
  {
    if req.resource in s.overrides then s.overrides[req.resource](req)
    else ProviderCheckACL(s.installed.value, req)
  }

  /** The calls a process makes on the registry. */
  datatype Call =
    | Reinit
    | RegisterACLProvider(prov: Option<AclCheck>)
    | GetACLProvider
    | CheckACL(req: Request)
    | SetOverride(resource: string, hook: AclCheck)
    | DeleteOverride(resource: string)

  /** The state after one call, or `None` when the call panics (every access through
      GetACLProvider before registration). */
  function Apply(s: Registry, c: Call): (r: Option<Registry>)
    ensures r.None? <==> !s.once && !c.Reinit? && !c.RegisterACLProvider?
    ensures r.Some? ==> r.value.fallback == s.fallback
    ensures s.Valid() && r.Some? ==> r.value.Valid()
    ensures s.once && !c.Reinit? ==> r.Some? && r.value.once && r.value.installed == s.installed
    ensures c.Reinit? ==> r.Some? && !r.value.once
  {
    match c
    case Reinit => Some(s.(installed := None, once := false, overrides := map[]))
    case RegisterACLProvider(prov) =>
      if s.once then Some(s)
      else Some(s.(installed := Some(Install(s.fallback, prov)), once := true, overrides := map[]))
    case GetACLProvider => if s.once then Some(s) else None
    case CheckACL(_) => if s.once then Some(s) else None
    case SetOverride(r, hook) =>
      if s.once then Some(s.(overrides := s.overrides[r := hook])) else None
    case DeleteOverride(r) =>
      if s.once then Some(s.(overrides := s.overrides - {r})) else None
  }

  /** The state after a sequence of calls, `None` if one of them panics. Resets and
      registrations alone never panic, and no call changes the fallback configuration. */
  function Run(s: Registry, calls: seq<Call>): (r: Option<Registry>)
    ensures r.Some? ==> r.value.fallback == s.fallback
    ensures SetupOnly(calls) ==> r.Some?
    decreases |calls|
  {
    if calls == [] then Some(s)
    else match Apply(s, calls[0])
      case None => None
      case Some(t) => Run(t, calls[1..])
  }

  /** Every call is a reset or a registration. */
  predicate SetupOnly(calls: seq<Call>)
  {
    forall i :: 0 <= i < |calls| ==> calls[i].Reinit? || calls[i].RegisterACLProvider?
  }

  predicate NoReinit(calls: seq<Call>)
  {
    forall i :: 0 <= i < |calls| ==> !calls[i].Reinit?
  }

  /** Every call keeps the registry consistent. */
  lemma {:induction false} RunPreservesValid(s: Registry, calls: seq<Call>)
    requires s.Valid()
    ensures Run(s, calls).Some? ==> Run(s, calls).value.Valid()
    decreases |calls|
  {
    if calls != [] {
      match Apply(s, calls[0])
      case None =>
      case Some(t) =>
        assert t.Valid();
        RunPreservesValid(t, calls[1..]);
    }
  }

  /** Set-once, read-many: once a provider is installed, no call short of a reset panics
      or changes which provider is installed, whatever later registrations ask for. */
  lemma {:induction false} FirstRegistrationWins(s: Registry, calls: seq<Call>)
    requires s.once
    requires NoReinit(calls)
    ensures Run(s, calls).Some?
    ensures Run(s, calls).value.once
    ensures Run(s, calls).value.installed == s.installed
    decreases |calls|
  {
    if calls != [] {
      assert !calls[0].Reinit?;
      var t := Apply(s, calls[0]).value;
      assert t.once && t.installed == s.installed;
      assert NoReinit(calls[1..]) by {
        forall i | 0 <= i < |calls[1..]| ensures !calls[1..][i].Reinit? {
          assert calls[1..][i] == calls[i + 1];
        }
      }
      FirstRegistrationWins(t, calls[1..]);
    }
  }

  /** After registration and without a reset, a request whose resource has no override is
      decided by the first provider registered, whatever the calls in between. */
  lemma DelegationStable(s: Registry, calls: seq<Call>, req: Request)
    requires s.once && s.Valid()
    requires NoReinit(calls)
    ensures Run(s, calls).Some? && Run(s, calls).value.installed == s.installed
    ensures req.resource !in Run(s, calls).value.overrides ==>
      Decide(Run(s, calls).value, req) == ProviderCheckACL(s.installed.value, req)
  {
    FirstRegistrationWins(s, calls);
  }

  /** Registering again, with the same or any other provider, does what registering once does. */
  lemma RegisterIdempotent(s: Registry, p: Option<AclCheck>, q: Option<AclCheck>)
    ensures Run(s, [RegisterACLProvider(p), RegisterACLProvider(q)]) == Run(s, [RegisterACLProvider(p)])
  {
    var two := [RegisterACLProvider(p), RegisterACLProvider(q)];
    var t := Apply(s, RegisterACLProvider(p)).value;
    assert t.once && Apply(t, RegisterACLProvider(q)) == Some(t);
    assert two[1..] == [RegisterACLProvider(q)];
    assert Run(s, two) == Run(t, [RegisterACLProvider(q)]);
    assert [RegisterACLProvider(q)][1..] == [] && Run(t, []) == Some(t);
    assert Run(t, [RegisterACLProvider(q)]) == Some(t);
    assert [RegisterACLProvider(p)][1..] == [];
    assert Run(s, [RegisterACLProvider(p)]) == Run(t, []);
  }

  /** Registering `nil` after a reset installs the fallback provider, so a later
      GetACLProvider succeeds. */
  lemma RegisterNilInstallsDefault(s: Registry)
    ensures Run(s, [Reinit, RegisterACLProvider(None), GetACLProvider])
      == Some(s.(installed := Some(Default(s.fallback)), once := true, overrides := map[]))
  {
  }

  /** Asking for the provider after a reset and before any registration panics. */
  lemma PanicOnUnregistered(s: Registry)
    ensures Run(s, [Reinit, GetACLProvider]) == None
  {
  }

  /** Installing an override for a resource that had none and then deleting it gives back
      the registry as it was, so every later decision is the one before the override. */
  lemma OverrideRoundTrip(s: Registry, r: string, hook: AclCheck)
    requires s.once
    requires r !in s.overrides
    ensures Run(s, [SetOverride(r, hook), DeleteOverride(r)]) == Some(s)
  {
    var calls := [SetOverride(r, hook), DeleteOverride(r)];
    var t := Apply(s, SetOverride(r, hook)).value;
    var u := Apply(t, DeleteOverride(r)).value;
    assert t.overrides - {r} == s.overrides;
    assert u == s;
    assert calls[1..] == [DeleteOverride(r)];
    assert Run(t, [DeleteOverride(r)]) == Run(u, []);
  }

  /** An error raised by the config transaction processor. */
  datatype ConfigTxError = ProviderNotRegistered

  /** The process-wide registry state, updated in place. */
  class AclRegistry {
    /** Configuration of the provider installed by RegisterACLProvider(nil). */
    const fallback: DefaultPolicy
    /** The slot `aclProvider`. */
    var installed: Option<Provider>
    /** Whether the one-time guard `once` has fired. */
    var once: bool
    /** The facade's `aclOverrides` map. */
    var overrides: map<string, AclCheck>
    /** The requests that reached the installed provider, in order. */
    var asked: seq<Request>

    function State(): Registry
      reads this
    {
      Registry(fallback, installed, once, overrides)
    }

    predicate Valid()
      reads this
    {
      State().Valid()
    }

    /** The process starts with nothing registered. */
    constructor (fallback: DefaultPolicy)
      ensures Valid()
      ensures State() == Registry(fallback, None, false, map[])
      ensures asked == []
    {
      this.fallback := fallback;
      installed := None;
      once := false;
      overrides := map[];
      asked := [];
    }

    /** Empties the slot and re-arms the guard. */
    method Reinit()
      modifies this
      ensures Valid()
      ensures Apply(old(State()), Call.Reinit) == Some(State())
      ensures installed == None && !once && overrides == map[]
      ensures asked == old(asked)
    {
      installed := None;
      once := false;
      overrides := map[];
    }

    /** Installs `prov`, or the fallback when `prov` is `nil`, unless the guard has fired. */
    method Register(prov: Option<AclCheck>)
      requires Valid()
      modifies this
      ensures Valid()
      ensures Apply(old(State()), RegisterACLProvider(prov)) == Some(State())
      ensures old(once) ==> State() == old(State())
      ensures !old(once) ==> once && installed == Some(Install(fallback, prov)) && overrides == map[]
      ensures asked == old(asked)
    {
      if !once {
        installed := Some(Install(fallback, prov));
        once := true;
        overrides := map[];
      }
    }

    /** GetACLProvider: panics unless a provider is installed, so callers must register first. */
    method Get() returns (p: Provider)
      requires Valid() && once
      ensures installed == Some(p)
    {
      p := installed.value;
    }

    /** `aclOverrides[resource] = hook` through the facade. */
    method SetOverride(resource: string, hook: AclCheck)
      requires Valid() && once
      modifies this
      ensures Valid()
      ensures Apply(old(State()), Call.SetOverride(resource, hook)) == Some(State())
      ensures overrides == old(overrides)[resource := hook]
      ensures installed == old(installed) && once && asked == old(asked)
    {
      overrides := overrides[resource := hook];
    }

    /** `delete(aclOverrides, resource)` through the facade: every other entry stays. */
    method DeleteOverride(resource: string)
      requires Valid() && once
      modifies this
      ensures Valid()
      ensures Apply(old(State()), Call.DeleteOverride(resource)) == Some(State())
      ensures resource !in overrides
      ensures forall r :: r != resource && r in old(overrides) ==> r in overrides && overrides[r] == old(overrides)[r]
      ensures overrides.Keys == old(overrides).Keys - {resource}
      ensures installed == old(installed) && once && asked == old(asked)
    {
      overrides := overrides - {resource};
    }

    /** The facade's CheckACL: an override decides alone and the provider is not consulted;
        otherwise the provider receives exactly `req` and its answer is returned. */
    method CheckACL(req: Request) returns (d: Decision)
      requires Valid() && once
      modifies this`asked
      ensures d == Decide(State(), req)
      ensures req.resource in overrides ==> asked == old(asked)
      ensures req.resource !in overrides ==> asked == old(asked) + [req] && d == ProviderCheckACL(installed.value, req)
    {
      if req.resource in overrides {
        d := overrides[req.resource](req);
      } else {
        asked := asked + [req];
        d := ProviderCheckACL(installed.value, req);
      }
    }

    /** The config transaction processor's GenerateSimulationResults: an error exactly
        while no provider is registered. */
    method GenerateSimulationResults() returns (o: Outcome<ConfigTxError>)
      requires Valid()
      ensures o.Pass? <==> once
    {
      if installed.None? {
        o := Fail(ProviderNotRegistered);
      } else {
        o := Pass;
      }
    }
  }

  /** The registry scenarios exercised in core/aclmgmt/aclmgmt_test.go, each starting with
      a reset. */

  method TestACLProcessor(reg: AclRegistry) returns (before: Outcome<ConfigTxError>, after: Outcome<ConfigTxError>)
    requires reg.Valid()
    modifies reg
    ensures before.Fail? && after.Pass?
  {
    reg.Reinit();
    before := reg.GenerateSimulationResults();
    reg.Register(None);
    after := reg.GenerateSimulationResults();
  }

  method TestRegisterNilProvider(reg: AclRegistry) returns (p: Provider)
    requires reg.Valid()
    modifies reg
    ensures p == Default(reg.fallback)
  {
    reg.Reinit();
    reg.Register(None);
    p := reg.Get();
  }

  method TestBadID(reg: AclRegistry) returns (err: Decision)
    requires reg.Valid()
    modifies reg
    ensures err.Fail?
  {
    reg.Reinit();
    reg.Register(None);
    err := reg.CheckACL(Request(PROPOSE, "somechain", Raw("badidtype")));
  }

  method TestBadResource(reg: AclRegistry) returns (err: Decision)
    requires reg.Valid()
    requires "unknownresource" !in reg.fallback.resources
    modifies reg
    ensures err == Fail(UnmappedResource("unknownresource"))
  {
    reg.Reinit();
    reg.Register(None);
    err := reg.CheckACL(Request("unknownresource", "somechain", Signed(SignedProposal([], []))));
  }

  method TestOverride(reg: AclRegistry) returns (err: Decision)
    requires reg.Valid()
    modifies reg
    ensures err == Pass
    ensures reg.asked == old(reg.asked)
    ensures reg.installed == Some(Default(reg.fallback)) && reg.overrides == map[]
  {
    reg.Reinit();
    reg.Register(None);
    reg.SetOverride(PROPOSE, (r: Request) => Pass);
    err := reg.CheckACL(Request(PROPOSE, "somechain", Signed(SignedProposal([], []))));
    reg.DeleteOverride(PROPOSE);
  }

  /** TestWithProvider (when `answer` allows) and TestBadACL (when it denies): a custom
      provider receives exactly the request and its answer comes back unchanged. */
  method TestWithProvider(reg: AclRegistry, mock: AclCheck) returns (err: Decision)
    requires reg.Valid()
    modifies reg
    ensures err == mock(Request(PROPOSE, "somechain", Signed(SignedProposal([], []))))
    ensures reg.asked == old(reg.asked) + [Request(PROPOSE, "somechain", Signed(SignedProposal([], [])))]
  {
    reg.Reinit();
    reg.Register(Some(mock));
    var prop := SignedProposal([], []);
    err := reg.CheckACL(Request(PROPOSE, "somechain", Signed(prop)));
  }
}
