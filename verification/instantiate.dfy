/** The peer CLI's chaincode instantiation flow (peer/chaincode/instantiate.go).

    `chaincodeDeploy` refuses an empty channel ID, defers closing the broadcast client,
    probes the channel's lifecycle version and either runs the config-based lifecycle
    update (version v1.1) or calls the caller's send-init callback. `instantiate` builds,
    signs and endorses a deploy proposal and assembles the endorsed transaction;
    `lsccInstantiate` broadcasts what `instantiate` produced.

    Every network, signing and serialisation call is a collaborator whose answer is an
    input: a function from the arguments the source passes it to a `Result`. The package
    flags `channelID`, `escc`, `vscc` and `policyMarshalled` are an explicit `Flags` value. */
module PeerChaincode {
  import opened Wrappers

  /** The steps of a deployment that can fail, each naming the context its error is
      wrapped with. */
  datatype Stage =
    | GetChaincodeSpec
    | GetDeploymentSpec
    | SerializeIdentity
    | CreateProposal
    | SignProposal
    | Endorse
    | AssembleTx
    | ProbeVersion

  datatype Error =
    | CollaboratorError(detail: string)
    | EmptyChannelId
    | Wrapped(stage: Stage, cause: Error)

  datatype ChaincodeSpec = ChaincodeSpec(name: string, version: string, ctorArgs: seq<string>)
  datatype DeploymentSpec = DeploymentSpec(spec: ChaincodeSpec, codePackage: seq<int>)
  datatype Proposal = Proposal(header: seq<int>, payload: seq<int>)
  datatype SignedProposal = SignedProposal(proposalBytes: seq<int>, signature: seq<int>)
  datatype ProposalResponse = ProposalResponse(status: int, payload: seq<int>, endorsement: seq<int>)
  datatype Envelope = Envelope(payload: seq<int>, signature: seq<int>)

  /** The package-level flag values the flow reads. */
  datatype Flags = Flags(channelID: string, escc: string, vscc: string, policyMarshalled: seq<int>)

  /** What each collaborator of `instantiate` answers, given the arguments it receives. */
  datatype Collaborators = Collaborators(
    getChaincodeSpec: Result<ChaincodeSpec, Error>,
    getDeploymentSpec: ChaincodeSpec -> Result<DeploymentSpec, Error>,
    serialize: Result<seq<int>, Error>,
    createDeployProposal: (string, DeploymentSpec, seq<int>, seq<int>, string, string) -> Result<Proposal, Error>,
    signProposal: Proposal -> Result<SignedProposal, Error>,
    processProposal: SignedProposal -> Result<Option<ProposalResponse>, Error>,
    createSignedTx: (Proposal, ProposalResponse) -> Result<Envelope, Error>)

  /** The order in which `instantiate` calls its collaborators. */
  const Pipeline: seq<Stage> :=
    [GetChaincodeSpec, GetDeploymentSpec, SerializeIdentity, CreateProposal, SignProposal, Endorse, AssembleTx]

  /** The outcome of `instantiate` (an envelope that may be nil, or an error), the
      stages whose collaborator it called, in order, and the signed proposal handed to
      the endorser client, if it got that far. */
  datatype Attempt = Attempt(result: Result<Option<Envelope>, Error>, stages: seq<Stage>, endorsed: Option<SignedProposal>)

  /** `instantiate`: the stages run in the fixed order of `Pipeline`, the first failing
      stage ends the attempt with its error (wrapped with the stage, except a failure of
      getChaincodeSpec, which is returned as is) and no later stage runs. A nil
      endorsement stops before assembly with neither envelope nor error. */
  function Instantiate(c: Collaborators, f: Flags): (a: Attempt)
    ensures 1 <= |a.stages| && a.stages <= Pipeline
    ensures c.getChaincodeSpec.Failure? ==>
      a == Attempt(Failure(c.getChaincodeSpec.error), [GetChaincodeSpec], None)
    ensures a.result.Failure? && |a.stages| > 1 ==>
      a.result.error.Wrapped? && a.result.error.stage == a.stages[|a.stages| - 1]
    ensures a.result.Success? && a.result.value.None? ==> a.stages == Pipeline[..6]
    ensures a.result.Success? && a.result.value.Some? ==> a.stages == Pipeline
    ensures a.endorsed.Some? <==> |a.stages| >= 6
    ensures forall prop, signed :: ProposalSigned(c, f, prop, signed) ==> a.endorsed == Some(signed)
    ensures a.result == Success(None) ==>
      exists prop, signed :: ProposalSigned(c, f, prop, signed) && c.processProposal(signed) == Success(None)
    ensures a.result.Success? && a.result.value.Some? ==>
      exists prop, signed :: ProposalSigned(c, f, prop, signed) && EndorsedInto(c, prop, signed, a.result.value.value)
  {
    match c.getChaincodeSpec
    case Failure(e) => Attempt(Failure(e), Pipeline[..1], None)
    case Success(spec) =>
      match c.getDeploymentSpec(spec)
      case Failure(e) => Attempt(Failure(Wrapped(GetDeploymentSpec, e)), Pipeline[..2], None)
      case Success(cds) =>
        match c.serialize
        case Failure(e) => Attempt(Failure(Wrapped(SerializeIdentity, e)), Pipeline[..3], None)
        case Success(creator) =>
          match c.createDeployProposal(f.channelID, cds, creator, f.policyMarshalled, f.escc, f.vscc)
          case Failure(e) => Attempt(Failure(Wrapped(CreateProposal, e)), Pipeline[..4], None)
          case Success(prop) =>
            match c.signProposal(prop)
            case Failure(e) => Attempt(Failure(Wrapped(SignProposal, e)), Pipeline[..5], None)
            case Success(signed) =>
              match c.processProposal(signed)
              case Failure(e) => Attempt(Failure(Wrapped(Endorse, e)), Pipeline[..6], Some(signed))
              case Success(None) =>
                assert ProposalSigned(c, f, prop, signed);
                Attempt(Success(None), Pipeline[..6], Some(signed))
              case Success(Some(resp)) =>
                match c.createSignedTx(prop, resp)
                case Failure(e) => Attempt(Failure(Wrapped(AssembleTx, e)), Pipeline, Some(signed))
                case Success(env) =>
                  assert ProposalSigned(c, f, prop, signed) && EndorsedInto(c, prop, signed, env);
                  Attempt(Success(Some(env)), Pipeline, Some(signed))
  }

  /** The chaincode spec was read and `cds` is the deployment spec built from it. */
  predicate DeploymentSpecBuilt(c: Collaborators, cds: DeploymentSpec)
  {
    c.getChaincodeSpec.Success? && c.getDeploymentSpec(c.getChaincodeSpec.value) == Success(cds)
  }

  /** Every stage before signing succeeds: `prop` is the proposal built from the flags,
      the deployment spec and the serialised creator. */
  predicate ProposalCreated(c: Collaborators, f: Flags, prop: Proposal)
  {
    && c.getChaincodeSpec.Success?
    && c.getDeploymentSpec(c.getChaincodeSpec.value).Success?
    && c.serialize.Success?
    && c.createDeployProposal(
         f.channelID, c.getDeploymentSpec(c.getChaincodeSpec.value).value,
         c.serialize.value, f.policyMarshalled, f.escc, f.vscc) == Success(prop)
  }

  /** Every stage before endorsement succeeds, and `signed` is the signed form of `prop`. */
  predicate ProposalSigned(c: Collaborators, f: Flags, prop: Proposal, signed: SignedProposal)
  {
    ProposalCreated(c, f, prop) && c.signProposal(prop) == Success(signed)
  }

  /** The endorsement of `signed` is non-nil and is assembled with `prop` into `env`. */
  predicate EndorsedInto(c: Collaborators, prop: Proposal, signed: SignedProposal, env: Envelope)
  {
    && c.processProposal(signed).Success?
    && c.processProposal(signed).value.Some?
    && c.createSignedTx(prop, c.processProposal(signed).value.value) == Success(env)
  }

  /** A failing deployment-spec build ends the attempt with its wrapped error. */
  lemma DeploymentSpecFailureStops(c: Collaborators, f: Flags, spec: ChaincodeSpec, e: Error)
    requires c.getChaincodeSpec == Success(spec)
    requires c.getDeploymentSpec(spec) == Failure(e)
    ensures Instantiate(c, f) == Attempt(Failure(Wrapped(GetDeploymentSpec, e)), Pipeline[..2], None)
  {
  }

  /** A failing identity serialisation ends the attempt with its wrapped error. */
  lemma SerializeFailureStops(c: Collaborators, f: Flags, cds: DeploymentSpec, e: Error)
    requires DeploymentSpecBuilt(c, cds)
    requires c.serialize == Failure(e)
    ensures Instantiate(c, f) == Attempt(Failure(Wrapped(SerializeIdentity, e)), Pipeline[..3], None)
  {
  }

  /** The proposal is requested for exactly the flags' channel, policy, escc and vscc; a
      failure there ends the attempt with its wrapped error. */
  lemma CreateProposalFailureStops(c: Collaborators, f: Flags, cds: DeploymentSpec, creator: seq<int>, e: Error)
    requires DeploymentSpecBuilt(c, cds)
    requires c.serialize == Success(creator)
    requires c.createDeployProposal(f.channelID, cds, creator, f.policyMarshalled, f.escc, f.vscc) == Failure(e)
    ensures Instantiate(c, f) == Attempt(Failure(Wrapped(CreateProposal, e)), Pipeline[..4], None)
  {
  }

  /** A failing signature ends the attempt with its wrapped error. */
  lemma SignFailureStops(c: Collaborators, f: Flags, prop: Proposal, e: Error)
    requires ProposalCreated(c, f, prop)
    requires c.signProposal(prop) == Failure(e)
    ensures Instantiate(c, f) == Attempt(Failure(Wrapped(SignProposal, e)), Pipeline[..5], None)
  {
  }

  /** A failing endorsement ends the attempt with its wrapped error; nothing is assembled. */
  lemma EndorseFailureStops(c: Collaborators, f: Flags, prop: Proposal, signed: SignedProposal, e: Error)
    requires ProposalSigned(c, f, prop, signed)
    requires c.processProposal(signed) == Failure(e)
    ensures Instantiate(c, f) == Attempt(Failure(Wrapped(Endorse, e)), Pipeline[..6], Some(signed))
  {
  }

  /** An endorsement answering `(nil, nil)` makes `instantiate` answer `(nil, nil)`. */
  lemma NilEndorsementYieldsNothing(c: Collaborators, f: Flags, prop: Proposal, signed: SignedProposal)
    requires ProposalSigned(c, f, prop, signed)
    requires c.processProposal(signed) == Success(None)
    ensures Instantiate(c, f) == Attempt(Success(None), Pipeline[..6], Some(signed))
  {
  }

  /** A non-nil endorsement is assembled with the same proposal into the returned
      envelope, or its assembly error is returned. */
  lemma EndorsementAssembled(c: Collaborators, f: Flags, prop: Proposal, signed: SignedProposal, resp: ProposalResponse)
    requires ProposalSigned(c, f, prop, signed)
    requires c.processProposal(signed) == Success(Some(resp))
    ensures Instantiate(c, f).stages == Pipeline
    ensures c.createSignedTx(prop, resp).Success? ==>
      Instantiate(c, f).result == Success(Some(c.createSignedTx(prop, resp).value))
    ensures c.createSignedTx(prop, resp).Failure? ==>
      Instantiate(c, f).result == Failure(Wrapped(AssembleTx, c.createSignedTx(prop, resp).error))
  {
  }

  /** The channel lifecycle version `fetchResourceConfig` reports. */
  datatype ChannelVersion = V11 | Legacy
  datatype ChannelConfig = ChannelConfig(raw: seq<int>)
  datatype ResourceConfig = ResourceConfig(version: ChannelVersion, config: ChannelConfig)

  /** What the caller's collaborators answer during `chaincodeDeploy`: the version probe
      for a channel, the config-based lifecycle update for a channel configuration, and
      the send-init callback. */
  datatype DeployCollaborators = DeployCollaborators(
    fetchResourceConfig: string -> Result<ResourceConfig, Error>,
    configBasedLifecycleUpdate: ChannelConfig -> Outcome<Error>,
    sendInit: Outcome<Error>)

  /** The calls a deployment makes on the endorser and broadcast clients and on the two
      lifecycle branches, in the order they happen. */
  datatype Event =
    | FetchResourceConfig(channel: string)
    | ProcessProposal(signed: SignedProposal)
    | ConfigBasedLifecycleUpdate(config: ChannelConfig)
    | SendInit
    | Broadcast(env: Option<Envelope>)
    | CloseBroadcast

  datatype DeployRun = DeployRun(err: Outcome<Error>, events: seq<Event>)

  /** `chaincodeDeploy`: an empty channel ID fails before any call; otherwise the version
      is probed once for the flags' channel and the broadcast client is closed exactly
      once, as the very last call; a failed probe is wrapped, is not retried and runs
      neither branch; version v1.1 runs only the config-based update, once, and returns
      its answer; any other version runs only the callback, once, and returns its answer
      unchanged. */
  function Deploy(f: Flags, d: DeployCollaborators): (r: DeployRun)
    ensures f.channelID == "" ==> r == DeployRun(Fail(EmptyChannelId), [])
    ensures f.channelID != "" ==>
      && |r.events| >= 2
      && r.events[0] == FetchResourceConfig(f.channelID)
      && r.events[|r.events| - 1] == CloseBroadcast
      && multiset(r.events)[FetchResourceConfig(f.channelID)] == 1
      && multiset(r.events)[CloseBroadcast] == 1
    ensures f.channelID != "" && d.fetchResourceConfig(f.channelID).Failure? ==>
      && r.err == Fail(Wrapped(ProbeVersion, d.fetchResourceConfig(f.channelID).error))
      && |r.events| == 2
      && SendInit !in r.events
      && forall e :: e in r.events ==> !e.ConfigBasedLifecycleUpdate?
    ensures f.channelID != "" && d.fetchResourceConfig(f.channelID).Success?
            && d.fetchResourceConfig(f.channelID).value.version == V11 ==>
      && r.err == d.configBasedLifecycleUpdate(d.fetchResourceConfig(f.channelID).value.config)
      && |r.events| == 3
      && ConfigBasedLifecycleUpdate(d.fetchResourceConfig(f.channelID).value.config) in r.events
      && SendInit !in r.events
    ensures f.channelID != "" && d.fetchResourceConfig(f.channelID).Success?
            && d.fetchResourceConfig(f.channelID).value.version != V11 ==>
      && r.err == d.sendInit
      && |r.events| == 3
      && SendInit in r.events
      && forall e :: e in r.events ==> !e.ConfigBasedLifecycleUpdate?
  {
    if f.channelID == "" then DeployRun(Fail(EmptyChannelId), [])
    else
      match d.fetchResourceConfig(f.channelID)
      case Failure(e) =>
        DeployRun(Fail(Wrapped(ProbeVersion, e)), [FetchResourceConfig(f.channelID), CloseBroadcast])
      case Success(rc) =>
        if rc.version == V11 then
          DeployRun(d.configBasedLifecycleUpdate(rc.config),
                    [FetchResourceConfig(f.channelID), ConfigBasedLifecycleUpdate(rc.config), CloseBroadcast])
        else
          DeployRun(d.sendInit, [FetchResourceConfig(f.channelID), SendInit, CloseBroadcast])
  }

  /** The call `instantiate` makes on the endorser client: one ProcessProposal with the
      signed proposal exactly when every stage before endorsement succeeded. */
  function EndorserCalls(c: Collaborators, f: Flags): (calls: seq<Event>)
    ensures |calls| <= 1
    ensures |calls| == 1 <==> |Instantiate(c, f).stages| >= 6 && Instantiate(c, f).stages[5] == Endorse
    ensures forall prop, signed :: ProposalSigned(c, f, prop, signed) ==> calls == [ProcessProposal(signed)]
  {
    match Instantiate(c, f).endorsed
    case None => []
    case Some(signed) => [ProcessProposal(signed)]
  }

  /** The command factory: its endorser and broadcast clients, observed through the
      calls made on them. */
  class ChaincodeCmdFactory {
    /** The calls made by the flow on the endorser and broadcast clients and on the
        lifecycle branches, in order; calls made inside an opaque collaborator are not
        recorded. */
    var events: seq<Event>

    constructor ()
      ensures events == []
    {
      events := [];
    }

    /** BroadcastClient.Close; its error is discarded by the deferred call. */
    method CloseBroadcastClient()
      modifies this
      ensures events == old(events) + [CloseBroadcast]
    {
      events := events + [CloseBroadcast];
    }

    /** BroadcastClient.Send: the orderer's answer to `env` is returned. */
    method Send(env: Option<Envelope>, broadcast: Option<Envelope> -> Outcome<Error>) returns (err: Outcome<Error>)
      modifies this
      ensures events == old(events) + [Broadcast(env)]
      ensures err == broadcast(env)
    {
      events := events + [Broadcast(env)];
      err := broadcast(env);
    }

    /** `chaincodeDeploy(cf, sendInit)`, with the deferred Close run on each return past
        the channel-ID check. */
    method ChaincodeDeploy(f: Flags, d: DeployCollaborators) returns (err: Outcome<Error>)
      modifies this
      ensures err == Deploy(f, d).err
      ensures events == old(events) + Deploy(f, d).events
    {
      var channelID := f.channelID;
      if channelID == "" {
        return Fail(EmptyChannelId);
      }
      events := events + [FetchResourceConfig(channelID)];
      var probe := d.fetchResourceConfig(channelID);
      if probe.Failure? {
        err := Fail(Wrapped(ProbeVersion, probe.error));
        CloseBroadcastClient();
        return;
      }
      if probe.value.version == V11 {
        events := events + [ConfigBasedLifecycleUpdate(probe.value.config)];
        err := d.configBasedLifecycleUpdate(probe.value.config);
        CloseBroadcastClient();
        return;
      }
      events := events + [SendInit];
      err := d.sendInit;
      CloseBroadcastClient();
    }

    /** `lsccInstantiate`: an error from `instantiate` is returned without broadcasting;
        otherwise its envelope, nil or not, is sent and the send's answer returned. */
    method LsccInstantiate(c: Collaborators, f: Flags, broadcast: Option<Envelope> -> Outcome<Error>)
      returns (err: Outcome<Error>)
      modifies this
      ensures Instantiate(c, f).result.Failure? ==>
        && err == Fail(Instantiate(c, f).result.error)
        && events == old(events) + EndorserCalls(c, f)
      ensures Instantiate(c, f).result.Success? ==>
        && err == broadcast(Instantiate(c, f).result.value)
        && |EndorserCalls(c, f)| == 1
        && events == old(events) + EndorserCalls(c, f) + [Broadcast(Instantiate(c, f).result.value)]
    {
      var attempt := Instantiate(c, f);
      events := events + EndorserCalls(c, f);
      if attempt.result.Failure? {
        return Fail(attempt.result.error);
      }
      err := Send(attempt.result.value, broadcast);
    }
  }
}
