# ACL registry and chaincode instantiation, modelled in Dafny

This project models two trust-boundary pieces of a Hyperledger Fabric peer.

**The ACL registry** (`aclmgmt.dfy`, module `AclMgmt`). This is the process-wide slot `aclProvider` with its one-time guard `once`, plus the facade's `aclOverrides` map. The class `AclRegistry` holds that state and updates it in place:
- `Register` installs a provider only while the guard has not fired. Registering `nil` installs the fallback default provider.
- `Get` may only be called after registration; the source panics otherwise.
- `SetOverride` and `DeleteOverride` edit the override map.
- `CheckACL` lets an override decide alone. Without an override, it passes the exact request to the installed provider and records that request in `asked`.

The datatype `Registry` mirrors the same state as a value. `Apply` and `Run` give the meaning of any sequence of calls, with a panic modelled as `None`. Lemmas over them prove:
- Set-once, read-many: only the first registration takes effect until a reset.
- An override that is installed and then deleted leaves no trace.
- A reset followed by `GetACLProvider` panics.

The scenarios of core/aclmgmt/aclmgmt_test.go are verified client methods of the class.

**The chaincode deployment dispatcher** (`instantiate.dfy`, module `PeerChaincode`). Every network, signing and serialisation call is a collaborator. Its answer is an input: a function from the arguments the source passes to a `Result`. The package flags `channelID`, `escc`, `vscc` and `policyMarshalled` are an explicit `Flags` value, read by both `Deploy` and `Instantiate`.
- `Instantiate` is the proposal pipeline as a pure function. It returns the result and the stages it ran.
- `Deploy` specifies `chaincodeDeploy`: its result and the calls it makes, in order.
- The class `ChaincodeCmdFactory` records in `events` the flow's calls on the endorser client (the version probe and the proposal endorsement), on the broadcast client, and on the two lifecycle branches. Calls made inside an opaque collaborator are not recorded. Its methods `ChaincodeDeploy` and `LsccInstantiate` are proved against `Deploy` and `Instantiate`. `ChaincodeDeploy` runs the deferred `Close` on every return after the channel-ID check.

Two behaviours of the code worth noting:
- An empty channel ID returns before the deferred `Close` is set up, so on that path `Close` is not called (instantiate.go:123-128).
- A failure of `getChaincodeSpec` is returned without wrapping. Every later stage wraps its error (instantiate.go:75-104).

## Model

| member | source | states |
|---|---|---|
| `AclMgmt.DefaultCheckACL` | core/aclmgmt/aclmgmt_test.go:56-68 | the fallback provider denies a resource it does not map and an identity that is not a signed proposal; it allows only a mapped resource, a signed proposal and a passing policy |
| `AclMgmt.Decide` | core/aclmgmt/aclmgmt_test.go:70-97 | an override for the resource decides alone; otherwise a custom provider's answer to the same triple is returned unchanged, and the fallback's when `nil` was registered |
| `AclMgmt.ProviderCheckACL` | core/aclmgmt/aclmgmt_test.go:56-97 | a custom provider answers exactly the request it is given; the fallback's answer is DefaultCheckACL's and never allows a malformed identity or an unmapped resource |
| `AclMgmt.Install` | core/aclmgmt/aclmgmt_test.go:50-54 | registering `nil` installs the fallback provider, never an empty slot; any other provider is installed as given |
| `AclMgmt.Apply` | core/aclmgmt/aclmgmt_test.go:22-78 | a call panics exactly when it accesses the registry before registration; every call keeps the registry consistent and the fallback configuration; after registration only a reset changes the guard or the installed provider; a reset re-arms the guard |
| `AclMgmt.Run` | core/aclmgmt/aclmgmt_test.go:22-78 | a sequence of resets and registrations never panics, and no sequence changes the fallback configuration |
| `AclMgmt.RunPreservesValid` | core/aclmgmt/aclmgmt_test.go:22-34 | any sequence of calls keeps "guard fired iff a provider is installed, and no overrides before registration" |
| `AclMgmt.FirstRegistrationWins` | core/aclmgmt/aclmgmt_test.go:22-34 | once registered, no call sequence without a reset panics, re-arms the guard or changes the installed provider |
| `AclMgmt.DelegationStable` | core/aclmgmt/aclmgmt_test.go:81-97 | after registration and without a reset, a request with no override is always decided by the first provider registered |
| `AclMgmt.RegisterIdempotent` | core/aclmgmt/aclmgmt_test.go:27-34 | registering twice, with the same or another provider, leaves the same state as registering once |
| `AclMgmt.RegisterNilInstallsDefault` | core/aclmgmt/aclmgmt_test.go:50-54 | after a reset, registering `nil` installs the fallback provider and a later GetACLProvider does not panic |
| `AclMgmt.PanicOnUnregistered` | core/aclmgmt/aclmgmt_test.go:43-48 | GetACLProvider right after a reset panics and yields no state |
| `AclMgmt.OverrideRoundTrip` | core/aclmgmt/aclmgmt_test.go:70-79 | installing an override for a resource without one and deleting it restores the registry exactly |
| `AclMgmt.AclRegistry.constructor` | core/aclmgmt/aclmgmt_test.go:22-25 | the process starts with an empty slot, an unfired guard and no overrides |
| `AclMgmt.AclRegistry.Reinit` | core/aclmgmt/aclmgmt_test.go:22-25 | empties the slot, re-arms the guard and drops the facade's overrides |
| `AclMgmt.AclRegistry.Register` | core/aclmgmt/aclmgmt_test.go:27-34 | once the guard has fired, the state is unchanged; before that, it installs the given provider (the fallback for `nil`) with an empty override map |
| `AclMgmt.AclRegistry.Get` | core/aclmgmt/aclmgmt_test.go:43-54 | callable only after registration; returns the installed provider |
| `AclMgmt.AclRegistry.SetOverride` | core/aclmgmt/aclmgmt_test.go:73-75 | maps the resource to the hook; the provider and the guard are unchanged |
| `AclMgmt.AclRegistry.DeleteOverride` | core/aclmgmt/aclmgmt_test.go:78 | removes exactly that resource's override; every other entry is unchanged |
| `AclMgmt.AclRegistry.CheckACL` | core/aclmgmt/aclmgmt_test.go:70-97 | returns the facade's decision; with an override the provider is not consulted, otherwise it receives exactly the request |
| `AclMgmt.AclRegistry.GenerateSimulationResults` | core/aclmgmt/aclmgmt_test.go:36-41 | the config transaction processor errs exactly while no provider is registered |
| `AclMgmt.TestACLProcessor` | core/aclmgmt/aclmgmt_test.go:36-41 | after a reset the processor errs; after registering `nil` it succeeds |
| `AclMgmt.TestRegisterNilProvider` | core/aclmgmt/aclmgmt_test.go:50-54 | registering `nil` makes GetACLProvider return the fallback provider |
| `AclMgmt.TestBadID` | core/aclmgmt/aclmgmt_test.go:56-61 | with the fallback, PROPOSE with a bare-string identity is denied |
| `AclMgmt.TestBadResource` | core/aclmgmt/aclmgmt_test.go:63-68 | with the fallback, an unmapped resource is denied even for a signed proposal |
| `AclMgmt.TestOverride` | core/aclmgmt/aclmgmt_test.go:70-79 | an always-allow override for PROPOSE allows without consulting the provider; deleting it leaves no overrides |
| `AclMgmt.TestWithProvider` | core/aclmgmt/aclmgmt_test.go:81-97 | a registered custom provider receives exactly (PROPOSE, "somechain", prop) once, and its allow or deny is returned unchanged |
| `PeerChaincode.Instantiate` | peer/chaincode/instantiate.go:74-117 | the stages run form a prefix of the fixed pipeline order; a getChaincodeSpec failure is returned unwrapped with nothing else run; any other failure is wrapped with the last stage run; a `(nil, nil)` answer means every stage up to endorsement succeeded on the chained values and the endorsement was nil; an envelope means every stage succeeded and it is the assembly of the proposal with the non-nil endorsement; the signed proposal is handed to the endorser exactly when the stages reach endorsement |
| `PeerChaincode.DeploymentSpecFailureStops` | peer/chaincode/instantiate.go:80-83 | a failing deployment-spec build ends the attempt with that error wrapped, after two stages |
| `PeerChaincode.SerializeFailureStops` | peer/chaincode/instantiate.go:85-88 | after a built deployment spec, a failing serialisation ends the attempt with that error wrapped, after three stages |
| `PeerChaincode.CreateProposalFailureStops` | peer/chaincode/instantiate.go:90-93 | the proposal is requested for exactly the flags' channel, policy, escc and vscc with the built spec and creator; its failure ends the attempt wrapped, after four stages |
| `PeerChaincode.SignFailureStops` | peer/chaincode/instantiate.go:95-99 | after a created proposal, a failing signature ends the attempt with that error wrapped, after five stages |
| `PeerChaincode.EndorseFailureStops` | peer/chaincode/instantiate.go:101-104 | after a signed proposal, a failing endorsement ends the attempt with that error wrapped and nothing is assembled |
| `PeerChaincode.EndorserCalls` | peer/chaincode/instantiate.go:101 | instantiate calls the endorser at most once, exactly when it reaches the endorsement stage, and with the signed proposal; the call is read off the attempt `Instantiate` returns |
| `PeerChaincode.NilEndorsementYieldsNothing` | peer/chaincode/instantiate.go:101-116 | an endorsement answering `(nil, nil)` yields neither envelope nor error, and no assembly |
| `PeerChaincode.EndorsementAssembled` | peer/chaincode/instantiate.go:106-113 | a non-nil endorsement is assembled with the same proposal into the returned envelope, or the assembly error is returned wrapped |
| `PeerChaincode.Deploy` | peer/chaincode/instantiate.go:122-139 | an empty flags channel ID errs with no call at all; otherwise the probe for that channel is the first call and Close the last, each made exactly once; a failed probe is wrapped, is not retried and is followed only by Close; v1.1 makes exactly one config-based update between probe and Close, never calls sendInit and returns the update's answer; any other version makes exactly one sendInit call there, never the update, and returns sendInit's answer |
| `PeerChaincode.ChaincodeCmdFactory.ChaincodeDeploy` | peer/chaincode/instantiate.go:122-139 | returns Deploy's result and appends exactly Deploy's calls to the log |
| `PeerChaincode.ChaincodeCmdFactory.LsccInstantiate` | peer/chaincode/instantiate.go:141-147 | the endorser call made by instantiate, if any, is logged; an instantiate error is returned with no broadcast; otherwise the envelope, nil or not, is sent once after the endorsement and the send's answer returned |
| `PeerChaincode.ChaincodeCmdFactory.Send` | peer/chaincode/instantiate.go:146 | records one broadcast of the envelope and returns the orderer's answer |
| `PeerChaincode.ChaincodeCmdFactory.CloseBroadcastClient` | peer/chaincode/instantiate.go:128 | records one Close of the broadcast client |

## Left out

- The implementation file of the ACL registry (aclmgmt.go) is not part of this model. The registry's behaviour is taken from core/aclmgmt/aclmgmt_test.go.
- Fallback provider: it checks the resource before the identity shape. Its policy decision for a well-formed request on a mapped resource is the abstract `evaluate`. Its set of mapped resources is a parameter.
- `AclMgmt.AclRegistry.GenerateSimulationResults`: succeeding after any registration is an assumption. The tests show only the `nil` registration.
- `AclMgmt.AclRegistry.Get` returns the provider behind the facade rather than a facade object. In the model the facade is the registry object itself.
- The thread safety of `sync.Once` and the unsynchronised override map: registration is modelled sequentially, as a set-once flag.
- The testify mock machinery is replaced by a function from request to decision, plus the `asked` record of the requests the provider received.
- Cobra command construction, the `RunE` factory fallback and flag wiring (instantiate.go:37-71) are CLI plumbing. This includes the composition `chaincodeDeploy(cf, lsccInstantiate)`, so the send-init callback is an abstract answer.
- The internals of `fetchResourceConfig`, `configBasedLifecycleUpdate`, `getChaincodeSpec`, `getChaincodeDeploymentSpec`, the protobuf constructors, signing, serialisation, the endorser client and the broadcast client are opaque answers. Whatever `configBasedLifecycleUpdate` does with the callback is not modelled.
- The channel version is the enumeration `V11 | Legacy`. Every version other than v1.1 takes the legacy branch, as the equality test does.
- Collaborator panics are not modelled, so the deferred `Close` is shown only on returning paths. `Close`'s own error is discarded, as the deferred call discards it.
- Error message text is not modelled. An error keeps only the stage it is wrapped with and its cause.
- `PeerChaincode.Instantiate`: its own contract names the stage a failure is wrapped with, but not the collaborator answer that caused it. The lemmas `DeploymentSpecFailureStops` through `EndorseFailureStops` and `EndorsementAssembled` state that link for each stage.
