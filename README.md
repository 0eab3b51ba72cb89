# Identity service: per-identity voting state machine

This project models the identity service of a cothority conode
(`services/identity/service.go`) in Dafny. The service keeps a map
`Identities` from an identity id to a local replica (`IdentityStorage`). The
id is the hash of the identity's data skipblock. A replica holds:

- the committed account list (`Latest`);
- a pending proposal (`Proposed`);
- the ballots on that proposal (`Votes`);
- the identity's root and data skipblocks.

The message handlers change the map:

- `AddIdentity` creates an identity on the skipchain, stores it and sends it to the other conodes of its roster.
- `PropagateIdentity` stores a replica that a peer sent, but only once per id.
- `ProposeConfig` replaces the proposal and clears the ballots.
- `ConfigNewCheck` and `ConfigUpdate` only read.
- `VoteConfig` runs a fixed chain of checks on a ballot, records it and, for a ballot from outside the roster, appends the proposal to the skipchain.
- `PropagateSkipBlock` moves the data head to the newest block.

Layout:

- `types.dfy` (`Types`): account lists, skipblocks, the replica, errors, and `Option`/`Result`.
- `propagation.dfy` (`Propagation`): the fan-out loop of `AddIdentity` (`SendToPeers`), its specification (`Failures`, `Fanout`) and lemmas about it.
- `state_machine.dfy` (`StateMachine`): every handler as a pure transition `Registry -> Step(registry, reply)`, plus the two reads.
- `handler_properties.dfy` (`HandlerProperties`): what each handler promises, and how successive calls interact.
- `invariants.dfy` (`Invariants`): any sequence of handler calls (`Run`) keeps every tally sound and never drops an identity.
- `service.dfy` (`IdentityService`): the `Service` class. Its field `identities` is updated in place by imperative methods. Each method's postcondition ties it to the transition in `StateMachine`.

The collaborators are abstract:

- Schnorr verification is the function `verify: (PublicKey, Bytes, SchnorrSig) -> bool`.
- `AccountList.Hash()` is the function `hash: AccountList -> Option<Bytes>`. `None` means the hash cannot be computed.
- Each skipchain-client call is a parameter that carries that call's answer:
  - `createRoster` answers `CreateRoster`;
  - `createData` answers `CreateData`;
  - `commit` answers `ProposeData(Root, Data, Proposed)`;
  - `update` answers `GetUpdateChain(Root, Data.Hash)`.
- The transport is `send: EntityId -> SendOutcome`.
- A failure to build the propagation message (`CreateServiceMessage`) is `encodeErr`. That message is the same for every peer.
- A failure of the post-commit `SendISMOthers` is `notifyErr`.
- "The sender is in the roster" (`Search(e.ID) != -1`) is `sender in Root.roster`.

Behaviour of the code that a reader might not expect:

- `VoteConfig` checks that the proposal's hash can be computed before it checks for a duplicate ballot (service.go:158-164).
- A commit moves only `Data`. `Latest` is not replaced and `Proposed` is not cleared, so after a commit `ConfigUpdate` still returns the old list and `ConfigNewCheck` the committed proposal (`ReadsAfterCommit`).
- Every valid ballot from a client is committed, whatever the tally. The threshold test at service.go:184-187 only logs (`CommitNotGatedOnQuorum`).
- `AddIdentity` stores the new replica without checking whether the id is already present. An existing replica under that hash is replaced, and its proposal and ballots are dropped.

## Model

| member | source | states |
|---|---|---|
| `Propagation.SendToPeers` | services/identity/service.go:73-91 | The fan-out loop aborts, with the message-building error, exactly when that build fails and the roster names a conode other than the local one. Otherwise it completes and reports the reason of every failed send to a non-local conode, in roster order. |
| `Propagation.FailuresIgnoreSelf` | services/identity/service.go:74-77 | The local conode is skipped: what the transport would do with a send to `self` never changes the collected failures. |
| `Propagation.NoFailuresIffAllSent` | services/identity/service.go:83-91 | No failure is collected if and only if every non-local conode of the roster was reached. |
| `Propagation.FailuresComeFromPeers` | services/identity/service.go:83-86 | Every collected reason is the reason of a failed send to some non-local conode of the roster. |
| `StateMachine.AddIdentity` | services/identity/service.go:49-92 | The registry changes only when both ledger calls succeed. It then adds or replaces the entry under the data block's hash with the new replica, and every other entry keeps its value. |
| `StateMachine.PropagateIdentity` | services/identity/service.go:96-104 | Installing a replica never removes or alters an existing entry. |
| `StateMachine.ProposeConfig` | services/identity/service.go:108-117 | Only the entry of the given id may change, and no identity is added or removed. |
| `StateMachine.ConfigNewCheck` | services/identity/service.go:120-129 | The only failure is an unknown identity. |
| `StateMachine.ConfigUpdate` | services/identity/service.go:132-141 | The only failure is an unknown identity. |
| `StateMachine.VoteConfig` | services/identity/service.go:146-203 | Only the voted identity's entry may change. A returned new head is the data block now stored for that identity. |
| `StateMachine.PropagateSkipBlock` | services/identity/service.go:206-217 | Only the entry of the given id may change, and no identity is added or removed. |
| `HandlerProperties.AddLedgerFailure` | services/identity/service.go:54-63 | A failed CreateRoster or CreateData returns a ledger error and stores nothing. |
| `HandlerProperties.AddStoresThenPropagates` | services/identity/service.go:50-92 | After both ledger calls succeed, the replica is stored under the data hash whatever propagation does. It holds the given account list as `Latest`, no proposal and no ballot. The call succeeds, replying with the root and data blocks, if and only if the message could be built (or there was no other conode) and every other conode was reached. |
| `HandlerProperties.AddSkipsSelf` | services/identity/service.go:74-77 | AddIdentity's whole outcome does not depend on the transport's behaviour towards the local conode. |
| `HandlerProperties.InstallOnce` | services/identity/service.go:97-103 | A replica is stored under its data hash exactly when that id is absent. A present id gives `IdentityExists` and leaves the registry unchanged, so a second replica for the same id is always refused. |
| `HandlerProperties.ProposeResetsBallots` | services/identity/service.go:110-116 | On a known id the proposal becomes the given list, stored as sent (a nil list too), and the ballots become empty, whatever they were. `Latest`, root and data are kept. An unknown id fails and changes nothing. |
| `HandlerProperties.ReadsAfterPropose` | services/identity/service.go:114-141 | ConfigNewCheck reads back the list just proposed, or none for a nil proposal. ConfigUpdate is unaffected by a proposal. |
| `HandlerProperties.ReadsFailOnlyWhenUnknown` | services/identity/service.go:120-141 | Both reads succeed if and only if the id is known. They return the pending proposal (possibly none) and the committed list. |
| `HandlerProperties.VoteCheckOrder` | services/identity/service.go:147-171 | The checks run in this order: identity known, signer an owner of `Latest`, a proposal pending, its hash computable, no earlier ballot by the signer, a present signature verifies. The first that fails decides the error. When all pass, no error is raised. |
| `HandlerProperties.NonOwnerRejected` | services/identity/service.go:151-154 | A signer outside `Latest.Owners` is refused with any signature, an absent one included, and nothing changes. |
| `HandlerProperties.RejectedBallotChangesNothing` | services/identity/service.go:147-171 | A refused ballot returns the first failing check's error and leaves the registry unchanged. |
| `HandlerProperties.AcceptedBallotRecorded` | services/identity/service.go:162-172 | An accepted ballot adds exactly the signer's entry, with the given signature, and the tally grows by one. `Latest`, `Proposed` and the root are kept. |
| `HandlerProperties.RejectBallotNeedsNoSignature` | services/identity/service.go:166-171 | An absent signature (a reject ballot) passes without any verification. |
| `HandlerProperties.SecondBallotRejected` | services/identity/service.go:162-164 | After a ballot is recorded, a second ballot by the same signer is refused as `AlreadyVoted` and changes nothing. This holds whatever its signature and sender, and even when the first call's commit failed. |
| `HandlerProperties.ProposalReopensVoting` | services/identity/service.go:114-115 | After a new proposal, any owner of `Latest`, including one who had voted, passes every check, given a computable hash and a valid or absent signature. |
| `HandlerProperties.NilProposalWithdraws` | services/identity/service.go:114-115 | A nil proposal withdraws the pending one. A later ballot by an owner fails with `NoProposal`, and one by a non-owner with `SignerNotFound`; nothing changes. |
| `HandlerProperties.CommitRule` | services/identity/service.go:172-202 | A ballot from a roster conode is recorded and returns no head, with data unchanged. A client ballot whose commit fails returns the ledger error, and the ballot stays recorded. A client ballot whose commit succeeds moves the data head to the returned block. It returns that head, or the notification error. |
| `HandlerProperties.CommitNotGatedOnQuorum` | services/identity/service.go:184-192 | Even when the tally stays below the threshold and short of all owners, a client ballot is committed and returns the new head. |
| `HandlerProperties.ReadsAfterCommit` | services/identity/service.go:188-192 | After a commit, ConfigUpdate still returns the old `Latest` and ConfigNewCheck the same proposal. Only the data head moved. |
| `HandlerProperties.AdvanceHead` | services/identity/service.go:207-216 | On a known id with a successful update chain, the data head becomes the chain's last block and nothing else in the replica changes. An unknown id or a ledger error changes nothing and is reported. |
| `Invariants.ApplyKeepsBallotsValid` | services/identity/service.go:50-216 | Each handler keeps every tally sound: ballots only from owners of `Latest`, ballots only while a hashable proposal is pending, and every approving ballot a valid owner signature on that proposal's hash. For PropagateIdentity this requires a sound incoming replica. |
| `Invariants.RunKeepsBallotsValid` | services/identity/service.go:50-216 | Any sequence of handler calls keeps every tally sound, provided the replicas received from peers are sound. |
| `Invariants.RunKeepsIdentities` | services/identity/service.go:50-216 | No sequence of handler calls removes an identity. |
| `Invariants.ApplyKeepsBallot` | services/identity/service.go:50-216 | A recorded ballot keeps its value across any handler call, except a proposal on that id or an AddIdentity that replaces the replica. `Latest` and `Proposed` are kept too. |
| `Invariants.RunKeepsBallot` | services/identity/service.go:50-216 | The same holds across any sequence of such calls. |
| `Invariants.RunRejectsSecondBallot` | services/identity/service.go:162-164 | Once a signer's ballot is in a sound tally, after any sequence of calls that keeps the round, a new ballot by that signer fails with `AlreadyVoted`. |
| `Invariants.TallyBounded` | services/identity/service.go:151-172 | A sound tally never has more ballots than `Latest` has owners. |
| `IdentityService.Service.constructor` | services/identity/service.go:224-230 | A new service starts with no identity. |
| `IdentityService.Service.AddIdentity` | services/identity/service.go:49-92 | The new map and reply are those of `StateMachine.AddIdentity`. |
| `IdentityService.Service.PropagateIdentity` | services/identity/service.go:96-104 | The new map and reply are those of `StateMachine.PropagateIdentity`. |
| `IdentityService.Service.ProposeConfig` | services/identity/service.go:108-117 | The new map and reply are those of `StateMachine.ProposeConfig`. |
| `IdentityService.Service.VoteConfig` | services/identity/service.go:146-203 | The new map and reply are those of `StateMachine.VoteConfig`. |
| `IdentityService.Service.PropagateSkipBlock` | services/identity/service.go:206-217 | The new map and reply are those of `StateMachine.PropagateSkipBlock`. |

## Left out

- Network sending (`SendRaw`, `SendISMOthers`, `sda.CreateServiceMessage`) is transport I/O. Only each send's ok/error outcome is modelled.
- Relaying the ballot at service.go:177 is not modelled. Its failure is only logged, so it has no effect on state or reply.
- The skipchain client (`CreateRoster`, `CreateData`, `ProposeData`, `GetUpdateChain`) is an external library. Its answers are parameters, so the model does not relate them to the arguments the service passes. The roster and the (2, 10, VerifyNone) parameters given to `CreateRoster` and `CreateData` therefore do not appear.
- Schnorr verification and the encoding behind `AccountList.Hash()` are cryptography outside this model. They stay uninterpreted functions.
- Error messages are structured `Error` values, not strings. `PeersUnreachable` carries the list of send errors that the code joins with newlines.
- Registration and bootstrap (`init`, `RegisterMessage`, `dbg.Fatal`), the stub `NewProtocol` and the `path` and `skipchain` fields are framework plumbing.
- Logging (`dbg.*`) is not modelled, including the log-only quorum test. Its lack of effect is stated by `CommitNotGatedOnQuorum`.
- Concurrency is not modelled: the source has no locking, and handlers are modelled as running one at a time.
- Go pointer aliasing is not modelled: replicas are owned values. In the source, `PropagateIdentity` stores the message's pointer and the handlers update the stored struct through it.
- `IdentityService.Service.PropagateSkipBlock`: requires the ledger's update chain to be non-empty. The code indexes its last element without checking, which would panic on an empty chain.
- The code has nil pointers and maps. `Latest`, `Root` and `Data` are assumed non-nil; a nil one would make the code panic. A nil `Votes` map is treated as the empty map, which matches reads on a nil map. A nil `Proposed` is modelled (`None`). One case is not captured: a replica received through PropagateIdentity with `Proposed` set and `Votes` nil. There the code panics when it records a ballot (service.go:172), while the model records it.
- `Invariants.RunKeepsBallotsValid`: assumes that replicas received through PropagateIdentity have sound tallies. The service does not check incoming replicas.
