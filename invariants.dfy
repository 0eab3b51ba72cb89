/** Properties of any sequence of handler calls the service processes, one
    after the other, on its registry. */
module Invariants {
  import opened Types
  import opened Propagation
  import opened StateMachine

  /** One call of a mutating handler, with the answers of the collaborators
      it consults. */
  datatype Op =
    | AddOp(latest: AccountList, createRoster: Result<SkipBlock, string>, createData: Result<Created, string>,
            encodeErr: Option<string>, send: EntityId -> SendOutcome)
    | InstallOp(storage: IdentityStorage)
    | ProposeOp(id: Bytes, proposed: Option<AccountList>)
    | VoteOp(sender: EntityId, id: Bytes, signer: string, sig: Option<SchnorrSig>,
             commit: Result<SkipBlock, string>, notifyErr: Option<string>)
    | AdvanceOp(id: Bytes, update: Result<seq<SkipBlock>, string>)

  /** The ledger returns at least one block of an update chain. */
  predicate WellFormedOp(op: Op) {
    op.AdvanceOp? && op.update.Ok? ==> |op.update.value| > 0
  }

  function Apply(reg: Registry, op: Op, self: EntityId, verify: Verifier, hash: Hasher): Registry
    requires WellFormedOp(op)
  {
    match op
    case AddOp(latest, createRoster, createData, encodeErr, send) =>
      AddIdentity(reg, self, latest, createRoster, createData, encodeErr, send).registry
    case InstallOp(storage) => PropagateIdentity(reg, storage).registry
    case ProposeOp(id, proposed) => ProposeConfig(reg, id, proposed).registry
    case VoteOp(sender, id, signer, sig, commit, notifyErr) =>
      VoteConfig(reg, sender, id, signer, sig, verify, hash, commit, notifyErr).registry
    case AdvanceOp(id, update) => PropagateSkipBlock(reg, id, update).registry
  }

  function Run(reg: Registry, ops: seq<Op>, self: EntityId, verify: Verifier, hash: Hasher): Registry
    requires forall i :: 0 <= i < |ops| ==> WellFormedOp(ops[i])
    decreases |ops|
  {
    if ops == [] then reg else Run(Apply(reg, ops[0], self, verify, hash), ops[1..], self, verify, hash)
  }

  /** The tally of a replica is sound: only owners of the committed list
      have ballots, there are ballots only while a hashable proposal is
      pending, and every approving ballot is a valid signature of its owner
      on that proposal's hash. */
  predicate BallotsValid(s: IdentityStorage, verify: Verifier, hash: Hasher) {
    s.votes.Keys <= s.latest.owners.Keys &&
    (s.votes != map[] ==> s.proposed.Some? && hash(s.proposed.value).Some?) &&
    forall signer :: signer in s.votes && s.votes[signer].Some? ==>
      verify(s.latest.owners[signer], hash(s.proposed.value).value, s.votes[signer].value)
  }

  predicate RegistryValid(reg: Registry, verify: Verifier, hash: Hasher) {
    forall id :: id in reg ==> BallotsValid(reg[id], verify, hash)
  }

  /** Replicas received from peers are assumed sound; the service itself
      does not check them. */
  predicate InstallsValid(ops: seq<Op>, verify: Verifier, hash: Hasher) {
    forall i :: 0 <= i < |ops| && ops[i].InstallOp? ==> BallotsValid(ops[i].storage, verify, hash)
  }

  lemma ApplyKeepsBallotsValid(reg: Registry, op: Op, self: EntityId, verify: Verifier, hash: Hasher)
    requires WellFormedOp(op) && RegistryValid(reg, verify, hash)
    requires op.InstallOp? ==> BallotsValid(op.storage, verify, hash)
    ensures RegistryValid(Apply(reg, op, self, verify, hash), verify, hash)
  {
  }

  /** Every run keeps every tally sound. */
  lemma {:induction false} RunKeepsBallotsValid(reg: Registry, ops: seq<Op>, self: EntityId, verify: Verifier, hash: Hasher)
    requires forall i :: 0 <= i < |ops| ==> WellFormedOp(ops[i])
    requires RegistryValid(reg, verify, hash) && InstallsValid(ops, verify, hash)
    ensures RegistryValid(Run(reg, ops, self, verify, hash), verify, hash)
    decreases |ops|
  {
    if ops != [] {
      ApplyKeepsBallotsValid(reg, ops[0], self, verify, hash);
      RunKeepsBallotsValid(Apply(reg, ops[0], self, verify, hash), ops[1..], self, verify, hash);
    }
  }

  /** No handler ever removes an identity. */
  lemma {:induction false} RunKeepsIdentities(reg: Registry, ops: seq<Op>, self: EntityId, verify: Verifier, hash: Hasher)
    requires forall i :: 0 <= i < |ops| ==> WellFormedOp(ops[i])
    ensures reg.Keys <= Run(reg, ops, self, verify, hash).Keys
    decreases |ops|
  {
    if ops != [] {
      var reg' := Apply(reg, ops[0], self, verify, hash);
      assert reg.Keys <= reg'.Keys;
      RunKeepsIdentities(reg', ops[1..], self, verify, hash);
    }
  }

  /** True when `op` neither proposes on `id` nor lets AddIdentity overwrite
      the replica stored under `id` (the two calls that drop its ballots). */
  predicate KeepsRound(op: Op, id: Bytes) {
    !(op.ProposeOp? && op.id == id) &&
    !(op.AddOp? && op.createRoster.Ok? && op.createData.Ok? && op.createData.value.data.hash == id)
  }

  /** A recorded ballot, the committed list and the proposal it was cast on
      survive every call that keeps the round. */
  lemma ApplyKeepsBallot(reg: Registry, op: Op, self: EntityId, verify: Verifier, hash: Hasher, id: Bytes, signer: string)
    requires WellFormedOp(op) && KeepsRound(op, id)
    requires id in reg && signer in reg[id].votes
    ensures var reg' := Apply(reg, op, self, verify, hash);
            id in reg' && signer in reg'[id].votes && reg'[id].votes[signer] == reg[id].votes[signer] &&
            reg'[id].latest == reg[id].latest && reg'[id].proposed == reg[id].proposed
  {
  }

  /** The same over any sequence of such calls. */
  lemma {:induction false} RunKeepsBallot(reg: Registry, ops: seq<Op>, self: EntityId, verify: Verifier, hash: Hasher,
                                          id: Bytes, signer: string)
    requires forall i :: 0 <= i < |ops| ==> WellFormedOp(ops[i]) && KeepsRound(ops[i], id)
    requires id in reg && signer in reg[id].votes
    ensures var reg' := Run(reg, ops, self, verify, hash);
            id in reg' && signer in reg'[id].votes && reg'[id].votes[signer] == reg[id].votes[signer] &&
            reg'[id].latest == reg[id].latest && reg'[id].proposed == reg[id].proposed
    decreases |ops|
  {
    if ops != [] {
      ApplyKeepsBallot(reg, ops[0], self, verify, hash, id, signer);
      RunKeepsBallot(Apply(reg, ops[0], self, verify, hash), ops[1..], self, verify, hash, id, signer);
    }
  }

  /** Once a signer's ballot is in a sound tally, every later ballot of that
      signer on the identity is refused as a duplicate until a new proposal
      (or an AddIdentity overwriting the replica) starts a new round. */
  lemma RunRejectsSecondBallot(reg: Registry, ops: seq<Op>, self: EntityId, verify: Verifier, hash: Hasher,
                               id: Bytes, signer: string, sig: Option<SchnorrSig>)
    requires forall i :: 0 <= i < |ops| ==> WellFormedOp(ops[i]) && KeepsRound(ops[i], id)
    requires id in reg && signer in reg[id].votes && BallotsValid(reg[id], verify, hash)
    ensures VoteCheck(Run(reg, ops, self, verify, hash), id, signer, sig, verify, hash) == Some(AlreadyVoted)
  {
    RunKeepsBallot(reg, ops, self, verify, hash, id, signer);
  }

  lemma {:induction false} SubsetSize<T>(a: set<T>, b: set<T>)
    requires a <= b
    ensures |a| <= |b|
    decreases |a|
  {
    if a != {} {
      var x :| x in a;
      SubsetSize(a - {x}, b - {x});
    }
  }

  /** A sound tally never holds more ballots than the committed list has
      owners. */
  lemma TallyBounded(s: IdentityStorage, verify: Verifier, hash: Hasher)
    requires BallotsValid(s, verify, hash)
    ensures |s.votes| <= |s.latest.owners|
  {
    SubsetSize(s.votes.Keys, s.latest.owners.Keys);
  }
}
