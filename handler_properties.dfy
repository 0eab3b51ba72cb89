/** What each handler of the identity service promises, stated over the
    transitions of StateMachine, and how successive calls interact. */
module HandlerProperties {
  import opened Types
  import opened Propagation
  import opened StateMachine

  // ---- AddIdentity ----

  /** A ledger failure ends AddIdentity before anything is stored. */
  lemma AddLedgerFailure(reg: Registry, self: EntityId, latest: AccountList,
                         createRoster: Result<SkipBlock, string>, createData: Result<Created, string>,
                         encodeErr: Option<string>, send: EntityId -> SendOutcome)
    requires createRoster.Err? || createData.Err?
    ensures var r := AddIdentity(reg, self, latest, createRoster, createData, encodeErr, send);
            r.registry == reg && r.reply.Err? && r.reply.error.LedgerFailed?
  {
  }

  /** Once the ledger has created the blocks, the new replica (latest =
      the given account list, no proposal, no ballot) is stored under the data
      block's hash and stays there whatever propagation does; the call
      succeeds exactly when the message could be built (or there was nobody
      to send it to) and every other conode of the roster was reached. */
  lemma AddStoresThenPropagates(reg: Registry, self: EntityId, latest: AccountList,
                                createRoster: Result<SkipBlock, string>, createData: Result<Created, string>,
                                encodeErr: Option<string>, send: EntityId -> SendOutcome)
    requires createRoster.Ok? && createData.Ok?
    ensures var r := AddIdentity(reg, self, latest, createRoster, createData, encodeErr, send);
            var root, data := createData.value.root, createData.value.data;
            r.registry == reg[data.hash := IdentityStorage(latest, None, map[], root, data)] &&
            (r.reply.Ok? <==>
               (encodeErr.None? || !HasPeer(root.roster, self)) &&
               forall i :: 0 <= i < |root.roster| && root.roster[i] != self ==> send(root.roster[i]).Sent?) &&
            (r.reply.Ok? ==> r.reply.value == AddReply(root, data))
  {
    NoFailuresIffAllSent(createData.value.root.roster, self, send);
  }

  /** The local conode never sends to itself: how the transport would treat
      a message to `self` cannot change the outcome of AddIdentity. */
  lemma AddSkipsSelf(reg: Registry, self: EntityId, latest: AccountList,
                     createRoster: Result<SkipBlock, string>, createData: Result<Created, string>,
                     encodeErr: Option<string>, send: EntityId -> SendOutcome, send': EntityId -> SendOutcome)
    requires forall p :: p != self ==> send(p) == send'(p)
    ensures AddIdentity(reg, self, latest, createRoster, createData, encodeErr, send) ==
            AddIdentity(reg, self, latest, createRoster, createData, encodeErr, send')
  {
    if createRoster.Ok? && createData.Ok? {
      FailuresIgnoreSelf(createData.value.root.roster, self, send, send');
    }
  }

  // ---- PropagateIdentity ----

  /** A replica is installed only under a fresh id; a second replica for the
      same id is refused and changes nothing. */
  lemma InstallOnce(reg: Registry, storage: IdentityStorage, again: IdentityStorage)
    requires again.data.hash == storage.data.hash
    ensures var r := PropagateIdentity(reg, storage);
            (storage.data.hash !in reg ==> r.reply.Ok? && r.registry == reg[storage.data.hash := storage]) &&
            (storage.data.hash in reg ==> r.reply == Err(IdentityExists) && r.registry == reg) &&
            PropagateIdentity(r.registry, again) == Step(r.registry, Err(IdentityExists))
  {
  }

  // ---- ProposeConfig and the two reads ----

  /** A proposal on a known identity becomes the pending one and leaves no
      ballot behind, whatever ballots there were; the committed list, root
      and head are kept. An unknown identity changes nothing. */
  lemma ProposeResetsBallots(reg: Registry, id: Bytes, proposed: Option<AccountList>)
    ensures var r := ProposeConfig(reg, id, proposed);
            (id !in reg ==> r == Step(reg, Err(IdentityNotFound))) &&
            (id in reg ==>
               r.reply.Ok? && id in r.registry &&
               r.registry[id].votes == map[] && r.registry[id].proposed == proposed &&
               r.registry[id].latest == reg[id].latest &&
               r.registry[id].root == reg[id].root && r.registry[id].data == reg[id].data)
  {
  }

  /** ConfigNewCheck reads back what ProposeConfig stored; ConfigUpdate is
      not affected by a proposal. */
  lemma ReadsAfterPropose(reg: Registry, id: Bytes, proposed: Option<AccountList>)
    ensures var reg' := ProposeConfig(reg, id, proposed).registry;
            ConfigNewCheck(reg', id) == (if id in reg then Ok(proposed) else Err(IdentityNotFound)) &&
            ConfigUpdate(reg', id) == ConfigUpdate(reg, id)
  {
  }

  /** The reads fail exactly for an unknown identity. */
  lemma ReadsFailOnlyWhenUnknown(reg: Registry, id: Bytes)
    ensures ConfigNewCheck(reg, id).Ok? <==> id in reg
    ensures ConfigUpdate(reg, id).Ok? <==> id in reg
    ensures id in reg ==> ConfigNewCheck(reg, id).value == reg[id].proposed &&
                          ConfigUpdate(reg, id).value == reg[id].latest
  {
  }

  // ---- VoteConfig ----

  /** The checks come in a fixed order and the first one that fails decides
      the error. */
  lemma VoteCheckOrder(reg: Registry, id: Bytes, signer: string, sig: Option<SchnorrSig>,
                       verify: Verifier, hash: Hasher)
    ensures id !in reg ==> VoteCheck(reg, id, signer, sig, verify, hash) == Some(IdentityNotFound)
    ensures id in reg ==>
              var s, c := reg[id], VoteCheck(reg, id, signer, sig, verify, hash);
              (signer !in s.latest.owners ==> c == Some(SignerNotFound)) &&
              (signer in s.latest.owners ==>
                 (s.proposed.None? ==> c == Some(NoProposal)) &&
                 (s.proposed.Some? ==>
                    (hash(s.proposed.value).None? ==> c == Some(HashFailed)) &&
                    (hash(s.proposed.value).Some? ==>
                       (signer in s.votes ==> c == Some(AlreadyVoted)) &&
                       (signer !in s.votes ==>
                          (c == Some(WrongSignature) <==>
                             sig.Some? && !verify(s.latest.owners[signer], hash(s.proposed.value).value, sig.value)) &&
                          (c != Some(WrongSignature) ==> c == None)))))
  {
  }

  /** A signer that is not an owner of the committed list never gets a
      ballot in, whatever the signature (absent included). */
  lemma NonOwnerRejected(reg: Registry, sender: EntityId, id: Bytes, signer: string, sig: Option<SchnorrSig>,
                         verify: Verifier, hash: Hasher, commit: Result<SkipBlock, string>, notifyErr: Option<string>)
    requires id in reg && signer !in reg[id].latest.owners
    ensures VoteConfig(reg, sender, id, signer, sig, verify, hash, commit, notifyErr) == Step(reg, Err(SignerNotFound))
  {
  }

  /** A refused ballot changes nothing. */
  lemma RejectedBallotChangesNothing(reg: Registry, sender: EntityId, id: Bytes, signer: string, sig: Option<SchnorrSig>,
                                     verify: Verifier, hash: Hasher,
                                     commit: Result<SkipBlock, string>, notifyErr: Option<string>)
    requires VoteCheck(reg, id, signer, sig, verify, hash).Some?
    ensures var r := VoteConfig(reg, sender, id, signer, sig, verify, hash, commit, notifyErr);
            r.registry == reg && r.reply == Err(VoteCheck(reg, id, signer, sig, verify, hash).value)
  {
  }

  /** An accepted ballot adds exactly the signer's entry to the tally, with
      the given signature (an absent one is a reject ballot), and keeps the
      committed list, the proposal and the root. */
  lemma AcceptedBallotRecorded(reg: Registry, sender: EntityId, id: Bytes, signer: string, sig: Option<SchnorrSig>,
                               verify: Verifier, hash: Hasher,
                               commit: Result<SkipBlock, string>, notifyErr: Option<string>)
    requires VoteCheck(reg, id, signer, sig, verify, hash).None?
    ensures var r := VoteConfig(reg, sender, id, signer, sig, verify, hash, commit, notifyErr);
            id in reg && id in r.registry && signer !in reg[id].votes &&
            r.registry[id].votes == reg[id].votes[signer := sig] &&
            |r.registry[id].votes| == |reg[id].votes| + 1 &&
            r.registry[id].latest == reg[id].latest &&
            r.registry[id].proposed == reg[id].proposed &&
            r.registry[id].root == reg[id].root
  {
  }

  /** An absent signature is never checked against the proposal. */
  lemma RejectBallotNeedsNoSignature(reg: Registry, id: Bytes, signer: string, verify: Verifier, hash: Hasher)
    requires id in reg && signer in reg[id].latest.owners && reg[id].proposed.Some?
    requires hash(reg[id].proposed.value).Some? && signer !in reg[id].votes
    ensures VoteCheck(reg, id, signer, None, verify, hash) == None
  {
  }

  /** Once a ballot is recorded, a second one by the same signer on the same
      proposal is refused as a duplicate, whatever its signature and origin
      and even when the ledger failed the first time. */
  lemma SecondBallotRejected(reg: Registry, sender: EntityId, id: Bytes, signer: string, sig: Option<SchnorrSig>,
                             verify: Verifier, hash: Hasher,
                             commit: Result<SkipBlock, string>, notifyErr: Option<string>,
                             sender': EntityId, sig': Option<SchnorrSig>,
                             commit': Result<SkipBlock, string>, notifyErr': Option<string>)
    requires VoteCheck(reg, id, signer, sig, verify, hash).None?
    ensures var reg' := VoteConfig(reg, sender, id, signer, sig, verify, hash, commit, notifyErr).registry;
            VoteConfig(reg', sender', id, signer, sig', verify, hash, commit', notifyErr') ==
            Step(reg', Err(AlreadyVoted))
  {
  }

  /** A new proposal opens a new round: any owner of the committed list,
      including one who had voted already, can vote again on it. */
  lemma ProposalReopensVoting(reg: Registry, id: Bytes, proposed: AccountList, signer: string,
                              sig: Option<SchnorrSig>, verify: Verifier, hash: Hasher)
    requires id in reg && signer in reg[id].latest.owners && hash(proposed).Some?
    requires sig.Some? ==> verify(reg[id].latest.owners[signer], hash(proposed).value, sig.value)
    ensures VoteCheck(ProposeConfig(reg, id, Some(proposed)).registry, id, signer, sig, verify, hash) == None
  {
  }

  /** A nil proposal withdraws the pending one: every later ballot on the
      identity, by an owner or not, fails until a list is proposed again. */
  lemma NilProposalWithdraws(reg: Registry, sender: EntityId, id: Bytes, signer: string, sig: Option<SchnorrSig>,
                             verify: Verifier, hash: Hasher, commit: Result<SkipBlock, string>, notifyErr: Option<string>)
    requires id in reg
    ensures var reg' := ProposeConfig(reg, id, None).registry;
            VoteConfig(reg', sender, id, signer, sig, verify, hash, commit, notifyErr) ==
            Step(reg', Err(if signer in reg[id].latest.owners then NoProposal else SignerNotFound))
  {
  }

  /** Commit rule: a ballot from a roster conode is only recorded; a ballot
      from outside the roster appends the proposal to the ledger, and the
      data head moves only when the ledger accepts it. A ledger failure is
      reported but the ballot stays. */
  lemma CommitRule(reg: Registry, sender: EntityId, id: Bytes, signer: string, sig: Option<SchnorrSig>,
                   verify: Verifier, hash: Hasher, commit: Result<SkipBlock, string>, notifyErr: Option<string>)
    requires VoteCheck(reg, id, signer, sig, verify, hash).None?
    ensures var r := VoteConfig(reg, sender, id, signer, sig, verify, hash, commit, notifyErr);
            id in reg && id in r.registry && signer in r.registry[id].votes &&
            (sender in reg[id].root.roster ==> r.reply == Ok(None) && r.registry[id].data == reg[id].data) &&
            (sender !in reg[id].root.roster && commit.Err? ==>
               r.reply == Err(LedgerFailed(commit.error)) && r.registry[id].data == reg[id].data) &&
            (sender !in reg[id].root.roster && commit.Ok? ==>
               r.registry[id].data == commit.value &&
               r.reply == (if notifyErr.Some? then Err(NotifyFailed(notifyErr.value)) else Ok(Some(commit.value))))
  {
  }

  /** The quorum test does not gate the commit: even a ballot that leaves the
      tally below the threshold and short of all owners is committed. */
  lemma CommitNotGatedOnQuorum(reg: Registry, sender: EntityId, id: Bytes, signer: string, sig: Option<SchnorrSig>,
                               verify: Verifier, hash: Hasher, head: SkipBlock)
    requires VoteCheck(reg, id, signer, sig, verify, hash).None?
    requires sender !in reg[id].root.roster
    requires |reg[id].votes| + 1 < reg[id].latest.threshold
    requires |reg[id].votes| + 1 != |reg[id].latest.owners|
    ensures var r := VoteConfig(reg, sender, id, signer, sig, verify, hash, Ok(head), None);
            r.reply == Ok(Some(head)) && r.registry[id].data == head
  {
  }

  /** After a commit the committed account list is still the old one and the
      proposal is still pending: the handler moves only the data head. */
  lemma ReadsAfterCommit(reg: Registry, sender: EntityId, id: Bytes, signer: string, sig: Option<SchnorrSig>,
                         verify: Verifier, hash: Hasher, head: SkipBlock, notifyErr: Option<string>)
    requires VoteCheck(reg, id, signer, sig, verify, hash).None?
    requires sender !in reg[id].root.roster
    ensures var reg' := VoteConfig(reg, sender, id, signer, sig, verify, hash, Ok(head), notifyErr).registry;
            ConfigUpdate(reg', id) == Ok(reg[id].latest) &&
            ConfigNewCheck(reg', id) == Ok(reg[id].proposed) &&
            reg'[id].data == head
  {
  }

  // ---- PropagateSkipBlock ----

  /** The data head becomes the newest block the ledger returns; nothing
      else of the replica changes, and an unknown identity or a ledger error
      changes nothing. */
  lemma AdvanceHead(reg: Registry, id: Bytes, update: Result<seq<SkipBlock>, string>)
    requires update.Ok? ==> |update.value| > 0
    ensures var r := PropagateSkipBlock(reg, id, update);
            (id in reg && update.Ok? ==>
               r.reply.Ok? && id in r.registry &&
               r.registry[id].data == update.value[|update.value| - 1] &&
               r.registry[id].latest == reg[id].latest && r.registry[id].proposed == reg[id].proposed &&
               r.registry[id].votes == reg[id].votes && r.registry[id].root == reg[id].root) &&
            (id !in reg ==> r == Step(reg, Err(IdentityNotFound))) &&
            (id in reg && update.Err? ==> r == Step(reg, Err(LedgerFailed(update.error))))
  {
  }
}
