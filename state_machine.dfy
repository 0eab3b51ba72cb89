/** The identity service's handlers as transitions of the registry of local
    replicas. Each mutating handler is a function from the registry before
    the call (and the answers of the collaborators it consults) to the
    registry after the call and the reply; the two pure reads are lookups. */
module StateMachine {
  import opened Types
  import opened Propagation

  /** The registry after a handler and what the handler replied. */
  datatype Step<+T> = Step(registry: Registry, reply: Result<T, Error>)

  /** True when only the entry under `id` may differ between `reg` and `reg'`,
      and no identity was added or removed. */
  predicate OnlyTouches(reg: Registry, reg': Registry, id: Bytes) {
    reg'.Keys == reg.Keys &&
    forall k :: k in reg && k != id ==> reg'[k] == reg[k]
  }

  /** The replica AddIdentity creates: no proposal and no ballot yet. */
  function NewStorage(latest: AccountList, root: SkipBlock, data: SkipBlock): IdentityStorage {
    IdentityStorage(latest, None, map[], root, data)
  }

  /** AddIdentity: ask the ledger for a roster block and a data block, store
      the new replica under the data block's hash, then propagate it to the
      rest of the roster. `createRoster` and `createData` are the ledger's
      answers to CreateRoster and CreateData; `encodeErr` is the failure of
      building the propagation message, `send` the transport. */
  function AddIdentity(reg: Registry, self: EntityId, latest: AccountList,
                       createRoster: Result<SkipBlock, string>, createData: Result<Created, string>,
                       encodeErr: Option<string>, send: EntityId -> SendOutcome): (r: Step<AddReply>)
    ensures r.registry == reg ||
            (createRoster.Ok? && createData.Ok? &&
             r.registry == reg[createData.value.data.hash :=
                               NewStorage(latest, createData.value.root, createData.value.data)])
  {
    if createRoster.Err? then Step(reg, Err(LedgerFailed(createRoster.error)))
    else if createData.Err? then Step(reg, Err(LedgerFailed(createData.error)))
    else
      var root, data := createData.value.root, createData.value.data;
      var reg' := reg[data.hash := NewStorage(latest, root, data)];
      match Fanout(root.roster, self, encodeErr, send)
      case Aborted(e) => Step(reg', Err(EncodeFailed(e)))
      case Completed(failures) =>
        if failures == [] then Step(reg', Ok(AddReply(root, data)))
        else Step(reg', Err(PeersUnreachable(failures)))
  }

  /** PropagateIdentity: install a replica received from a peer under the
      hash of its data block, unless that identity is already known. */
  function PropagateIdentity(reg: Registry, storage: IdentityStorage): (r: Step<()>)
    ensures reg.Keys <= r.registry.Keys
    ensures forall k :: k in reg ==> r.registry[k] == reg[k]
  {
    var id := storage.data.hash;
    if id in reg then Step(reg, Err(IdentityExists))
    else Step(reg[id := storage], Ok(()))
  }

  /** ProposeConfig: replace the pending proposal and drop every ballot. The
      proposal is stored as sent: `None` (a nil list) withdraws it. */
  function ProposeConfig(reg: Registry, id: Bytes, proposed: Option<AccountList>): (r: Step<()>)
    ensures OnlyTouches(reg, r.registry, id)
  {
    if id !in reg then Step(reg, Err(IdentityNotFound))
    else Step(reg[id := reg[id].(proposed := proposed, votes := map[])], Ok(()))
  }

  /** ConfigNewCheck: the pending proposal, `None` if there is none. */
  function ConfigNewCheck(reg: Registry, id: Bytes): (r: Result<Option<AccountList>, Error>)
    ensures r.Err? ==> r.error == IdentityNotFound
  {
    if id !in reg then Err(IdentityNotFound) else Ok(reg[id].proposed)
  }

  /** ConfigUpdate: the latest committed account list. */
  function ConfigUpdate(reg: Registry, id: Bytes): (r: Result<AccountList, Error>)
    ensures r.Err? ==> r.error == IdentityNotFound
  {
    if id !in reg then Err(IdentityNotFound) else Ok(reg[id].latest)
  }

  /** The checks VoteConfig makes before it records a ballot, in the order it
      makes them; `None` when all of them pass. */
  function VoteCheck(reg: Registry, id: Bytes, signer: string, sig: Option<SchnorrSig>,
                     verify: Verifier, hash: Hasher): Option<Error>
  {
    if id !in reg then Some(IdentityNotFound)
    else
      var s := reg[id];
      if signer !in s.latest.owners then Some(SignerNotFound)
      else if s.proposed.None? then Some(NoProposal)
      else if hash(s.proposed.value).None? then Some(HashFailed)
      else if signer in s.votes then Some(AlreadyVoted)
      else if sig.Some? && !verify(s.latest.owners[signer], hash(s.proposed.value).value, sig.value) then
        Some(WrongSignature)
      else None
  }

  /** VoteConfig: check the ballot, record it and, when the ballot comes from
      outside the identity's roster (from a client), relay it and append the
      proposal to the ledger. `commit` is the ledger's answer to ProposeData;
      `notifyErr` the failure of telling the roster about the new head. The
      failure of relaying the ballot and the quorum test are only logged and
      so take no part. */
  function VoteConfig(reg: Registry, sender: EntityId, id: Bytes, signer: string, sig: Option<SchnorrSig>,
                      verify: Verifier, hash: Hasher,
                      commit: Result<SkipBlock, string>, notifyErr: Option<string>): (r: Step<Option<SkipBlock>>)
    ensures OnlyTouches(reg, r.registry, id)
    ensures r.reply.Ok? && r.reply.value.Some? ==> id in r.registry && r.registry[id].data == r.reply.value.value
  {
    match VoteCheck(reg, id, signer, sig, verify, hash)
    case Some(e) => Step(reg, Err(e))
    case None =>
      var s := reg[id].(votes := reg[id].votes[signer := sig]);
      if sender in s.root.roster then Step(reg[id := s], Ok(None))
      else if commit.Err? then Step(reg[id := s], Err(LedgerFailed(commit.error)))
      else
        var s' := s.(data := commit.value);
        if notifyErr.Some? then Step(reg[id := s'], Err(NotifyFailed(notifyErr.value)))
        else Step(reg[id := s'], Ok(Some(commit.value)))
  }

  /** PropagateSkipBlock: move the data head to the newest block of the update
      chain the ledger returns (`update`, the answer to GetUpdateChain). */
  function PropagateSkipBlock(reg: Registry, id: Bytes, update: Result<seq<SkipBlock>, string>): (r: Step<()>)
    requires update.Ok? ==> |update.value| > 0
    ensures OnlyTouches(reg, r.registry, id)
  {
    if id !in reg then Step(reg, Err(IdentityNotFound))
    else if update.Err? then Step(reg, Err(LedgerFailed(update.error)))
    else Step(reg[id := reg[id].(data := update.value[|update.value| - 1])], Ok(()))
  }
}
