/** The identity service of one conode: a map from identity id to the local
    replica, updated in place by the message handlers. */
module IdentityService {
  import opened Types
  import opened Propagation
  import StateMachine

  class Service {
    /** Identity id (hash of the data block) to the local replica. */
    var identities: Registry
    /** This conode's own identifier. */
    const self: EntityId
    /** Schnorr verification in the service's suite. */
    const verify: Verifier
    /** The hash of an account list. */
    const hash: Hasher

    constructor (self: EntityId, verify: Verifier, hash: Hasher)
      ensures identities == map[]
      ensures this.self == self && this.verify == verify && this.hash == hash
    {
      this.identities := map[];
      this.self := self;
      this.verify := verify;
      this.hash := hash;
    }

    /** Creates the identity on the ledger, stores it locally, then sends it
        to every other conode of its roster. */
    method AddIdentity(latest: AccountList, createRoster: Result<SkipBlock, string>,
                       createData: Result<Created, string>, encodeErr: Option<string>,
                       send: EntityId -> SendOutcome) returns (r: Result<AddReply, Error>)
      modifies this
      ensures var step := StateMachine.AddIdentity(old(identities), self, latest, createRoster, createData, encodeErr, send);
              identities == step.registry && r == step.reply
    {
      if createRoster.Err? {
        return Err(LedgerFailed(createRoster.error));
      }
      if createData.Err? {
        return Err(LedgerFailed(createData.error));
      }
      var root, data := createData.value.root, createData.value.data;
      identities := identities[data.hash := StateMachine.NewStorage(latest, root, data)];
      var fanout := SendToPeers(root.roster, self, encodeErr, send);
      if fanout.Aborted? {
        return Err(EncodeFailed(fanout.error));
      }
      if |fanout.failures| > 0 {
        return Err(PeersUnreachable(fanout.failures));
      }
      return Ok(AddReply(root, data));
    }

    /** Stores a replica sent by a peer, unless the identity is known here. */
    method PropagateIdentity(storage: IdentityStorage) returns (r: Result<(), Error>)
      modifies this
      ensures var step := StateMachine.PropagateIdentity(old(identities), storage);
              identities == step.registry && r == step.reply
    {
      var id := storage.data.hash;
      if id in identities {
        return Err(IdentityExists);
      }
      identities := identities[id := storage];
      return Ok(());
    }

    /** Stores a new pending proposal and starts a new round of ballots. */
    method ProposeConfig(id: Bytes, proposed: Option<AccountList>) returns (r: Result<(), Error>)
      modifies this
      ensures var step := StateMachine.ProposeConfig(old(identities), id, proposed);
              identities == step.registry && r == step.reply
    {
      if id !in identities {
        return Err(IdentityNotFound);
      }
      var sid := identities[id];
      sid := sid.(proposed := proposed);
      sid := sid.(votes := map[]);
      identities := identities[id := sid];
      return Ok(());
    }

    /** Takes a ballot from `signer` on the pending proposal; `sender` is the
        conode or client the ballot came from. */
    method VoteConfig(sender: EntityId, id: Bytes, signer: string, sig: Option<SchnorrSig>,
                      commit: Result<SkipBlock, string>, notifyErr: Option<string>)
      returns (r: Result<Option<SkipBlock>, Error>)
      modifies this
      ensures var step := StateMachine.VoteConfig(old(identities), sender, id, signer, sig, verify, hash, commit, notifyErr);
              identities == step.registry && r == step.reply
    {
      if id !in identities {
        return Err(IdentityNotFound);
      }
      var sid := identities[id];
      if signer !in sid.latest.owners {
        return Err(SignerNotFound);
      }
      var owner := sid.latest.owners[signer];
      if sid.proposed.None? {
        return Err(NoProposal);
      }
      var digest := hash(sid.proposed.value);
      if digest.None? {
        return Err(HashFailed);
      }
      if signer in sid.votes {
        return Err(AlreadyVoted);
      }
      if sig.Some? && !verify(owner, digest.value, sig.value) {
        return Err(WrongSignature);
      }
      sid := sid.(votes := sid.votes[signer := sig]);
      identities := identities[id := sid];
      if sender !in sid.root.roster {
        // The ballot is relayed to the roster (a failure is only logged) and
        // the quorum test only logs; neither changes what follows.
        if commit.Err? {
          return Err(LedgerFailed(commit.error));
        }
        sid := sid.(data := commit.value);
        identities := identities[id := sid];
        if notifyErr.Some? {
          return Err(NotifyFailed(notifyErr.value));
        }
        return Ok(Some(sid.data));
      }
      return Ok(None);
    }

    /** Moves the data head to the newest block of the ledger's update chain. */
    method PropagateSkipBlock(id: Bytes, update: Result<seq<SkipBlock>, string>) returns (r: Result<(), Error>)
      requires update.Ok? ==> |update.value| > 0
      modifies this
      ensures var step := StateMachine.PropagateSkipBlock(old(identities), id, update);
              identities == step.registry && r == step.reply
    {
      if id !in identities {
        return Err(IdentityNotFound);
      }
      var sid := identities[id];
      if update.Err? {
        return Err(LedgerFailed(update.error));
      }
      sid := sid.(data := update.value[|update.value| - 1]);
      identities := identities[id := sid];
      return Ok(());
    }
  }
}
