/** Values shared by the identity service: account lists, skipblocks, the
    per-identity replica and the errors its handlers return. */
module Types {

  datatype Option<+T> = None | Some(value: T)

  datatype Result<+T, +E> = Ok(value: T) | Err(error: E)

  /** Raw bytes: skipblock hashes, digests, node identifiers. */
  type Bytes = seq<bv8>

  /** The identifier of a conode (a network entity). */
  type EntityId = Bytes

  /** A Schnorr public key; the group arithmetic is not modelled. */
  datatype PublicKey = PublicKey(point: Bytes)

  /** A Schnorr signature; the group arithmetic is not modelled. */
  datatype SchnorrSig = SchnorrSig(challenge: Bytes, response: Bytes)

  /** A configuration: owner name to public key, and the number of approving
      owners the policy asks for. */
  datatype AccountList = AccountList(owners: map<string, PublicKey>, threshold: int)

  /** A block of the external skipchain, reduced to what the service reads:
      its hash and the roster of conodes it lists. */
  datatype SkipBlock = SkipBlock(hash: Bytes, roster: seq<EntityId>)

  /** The local replica of one identity. `proposed == None` stands for a nil
      pointer; `votes[signer] == None` is an explicit reject ballot. */
  datatype IdentityStorage = IdentityStorage(
    latest: AccountList,
    proposed: Option<AccountList>,
    votes: map<string, Option<SchnorrSig>>,
    root: SkipBlock,
    data: SkipBlock)

  /** The service state: identity id (hash of the Data block) to replica. */
  type Registry = map<Bytes, IdentityStorage>

  /** Signature verification of a signature over a digest under a key. */
  type Verifier = (PublicKey, Bytes, SchnorrSig) -> bool

  /** The hash of an account list; `None` when it cannot be computed. */
  type Hasher = AccountList -> Option<Bytes>

  /** The outcome of sending one message to one peer. */
  datatype SendOutcome = Sent | SendFailed(reason: string)

  /** What the ledger's CreateData call hands back: the new root and data block. */
  datatype Created = Created(root: SkipBlock, data: SkipBlock)

  /** The reply to a successful AddIdentity. */
  datatype AddReply = AddReply(root: SkipBlock, data: SkipBlock)

  datatype Error =
    | IdentityNotFound              // "Didn't find Identity"
    | IdentityExists                // "That identity already exists here"
    | SignerNotFound                // "Didn't find signer"
    | NoProposal                    // "No proposed block"
    | HashFailed                    // "Couldn't get hash"
    | AlreadyVoted                  // "Already voted for that block"
    | WrongSignature                // "Wrong signature: ..."
    | LedgerFailed(reason: string)  // an error of the skipchain client
    | EncodeFailed(reason: string)  // the service message could not be built
    | NotifyFailed(reason: string)  // relaying the new head to the roster failed
    | PeersUnreachable(reasons: seq<string>)  // joined send failures of AddIdentity
}
