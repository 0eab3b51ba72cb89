/** Best-effort fan-out of a new identity to the conodes of its roster
    (the loop at the end of AddIdentity): every entry of the roster except
    the local conode is sent the message once, in roster order; failed sends
    are collected, never retried, and do not stop the loop. Building the
    message can fail too, and that ends the loop at once. */
module Propagation {
  import opened Types

  datatype FanoutResult =
    | Aborted(error: string)             // the message could not be built
    | Completed(failures: seq<string>)   // the reason of every failed send, in order

  /** True when the roster names some conode other than `self`. */
  predicate HasPeer(roster: seq<EntityId>, self: EntityId) {
    exists i :: 0 <= i < |roster| && roster[i] != self
  }

  /** The reasons of the failed sends to the peers of `roster`, in roster order. */
  function Failures(roster: seq<EntityId>, self: EntityId, send: EntityId -> SendOutcome): seq<string>
    decreases |roster|
  {
    if roster == [] then []
    else
      var earlier := Failures(roster[..|roster| - 1], self, send);
      var peer := roster[|roster| - 1];
      if peer != self && send(peer).SendFailed? then earlier + [send(peer).reason] else earlier
  }

  /** The outcome of the whole fan-out. Building the message does not depend
      on the peer, so a failure to build it shows at the first peer reached. */
  function Fanout(roster: seq<EntityId>, self: EntityId, encodeErr: Option<string>,
                  send: EntityId -> SendOutcome): FanoutResult
  {
    if encodeErr.Some? && HasPeer(roster, self) then Aborted(encodeErr.value)
    else Completed(Failures(roster, self, send))
  }

  /** The fan-out loop itself. */
  method SendToPeers(roster: seq<EntityId>, self: EntityId, encodeErr: Option<string>,
                     send: EntityId -> SendOutcome) returns (r: FanoutResult)
    ensures r.Aborted? <==> encodeErr.Some? && HasPeer(roster, self)
    ensures r.Aborted? ==> r.error == encodeErr.value
    ensures r.Completed? ==> r.failures == Failures(roster, self, send)
  {
    var errs: seq<string> := [];
    var i := 0;
    while i < |roster|
      invariant 0 <= i <= |roster|
      invariant encodeErr.Some? ==> forall j :: 0 <= j < i ==> roster[j] == self
      invariant errs == Failures(roster[..i], self, send)
    {
      var peer := roster[i];
      assert roster[..i + 1][..i] == roster[..i];
      if peer != self {
        if encodeErr.Some? {
          return Aborted(encodeErr.value);
        }
        var outcome := send(peer);
        if outcome.SendFailed? {
          errs := errs + [outcome.reason];
        }
      }
      i := i + 1;
    }
    assert roster[..i] == roster;
    return Completed(errs);
  }

  /** The local conode is skipped: what `send` would do for `self` never
      matters. */
  lemma {:induction false} FailuresIgnoreSelf(roster: seq<EntityId>, self: EntityId,
                                              send: EntityId -> SendOutcome, send': EntityId -> SendOutcome)
    requires forall p :: p != self ==> send(p) == send'(p)
    ensures Failures(roster, self, send) == Failures(roster, self, send')
    decreases |roster|
  {
    if roster != [] {
      FailuresIgnoreSelf(roster[..|roster| - 1], self, send, send');
    }
  }

  /** No failure is reported exactly when every peer was reached. */
  lemma {:induction false} NoFailuresIffAllSent(roster: seq<EntityId>, self: EntityId, send: EntityId -> SendOutcome)
    ensures Failures(roster, self, send) == [] <==>
            forall i :: 0 <= i < |roster| && roster[i] != self ==> send(roster[i]).Sent?
    decreases |roster|
  {
    if roster != [] {
      var init := roster[..|roster| - 1];
      NoFailuresIffAllSent(init, self, send);
      assert forall i :: 0 <= i < |init| ==> init[i] == roster[i];
    }
  }

  /** Every reported failure is the reason of a failed send to some peer. */
  lemma {:induction false} FailuresComeFromPeers(roster: seq<EntityId>, self: EntityId, send: EntityId -> SendOutcome)
    ensures forall m :: m in Failures(roster, self, send) ==>
              exists i :: 0 <= i < |roster| && roster[i] != self && send(roster[i]) == SendFailed(m)
    decreases |roster|
  {
    if roster != [] {
      var init := roster[..|roster| - 1];
      FailuresComeFromPeers(init, self, send);
      forall m | m in Failures(roster, self, send)
        ensures exists i :: 0 <= i < |roster| && roster[i] != self && send(roster[i]) == SendFailed(m)
      {
        if m in Failures(init, self, send) {
          var i :| 0 <= i < |init| && init[i] != self && send(init[i]) == SendFailed(m);
          assert roster[i] == init[i];
        } else {
          assert roster[|roster| - 1] != self && send(roster[|roster| - 1]) == SendFailed(m);
        }
      }
    }
  }
}
