/**
 * Sequences of calls against the registry and the properties that hold
 * across them: the invariant is kept, records only evolve forward, and the
 * irreversible transitions (open, close, dispute, a recorded token) stay
 * in force whatever happens afterwards.
 */
module ChannelHistory {
  import opened ChannelState
  import opened ChannelTransitions

  /** One call into the registry, or a change of the current height. */
  datatype Request =
    | Open(id: string, sender: string, recipient: string, value: int, expiration: int)
    | Close(id: string, caller: string)
    | Dispute(id: string, caller: string)
    | Verify(id: string, signature: string)
    | SetHeight(height: int)

  /** Dispatch one request. Setting the height always succeeds and leaves the channels alone. */
  function Apply(s: Ledger, q: Request): (r: Step)
    ensures Evolves(s.channels, r.next.channels)
    ensures Inv(s.channels) ==> Inv(r.next.channels)
  {
    match q
    case Open(id, sender, recipient, value, expiration) => OpenChannel(s, id, sender, recipient, value, expiration)
    case Close(id, caller) => CloseChannel(s, id, caller)
    case Dispute(id, caller) => DisputeChannel(s, id, caller)
    case Verify(id, signature) => VerifySignature(s, id, signature)
    case SetHeight(height) => Step(Ok, s.(blockHeight := height))
  }

  /** The snapshot after running the requests in order, whatever each answers. */
  function Run(s: Ledger, qs: seq<Request>): (t: Ledger)
    decreases |qs|
  {
    if qs == [] then s else Run(Apply(s, qs[0]).next, qs[1..])
  }

  /** Every snapshot reached from one satisfying the invariant satisfies it. */
  lemma {:induction false} RunPreservesInv(s: Ledger, qs: seq<Request>)
    requires Inv(s.channels)
    ensures Inv(Run(s, qs).channels)
    decreases |qs|
  {
    if qs != [] {
      RunPreservesInv(Apply(s, qs[0]).next, qs[1..]);
    }
  }

  /** The invariant holds in every snapshot reachable from a reset. */
  lemma ReachableInv(qs: seq<Request>)
    ensures Inv(Run(Initial(), qs).channels)
  {
    RunPreservesInv(Initial(), qs);
  }

  /**
   * Along any sequence of calls no record is removed, its id,
   * parties, value and expiration never change, closed and disputed are
   * never cleared and recorded tokens are never dropped.
   */
  lemma {:induction false} RunEvolves(s: Ledger, qs: seq<Request>)
    ensures Evolves(s.channels, Run(s, qs).channels)
    decreases |qs|
  {
    if qs != [] {
      var n := Apply(s, qs[0]).next;
      RunEvolves(n, qs[1..]);
      EvolvesTransitive(s.channels, n.channels, Run(n, qs[1..]).channels);
    }
  }

  /** Once an open has succeeded, no later open of that id succeeds, whatever its arguments. */
  lemma OpenOnce(s: Ledger, id: string, sender: string, recipient: string, value: int, expiration: int,
                 later: seq<Request>, sender': string, recipient': string, value': int, expiration': int)
    requires OpenChannel(s, id, sender, recipient, value, expiration).outcome == Ok
    ensures var t := Run(OpenChannel(s, id, sender, recipient, value, expiration).next, later);
      OpenChannel(t, id, sender', recipient', value', expiration').outcome == Err(AlreadyExists)
  {
    RunEvolves(OpenChannel(s, id, sender, recipient, value, expiration).next, later);
  }

  /**
   * Once a close has succeeded, every later close and every later
   * dispute of that channel answers 405, whoever calls.
   */
  lemma CloseOnce(s: Ledger, id: string, caller: string, later: seq<Request>, caller': string)
    requires Inv(s.channels)
    requires CloseChannel(s, id, caller).outcome == Ok
    ensures var t := Run(CloseChannel(s, id, caller).next, later);
      && CloseChannel(t, id, caller').outcome == Err(NotOpen)
      && DisputeChannel(t, id, caller').outcome == Err(NotOpen)
  {
    var n := CloseChannel(s, id, caller).next;
    RunEvolves(n, later);
    RunPreservesInv(n, later);
  }

  /**
   * Once a dispute has succeeded, the channel can never be closed:
   * every later close by one of its parties answers 406, by anyone else 403.
   */
  lemma DisputeLocks(s: Ledger, id: string, caller: string, later: seq<Request>, closer: string)
    requires Inv(s.channels)
    requires DisputeChannel(s, id, caller).outcome == Ok
    ensures var t := Run(DisputeChannel(s, id, caller).next, later);
      CloseChannel(t, id, closer).outcome ==
        if s.channels[id].HasParty(closer) then Err(DisputeLocked) else Err(Unauthorized)
  {
    var n := DisputeChannel(s, id, caller).next;
    RunEvolves(n, later);
    RunPreservesInv(n, later);
  }

  /** Once a token is recorded on a channel, recording it again later answers 409. */
  lemma SignatureOnce(s: Ledger, id: string, signature: string, later: seq<Request>)
    requires VerifySignature(s, id, signature).outcome == Ok
    ensures var t := Run(VerifySignature(s, id, signature).next, later);
      VerifySignature(t, id, signature).outcome == Err(DuplicateSignature)
  {
    var n := VerifySignature(s, id, signature).next;
    RunEvolves(n, later);
    var before, after := n.channels[id].signatures, Run(n, later).channels[id].signatures;
    assert before[|before| - 1] == signature;
    assert after[|before| - 1] == signature;
  }

  /** Two distinct tokens recorded one after the other both succeed. */
  lemma DistinctTokensBothRecorded(s: Ledger, id: string, sig1: string, sig2: string)
    requires id in s.channels && sig1 != sig2
    requires sig1 !in s.channels[id].signatures && sig2 !in s.channels[id].signatures
    ensures var r1 := VerifySignature(s, id, sig1);
      r1.outcome == Ok && VerifySignature(r1.next, id, sig2).outcome == Ok
  {
  }

  /**
   * An existing channel refuses a caller who is neither party, on close
   * and on dispute alike, with 403 while it is open and 405 once closed; the
   * dispute flag, the expiration and the height make no difference.
   */
  lemma OutsiderRefused(s: Ledger, id: string, caller: string)
    requires Inv(s.channels)
    requires id in s.channels && !s.channels[id].HasParty(caller)
    ensures s.channels[id].open ==>
      && CloseChannel(s, id, caller).outcome == Err(Unauthorized)
      && DisputeChannel(s, id, caller).outcome == Err(Unauthorized)
    ensures !s.channels[id].open ==>
      && CloseChannel(s, id, caller).outcome == Err(NotOpen)
      && DisputeChannel(s, id, caller).outcome == Err(NotOpen)
    ensures CloseChannel(s, id, caller).next == s && DisputeChannel(s, id, caller).next == s
  {
  }

  /**
   * The only request that turns a record closed is a close by one of
   * its parties on an undisputed channel while the height is at most its
   * expiration.
   */
  lemma OnlyTimelyCloseCloses(s: Ledger, q: Request, id: string)
    requires id in s.channels && !s.channels[id].closed
    requires id in Apply(s, q).next.channels && Apply(s, q).next.channels[id].closed
    ensures q.Close? && q.id == id
    ensures s.channels[id].HasParty(q.caller) && !s.channels[id].disputed
    ensures s.blockHeight <= s.channels[id].expiration
  {
  }

  /** The only request that raises the dispute flag is a dispute by one of the parties of an open channel. */
  lemma OnlyPartyDisputes(s: Ledger, q: Request, id: string)
    requires id in s.channels && !s.channels[id].disputed
    requires id in Apply(s, q).next.channels && Apply(s, q).next.channels[id].disputed
    ensures q.Dispute? && q.id == id
    ensures s.channels[id].HasParty(q.caller) && s.channels[id].open && !s.channels[id].closed
  {
  }

  /**
   * A dispute ignores the current height, and repeating a successful
   * dispute succeeds again and changes nothing more.
   */
  lemma DisputeIdempotent(s: Ledger, id: string, caller: string, height: int)
    requires DisputeChannel(s, id, caller).outcome == Ok
    ensures DisputeChannel(s.(blockHeight := height), id, caller).outcome == Ok
    ensures var n := DisputeChannel(s, id, caller).next;
      DisputeChannel(n, id, caller) == Step(Ok, n)
  {
  }
}
