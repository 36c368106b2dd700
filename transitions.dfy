/**
 * The four registry operations as decision functions from a snapshot and the
 * call's arguments to an outcome and the next snapshot. Each checks its
 * conditions in a fixed order and answers with the first that fails; a
 * failing call leaves the snapshot exactly as it was.
 */
module ChannelTransitions {
  import opened ChannelState

  /** What one call answers and the snapshot it leaves behind. */
  datatype Step = Step(outcome: Outcome, next: Ledger)

  /**
   * Open a channel: an existing id answers 400 (even when the expiration
   * would be fine), an expiration not above the current height answers 401,
   * otherwise exactly one new open record is inserted.
   */
  function OpenChannel(s: Ledger, id: string, sender: string, recipient: string, value: int, expiration: int): (r: Step)
    ensures r.outcome == Err(AlreadyExists) <==> id in s.channels
    ensures r.outcome == Err(AlreadyExpired) <==> id !in s.channels && expiration <= s.blockHeight
    ensures r.outcome == Ok <==> id !in s.channels && s.blockHeight < expiration
    ensures r.outcome.Err? ==> r.next == s
    ensures r.outcome == Ok ==>
      && r.next.blockHeight == s.blockHeight
      && r.next.channels.Keys == s.channels.Keys + {id}
      && r.next.channels[id] == Fresh(id, sender, recipient, value, expiration)
      && forall k | k in s.channels :: r.next.channels[k] == s.channels[k]
    ensures Evolves(s.channels, r.next.channels)
    ensures Inv(s.channels) ==> Inv(r.next.channels)
  {
    if id in s.channels then Step(Err(AlreadyExists), s)
    else if expiration <= s.blockHeight then Step(Err(AlreadyExpired), s)
    else Step(Ok, s.(channels := s.channels[id := Fresh(id, sender, recipient, value, expiration)]))
  }

  /**
   * Close a channel. The first failing check wins: 404 missing, 405 not
   * open, 403 caller is neither party, 406 disputed, 407 current height past
   * the expiration. On success only `open` and `closed` of that record change.
   */
  function CloseChannel(s: Ledger, id: string, caller: string): (r: Step)
    ensures r.outcome == Err(NotFound) <==> id !in s.channels
    ensures id in s.channels ==> var c := s.channels[id];
      && (r.outcome == Err(NotOpen) <==> !c.open)
      && (r.outcome == Err(Unauthorized) <==> c.open && !c.HasParty(caller))
      && (r.outcome == Err(DisputeLocked) <==> c.open && c.HasParty(caller) && c.disputed)
      && (r.outcome == Err(Expired) <==> c.open && c.HasParty(caller) && !c.disputed && s.blockHeight > c.expiration)
      && (r.outcome == Ok <==> c.open && c.HasParty(caller) && !c.disputed && s.blockHeight <= c.expiration)
    ensures r.outcome.Err? ==> r.next == s
    ensures r.outcome == Ok ==>
      && r.next.blockHeight == s.blockHeight
      && r.next.channels.Keys == s.channels.Keys
      && r.next.channels[id] == s.channels[id].(open := false, closed := true)
      && forall k | k in s.channels && k != id :: r.next.channels[k] == s.channels[k]
    ensures Evolves(s.channels, r.next.channels)
    ensures Inv(s.channels) ==> Inv(r.next.channels)
  {
    if id !in s.channels then Step(Err(NotFound), s)
    else
      var c := s.channels[id];
      if !c.open then Step(Err(NotOpen), s)
      else if !c.HasParty(caller) then Step(Err(Unauthorized), s)
      else if c.disputed then Step(Err(DisputeLocked), s)
      else if s.blockHeight > c.expiration then Step(Err(Expired), s)
      else Step(Ok, s.(channels := s.channels[id := c.(closed := true, open := false)]))
  }

  /**
   * Dispute a channel: 404 missing, 405 closed or not open, 403 caller is
   * neither party; otherwise only the `disputed` flag of that record is set.
   * The height is never consulted and an already disputed channel may be
   * disputed again.
   */
  function DisputeChannel(s: Ledger, id: string, caller: string): (r: Step)
    ensures r.outcome == Err(NotFound) <==> id !in s.channels
    ensures id in s.channels ==> var c := s.channels[id];
      && (r.outcome == Err(NotOpen) <==> c.closed || !c.open)
      && (r.outcome == Err(Unauthorized) <==> !c.closed && c.open && !c.HasParty(caller))
      && (r.outcome == Ok <==> !c.closed && c.open && c.HasParty(caller))
    ensures r.outcome.Err? ==> r.next == s
    ensures r.outcome == Ok ==>
      && r.next.blockHeight == s.blockHeight
      && r.next.channels.Keys == s.channels.Keys
      && r.next.channels[id] == s.channels[id].(disputed := true)
      && forall k | k in s.channels && k != id :: r.next.channels[k] == s.channels[k]
    ensures Evolves(s.channels, r.next.channels)
    ensures Inv(s.channels) ==> Inv(r.next.channels)
  {
    if id !in s.channels then Step(Err(NotFound), s)
    else
      var c := s.channels[id];
      if c.closed || !c.open then Step(Err(NotOpen), s)
      else if caller != c.sender && caller != c.recipient then Step(Err(Unauthorized), s)
      else Step(Ok, s.(channels := s.channels[id := c.(disputed := true)]))
  }

  /**
   * Record a signature token: 404 missing, 409 token already recorded;
   * otherwise the token is appended. Neither the caller nor the open, closed
   * or disputed state of the channel is consulted.
   */
  function VerifySignature(s: Ledger, id: string, signature: string): (r: Step)
    ensures r.outcome == Err(NotFound) <==> id !in s.channels
    ensures id in s.channels ==>
      && (r.outcome == Err(DuplicateSignature) <==> signature in s.channels[id].signatures)
      && (r.outcome == Ok <==> signature !in s.channels[id].signatures)
    ensures r.outcome.Err? ==> r.next == s
    ensures r.outcome == Ok ==>
      && r.next.blockHeight == s.blockHeight
      && r.next.channels.Keys == s.channels.Keys
      && r.next.channels[id] == s.channels[id].(signatures := s.channels[id].signatures + [signature])
      && forall k | k in s.channels && k != id :: r.next.channels[k] == s.channels[k]
    ensures Evolves(s.channels, r.next.channels)
    ensures Inv(s.channels) ==> Inv(r.next.channels)
  {
    if id !in s.channels then Step(Err(NotFound), s)
    else
      var c := s.channels[id];
      if signature in c.signatures then Step(Err(DuplicateSignature), s)
      else
        var c' := c.(signatures := c.signatures + [signature]);
        Step(Ok, s.(channels := s.channels[id := c']))
  }
}
