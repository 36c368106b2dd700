/**
 * The registry object: it owns the channel map and the current block height
 * and updates them in place. Each method follows its decision function in
 * ChannelTransitions, so every property proved there and in ChannelHistory
 * holds of the object too.
 */
module ChannelManager {
  import opened ChannelState
  import opened ChannelTransitions

  /** Linear search for a token in a channel's signature list. */
  method Includes(list: seq<string>, token: string) returns (found: bool)
    ensures found <==> token in list
  {
    var i := 0;
    while i < |list|
      invariant 0 <= i <= |list|
      invariant forall k | 0 <= k < i :: list[k] != token
    {
      if list[i] == token {
        return true;
      }
      i := i + 1;
    }
    return false;
  }

  class Registry {
    var blockHeight: int
    var channels: map<string, Channel>

    ghost predicate Valid()
      reads this
    {
      Inv(channels)
    }

    /** The registry's current state as a value. */
    function Snapshot(): (s: Ledger)
      reads this
    {
      Ledger(blockHeight, channels)
    }

    /** A registry in its reset state: no channels, height 100. */
    constructor ()
      ensures Valid()
      ensures Snapshot() == Initial()
    {
      blockHeight := 100;
      channels := map[];
    }

    /** Drop every channel and put the height back to 100. */
    method Reset()
      modifies this
      ensures Valid()
      ensures Snapshot() == Initial()
    {
      channels := map[];
      blockHeight := 100;
    }

    method OpenChannel(id: string, sender: string, recipient: string, value: int, expiration: int)
      returns (r: Outcome)
      requires Valid()
      modifies this
      ensures Valid()
      ensures var step := ChannelTransitions.OpenChannel(old(Snapshot()), id, sender, recipient, value, expiration);
        r == step.outcome && Snapshot() == step.next
    {
      if id in channels {
        return Err(AlreadyExists);
      }
      if expiration <= blockHeight {
        return Err(AlreadyExpired);
      }
      var channel := Fresh(id, sender, recipient, value, expiration);
      channels := channels[id := channel];
      return Ok;
    }

    method CloseChannel(id: string, caller: string) returns (r: Outcome)
      requires Valid()
      modifies this
      ensures Valid()
      ensures var step := ChannelTransitions.CloseChannel(old(Snapshot()), id, caller);
        r == step.outcome && Snapshot() == step.next
    {
      if id !in channels {
        return Err(NotFound);
      }
      var channel := channels[id];
      if !channel.open {
        return Err(NotOpen);
      }
      if channel.sender != caller && channel.recipient != caller {
        return Err(Unauthorized);
      }
      if channel.disputed {
        return Err(DisputeLocked);
      }
      if blockHeight > channel.expiration {
        return Err(Expired);
      }
      channel := channel.(closed := true);
      channel := channel.(open := false);
      channels := channels[id := channel];
      return Ok;
    }

    method DisputeChannel(id: string, caller: string) returns (r: Outcome)
      requires Valid()
      modifies this
      ensures Valid()
      ensures var step := ChannelTransitions.DisputeChannel(old(Snapshot()), id, caller);
        r == step.outcome && Snapshot() == step.next
    {
      if id !in channels {
        return Err(NotFound);
      }
      var channel := channels[id];
      if channel.closed || !channel.open {
        return Err(NotOpen);
      }
      if caller != channel.sender && caller != channel.recipient {
        return Err(Unauthorized);
      }
      channels := channels[id := channel.(disputed := true)];
      return Ok;
    }

    method VerifySignature(id: string, signature: string) returns (r: Outcome)
      requires Valid()
      modifies this
      ensures Valid()
      ensures var step := ChannelTransitions.VerifySignature(old(Snapshot()), id, signature);
        r == step.outcome && Snapshot() == step.next
    {
      if id !in channels {
        return Err(NotFound);
      }
      var channel := channels[id];
      var present := Includes(channel.signatures, signature);
      if present {
        return Err(DuplicateSignature);
      }
      channels := channels[id := channel.(signatures := channel.signatures + [signature])];
      return Ok;
    }
  }
}
