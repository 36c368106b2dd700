/**
 * The registry's test scenarios, each run against a freshly reset registry
 * and stating the answers it gets.
 */
module ChannelScenarios {
  import opened ChannelState
  import opened ChannelManager

  /** A new channel opens; opening the same id again answers 400. */
  method OpensNewChannel() returns (first: Outcome, again: Outcome)
    ensures first == Ok
    ensures again == Err(AlreadyExists) && again.error.Code() == 400
  {
    var registry := new Registry();
    first := registry.OpenChannel("ch1", "STSENDER1", "STRECIPIENT1", 1000, 120);
    again := registry.OpenChannel("ch1", "STSENDER1", "STRECIPIENT1", 1000, 120);
  }

  /** An expiration below the current height answers 401 and records nothing. */
  method RejectsPastExpiration() returns (r: Outcome, recorded: bool)
    ensures r == Err(AlreadyExpired) && r.error.Code() == 401
    ensures !recorded
  {
    var registry := new Registry();
    r := registry.OpenChannel("ch2", "STSENDER2", "STRECIPIENT2", 1000, 99);
    recorded := "ch2" in registry.channels;
  }

  /** The sender closes its channel; a second close answers 405. */
  method SenderCloses() returns (r: Outcome, again: Outcome)
    ensures r == Ok
    ensures again == Err(NotOpen) && again.error.Code() == 405
  {
    var registry := new Registry();
    var _ := registry.OpenChannel("ch3", "STSENDER3", "STRECIPIENT3", 500, 130);
    r := registry.CloseChannel("ch3", "STSENDER3");
    again := registry.CloseChannel("ch3", "STSENDER3");
  }

  /** A disputed channel cannot be closed by its sender: 406. */
  method DisputedCannotClose() returns (r: Outcome)
    ensures r == Err(DisputeLocked) && r.error.Code() == 406
  {
    var registry := new Registry();
    var _ := registry.OpenChannel("ch4", "STSENDER4", "STRECIPIENT4", 500, 130);
    var _ := registry.DisputeChannel("ch4", "STSENDER4");
    r := registry.CloseChannel("ch4", "STSENDER4");
  }

  /** The recipient may dispute a channel. */
  method RecipientDisputes() returns (r: Outcome)
    ensures r == Ok
  {
    var registry := new Registry();
    var _ := registry.OpenChannel("ch5", "STSENDER5", "STRECIPIENT5", 700, 140);
    r := registry.DisputeChannel("ch5", "STRECIPIENT5");
  }

  /** Two different tokens are both recorded, in order. */
  method RecordsUniqueSignatures() returns (r1: Outcome, r2: Outcome, tokens: seq<string>)
    ensures r1 == Ok && r2 == Ok
    ensures tokens == ["sig1", "sig2"]
  {
    var registry := new Registry();
    var _ := registry.OpenChannel("ch6", "STSENDER6", "STRECIPIENT6", 100, 150);
    r1 := registry.VerifySignature("ch6", "sig1");
    r2 := registry.VerifySignature("ch6", "sig2");
    tokens := registry.channels["ch6"].signatures;
  }

  /** Recording the same token twice answers 409 the second time. */
  method RejectsDuplicateSignature() returns (r: Outcome)
    ensures r == Err(DuplicateSignature) && r.error.Code() == 409
  {
    var registry := new Registry();
    var _ := registry.OpenChannel("ch7", "STSENDER7", "STRECIPIENT7", 100, 150);
    var _ := registry.VerifySignature("ch7", "sig-dupe");
    r := registry.VerifySignature("ch7", "sig-dupe");
  }

  /** Once the height passes the expiration, the sender's close answers 407. */
  method RejectsCloseAfterExpiration() returns (r: Outcome)
    ensures r == Err(Expired) && r.error.Code() == 407
  {
    var registry := new Registry();
    var _ := registry.OpenChannel("ch8", "STSENDER8", "STRECIPIENT8", 100, 105);
    registry.blockHeight := 110;
    r := registry.CloseChannel("ch8", "STSENDER8");
  }
}
