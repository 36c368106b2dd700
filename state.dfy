/**
 * Values of the payment-channel registry: the channel record, the error
 * codes the operations answer with, the registry snapshot (current height
 * plus the map from channel id to record) and the invariants every
 * reachable snapshot satisfies.
 */
module ChannelState {

  /** One payment channel, keyed in the registry by its `id`. */
  datatype Channel = Channel(
    id: string,
    sender: string,
    recipient: string,
    value: int,
    expiration: int,
    open: bool,
    disputed: bool,
    closed: bool,
    signatures: seq<string>)
  {
    /** The caller is the sender or the recipient of this channel. */
    predicate HasParty(caller: string)
    {
      caller == sender || caller == recipient
    }
  }

  /** The ways an operation can fail; `Code` is the number the registry answers with. */
  datatype Error =
    | AlreadyExists
    | AlreadyExpired
    | Unauthorized
    | NotFound
    | NotOpen
    | DisputeLocked
    | Expired
    | DuplicateSignature
  {
    function Code(): (c: int)
      ensures 400 <= c <= 409 && c != 402 && c != 408
    {
      match this
      case AlreadyExists => 400
      case AlreadyExpired => 401
      case Unauthorized => 403
      case NotFound => 404
      case NotOpen => 405
      case DisputeLocked => 406
      case Expired => 407
      case DuplicateSignature => 409
    }
  }

  /** Distinct errors answer with distinct codes, so a code identifies its error. */
  lemma CodeInjective(e1: Error, e2: Error)
    ensures e1.Code() == e2.Code() ==> e1 == e2
  {
  }

  /** `{ value: true }` or `{ error: code }`. */
  datatype Outcome = Ok | Err(error: Error)

  /** A snapshot of the registry: the current block height and every channel by id. */
  datatype Ledger = Ledger(blockHeight: int, channels: map<string, Channel>)

  /** The state right after a reset: no channels, height 100. */
  function Initial(): (s: Ledger)
    ensures s.channels == map[] && s.blockHeight == 100
    ensures Inv(s.channels)
  {
    Ledger(100, map[])
  }

  /** The record a successful open inserts. */
  function Fresh(id: string, sender: string, recipient: string, value: int, expiration: int): (c: Channel)
    ensures c.id == id && c.sender == sender && c.recipient == recipient
    ensures c.value == value && c.expiration == expiration
    ensures c.open && !c.closed && !c.disputed && c.signatures == []
    ensures WellFormed(c)
  {
    Channel(id, sender, recipient, value, expiration, true, false, false, [])
  }

  /** No token occurs twice in the list. */
  predicate Distinct(s: seq<string>)
  {
    forall i, j | 0 <= i < j < |s| :: s[i] != s[j]
  }

  /** Appending a token that is not yet present keeps the list duplicate-free. */
  lemma DistinctAppend(s: seq<string>, x: string)
    requires Distinct(s) && x !in s
    ensures Distinct(s + [x])
  {
  }

  /**
   * The per-channel invariant: closed exactly when not open, a disputed
   * channel is still open, and no signature token is recorded twice.
   */
  predicate WellFormed(c: Channel)
  {
    && c.closed == !c.open
    && (c.disputed ==> c.open)
    && Distinct(c.signatures)
  }

  /** The registry invariant: every record sits under its own id and is well formed. */
  predicate Inv(m: map<string, Channel>)
  {
    forall id | id in m :: m[id].id == id && WellFormed(m[id])
  }

  /**
   * `c'` is a possible later version of `c`: the identifying fields are
   * unchanged, closed and disputed are never cleared, and signatures are only
   * ever appended.
   */
  predicate Successor(c: Channel, c': Channel)
  {
    && c'.id == c.id
    && c'.sender == c.sender
    && c'.recipient == c.recipient
    && c'.value == c.value
    && c'.expiration == c.expiration
    && (c.closed ==> c'.closed)
    && (c.disputed ==> c'.disputed)
    && c.signatures <= c'.signatures
  }

  /** No record is removed and every record evolves only as `Successor` allows. */
  predicate Evolves(m: map<string, Channel>, m': map<string, Channel>)
  {
    forall id | id in m :: id in m' && Successor(m[id], m'[id])
  }

  lemma EvolvesTransitive(m1: map<string, Channel>, m2: map<string, Channel>, m3: map<string, Channel>)
    requires Evolves(m1, m2) && Evolves(m2, m3)
    ensures Evolves(m1, m3)
  {
  }
}
