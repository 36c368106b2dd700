# Payment-channel registry

This Dafny model covers the channel manager of MedLock. It is a registry that maps a channel id to a channel record. The record holds the sender, recipient, value, expiration, the `open`, `disputed` and `closed` flags, and a list of signature tokens. The registry also keeps a current block height. Four operations change it:

- `openChannel` creates a record.
- `closeChannel` closes one.
- `disputeChannel` raises the dispute flag.
- `verifySignature` appends a token to a record.

Each operation checks its conditions in a fixed order and answers with the code of the first one that fails: 400, 401, 403, 404, 405, 406, 407 or 409. A failing call changes nothing.

The project has five modules:

- `ChannelState` (`state.dfy`): the channel record, the error codes and the registry snapshot `Ledger`. It also holds the invariants. `WellFormed` says `closed` holds exactly when `open` does not, a disputed channel is still open, and no token appears twice. `Successor` and `Evolves` say how a record may change over time.
- `ChannelTransitions` (`transitions.dfy`): each operation as a function from a snapshot to an outcome and the next snapshot. Each function's contract states the first-failing-check order, the effect on success, and that the invariant and `Evolves` are kept.
- `ChannelHistory` (`history.dfy`): arbitrary sequences of calls, including changes of the height. The lemmas here relate several calls: records are never removed, flags are never cleared, an id opens only once, a channel closes only once, a dispute locks a channel, and a token is recorded only once.
- `ChannelManager` (`registry.dfy`): the `Registry` class. Its fields are `channels: map<string, Channel>` and `blockHeight`. Its methods update these fields in place and are proved equal to the transition functions. `Includes` is the linear search behind `signatures.includes`.
- `ChannelScenarios` (`scenarios.dfy`): the repository's test scenarios. Each one runs against a fresh `Registry` and states the answers it gets. Two of them extend their test with a repeated call: `OpensNewChannel` opens ch1 a second time, and `SenderCloses` closes ch3 a second time.

Two consequences of the code's check order and effects are worth stating:

- Close and dispute check "not open" (405) before authorization (403). A closed channel therefore answers 405 to any caller, and only an open channel answers 403 to a caller who is neither party (`ChannelHistory.OutsiderRefused`).
- The operations keep `closed == !open` and `disputed ==> open` on every record. The `closed ||` half of dispute's 405 check therefore never decides the answer (`ChannelHistory.RunPreservesInv`).

## Model

| member | source | states |
|---|---|---|
| `ChannelState.Error.Code` | tests/request-channel-manager.test.ts:33-78 | every error answers with one of the codes 400, 401, 403-407 or 409 |
| `ChannelState.CodeInjective` | tests/request-channel-manager.test.ts:33-78 | distinct errors have distinct codes, so the numeric answer identifies the failure |
| `ChannelState.Initial` | tests/request-channel-manager.test.ts:28-31 | the reset state has no channels, height 100, and satisfies the registry invariant |
| `ChannelState.Fresh` | tests/request-channel-manager.test.ts:36-46 | a new record stores the given id, sender, recipient, value and expiration; it is open, not closed, not disputed, has no signatures, and is well formed |
| `ChannelState.DistinctAppend` | tests/request-channel-manager.test.ts:75-76 | appending a token only when it is absent keeps the signature list free of duplicates |
| `ChannelTransitions.OpenChannel` | tests/request-channel-manager.test.ts:33-49 | 400 exactly when the id exists, whatever the expiration; 401 exactly when the id is new and expiration <= height; otherwise the map gains exactly the new open record under that id and no other entry changes; errors change nothing; the invariant is kept |
| `ChannelTransitions.CloseChannel` | tests/request-channel-manager.test.ts:51-61 | the first failing check wins in the order 404, 405, 403, 406, 407; it succeeds exactly for an open, undisputed channel, a party caller and height <= expiration; success sets only closed and clears open on that record; errors change nothing; the invariant is kept |
| `ChannelTransitions.DisputeChannel` | tests/request-channel-manager.test.ts:63-70 | 404, then 405 when the channel is closed or not open, then 403; success sets only `disputed` on that record; the height is never consulted; errors change nothing; the invariant is kept |
| `ChannelTransitions.VerifySignature` | tests/request-channel-manager.test.ts:72-78 | 404 for a missing id, 409 exactly when the token is already recorded, otherwise the token is appended; there is no caller or state check; errors change nothing; the list stays duplicate-free |
| `ChannelHistory.Apply` | tests/request-channel-manager.test.ts:33-78 | every request, including setting the height (line 131), keeps the invariant and only evolves records forward |
| `ChannelHistory.RunPreservesInv` | tests/request-channel-manager.test.ts:33-78 | after any sequence of calls, closed == !open, disputed implies open, and no token is recorded twice |
| `ChannelHistory.ReachableInv` | tests/request-channel-manager.test.ts:28-78 | every state reachable from a reset satisfies the invariant |
| `ChannelHistory.RunEvolves` | tests/request-channel-manager.test.ts:33-78 | across any sequence of calls, no record is removed, id, parties, value and expiration never change, closed and disputed are never cleared, and tokens are only appended |
| `ChannelHistory.OpenOnce` | tests/request-channel-manager.test.ts:34 | after a successful open, every later open of that id answers 400, whatever its other arguments |
| `ChannelHistory.CloseOnce` | tests/request-channel-manager.test.ts:54-59 | after a successful close, every later close and dispute of that channel answers 405, whoever calls |
| `ChannelHistory.DisputeLocks` | tests/request-channel-manager.test.ts:55-56 | after a successful dispute, every later close answers 406 for a party caller and 403 for anyone else |
| `ChannelHistory.SignatureOnce` | tests/request-channel-manager.test.ts:75-76 | after a token is recorded, recording it again at any later point answers 409 |
| `ChannelHistory.DistinctTokensBothRecorded` | tests/request-channel-manager.test.ts:72-77 | in any state, two distinct tokens absent from an existing channel, recorded one after the other, both succeed |
| `ChannelHistory.OutsiderRefused` | tests/request-channel-manager.test.ts:51-70 | a caller who is neither party gets 403 from close and dispute on an open channel, whatever the dispute flag and the height, gets 405 on a closed one, and changes nothing |
| `ChannelHistory.OnlyTimelyCloseCloses` | tests/request-channel-manager.test.ts:51-61 | a record becomes closed only through a close by a party on an undisputed channel at a height <= its expiration |
| `ChannelHistory.OnlyPartyDisputes` | tests/request-channel-manager.test.ts:63-70 | the dispute flag is raised only by a dispute from a party of an open, unclosed channel |
| `ChannelHistory.DisputeIdempotent` | tests/request-channel-manager.test.ts:63-70 | a dispute that succeeds succeeds at any height; repeating it succeeds again and leaves the state unchanged |
| `ChannelManager.Includes` | tests/request-channel-manager.test.ts:75 | the linear search reports true exactly when the token is in the list |
| `ChannelManager.Registry.constructor` | tests/request-channel-manager.test.ts:22-26 | a new registry has no channels and height 100 |
| `ChannelManager.Registry.Reset` | tests/request-channel-manager.test.ts:28-31 | reset empties the channel map and puts the height back to 100 |
| `ChannelManager.Registry.OpenChannel` | tests/request-channel-manager.test.ts:33-49 | answer and new map and height are those of `ChannelTransitions.OpenChannel` on the old state; the invariant is kept |
| `ChannelManager.Registry.CloseChannel` | tests/request-channel-manager.test.ts:51-61 | answer and new state are those of `ChannelTransitions.CloseChannel` on the old state |
| `ChannelManager.Registry.DisputeChannel` | tests/request-channel-manager.test.ts:63-70 | answer and new state are those of `ChannelTransitions.DisputeChannel` on the old state |
| `ChannelManager.Registry.VerifySignature` | tests/request-channel-manager.test.ts:72-78 | answer and new state are those of `ChannelTransitions.VerifySignature` on the old state, with membership found by `Includes` |
| `ChannelScenarios.OpensNewChannel` | tests/request-channel-manager.test.ts:85-88 | opening ch1 at height 100 with expiration 120 succeeds, as the test expects; the scenario extends the test with a second open of ch1, which answers 400 by the existence check at line 34 |
| `ChannelScenarios.RejectsPastExpiration` | tests/request-channel-manager.test.ts:90-93 | expiration 99 at height 100 answers 401 and nothing is recorded |
| `ChannelScenarios.SenderCloses` | tests/request-channel-manager.test.ts:95-99 | the sender's close succeeds, as the test expects; the scenario extends the test with a second close, which answers 405 by the open check at line 54 |
| `ChannelScenarios.DisputedCannotClose` | tests/request-channel-manager.test.ts:101-106 | after the sender's dispute, the sender's close answers 406 |
| `ChannelScenarios.RecipientDisputes` | tests/request-channel-manager.test.ts:108-112 | the recipient's dispute succeeds |
| `ChannelScenarios.RecordsUniqueSignatures` | tests/request-channel-manager.test.ts:114-120 | sig1 and sig2 are both recorded, in that order |
| `ChannelScenarios.RejectsDuplicateSignature` | tests/request-channel-manager.test.ts:122-127 | recording sig-dupe a second time answers 409 |
| `ChannelScenarios.RejectsCloseAfterExpiration` | tests/request-channel-manager.test.ts:129-134 | with expiration 105 and the height moved to 110, the sender's close answers 407 |

## Left out

- The test harness (`describe`, `it`, `expect`, `beforeEach`). The scenarios are kept as methods that each start from a fresh registry, which is what the per-test reset gives.
- The `admin` field of the registry state. No operation reads it.
- The module-level singleton registry. It is modelled as a `Registry` object that callers own.
- Cryptographic checking of signatures. The source treats a signature as an opaque string that only needs to be deduplicated, and so does the model.
- Non-integer heights and expirations. The source types them as JavaScript numbers, and the model uses unbounded integers. `value` is an unbounded integer that may be negative, like the source's `bigint`. It is stored and never read.
- Object aliasing. The source changes the record it fetched from the map in place. The model writes an updated immutable record back under the same id, which has the same observable effect because the registry is the only holder of its records.
