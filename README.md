# Ticket auction contracts, modelled in Dafny

Five CosmWasm contracts move a *ticket* (a task) through one round:

1. The admin creates the ticket through the **admin board**, which relays the request to the **ticket manager**.
2. Workers lock collateral through the **user board**, which forwards the funds to the **collateral manager**.
3. Workers bid through the user board, which forwards the bid to the **auction manager**.
4. The admin has the auction decided. The lowest bid wins, and the auction manager records its bidder with the ticket manager.
5. The recorded worker submits a result through the user board. The ticket manager assesses it and asks the admin board to release the stake less a slash. The admin board works out the amount and has the collateral manager pay it.

Each contract is one module and one `class Contract` whose fields are its storage:

| module | fields |
|---|---|
| `TicketManager` | `config`, `tickets` (`TICKETS`), `twPair` (`TWPAIR`) |
| `AuctionManager` | `config`, `bets` (`BETS`, keyed by raw 8-byte keys) |
| `CollateralManager` | `config`, `stakes` (`STAKES`) |
| `AdminBoard` | `config` |
| `UserBoard` | `config` |

Two more modules support them:
- `TicketAuction` holds the shared package: bounded integers, `TAError`, the messages, and a sequence `Filter`.
- `StorageKeys` holds the big-endian key encoding and the ascending key walk of the storage engine.

### How handlers are modelled

- **Handlers that write storage** are methods. Their `modifies` clause names the fields they write. On every error path the fields are left as they were, which stands in for the host's rollback.
- **Handlers that only check guards and build messages** are functions that read `this`. The one exception is `TicketManager.Contract.AssessSubmission`. It writes nothing, but it is a method, because it builds its message in steps as the source does.
- **Each result** is either `Ok` with the emitted messages or `Err` with the failure. A failure is one of:
  - a `TAError`;
  - a missing storage entry (`LoadMissing`);
  - a failed cross-contract query (`QueryFailed`);
  - an address rejected by `addr_validate` (`AddrRejected`);
  - a Rust panic (`Abort`).
- **Environment inputs are parameters.** The answers of cross-contract queries are `Option` parameters, where `None` means a failed query. The host's address checks are `bool` parameters. The block time is `now`.

The `Flow` module delivers each emitted message by hand to the handler it names, and replays whole rounds across the five contracts.

### Behaviour kept as the code has it

- **The assessment sends a slash of 0.** `assess_submission` computes the two slash additions and drops them, so the slash sent is always 0 (`TicketManager.Contract.AssessSubmission`).
- **The lock guard uses `&&` where `||` was meant.** The funds check of `execute_lock_stake` combines its two conditions with `&&` (`CollateralManager.LockFundsCheck`).
- **The relaying contract is recorded, not the worker.**
  - The collateral manager records its sender as the staker, and that sender is the user board.
  - The auction manager also records its sender as the bidder.
  As a result, a worker who stakes through the user board is then refused a bid as not staked (`Flow.StakeThenBetThroughBoard`).
- **Only ticket 0 ever has stored lists.** Only ticket 0 gets an empty stake list and an empty bet list at instantiation, and no handler ever creates a list for another ticket. Every lock and every bid on any other ticket therefore fails to load. `Flow.FirstLockAndBetOnNewTicket` shows the first lock and the first bid failing.
- **Checks the code does not make.** The model follows the code in each case:
  - `add_ticket`, `update_ticket` and `remove_ticket` of the ticket manager do not check funds. The admin board's handlers that relay to them do refuse funds (contracts/admin-board/src/contract.rs:89-92), so the two levels differ.
  - `place_bet` of the auction manager does not check its sender. Its comment says it is invoked by the user board (contracts/auction-manager/src/contract.rs:56), but nothing enforces that.
  - `assess_submission` does not check its sender. Its "Validation 2" comment (contracts/ticket-manager/src/contract.rs:216) names a sender check with no code under it. It also writes nothing, so an assessment can be repeated.
- **A slash above 100% does not always abort.** The admin board's arithmetic does not always panic for such a slash. It aborts in exactly two cases. One is when `Decimal::from_ratio` overflows, that is when perc × 10^15 ≥ 2^128; this happens even for a collateral of 0. The other is when the slashed amount, the floor of collateral × perc / 1000, exceeds the collateral. Otherwise it releases 0. For example, a slash of 1001 on a collateral of 1 releases 0 (`AdminBoard.ReleaseAboveFull`, `AdminBoard.ReleaseAboveFullExample`).

## Model

| member | source | states |
|---|---|---|
| TicketAuction.Filter | contracts/ticket-manager/src/contract.rs:166-170 | the kept elements all come from the input and pass the test, and every input element that passes is kept |
| TicketAuction.FilterAppend | contracts/ticket-manager/src/contract.rs:166-170 | filtering splits over concatenation, so survivors keep their order |
| TicketAuction.FilterMultiset | contracts/collateral-manager/src/contract.rs:109-113 | each passing element keeps its multiplicity and each failing one disappears |
| TicketAuction.FilterKeepsAll | contracts/collateral-manager/src/contract.rs:109-113 | a filter that keeps every element returns the list unchanged |
| StorageKeys.FromBeToBe | contracts/auction-manager/src/state.rs:62-66 | decoding a big-endian encoding gives back the number |
| StorageKeys.ToBeFromBe | contracts/auction-manager/src/state.rs:62-66 | encoding a decoded byte string gives back the bytes |
| StorageKeys.KeyRoundTrip | contracts/auction-manager/src/state.rs:62-66 | `from_be_bytes` of a ticket's 8-byte key is the ticket id |
| StorageKeys.Key | contracts/auction-manager/src/state.rs:36 | the `U64Key` of an id is always 8 bytes |
| StorageKeys.FromBeBytes | contracts/auction-manager/src/state.rs:63-65 | `copy_from_slice` then `u64::from_be_bytes`: every 8-byte raw key is the key of the id it decodes to |
| StorageKeys.KeyInjective | contracts/auction-manager/src/state.rs:36 | distinct ids have distinct keys |
| StorageKeys.LexLessIff | contracts/auction-manager/src/state.rs:59 | byte order on same-width big-endian encodings is numeric order |
| StorageKeys.KeyOrder | contracts/auction-manager/src/state.rs:59-66 | ascending raw-key order is ascending ticket-id order |
| StorageKeys.AscendingKeys | contracts/ticket-manager/src/state.rs:76-77 | the keys of a map keyed by `u64`, ascending, each exactly once |
| StorageKeys.AscendingRawKeys | contracts/auction-manager/src/state.rs:59 | the raw keys of a map, in byte order, each exactly once |
| TicketManager.FindTicket | contracts/ticket-manager/src/contract.rs:292-296 | `None` exactly when no ticket has the id; otherwise the first ticket that has it |
| TicketManager.ReplaceById | contracts/ticket-manager/src/contract.rs:147-150 | same length; every ticket with the id becomes the new one, every other ticket stays |
| TicketManager.RemoveById | contracts/ticket-manager/src/contract.rs:167-170 | every ticket left has another id and comes from the list, and every ticket with another id is kept |
| TicketManager.CheckedAdd | contracts/ticket-manager/src/contract.rs:233-238 | `checked_add` on `Uint128`: a value exactly when the sum fits in 128 bits, and then the sum |
| TicketManager.RemoveByIdSpec | contracts/ticket-manager/src/contract.rs:166-173 | removal drops every ticket with the id and keeps the rest in order with their multiplicity; an absent id is no change |
| TicketManager.Contract.Instantiate | contracts/ticket-manager/src/contract.rs:20-56 | attached funds are refused; otherwise the sender becomes the admin board, the ticket list is empty and ticket 0 is paired with "" |
| TicketManager.Contract.StoreTickets | contracts/ticket-manager/src/state.rs:19-26 | after the store, the stored list is the one given |
| TicketManager.Contract.ReadTicketForId | contracts/ticket-manager/src/state.rs:29-35 | the first ticket with the id, or `NotFound` when none has it |
| TicketManager.Contract.StoreTwPair | contracts/ticket-manager/src/state.rs:58-67 | the ticket's worker is overwritten and every other ticket's entry is unchanged |
| TicketManager.Contract.ReadWorkerForTicket | contracts/ticket-manager/src/state.rs:70-72 | fails exactly for a ticket never stored; otherwise its worker |
| TicketManager.Contract.ReadAllAssignedTickets | contracts/ticket-manager/src/state.rs:75-83 | every stored ticket id once, ascending |
| TicketManager.Contract.AddTicket | contracts/ticket-manager/src/contract.rs:78-104 | `NotAuthorized` unless the sender is the admin board; otherwise the ticket is appended after the unchanged list, with no duplicate check |
| TicketManager.Contract.UpdateTicket | contracts/ticket-manager/src/contract.rs:107-155 | `NotAuthorized`, then `NotFound`; otherwise the length is kept, other ids are unchanged, and every ticket with the id becomes the first one with each `Some` field overwritten |
| TicketManager.Contract.RemoveTicket | contracts/ticket-manager/src/contract.rs:158-175 | `NotAuthorized` unless the sender is the admin board; otherwise every ticket with the id is removed, and an absent id is not an error |
| TicketManager.Contract.SaveTicketWorker | contracts/ticket-manager/src/contract.rs:177-203 | `NotInitialized`, `NotAuthorized`, `NotFound` in that order; otherwise the pair for the ticket is overwritten |
| TicketManager.Contract.AssessSubmission | contracts/ticket-manager/src/contract.rs:205-255 | funds, the recorded worker (load, then `NotAuthorized`), the ticket and address validation are checked in that order; a success writes nothing and emits one `ReleaseStakeWithSlash` to the admin board with slash 0 |
| TicketManager.Contract.PostConfig | contracts/ticket-manager/src/contract.rs:257-279 | `UnnecessaryFunds`, then `NotAuthorized`; otherwise both peers are replaced and the admin board is kept |
| TicketManager.Contract.QueryTicket | contracts/ticket-manager/src/contract.rs:291-304 | fails with `NotFound` exactly when no ticket has the id; otherwise the first ticket that has it |
| TicketManager.Contract.QueryTicketWorker | contracts/ticket-manager/src/contract.rs:322-328 | the recorded worker, or `NotFound` exactly when none is recorded |
| TicketManager.Contract.QueryTicketWorkerPairs | contracts/ticket-manager/src/contract.rs:310-320 | every recorded pair once, in ascending ticket order, with its stored worker |
| TicketManager.IntendedSlashPerc | contracts/ticket-manager/src/contract.rs:231-239 | 500 for a wrong result plus 300 for a time strictly after the close: 0 for a correct on-time result, 500 for a wrong on-time one, 300 for a correct late one, 800 for a wrong late one |
| TicketManager.IntendedSlashMonotone | contracts/ticket-manager/src/contract.rs:231-239 | the intended slash never shrinks with a later time or with a wrong result |
| AuctionManager.FirstMinUnique | contracts/auction-manager/src/contract.rs:119 | at most one position is the first minimal bid |
| AuctionManager.MinIndexFrom | contracts/auction-manager/src/contract.rs:119 | the fold of `min_by`, which keeps the accumulator on ties, ends on the first minimal bid |
| AuctionManager.WinningBet | contracts/auction-manager/src/contract.rs:119-122 | `None` exactly for no bids; otherwise the earliest bid of minimal amount |
| AuctionManager.WinningBetFirstOfTies | contracts/auction-manager/src/contract.rs:119 | of the bids 50, 30 and 30 the first 30 wins |
| AuctionManager.Contract.FromInstantiate | contracts/auction-manager/src/contract.rs:22-42 | the sender becomes the admin board and only ticket 0 has a bet list, which is empty |
| AuctionManager.Contract.SaveBetsTicket | contracts/auction-manager/src/state.rs:41-47 | a read of the same ticket after the save returns the saved list; other keys are unchanged |
| AuctionManager.Contract.ReadBetsTicket | contracts/auction-manager/src/state.rs:49-51 | fails exactly for a ticket with no stored list |
| AuctionManager.Contract.RemoveBetsTicket | contracts/auction-manager/src/state.rs:53-56 | never fails, and only that ticket's key goes |
| AuctionManager.Contract.ReadCurrAvailTickets | contracts/auction-manager/src/state.rs:58-69 | every stored ticket id once, empty lists included, ascending, each decoded from its 8-byte key |
| AuctionManager.Contract.PlaceBet | contracts/auction-manager/src/contract.rs:57-89 | `UnnecessaryFunds`, the ticket query, `NotFound`, `InvalidAddress` and the list load in that order; otherwise one bet under the sender is appended to that ticket's list, and every other list stays |
| AuctionManager.Contract.DecideWinningBet | contracts/auction-manager/src/contract.rs:93-140 | `NotAuthorized` before `UnnecessaryFunds`; `BetNotFinished` exactly when `now` is before the finish time; the load, then `NotFound` for no bids; otherwise the ticket's list is removed and one `SaveTicketWorker` names the first lowest bidder |
| AuctionManager.Contract.QueryBetAvailTickets | contracts/auction-manager/src/contract.rs:151-155 | the ids of all stored bet lists, ascending |
| AuctionManager.Contract.QueryCurrActiveBets | contracts/auction-manager/src/contract.rs:158-162 | the ticket's stored bets, failing exactly when it has no list |
| CollateralManager.BaseCoins | contracts/collateral-manager/src/contract.rs:78-82 | every coin kept is an attached `uluna` coin, and every attached `uluna` coin is kept |
| CollateralManager.BaseCoinsOfBase | contracts/collateral-manager/src/contract.rs:78-82 | funds made only of `uluna` coins pass the filter unchanged |
| CollateralManager.LockFundsCheck | contracts/collateral-manager/src/contract.rs:78-85 | as written: a panic for no base coin, a pass for exactly one, and for two or more a pass only when the first equals the collateral |
| CollateralManager.IntendedLockFundsCheck | contracts/collateral-manager/src/contract.rs:76-85 | passes exactly for one base coin whose amount is the collateral |
| CollateralManager.LockFundsCheckTooWeak | contracts/collateral-manager/src/contract.rs:83 | a single coin of the wrong amount passes as written but is refused as intended; no coin panics as written |
| CollateralManager.IntendedLockFundsCheckStronger | contracts/collateral-manager/src/contract.rs:83 | whatever the intended check accepts, the written one accepts |
| CollateralManager.WithoutWorker | contracts/collateral-manager/src/contract.rs:109-113 | every staker left is another worker from the list, and every other worker is kept |
| CollateralManager.WithoutWorkerSpec | contracts/collateral-manager/src/contract.rs:109-114 | the worker no longer appears, the others keep their multiplicity and order, and an absent worker leaves the list unchanged |
| CollateralManager.LockThenRelease | contracts/collateral-manager/src/contract.rs:88-114 | releasing right after a lock gives the list from before the lock, with that worker removed |
| CollateralManager.Contract.Instantiate | contracts/collateral-manager/src/contract.rs:19-51 | attached funds are refused; otherwise the sender becomes the admin board and only ticket 0 has a stake list, which is empty |
| CollateralManager.Contract.ReadStakes | contracts/collateral-manager/src/state.rs:30-32 | fails exactly for a ticket with no stored list |
| CollateralManager.Contract.LockStake | contracts/collateral-manager/src/contract.rs:64-94 | `NotAuthorized` unless the sender is the user board, then the ticket query, the written funds check and the list load; otherwise the sender is appended and its stake status becomes true |
| CollateralManager.Contract.ReleaseStake | contracts/collateral-manager/src/contract.rs:96-127 | `NotAuthorized` unless the sender is the admin board, then the load; otherwise the worker is filtered out, its status becomes false, and one bank send pays `amt` uluna to it |
| CollateralManager.Contract.QueryStakeStatus | contracts/collateral-manager/src/contract.rs:146-150 | true exactly when the worker is in the ticket's list; fails for a ticket with no list |
| AdminBoard.DecimalFromRatio | contracts/admin-board/src/contract.rs:247 | the atomics are the floor of n × 10^18 / d, and a panic when they overflow 128 bits |
| AdminBoard.MulDecimal | contracts/admin-board/src/contract.rs:248 | the floor of amount × atomics / 10^18; it succeeds exactly when either factor is zero or that floor fits in 128 bits, and otherwise panics |
| AdminBoard.Sub | contracts/admin-board/src/contract.rs:249 | the difference, which added back gives the minuend; a panic below zero |
| AdminBoard.ReleaseAmount | contracts/admin-board/src/contract.rs:246-249 | the three steps in source order; a failure is always a panic and a release never exceeds the collateral |
| AdminBoard.ReleaseAmountExact | contracts/admin-board/src/contract.rs:246-249 | the release plus the floor of collateral × perc / 1000 is the collateral; it aborts exactly when the decimal overflows or that slash exceeds the collateral |
| AdminBoard.ReleaseWithinBounds | contracts/admin-board/src/contract.rs:246-249 | for a perc of at most 1000 the release never aborts and lies between 0 and the collateral; 0 releases all and 1000 releases nothing |
| AdminBoard.ReleaseMonotone | contracts/admin-board/src/contract.rs:246-249 | a larger slash never releases more |
| AdminBoard.ReleaseAboveFull | contracts/admin-board/src/contract.rs:246-249 | above 1000 the result is an abort or a release of 0, and an abort once the collateral is at least 1000 |
| AdminBoard.ReleaseAboveFullExample | contracts/admin-board/src/contract.rs:246-249 | a perc of 1001 on a collateral of 1 releases 0 without aborting |
| AdminBoard.Relay | contracts/admin-board/src/contract.rs:89-110 | `UnnecessaryFunds`, `NotAuthorized`, `NotInitialized` in that order; otherwise exactly one fund-less message to the peer |
| AdminBoard.Contract.Instantiate | contracts/admin-board/src/contract.rs:28-48 | the sender becomes the admin and every peer is unset |
| AdminBoard.Contract.AddTicket | contracts/admin-board/src/contract.rs:83-115 | `UnnecessaryFunds`, `NotAuthorized` unless the sender is the admin, `NotInitialized` without a ticket manager; a fund-less message from the admin with the peer set always succeeds, with exactly one fund-less `AddTicket` to the ticket manager |
| AdminBoard.Contract.UpdateTicket | contracts/admin-board/src/contract.rs:118-150 | `UnnecessaryFunds`, `NotAuthorized` unless the sender is the admin, `NotInitialized` without a ticket manager; a fund-less message from the admin with the peer set always succeeds, with exactly one fund-less `UpdateTicket` to the ticket manager |
| AdminBoard.Contract.RemoveTicket | contracts/admin-board/src/contract.rs:153-185 | `UnnecessaryFunds`, `NotAuthorized` unless the sender is the admin, `NotInitialized` without a ticket manager; a fund-less message from the admin with the peer set always succeeds, with exactly one fund-less `RemoveTicket` to the ticket manager |
| AdminBoard.Contract.DecideWinBet | contracts/admin-board/src/contract.rs:188-220 | `UnnecessaryFunds`, `NotAuthorized` unless the sender is the admin, `NotInitialized` without an auction manager; a fund-less message from the admin with the peer set always succeeds, with exactly one fund-less `DecideWinningBet` |
| AdminBoard.Contract.ReleaseStakeWithSlash | contracts/admin-board/src/contract.rs:223-271 | `NotInitialized`, then `NotAuthorized` for the ticket manager, then the query, then the arithmetic abort, and only then `NotInitialized` for the collateral manager; otherwise one `ReleaseStake` of the computed amount |
| AdminBoard.Contract.PostConfig | contracts/admin-board/src/contract.rs:412-436 | `UnnecessaryFunds`, then `NotAuthorized`; otherwise all four peers take the message's values and the admin stays |
| AdminBoard.Contract.QueryTicketInfo | contracts/admin-board/src/contract.rs:447-459 | `NotInitialized` without a ticket manager; otherwise its answer |
| AdminBoard.Contract.QueryTicketWorker | contracts/admin-board/src/contract.rs:462-474 | `NotInitialized` without a ticket manager; otherwise its answer |
| UserBoard.Contract.Instantiate | contracts/user-board/src/contract.rs:24-48 | attached funds are refused; otherwise the sender becomes the admin board and the three peers come from the message |
| UserBoard.Contract.LockStake | contracts/user-board/src/contract.rs:68-93 | `InsufficientFunds` without funds, then `InvalidAddress`, then `NotInitialized`; otherwise the same funds go to the collateral manager with `LockStake` |
| UserBoard.Contract.PlaceBet | contracts/user-board/src/contract.rs:95-138 | `UnnecessaryFunds`, `NotInitialized` for the collateral manager, the query, `NotStaked`, and only then `NotInitialized` for the auction manager; otherwise one fund-less bid naming the sender |
| UserBoard.Contract.SubmitResult | contracts/user-board/src/contract.rs:140-180 | `UnnecessaryFunds`, `NotInitialized`, the query, then `NotAuthorized` unless the sender is the recorded worker; the forwarded submission carries the message's worker, tid and result |
| UserBoard.Contract.PostConfig | contracts/user-board/src/contract.rs:182-204 | `UnnecessaryFunds`, then `NotAuthorized`; otherwise the three peers are replaced and the admin board stays |
| UserBoard.Contract.QueryBetAvailTickets | contracts/user-board/src/contract.rs:214-225 | `NotInitialized` without an auction manager; otherwise its answer |
| UserBoard.Contract.QueryStakeStatus | contracts/user-board/src/contract.rs:227-239 | `NotInitialized` without a collateral manager; otherwise its answer |
| Flow.StakeThenBetThroughBoard | contracts/collateral-manager/src/contract.rs:88-91 | a lock through the user board succeeds, yet the worker's bid through it is refused as `NotStaked` |
| Flow.FirstLockAndBetOnNewTicket | contracts/auction-manager/src/contract.rs:37-81 | on an existing ticket other than 0, the first lock and the first bid both fail to load; the bid case assumes the ticket query parses |
| Flow.LateWrongResultReleasesAll | contracts/ticket-manager/src/contract.rs:225-250 | a wrong result submitted after the close still gets the whole collateral paid back |
| Flow.LateWrongResultIntendedRelease | contracts/ticket-manager/src/contract.rs:231-239 | with the intended slash the same submission is slashed 800 and gets 200 of 1000 back |
| Flow.IntendedSlashReleases | contracts/admin-board/src/contract.rs:246-249 | the intended slash never makes the release abort, and an on-time correct submission gets everything back |

## Findings

| source | as written | input that shows it | evidently intended | confidence | as-written member | corrected member |
|---|---|---|---|---|---|---|
| contracts/ticket-manager/src/contract.rs:225-239 | the two `checked_add` results are dropped, so `slash_perc` stays 0 | ticket result "expected", close time 200; submission "wrong" at time 250: slash 0 is sent and 1000 of 1000 is released | slash 500 + 300 = 800, so 200 of 1000 is released | high, not executed | Flow.LateWrongResultReleasesAll | TicketManager.IntendedSlashPerc |
| contracts/collateral-manager/src/contract.rs:83 | `base_coin.len() != 1 && base_coin[0].amount != collateral` | a single uluna coin of 1 for a collateral of 1000 passes; no uluna coin panics on the index | refuse unless there is exactly one uluna coin equal to the collateral (`\|\|`) | high, not executed | CollateralManager.LockFundsCheckTooWeak | CollateralManager.IntendedLockFundsCheck |

## Left out

- The `execute_create_*` handlers are not modelled (contracts/admin-board/src/contract.rs:273-410). They instantiate contracts from code ids on the host. The `Flow` module builds the five contracts directly instead. The wiring that `Flow.Deploy` sets up cannot be reached through these handlers. They create the ticket manager and the user board with no peers, and the admin board has no message that relays a `post_config` to them.
- The `migrate` entry points are not modelled. They do nothing.
- `AdminBoard.MulAssoc` and `AdminBoard.MulMonotone` are proof scaffolding for the release arithmetic, with no counterpart in the source, so they have no row.
- The ticket manager, the collateral manager and the user board each have both a constructor `FromInstantiate` and a static method `Instantiate`. The constructor builds the state `instantiate` stores. The static method adds the funds check, whose error result a constructor cannot return. The auction manager refuses no funds at instantiation, so it has only the constructor.
- The top-level `execute` / `query` dispatch `match` is not modelled. Each arm is modelled as its own member.
- Serialisation is not modelled: `to_binary` / `to_json_binary`, serde, JSON schema, and the schema export example. Messages are datatype values.
  - As a result, the model does not capture that the user board serialises a bid as a bare `PlaceBetMsg`. The auction manager expects an `ExecuteMsg::PlaceBet`, so it would not parse that bid. The model carries the bid as `BarePlaceBet`, and `Flow` sends bids to the auction manager directly.
  - Nor does the model capture a second mismatch, in `place_bet`'s ticket query. The auction manager reads the answer to `QueryTickets` as a `TicketsResponse { tickets }` (contracts/auction-manager/src/contract.rs:66-69). The ticket manager answers with a bare list of tickets (contracts/ticket-manager/src/contract.rs:285, 306-308). A JSON array does not parse as that struct, so as the code is written every `place_bet` fails at the query and no bid is ever recorded. `AuctionManager.Contract.PlaceBet` takes the answer as its `tickets` parameter. Its contract covers both the failed query and a parsed answer.
  - The `Flow` rounds that bid directly assume this mismatch is repaired. They pass the ticket manager's stored list as the answer. These rounds are `Flow.OpenTicketWithDirectBid`, `Flow.AwardTicket` and `Flow.LateWrongResultReleasesAll`, and the bid half of `Flow.FirstLockAndBetOnNewTicket`, which as written would fail at the query rather than the load. The slash-0 behaviour does not depend on this, because the contract of `TicketManager.Contract.AssessSubmission` holds on every input.
- `query_wasm_smart`, `addr_canonicalize` and `addr_validate` are calls into the host, so they become parameters of the handlers. Because of this the model does not tie a query answer to the queried contract's state, except in `Flow`, which takes the answers from that state. For `place_bet`'s ticket query, that answer is one the code as written never parses (see the serialisation line).
- The collateral manager's `query_ticket` (contracts/collateral-manager/src/contract.rs:137-144) only passes on the ticket manager's answer. It is the `ticketInfo` parameter of `CollateralManager.Contract.LockStake`.
- The ticket manager's `query_tickets` (contracts/ticket-manager/src/contract.rs:306-308) returns the stored list, which is the `tickets` field itself.
- The bank ledger is not modelled. Only the emitted `BankSend` is modelled.
- The host's atomic rollback is not modelled. Each handler writes storage only on its success path, which gives the same final state.
- `read_config` and `store_config` always succeed in the model, because every contract stores its configuration at instantiation.
- Response attributes are not modelled. The error-to-string mapping of the error module is not modelled either; the model keeps only the enumeration.
- `Decimal` arithmetic is modelled with cosmwasm 1.x semantics: a 256-bit intermediate that panics when the result does not fit in 128 bits. Versions before 1.x could panic for some smaller percentages.
- `TWPAIR` is keyed by `u64` and `STAKES` by `U64Key` (contracts/collateral-manager/src/state.rs:24). Both are modelled as maps on integers. `TWPAIR` is walked in numeric order. `STAKES` is only read and written one key at a time, and `StorageKeys.KeyInjective` shows that distinct ids have distinct raw keys. For raw keys, `StorageKeys.KeyOrder` shows that numeric order and byte order agree.
