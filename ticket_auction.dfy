/**
 The shared package of the five contracts: the bounded integers they use, the error
 enumeration, the messages one contract sends to another, and the sequence filter that
 the contracts use wherever the code collects `into_iter().filter(..)`.
 */
module TicketAuction {

  /** Rust `u64` and cosmwasm `Uint128`, as bounded integers. */
  const U64_LIMIT: int := 0x1_0000_0000_0000_0000
  const U128_LIMIT: int := 0x1_0000_0000_0000_0000_0000_0000_0000_0000
  type U64 = x: int | 0 <= x < U64_LIMIT
  type U128 = x: int | 0 <= x < U128_LIMIT

  /** An account or contract address; compared as its string, as `Addr == String` does. */
  type Addr = string

  datatype Option<T> = None | Some(value: T)

  /** The package's error enumeration, `TAError`. */
  datatype TAError =
    | UnnecessaryFunds
    | NotAuthorized
    | NotFound
    | InvalidAddress
    | BetNotFinished
    | NotInitialized
    | InsufficientFunds
    | NotStaked

  /**
   Everything that makes a handler fail: a `TAError`, or one of the failures the
   handlers propagate from cosmwasm with `?` or hit as a Rust panic. Each of them aborts
   the whole transaction.
   */
  datatype ContractError =
    | Ta(code: TAError)
    | LoadMissing    // cw_storage_plus `load` of a key that holds nothing
    | QueryFailed    // a `query_wasm_smart` to another contract returned an error
    | AddrRejected   // `addr_validate` rejected the string
    | Abort          // a panic: index out of range, Uint128 overflow

  datatype Result<T> = Ok(value: T) | Err(error: ContractError)

  /** The sender and the attached funds of a call (`MessageInfo`). */
  datatype Coin = Coin(denom: string, amount: U128)
  datatype MessageInfo = MessageInfo(sender: Addr, funds: seq<Coin>)

  // ---- ticket_manager.rs ----

  datatype Ticket = Ticket(
    id: U64,
    betFinishTimestamp: U64,
    closeTimestamp: U64,
    result: string,
    collateral: U64)

  /** Some ticket of the list has the id (`tickets.iter().any(|t| t.id == id)`). */
  predicate HasTicket(ts: seq<Ticket>, id: U64)
  {
    exists i :: 0 <= i < |ts| && ts[i].id == id
  }

  datatype AddTicketMsg = AddTicketMsg(
    id: U64,
    betFinishTimestamp: U64,
    closeTimestamp: U64,
    result: string,
    collateral: U64)

  datatype UpdateTicketMsg = UpdateTicketMsg(
    id: U64,
    betFinishTimestamp: Option<U64>,
    closeTimestamp: Option<U64>,
    result: Option<string>,
    collateral: Option<U64>)

  datatype TicketWorkerPair = TicketWorkerPair(tid: U64, worker: string)

  datatype TicketResultMsg = TicketResultMsg(tid: U64, worker: string, result: string)

  // ---- admin_board.rs ----

  datatype SlashMsg = SlashMsg(tid: U64, worker: Addr, slashPerc: U128)

  // ---- collateral_manager.rs ----

  datatype ReleaseStakeMsg = ReleaseStakeMsg(tid: U64, worker: Addr, amt: U128)

  // ---- auction_manager.rs ----

  datatype PlaceBetMsg = PlaceBetMsg(ticketId: U64, workder: string, betAmount: U64)

  /**
   The execute payloads the contracts send each other, one constructor per
   `ExecuteMsg` variant that some contract emits. `BarePlaceBet` is what the user
   board actually serialises for a bet: a `PlaceBetMsg` on its own, not wrapped in the
   auction manager's `ExecuteMsg::PlaceBet`.
   */
  datatype WasmPayload =
    | TicketAddTicket(add: AddTicketMsg)
    | TicketUpdateTicket(update: UpdateTicketMsg)
    | TicketRemoveTicket(tid: U64)
    | TicketSaveTicketWorker(pair: TicketWorkerPair)
    | TicketAssessSubmission(submission: TicketResultMsg)
    | AuctionDecideWinningBet(tid: U64)
    | BarePlaceBet(bet: PlaceBetMsg)
    | CollateralLockStake(tid: U64)
    | CollateralReleaseStake(release: ReleaseStakeMsg)
    | AdminReleaseStakeWithSlash(slash: SlashMsg)

  /** The two kinds of `CosmosMsg` the contracts emit. */
  datatype CosmosMsg =
    | WasmExecute(contractAddr: Addr, msg: WasmPayload, funds: seq<Coin>)
    | BankSend(toAddress: Addr, amount: seq<Coin>)

  /** What an execute handler returns: the messages of its `Response`, or an error. */
  type Outcome = Result<seq<CosmosMsg>>

  /** `s.into_iter().filter(keep).collect()`. */
  function Filter<T>(s: seq<T>, keep: T -> bool): (r: seq<T>)
    ensures |r| <= |s|
    ensures forall i :: 0 <= i < |r| ==> r[i] in s && keep(r[i])
    ensures forall i :: 0 <= i < |s| && keep(s[i]) ==> s[i] in r
  {
    if s == [] then []
    else if keep(s[0]) then [s[0]] + Filter(s[1..], keep)
    else Filter(s[1..], keep)
  }

  /** Filtering distributes over concatenation, so it keeps the survivors in their order. */
  lemma {:induction false} FilterAppend<T>(a: seq<T>, b: seq<T>, keep: T -> bool)
    ensures Filter(a + b, keep) == Filter(a, keep) + Filter(b, keep)
  {
    if a == [] {
      assert a + b == b;
    } else {
      assert (a + b)[0] == a[0];
      assert (a + b)[1..] == a[1..] + b;
      FilterAppend(a[1..], b, keep);
    }
  }

  /** Filtering a list whose every element is kept returns the list itself. */
  lemma {:induction false} FilterKeepsAll<T>(s: seq<T>, keep: T -> bool)
    requires forall i :: 0 <= i < |s| ==> keep(s[i])
    ensures Filter(s, keep) == s
  {
    if s != [] {
      FilterKeepsAll(s[1..], keep);
    }
  }

  /** A filtered list keeps exactly the elements that pass, element by element. */
  lemma {:induction false} FilterMultiset<T>(s: seq<T>, keep: T -> bool, x: T)
    ensures multiset(Filter(s, keep))[x] == if keep(x) then multiset(s)[x] else 0
  {
    if s != [] {
      FilterMultiset(s[1..], keep, x);
      assert s == [s[0]] + s[1..];
    }
  }
}
