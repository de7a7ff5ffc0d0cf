/**
 The admin board contract: the administrator's entry point. It relays ticket management
 to the ticket manager and the winner decision to the auction manager, and it turns an
 assessment's slash into the amount the collateral manager releases.
 */
module AdminBoard {
  import opened TicketAuction

  datatype Config = Config(
    admin: Addr,
    ticketManager: Option<Addr>,
    collateralManager: Option<Addr>,
    auctionManager: Option<Addr>,
    userBoard: Option<Addr>)

  datatype PostConfigMsg = PostConfigMsg(
    ticketManager: Option<Addr>,
    collateralManager: Option<Addr>,
    auctionManager: Option<Addr>,
    userBoard: Option<Addr>)

  // ---- cosmwasm `Decimal`: 18 fractional digits over `Uint128` ----

  const DECIMAL_FRACTIONAL: nat := 1_000_000_000_000_000_000

  /** `Decimal::from_ratio(n, d)`: the atomics `floor(n * 10^18 / d)`; a panic if they overflow. */
  function DecimalFromRatio(n: U128, d: U128): (r: Result<U128>)
    requires d > 0
    ensures r.Ok? <==> n * DECIMAL_FRACTIONAL / d < U128_LIMIT
    ensures r.Err? ==> r.error == Abort
    ensures r.Ok? ==> r.value * d <= n * DECIMAL_FRACTIONAL < (r.value + 1) * d
  {
    var v := n * DECIMAL_FRACTIONAL / d;
    if v < U128_LIMIT then Ok(v) else Err(Abort)
  }

  /** `Uint128 * Decimal`: `floor(a * atomics / 10^18)`, zero when either is zero; a panic if it overflows. */
  function MulDecimal(a: U128, atomics: U128): (r: Result<U128>)
    ensures r.Ok? <==> a == 0 || atomics == 0 || a * atomics / DECIMAL_FRACTIONAL < U128_LIMIT
    ensures r.Err? ==> r.error == Abort
    ensures r.Ok? ==> r.value * DECIMAL_FRACTIONAL <= a * atomics < (r.value + 1) * DECIMAL_FRACTIONAL
  {
    if a == 0 || atomics == 0 then Ok(0)
    else
      var v := a * atomics / DECIMAL_FRACTIONAL;
      if v < U128_LIMIT then Ok(v) else Err(Abort)
  }

  /** `Uint128 - Uint128`: a panic when it would go below zero. */
  function Sub(a: U128, b: U128): (r: Result<U128>)
    ensures r.Ok? <==> b <= a
    ensures r.Err? ==> r.error == Abort
    ensures r.Ok? ==> r.value + b == a
  {
    if b <= a then Ok(a - b) else Err(Abort)
  }

  /**
   The amount released for a collateral and a slash in thousandths, computed as
   `execute_release_stake_with_slash` does: the slash as a decimal fraction, the slashed
   amount as the collateral times it, and the collateral less that.
   */
  function ReleaseAmount(collateral: U64, slashPerc: U128): (r: Result<U128>)
    ensures r.Err? ==> r.error == Abort
    ensures r.Ok? ==> r.value <= collateral
  {
    var fraction := DecimalFromRatio(slashPerc, 1000);
    if fraction.Err? then Err(fraction.error)
    else
      var slashAmt := MulDecimal(collateral, fraction.value);
      if slashAmt.Err? then Err(slashAmt.error)
      else Sub(collateral, slashAmt.value)
  }

  /** The slashed amount in exact integers: the floor of collateral times perc over 1000. */
  function SlashAmount(collateral: U64, slashPerc: nat): nat
  {
    collateral * slashPerc / 1000
  }

  /**
   The decimal steps compute the slash exactly: whenever the release does not abort,
   release plus the floor of collateral times perc over 1000 is the collateral; it aborts
   exactly when the perc is too large for the decimal or the slash exceeds the collateral.
   */
  lemma {:induction false} ReleaseAmountExact(collateral: U64, slashPerc: U128)
    ensures ReleaseAmount(collateral, slashPerc).Ok? <==>
      slashPerc * 1_000_000_000_000_000 < U128_LIMIT && SlashAmount(collateral, slashPerc) <= collateral
    ensures ReleaseAmount(collateral, slashPerc).Err? ==> ReleaseAmount(collateral, slashPerc).error == Abort
    ensures ReleaseAmount(collateral, slashPerc).Ok? ==>
      ReleaseAmount(collateral, slashPerc).value + SlashAmount(collateral, slashPerc) == collateral
  {
    var atomics := slashPerc * DECIMAL_FRACTIONAL / 1000;
    assert atomics == slashPerc * 1_000_000_000_000_000;
    if atomics < U128_LIMIT {
      var x := collateral * slashPerc;
      assert collateral * atomics == x * 1_000_000_000_000_000 by {
        MulAssoc(collateral, slashPerc, 1_000_000_000_000_000);
      }
      assert collateral * atomics / DECIMAL_FRACTIONAL == x / 1000;
      assert x / 1000 <= collateral ==> x / 1000 < U128_LIMIT;
    }
  }

  /** Proof scaffolding for `ReleaseAmountExact`: multiplication regroups. */
  lemma MulAssoc(a: nat, b: nat, c: nat)
    ensures a * (b * c) == (a * b) * c
  {
  }

  /**
   For a slash of at most 100% the release never aborts and lies between nothing and
   the whole collateral: 0% releases it all, 100% releases nothing.
   */
  lemma ReleaseWithinBounds(collateral: U64, slashPerc: U128)
    requires slashPerc <= 1000
    ensures ReleaseAmount(collateral, slashPerc) == Ok(collateral - SlashAmount(collateral, slashPerc))
    ensures ReleaseAmount(collateral, slashPerc).value <= collateral
    ensures slashPerc == 0 ==> ReleaseAmount(collateral, slashPerc).value == collateral
    ensures slashPerc == 1000 ==> ReleaseAmount(collateral, slashPerc).value == 0
  {
    ReleaseAmountExact(collateral, slashPerc);
    assert collateral * slashPerc <= collateral * 1000 by {
      MulMonotone(collateral, slashPerc, 1000);
    }
  }

  /** Proof scaffolding: multiplying by a fixed factor keeps the order. */
  lemma MulMonotone(a: nat, b: nat, c: nat)
    requires b <= c
    ensures a * b <= a * c
  {
    assert a * c == a * b + a * (c - b);
  }

  lemma SlashAmountMonotone(collateral: U64, p: nat, q: nat)
    requires p <= q
    ensures SlashAmount(collateral, p) <= SlashAmount(collateral, q)
  {
    MulMonotone(collateral, p, q);
  }

  /** A larger slash never releases more. */
  lemma ReleaseMonotone(collateral: U64, p: U128, q: U128)
    requires p <= q <= 1000
    ensures ReleaseAmount(collateral, p).Ok? && ReleaseAmount(collateral, q).Ok?
    ensures ReleaseAmount(collateral, q).value <= ReleaseAmount(collateral, p).value
  {
    ReleaseWithinBounds(collateral, p);
    ReleaseWithinBounds(collateral, q);
    SlashAmountMonotone(collateral, p, q);
  }

  /**
   Above 100% the release does not always abort: it either aborts or releases nothing,
   and it aborts once the collateral is at least 1000.
   */
  lemma ReleaseAboveFull(collateral: U64, slashPerc: U128)
    requires slashPerc > 1000
    ensures ReleaseAmount(collateral, slashPerc) == Err(Abort) || ReleaseAmount(collateral, slashPerc) == Ok(0)
    ensures collateral >= 1000 ==> ReleaseAmount(collateral, slashPerc) == Err(Abort)
  {
    ReleaseAmountExact(collateral, slashPerc);
    SlashAboveFull(collateral, slashPerc);
  }

  /** Above 100% the slash is at least the collateral, and more once the collateral is 1000. */
  lemma SlashAboveFull(collateral: U64, slashPerc: nat)
    requires slashPerc > 1000
    ensures SlashAmount(collateral, slashPerc) >= collateral
    ensures collateral >= 1000 ==> SlashAmount(collateral, slashPerc) > collateral
  {
    var extra := collateral * (slashPerc - 1000);
    assert collateral * slashPerc == collateral * 1000 + extra;
    if collateral >= 1000 {
      MulMonotone(collateral, 1, slashPerc - 1000);
      assert extra >= 1000;
    }
  }

  /** A slash of 100.1% on a collateral of 1 goes through and releases nothing. */
  lemma ReleaseAboveFullExample()
    ensures ReleaseAmount(1, 1001) == Ok(0)
  {
    ReleaseAmountExact(1, 1001);
  }

  /** The one message a dispatcher sends when its guards pass: to `target`, with no funds. */
  function Relay(info: MessageInfo, admin: Addr, target: Option<Addr>, payload: WasmPayload): (r: Outcome)
    ensures info.funds != [] ==> r == Err(Ta(UnnecessaryFunds))
    ensures info.funds == [] && info.sender != admin ==> r == Err(Ta(NotAuthorized))
    ensures info.funds == [] && info.sender == admin && target.None? ==> r == Err(Ta(NotInitialized))
    ensures info.funds == [] && info.sender == admin && target.Some? ==>
      r == Ok([WasmExecute(target.value, payload, [])])
  {
    if info.funds != [] then Err(Ta(UnnecessaryFunds))
    else if info.sender != admin then Err(Ta(NotAuthorized))
    else match target
      case None => Err(Ta(NotInitialized))
      case Some(t) => Ok([WasmExecute(t, payload, [])])
  }

  class Contract {
    var config: Config

    /** `instantiate`: accepts any funds; the sender becomes the admin and no peer is known. */
    constructor Instantiate(info: MessageInfo)
      ensures config == Config(info.sender, None, None, None, None)
    {
      config := Config(info.sender, None, None, None, None);
    }

    /** `execute_add_ticket`: relays `AddTicket` to the ticket manager. */
    function AddTicket(info: MessageInfo, msg: AddTicketMsg): (r: Outcome)
      reads this
      ensures info.funds != [] ==> r == Err(Ta(UnnecessaryFunds))
      ensures info.funds == [] && info.sender != config.admin ==> r == Err(Ta(NotAuthorized))
      ensures info.funds == [] && info.sender == config.admin && config.ticketManager.None? ==>
        r == Err(Ta(NotInitialized))
      ensures info.funds == [] && info.sender == config.admin && config.ticketManager.Some? ==>
        r == Ok([WasmExecute(config.ticketManager.value, TicketAddTicket(msg), [])])
    {
      Relay(info, config.admin, config.ticketManager, TicketAddTicket(msg))
    }

    /** `execute_update_ticket`: relays `UpdateTicket` to the ticket manager. */
    function UpdateTicket(info: MessageInfo, msg: UpdateTicketMsg): (r: Outcome)
      reads this
      ensures info.funds != [] ==> r == Err(Ta(UnnecessaryFunds))
      ensures info.funds == [] && info.sender != config.admin ==> r == Err(Ta(NotAuthorized))
      ensures info.funds == [] && info.sender == config.admin && config.ticketManager.None? ==>
        r == Err(Ta(NotInitialized))
      ensures info.funds == [] && info.sender == config.admin && config.ticketManager.Some? ==>
        r == Ok([WasmExecute(config.ticketManager.value, TicketUpdateTicket(msg), [])])
    {
      Relay(info, config.admin, config.ticketManager, TicketUpdateTicket(msg))
    }

    /** `execute_remove_ticket`: relays `RemoveTicket` to the ticket manager. */
    function RemoveTicket(info: MessageInfo, tid: U64): (r: Outcome)
      reads this
      ensures info.funds != [] ==> r == Err(Ta(UnnecessaryFunds))
      ensures info.funds == [] && info.sender != config.admin ==> r == Err(Ta(NotAuthorized))
      ensures info.funds == [] && info.sender == config.admin && config.ticketManager.None? ==>
        r == Err(Ta(NotInitialized))
      ensures info.funds == [] && info.sender == config.admin && config.ticketManager.Some? ==>
        r == Ok([WasmExecute(config.ticketManager.value, TicketRemoveTicket(tid), [])])
    {
      Relay(info, config.admin, config.ticketManager, TicketRemoveTicket(tid))
    }

    /** `execute_decide_win_bet`: relays `DecideWinningBet` to the auction manager. */
    function DecideWinBet(info: MessageInfo, tid: U64): (r: Outcome)
      reads this
      ensures info.funds != [] ==> r == Err(Ta(UnnecessaryFunds))
      ensures info.funds == [] && info.sender != config.admin ==> r == Err(Ta(NotAuthorized))
      ensures info.funds == [] && info.sender == config.admin && config.auctionManager.None? ==>
        r == Err(Ta(NotInitialized))
      ensures info.funds == [] && info.sender == config.admin && config.auctionManager.Some? ==>
        r == Ok([WasmExecute(config.auctionManager.value, AuctionDecideWinningBet(tid), [])])
    {
      Relay(info, config.admin, config.auctionManager, AuctionDecideWinningBet(tid))
    }

    /**
     `execute_release_stake_with_slash`: `NotInitialized` without a ticket manager,
     `NotAuthorized` unless it is the sender; the ticket's collateral is queried from it;
     the release amount is computed (and may abort) before the collateral manager is
     looked up; one fund-less `ReleaseStake` then goes to the collateral manager.
     Attached funds are not checked.
     */
    function ReleaseStakeWithSlash(info: MessageInfo, msg: SlashMsg, ticketInfo: Option<Ticket>): (r: Outcome)
      reads this
      ensures config.ticketManager.None? ==> r == Err(Ta(NotInitialized))
      ensures config.ticketManager.Some? && info.sender != config.ticketManager.value ==>
        r == Err(Ta(NotAuthorized))
      ensures config.ticketManager == Some(info.sender) ==>
        if ticketInfo.None? then r == Err(QueryFailed)
        else if ReleaseAmount(ticketInfo.value.collateral, msg.slashPerc).Err? then r == Err(Abort)
        else if config.collateralManager.None? then r == Err(Ta(NotInitialized))
        else r == Ok([WasmExecute(config.collateralManager.value,
                        CollateralReleaseStake(ReleaseStakeMsg(msg.tid, msg.worker,
                          ReleaseAmount(ticketInfo.value.collateral, msg.slashPerc).value)), [])])
    {
      match config.ticketManager
      case None => Err(Ta(NotInitialized))
      case Some(ticketManager) =>
        if info.sender != ticketManager then Err(Ta(NotAuthorized))
        else if ticketInfo.None? then Err(QueryFailed)
        else
          var releaseAmt := ReleaseAmount(ticketInfo.value.collateral, msg.slashPerc);
          if releaseAmt.Err? then Err(releaseAmt.error)
          else match config.collateralManager
            case None => Err(Ta(NotInitialized))
            case Some(collateralManager) =>
              Ok([WasmExecute(collateralManager,
                    CollateralReleaseStake(ReleaseStakeMsg(msg.tid, msg.worker, releaseAmt.value)), [])])
    }

    /** `execute_post_config`: all four peers take the message's values; the admin stays. */
    method PostConfig(info: MessageInfo, msg: PostConfigMsg) returns (r: Outcome)
      modifies this`config
      ensures info.funds != [] ==> r == Err(Ta(UnnecessaryFunds)) && config == old(config)
      ensures info.funds == [] && info.sender != old(config).admin ==>
        r == Err(Ta(NotAuthorized)) && config == old(config)
      ensures info.funds == [] && info.sender == old(config).admin ==>
        r == Ok([]) && config == Config(old(config).admin, msg.ticketManager, msg.collateralManager,
                                       msg.auctionManager, msg.userBoard)
    {
      if info.funds != [] {
        return Err(Ta(UnnecessaryFunds));
      }
      if info.sender != config.admin {
        return Err(Ta(NotAuthorized));
      }
      config := config.(auctionManager := msg.auctionManager);
      config := config.(collateralManager := msg.collateralManager);
      config := config.(ticketManager := msg.ticketManager);
      config := config.(userBoard := msg.userBoard);
      r := Ok([]);
    }

    /** `query_ticket_info`: the ticket manager's answer, or `NotInitialized` without one. */
    function QueryTicketInfo(answer: Option<Ticket>): (r: Result<Ticket>)
      reads this
      ensures config.ticketManager.None? ==> r == Err(Ta(NotInitialized))
      ensures config.ticketManager.Some? && answer.None? ==> r == Err(QueryFailed)
      ensures config.ticketManager.Some? && answer.Some? ==> r == Ok(answer.value)
    {
      if config.ticketManager.None? then Err(Ta(NotInitialized))
      else if answer.None? then Err(QueryFailed)
      else Ok(answer.value)
    }

    /** `query_ticket_worker`: the ticket manager's answer, or `NotInitialized` without one. */
    function QueryTicketWorker(answer: Option<string>): (r: Result<string>)
      reads this
      ensures config.ticketManager.None? ==> r == Err(Ta(NotInitialized))
      ensures config.ticketManager.Some? && answer.None? ==> r == Err(QueryFailed)
      ensures config.ticketManager.Some? && answer.Some? ==> r == Ok(answer.value)
    {
      if config.ticketManager.None? then Err(Ta(NotInitialized))
      else if answer.None? then Err(QueryFailed)
      else Ok(answer.value)
    }
  }
}
