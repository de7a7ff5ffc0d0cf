/**
 The user board contract: the workers' entry point. It forwards a worker's collateral to
 the collateral manager, a staked worker's bid to the auction manager, and the recorded
 worker's result to the ticket manager. Apart from its configuration it stores nothing.
 */
module UserBoard {
  import opened TicketAuction

  datatype Config = Config(
    adminBoard: Addr,
    ticketManager: Option<Addr>,
    collateralManager: Option<Addr>,
    auctionManager: Option<Addr>)

  datatype InstantiateMsg = InstantiateMsg(
    ticketManager: Option<Addr>,
    collateralManager: Option<Addr>,
    auctionManager: Option<Addr>)

  /** The board's own `PlaceBetMsg`: a ticket and an amount, the bidder being the sender. */
  datatype BetRequest = BetRequest(ticketId: U64, betAmount: U64)

  datatype PostConfigMsg = PostConfigMsg(
    ticketManager: Option<Addr>,
    collateralManager: Option<Addr>,
    auctionManager: Option<Addr>)

  class Contract {
    var config: Config

    /** The state `instantiate` stores; `Instantiate` adds the funds check, whose error a constructor cannot return. */
    constructor FromInstantiate(info: MessageInfo, msg: InstantiateMsg)
      ensures config == Config(info.sender, msg.ticketManager, msg.collateralManager, msg.auctionManager)
    {
      config := Config(info.sender, msg.ticketManager, msg.collateralManager, msg.auctionManager);
    }

    /** `instantiate`: refuses attached funds; the sender becomes the admin board. */
    static method Instantiate(info: MessageInfo, msg: InstantiateMsg) returns (r: Result<Contract>)
      ensures info.funds != [] ==> r == Err(Ta(UnnecessaryFunds))
      ensures info.funds == [] ==> r.Ok? && fresh(r.value)
      ensures r.Ok? ==> r.value.config == Config(info.sender, msg.ticketManager, msg.collateralManager, msg.auctionManager)
    {
      if info.funds != [] {
        return Err(Ta(UnnecessaryFunds));
      }
      var c := new Contract.FromInstantiate(info, msg);
      r := Ok(c);
    }

    /**
     `execute_lock_stake`: funds are required and the sender must be a valid address;
     the very same funds go on to the collateral manager with `LockStake`.
     */
    function LockStake(info: MessageInfo, tid: U64, senderValid: bool): (r: Outcome)
      reads this
      ensures info.funds == [] ==> r == Err(Ta(InsufficientFunds))
      ensures info.funds != [] && !senderValid ==> r == Err(Ta(InvalidAddress))
      ensures info.funds != [] && senderValid && config.collateralManager.None? ==> r == Err(Ta(NotInitialized))
      ensures info.funds != [] && senderValid && config.collateralManager.Some? ==>
        r == Ok([WasmExecute(config.collateralManager.value, CollateralLockStake(tid), info.funds)])
    {
      if info.funds == [] then Err(Ta(InsufficientFunds))
      else if !senderValid then Err(Ta(InvalidAddress))
      else match config.collateralManager
        case None => Err(Ta(NotInitialized))
        case Some(collateralManager) => Ok([WasmExecute(collateralManager, CollateralLockStake(tid), info.funds)])
    }

    /**
     `execute_place_bet`: no funds; the collateral manager is asked whether the sender
     has staked on the ticket, and only a staked sender's bid goes on, fund-less, to the
     auction manager, naming the sender as the bidder. The auction manager is looked up
     only after the stake check.
     */
    function PlaceBet(info: MessageInfo, msg: BetRequest, stakeStatus: Option<bool>): (r: Outcome)
      reads this
      ensures info.funds != [] ==> r == Err(Ta(UnnecessaryFunds))
      ensures info.funds == [] && config.collateralManager.None? ==> r == Err(Ta(NotInitialized))
      ensures info.funds == [] && config.collateralManager.Some? ==>
        if stakeStatus.None? then r == Err(QueryFailed)
        else if !stakeStatus.value then r == Err(Ta(NotStaked))
        else if config.auctionManager.None? then r == Err(Ta(NotInitialized))
        else r == Ok([WasmExecute(config.auctionManager.value,
                       BarePlaceBet(PlaceBetMsg(msg.ticketId, info.sender, msg.betAmount)), [])])
    {
      if info.funds != [] then Err(Ta(UnnecessaryFunds))
      else if config.collateralManager.None? then Err(Ta(NotInitialized))
      else if stakeStatus.None? then Err(QueryFailed)
      else if !stakeStatus.value then Err(Ta(NotStaked))
      else match config.auctionManager
        case None => Err(Ta(NotInitialized))
        case Some(auctionManager) =>
          Ok([WasmExecute(auctionManager, BarePlaceBet(PlaceBetMsg(msg.ticketId, info.sender, msg.betAmount)), [])])
    }

    /**
     `execute_submit_result`: no funds; the ticket manager is asked for the ticket's
     recorded worker, who must be the sender. The forwarded submission carries the
     worker named in the message, which need not be the sender.
     */
    function SubmitResult(info: MessageInfo, msg: TicketResultMsg, rightWorker: Option<string>): (r: Outcome)
      reads this
      ensures info.funds != [] ==> r == Err(Ta(UnnecessaryFunds))
      ensures info.funds == [] && config.ticketManager.None? ==> r == Err(Ta(NotInitialized))
      ensures info.funds == [] && config.ticketManager.Some? ==>
        if rightWorker.None? then r == Err(QueryFailed)
        else if info.sender != rightWorker.value then r == Err(Ta(NotAuthorized))
        else r == Ok([WasmExecute(config.ticketManager.value,
                       TicketAssessSubmission(TicketResultMsg(msg.tid, msg.worker, msg.result)), [])])
    {
      if info.funds != [] then Err(Ta(UnnecessaryFunds))
      else match config.ticketManager
        case None => Err(Ta(NotInitialized))
        case Some(ticketManager) =>
          if rightWorker.None? then Err(QueryFailed)
          else if info.sender != rightWorker.value then Err(Ta(NotAuthorized))
          else Ok([WasmExecute(ticketManager, TicketAssessSubmission(TicketResultMsg(msg.tid, msg.worker, msg.result)), [])])
    }

    /** `execute_post_config`: the three peers take the message's values; the admin board stays. */
    method PostConfig(info: MessageInfo, msg: PostConfigMsg) returns (r: Outcome)
      modifies this`config
      ensures info.funds != [] ==> r == Err(Ta(UnnecessaryFunds)) && config == old(config)
      ensures info.funds == [] && info.sender != old(config).adminBoard ==>
        r == Err(Ta(NotAuthorized)) && config == old(config)
      ensures info.funds == [] && info.sender == old(config).adminBoard ==>
        r == Ok([]) && config == Config(old(config).adminBoard, msg.ticketManager, msg.collateralManager, msg.auctionManager)
    {
      if info.funds != [] {
        return Err(Ta(UnnecessaryFunds));
      }
      if info.sender != config.adminBoard {
        return Err(Ta(NotAuthorized));
      }
      config := config.(auctionManager := msg.auctionManager);
      config := config.(collateralManager := msg.collateralManager);
      config := config.(ticketManager := msg.ticketManager);
      r := Ok([]);
    }

    /** `query_bet_avail_tickets`: the auction manager's answer, or `NotInitialized` without one. */
    function QueryBetAvailTickets(answer: Option<seq<U64>>): (r: Result<seq<U64>>)
      reads this
      ensures config.auctionManager.None? ==> r == Err(Ta(NotInitialized))
      ensures config.auctionManager.Some? && answer.None? ==> r == Err(QueryFailed)
      ensures config.auctionManager.Some? && answer.Some? ==> r == Ok(answer.value)
    {
      if config.auctionManager.None? then Err(Ta(NotInitialized))
      else if answer.None? then Err(QueryFailed)
      else Ok(answer.value)
    }

    /** `query_stake_status`: the collateral manager's answer, or `NotInitialized` without one. */
    function QueryStakeStatus(answer: Option<bool>): (r: Result<bool>)
      reads this
      ensures config.collateralManager.None? ==> r == Err(Ta(NotInitialized))
      ensures config.collateralManager.Some? && answer.None? ==> r == Err(QueryFailed)
      ensures config.collateralManager.Some? && answer.Some? ==> r == Ok(answer.value)
    {
      if config.collateralManager.None? then Err(Ta(NotInitialized))
      else if answer.None? then Err(QueryFailed)
      else Ok(answer.value)
    }
  }
}
