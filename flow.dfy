/**
 The five contracts composed: each message one contract emits is delivered by hand to the
 handler it names, in the order the host would run them, with query answers taken from
 the queried contract's own state.
 */
module Flow {
  import opened TicketAuction
  import StorageKeys
  import TicketManager
  import AuctionManager
  import CollateralManager
  import AdminBoard
  import UserBoard

  const ADMIN: Addr := "admin"
  const AB: Addr := "admin-board"
  const TM: Addr := "ticket-manager"
  const AM: Addr := "auction-manager"
  const CM: Addr := "collateral-manager"
  const UB: Addr := "user-board"
  const WORKER: Addr := "worker"

  function NoFunds(sender: Addr): MessageInfo
  {
    MessageInfo(sender, [])
  }

  /** The collateral of the sample ticket, in `uluna`. */
  const COLLATERAL: U64 := 1000

  function SampleTicket(id: U64): AddTicketMsg
  {
    AddTicketMsg(id, 100, 200, "expected", COLLATERAL)
  }

  /** The five contracts, instantiated by the admin board and wired to one another. */
  method Deploy() returns (ab: AdminBoard.Contract, tm: TicketManager.Contract, am: AuctionManager.Contract,
                           cm: CollateralManager.Contract, ub: UserBoard.Contract)
    ensures fresh(ab) && fresh(tm) && fresh(am) && fresh(cm) && fresh(ub)
    ensures ab.config == AdminBoard.Config(ADMIN, Some(TM), Some(CM), Some(AM), Some(UB))
    ensures tm.config == TicketManager.Config(AB, Some(AM), Some(UB))
    ensures tm.tickets == [] && tm.twPair == map[0 := ""]
    ensures am.config == AuctionManager.Config(AB, TM) && am.bets == map[StorageKeys.Key(0) := []] && am.Valid()
    ensures cm.config == CollateralManager.Config(AB, TM, UB) && cm.stakes == map[0 := []]
    ensures ub.config == UserBoard.Config(AB, Some(TM), Some(CM), Some(AM))
  {
    ab := new AdminBoard.Contract.Instantiate(NoFunds(ADMIN));
    var posted := ab.PostConfig(NoFunds(ADMIN), AdminBoard.PostConfigMsg(Some(TM), Some(CM), Some(AM), Some(UB)));
    tm := new TicketManager.Contract.FromInstantiate(NoFunds(AB), TicketManager.InstantiateMsg(Some(AM), Some(UB)));
    am := new AuctionManager.Contract.FromInstantiate(NoFunds(AB), AuctionManager.InstantiateMsg(TM));
    cm := new CollateralManager.Contract.FromInstantiate(NoFunds(AB), CollateralManager.InstantiateMsg(TM, UB));
    ub := new UserBoard.Contract.FromInstantiate(NoFunds(AB), UserBoard.InstantiateMsg(Some(TM), Some(CM), Some(AM)));
  }

  /**
   A worker who locks collateral through the user board and then bids through it is
   refused as not staked: the collateral manager recorded the user board as the staker.
   */
  method StakeThenBetThroughBoard() returns (lock: Outcome, bet: Outcome)
    ensures lock == Ok([])
    ensures bet == Err(Ta(NotStaked))
  {
    var ab, tm, am, cm, ub := Deploy();
    var added := ab.AddTicket(NoFunds(ADMIN), SampleTicket(0));
    assert added == Ok([WasmExecute(TM, TicketAddTicket(SampleTicket(0)), [])]);
    var _ := tm.AddTicket(NoFunds(AB), SampleTicket(0));
    var ticket := tm.QueryTicket(0);
    assert tm.tickets[0] == TicketManager.TicketOf(SampleTicket(0));

    var funds := [Coin(CollateralManager.BASE_DENOM, COLLATERAL)];
    var forwarded := ub.LockStake(MessageInfo(WORKER, funds), 0, true);
    assert forwarded == Ok([WasmExecute(CM, CollateralLockStake(0), funds)]);
    CollateralManager.BaseCoinsOfBase(funds);
    lock := cm.LockStake(MessageInfo(UB, funds), 0, Some(ticket.value));
    assert cm.stakes[0] == [UB];

    var status := cm.QueryStakeStatus(0, WORKER);
    assert status == Ok(false);
    bet := ub.PlaceBet(NoFunds(WORKER), UserBoard.BetRequest(0, 50), Some(status.value));
  }

  /**
   Only ticket 0 has a stored stake list and bet list after instantiation, so the first
   lock and the first bid on any other ticket fail to load, even once the ticket exists.
   The bid is given the stored tickets as its query answer, assuming that the ticket
   manager's bare list parses as the `TicketsResponse` the auction manager expects.
   */
  method FirstLockAndBetOnNewTicket(tid: U64) returns (lock: Outcome, bet: Outcome)
    requires tid != 0
    ensures lock == Err(LoadMissing)
    ensures bet == Err(LoadMissing)
  {
    var ab, tm, am, cm, ub := Deploy();
    var _ := tm.AddTicket(NoFunds(AB), SampleTicket(tid));
    var ticket := tm.QueryTicket(tid);
    assert tm.tickets[0] == TicketManager.TicketOf(SampleTicket(tid));
    assert HasTicket(tm.tickets, tid);
    var funds := [Coin(CollateralManager.BASE_DENOM, COLLATERAL)];
    CollateralManager.BaseCoinsOfBase(funds);
    lock := cm.LockStake(MessageInfo(UB, funds), tid, Some(ticket.value));
    if StorageKeys.Key(tid) == StorageKeys.Key(0) {
      StorageKeys.KeyInjective(tid, 0);
    }
    bet := am.PlaceBet(NoFunds(WORKER), PlaceBetMsg(tid, WORKER, 50), Some(tm.tickets), true);
  }

  /**
   Ticket 0 open, with the worker's collateral locked through the user board and its
   bid of 50 sent straight to the auction manager, which records it under the worker.
   The bid assumes two repairs: it bypasses the user board's bare `PlaceBetMsg`, and
   its ticket query is answered with the stored list as a parsed `TicketsResponse`.
   */
  method OpenTicketWithDirectBid()
    returns (ab: AdminBoard.Contract, tm: TicketManager.Contract, am: AuctionManager.Contract,
             cm: CollateralManager.Contract, ub: UserBoard.Contract)
    ensures fresh(ab) && fresh(tm) && fresh(am) && fresh(cm) && fresh(ub)
    ensures ab.config == AdminBoard.Config(ADMIN, Some(TM), Some(CM), Some(AM), Some(UB))
    ensures tm.config == TicketManager.Config(AB, Some(AM), Some(UB))
    ensures tm.tickets == [TicketManager.TicketOf(SampleTicket(0))] && tm.twPair == map[0 := ""]
    ensures am.config == AuctionManager.Config(AB, TM) && am.Valid()
    ensures StorageKeys.Key(0) in am.bets && am.bets[StorageKeys.Key(0)] == [AuctionManager.BetDetail(WORKER, 50)]
    ensures cm.config == CollateralManager.Config(AB, TM, UB) && 0 in cm.stakes && cm.stakes[0] == [UB]
    ensures ub.config == UserBoard.Config(AB, Some(TM), Some(CM), Some(AM))
  {
    ab, tm, am, cm, ub := Deploy();
    var _ := tm.AddTicket(NoFunds(AB), SampleTicket(0));
    assert tm.tickets[0] == TicketManager.TicketOf(SampleTicket(0));
    var ticket := tm.QueryTicket(0);

    var funds := [Coin(CollateralManager.BASE_DENOM, COLLATERAL)];
    CollateralManager.BaseCoinsOfBase(funds);
    assert CollateralManager.LockFundsCheck(funds, ticket.value.collateral) == Ok(());
    var _ := cm.LockStake(MessageInfo(UB, funds), 0, Some(ticket.value));

    assert HasTicket(tm.tickets, 0);
    var _ := am.PlaceBet(NoFunds(WORKER), PlaceBetMsg(0, WORKER, 50), Some(tm.tickets), true);
  }

  /** The admin board has the auction decided; the ticket manager records the worker. */
  method AwardTicket(ab: AdminBoard.Contract, tm: TicketManager.Contract, am: AuctionManager.Contract)
    requires ab.config == AdminBoard.Config(ADMIN, Some(TM), Some(CM), Some(AM), Some(UB))
    requires tm.config == TicketManager.Config(AB, Some(AM), Some(UB))
    requires tm.tickets == [TicketManager.TicketOf(SampleTicket(0))]
    requires am.config == AuctionManager.Config(AB, TM) && am.Valid()
    requires StorageKeys.Key(0) in am.bets && am.bets[StorageKeys.Key(0)] == [AuctionManager.BetDetail(WORKER, 50)]
    modifies tm, am
    ensures tm.config == old(tm.config) && tm.tickets == old(tm.tickets)
    ensures 0 in tm.twPair && tm.twPair[0] == WORKER
  {
    var decide := ab.DecideWinBet(NoFunds(ADMIN), 0);
    assert decide == Ok([WasmExecute(AM, AuctionDecideWinningBet(0), [])]);
    var decided := am.DecideWinningBet(NoFunds(AB), 150, 0, Some(tm.tickets[0]));
    var pair := TicketWorkerPair(0, WORKER);
    assert decided == Ok([WasmExecute(TM, TicketSaveTicketWorker(pair), [])]);
    assert HasTicket(tm.tickets, 0);
    var _ := tm.SaveTicketWorker(NoFunds(AM), pair);
  }

  /**
   The whole round: the winner submits a wrong result after the close time, yet the full
   collateral is paid back, because the slash the ticket manager sends is 0.
   */
  method LateWrongResultReleasesAll() returns (payout: Outcome)
    ensures payout == Ok([BankSend(WORKER, [Coin(CollateralManager.BASE_DENOM, COLLATERAL)])])
  {
    var ab, tm, am, cm, ub := OpenTicketWithDirectBid();
    AwardTicket(ab, tm, am);
    var ticket := tm.tickets[0];

    var submission := TicketResultMsg(0, WORKER, "wrong");
    var recorded := tm.QueryTicketWorker(0);
    var submitted := ub.SubmitResult(NoFunds(WORKER), submission, Some(recorded.value));
    assert submitted == Ok([WasmExecute(TM, TicketAssessSubmission(submission), [])]);
    assert HasTicket(tm.tickets, 0);
    var assessed := tm.AssessSubmission(NoFunds(UB), 250, submission, true);
    var slash := SlashMsg(0, WORKER, 0);
    assert assessed == Ok([WasmExecute(AB, AdminReleaseStakeWithSlash(slash), [])]);

    AdminBoard.ReleaseWithinBounds(COLLATERAL, 0);
    var released := ab.ReleaseStakeWithSlash(NoFunds(TM), slash, Some(ticket));
    var release := ReleaseStakeMsg(0, WORKER, COLLATERAL);
    assert released == Ok([WasmExecute(CM, CollateralReleaseStake(release), [])]);
    payout := cm.ReleaseStake(NoFunds(AB), release);
  }

  /**
   With the slash computed as intended, the same late wrong result keeps 80% of the
   collateral: 200 of 1000 goes back.
   */
  lemma LateWrongResultIntendedRelease()
    ensures TicketManager.IntendedSlashPerc(TicketManager.TicketOf(SampleTicket(0)), "wrong", 250) == 800
    ensures AdminBoard.ReleaseAmount(COLLATERAL, 800) == Ok(200)
  {
    AdminBoard.ReleaseWithinBounds(COLLATERAL, 800);
  }

  /**
   The intended slash always goes through the admin board's arithmetic: the release
   never aborts, is at most the collateral, and is the whole collateral exactly for an
   on-time correct result.
   */
  lemma IntendedSlashReleases(ticket: Ticket, result: string, now: U64)
    ensures AdminBoard.ReleaseAmount(ticket.collateral, TicketManager.IntendedSlashPerc(ticket, result, now)).Ok?
    ensures AdminBoard.ReleaseAmount(ticket.collateral, TicketManager.IntendedSlashPerc(ticket, result, now)).value
      <= ticket.collateral
    ensures ticket.result == result && now <= ticket.closeTimestamp ==>
      AdminBoard.ReleaseAmount(ticket.collateral, TicketManager.IntendedSlashPerc(ticket, result, now)).value
        == ticket.collateral
  {
    AdminBoard.ReleaseWithinBounds(ticket.collateral, TicketManager.IntendedSlashPerc(ticket, result, now));
  }
}
