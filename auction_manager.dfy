/**
 The auction manager contract: it keeps the bets placed on each ticket (`BETS`, keyed by
 the 8-byte big-endian encoding of the ticket id) and, once the bidding time is over,
 picks the lowest bid and reports its bidder to the ticket manager as the ticket's worker.
 */
module AuctionManager {
  import opened TicketAuction
  import opened StorageKeys

  datatype Config = Config(adminBoard: Addr, ticketManager: Addr)

  datatype InstantiateMsg = InstantiateMsg(ticketManager: Addr)

  datatype BetDetail = BetDetail(worker: Addr, betAmt: U64)

  // ---- the winner rule ----

  /**
   Position `k` holds the bet `Iterator::min_by` returns: its amount is minimal and every
   earlier bet is strictly larger, so of several equal minima the earliest wins.
   */
  ghost predicate IsFirstMin(bets: seq<BetDetail>, k: int)
  {
    && 0 <= k < |bets|
    && (forall j :: 0 <= j < |bets| ==> bets[k].betAmt <= bets[j].betAmt)
    && (forall j :: 0 <= j < k ==> bets[k].betAmt < bets[j].betAmt)
  }

  /** There is only one such position, so the rule names one winner. */
  lemma FirstMinUnique(bets: seq<BetDetail>, k1: int, k2: int)
    requires IsFirstMin(bets, k1) && IsFirstMin(bets, k2)
    ensures k1 == k2
  {
    assert bets[k1].betAmt == bets[k2].betAmt;
  }

  /**
   The fold `min_by` performs over `bets[i..]`, with `best` the minimum so far: the
   accumulator is kept unless the next bet is strictly smaller.
   */
  function MinIndexFrom(bets: seq<BetDetail>, best: nat, i: nat): (k: nat)
    requires best < i <= |bets|
    requires IsFirstMin(bets[..i], best)
    ensures IsFirstMin(bets, k)
    decreases |bets| - i
  {
    if i == |bets| then
      assert bets[..i] == bets;
      best
    else
      var next := if bets[best].betAmt <= bets[i].betAmt then best else i;
      assert IsFirstMin(bets[..i + 1], next) by {
        assert forall j :: 0 <= j < i ==> bets[..i + 1][j] == bets[..i][j];
      }
      MinIndexFrom(bets, next, i + 1)
  }

  /** `bets.iter().min_by(|x, y| x.bet_amt.cmp(&y.bet_amt))`. */
  function WinningBet(bets: seq<BetDetail>): (r: Option<BetDetail>)
    ensures r.None? <==> bets == []
    ensures r.Some? ==> exists k :: IsFirstMin(bets, k) && bets[k] == r.value
  {
    if bets == [] then None
    else
      assert IsFirstMin(bets[..1], 0);
      Some(bets[MinIndexFrom(bets, 0, 1)])
  }

  /** Of the bids 50, 30, 30 the first 30 wins. */
  lemma WinningBetFirstOfTies(a: Addr, b: Addr, c: Addr)
    ensures WinningBet([BetDetail(a, 50), BetDetail(b, 30), BetDetail(c, 30)]) == Some(BetDetail(b, 30))
  {
    var bets := [BetDetail(a, 50), BetDetail(b, 30), BetDetail(c, 30)];
    var k :| IsFirstMin(bets, k) && bets[k] == WinningBet(bets).value;
    assert IsFirstMin(bets, 1);
    FirstMinUnique(bets, k, 1);
  }

  class Contract {
    var config: Config
    var bets: map<seq<Byte>, seq<BetDetail>>

    /** Every stored key is the 8-byte encoding of a ticket id. */
    predicate Valid()
      reads this
    {
      forall k :: k in bets ==> |k| == 8
    }

    /**
     `instantiate`: accepts any funds; the sender becomes the admin board and ticket 0
     is seeded with an empty bet list, the only list present at the start.
     */
    constructor FromInstantiate(info: MessageInfo, msg: InstantiateMsg)
      ensures Valid()
      ensures config == Config(info.sender, msg.ticketManager)
      ensures bets == map[Key(0) := []]
    {
      config := Config(info.sender, msg.ticketManager);
      bets := map[Key(0) := []];
    }

    // ---- state.rs ----

    /** `save_bets_ticket`: a following read of the same ticket returns `bs`. */
    method SaveBetsTicket(tid: U64, bs: seq<BetDetail>)
      requires Valid()
      modifies this`bets
      ensures Valid()
      ensures bets == old(bets)[Key(tid) := bs]
      ensures ReadBetsTicket(tid) == Ok(bs)
    {
      bets := bets[Key(tid) := bs];
    }

    /** `read_bets_ticket`: the `BETS` load, which fails for a ticket with no stored list. */
    function ReadBetsTicket(tid: U64): (r: Result<seq<BetDetail>>)
      reads this
      ensures r.Err? <==> Key(tid) !in bets
      ensures r.Err? ==> r.error == LoadMissing
      ensures r.Ok? ==> r.value == bets[Key(tid)]
    {
      if Key(tid) in bets then Ok(bets[Key(tid)]) else Err(LoadMissing)
    }

    /** `remove_bets_ticket`: never fails, and only that ticket's list goes. */
    method RemoveBetsTicket(tid: U64)
      requires Valid()
      modifies this`bets
      ensures Valid()
      ensures bets == old(bets) - {Key(tid)}
      ensures ReadBetsTicket(tid).Err?
    {
      bets := bets - {Key(tid)};
    }

    /**
     `read_curr_avail_tickets`: the ticket ids of all stored lists, empty ones included,
     each once and in ascending order; each raw key is copied into an 8-byte array and
     decoded big-endian.
     */
    method ReadCurrAvailTickets() returns (tids: seq<U64>)
      requires Valid()
      ensures Ascending(tids)
      ensures forall tid :: tid in tids <==> Key(tid) in bets
    {
      var keys := AscendingRawKeys(bets);
      tids := [];
      var i := 0;
      while i < |keys|
        invariant 0 <= i <= |keys|
        invariant |tids| == i
        invariant forall j :: 0 <= j < i ==> Key(tids[j]) == keys[j]
      {
        var v := keys[i];
        var arr := new Byte[8](_ => 0);
        for j := 0 to 8
          invariant arr[..j] == v[..j]
        {
          arr[j] := v[j];
        }
        assert arr[..] == v;
        var tid := FromBeBytes(arr[..]);
        tids := tids + [tid];
        i := i + 1;
      }
      forall a, b | 0 <= a < b < |tids|
        ensures tids[a] < tids[b]
      {
        KeyOrder(tids[a], tids[b]);
      }
      forall tid | Key(tid) in bets
        ensures tid in tids
      {
        var j :| 0 <= j < |keys| && keys[j] == Key(tid);
        KeyRoundTrip(tid);
        KeyRoundTrip(tids[j]);
        assert tids[j] == tid;
      }
    }

    // ---- contract.rs: execute ----

    /**
     `place_bet`: refuses funds; the ticket list is queried from the ticket manager and
     must hold the id; the sender must be a valid address; the ticket's list must already
     be stored. The bet is recorded under the sender, which is the user board relaying
     it, not the worker named in the message; no check is made on who the sender is.
     */
    method PlaceBet(info: MessageInfo, msg: PlaceBetMsg, tickets: Option<seq<Ticket>>, senderValid: bool)
      returns (r: Outcome)
      requires Valid()
      modifies this`bets
      ensures Valid()
      ensures r.Err? ==> bets == old(bets)
      ensures info.funds != [] ==> r == Err(Ta(UnnecessaryFunds))
      ensures info.funds == [] && tickets.None? ==> r == Err(QueryFailed)
      ensures info.funds == [] && tickets.Some? ==>
        if !HasTicket(tickets.value, msg.ticketId) then r == Err(Ta(NotFound))
        else if !senderValid then r == Err(Ta(InvalidAddress))
        else if Key(msg.ticketId) !in old(bets) then r == Err(LoadMissing)
        else (r == Ok([])
          && bets == old(bets)[Key(msg.ticketId) := old(bets)[Key(msg.ticketId)] + [BetDetail(info.sender, msg.betAmount)]])
    {
      if info.funds != [] {
        return Err(Ta(UnnecessaryFunds));
      }
      if tickets.None? {
        return Err(QueryFailed);
      }
      if !HasTicket(tickets.value, msg.ticketId) {
        return Err(Ta(NotFound));
      }
      if !senderValid {
        return Err(Ta(InvalidAddress));
      }
      var loaded := ReadBetsTicket(msg.ticketId);
      if loaded.Err? {
        return Err(loaded.error);
      }
      var bs := loaded.value;
      bs := bs + [BetDetail(info.sender, msg.betAmount)];
      SaveBetsTicket(msg.ticketId, bs);
      r := Ok([]);
    }

    /**
     `decide_winning_bet`: only the admin board, then no funds; the ticket's information
     is queried from the ticket manager and bidding must have finished (`now` is not before
     the finish time); the ticket's list must be stored and hold a bet. The list is then
     removed and the first lowest bidder is reported to the ticket manager.
     */
    method DecideWinningBet(info: MessageInfo, now: U64, tid: U64, ticketInfo: Option<Ticket>)
      returns (r: Outcome)
      requires Valid()
      modifies this`bets
      ensures Valid()
      ensures r.Err? ==> bets == old(bets)
      ensures info.sender != config.adminBoard ==> r == Err(Ta(NotAuthorized))
      ensures info.sender == config.adminBoard && info.funds != [] ==> r == Err(Ta(UnnecessaryFunds))
      ensures info.sender == config.adminBoard && info.funds == [] ==>
        if ticketInfo.None? then r == Err(QueryFailed)
        else if now < ticketInfo.value.betFinishTimestamp then r == Err(Ta(BetNotFinished))
        else if Key(tid) !in old(bets) then r == Err(LoadMissing)
        else if old(bets)[Key(tid)] == [] then r == Err(Ta(NotFound))
        else (bets == old(bets) - {Key(tid)}
          && (exists k :: IsFirstMin(old(bets)[Key(tid)], k)
                && r == Ok([WasmExecute(config.ticketManager,
                              TicketSaveTicketWorker(TicketWorkerPair(tid, old(bets)[Key(tid)][k].worker)), [])])))
    {
      if info.sender != config.adminBoard {
        return Err(Ta(NotAuthorized));
      }
      if info.funds != [] {
        return Err(Ta(UnnecessaryFunds));
      }
      if ticketInfo.None? {
        return Err(QueryFailed);
      }
      if now < ticketInfo.value.betFinishTimestamp {
        return Err(Ta(BetNotFinished));
      }
      var loaded := ReadBetsTicket(tid);
      if loaded.Err? {
        return Err(loaded.error);
      }
      var winner := WinningBet(loaded.value);
      if winner.None? {
        return Err(Ta(NotFound));
      }
      RemoveBetsTicket(tid);
      r := Ok([WasmExecute(config.ticketManager,
                TicketSaveTicketWorker(TicketWorkerPair(tid, winner.value.worker)), [])]);
    }

    // ---- contract.rs: queries ----

    /** `query_bet_avail_tickets`: the ids of the tickets with a stored bet list, ascending. */
    method QueryBetAvailTickets() returns (tids: seq<U64>)
      requires Valid()
      ensures forall i, j :: 0 <= i < j < |tids| ==> tids[i] < tids[j]
      ensures forall tid :: tid in tids <==> Key(tid) in bets
    {
      tids := ReadCurrAvailTickets();
    }

    /** `query_curr_active_bets`: the stored bets of a ticket, failing when it has none stored. */
    function QueryCurrActiveBets(tid: U64): (r: Result<seq<BetDetail>>)
      reads this
      ensures r.Err? <==> Key(tid) !in bets
      ensures r.Ok? ==> r.value == bets[Key(tid)]
    {
      ReadBetsTicket(tid)
    }
  }
}
