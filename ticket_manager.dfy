/**
 The ticket manager contract: it owns the ticket list (`TICKETS`), the winner recorded
 for each ticket (`TWPAIR`) and its configuration (`CONFIG`). It adds, updates and
 removes tickets on the admin board's behalf, records the winner the auction manager
 reports, and assesses a submitted result, asking the admin board to release the
 worker's stake less a slash.
 */
module TicketManager {
  import opened TicketAuction
  import StorageKeys

  datatype Config = Config(adminBoard: Addr, auctionManager: Option<Addr>, userBoard: Option<Addr>)

  datatype InstantiateMsg = InstantiateMsg(auctionManager: Option<Addr>, userBoard: Option<Addr>)

  datatype PostConfigMsg = PostConfigMsg(auctionManager: Option<Addr>, userBoard: Option<Addr>)

  /** The first ticket of `ts` whose id is `id` (`into_iter().find(|t| t.id == id)`). */
  function FindTicket(ts: seq<Ticket>, id: U64): (r: Option<Ticket>)
    ensures r.None? <==> forall i :: 0 <= i < |ts| ==> ts[i].id != id
    ensures r.Some? ==> exists i :: FirstWithId(ts, id, i) && ts[i] == r.value
  {
    if ts == [] then None
    else if ts[0].id == id then
      assert FirstWithId(ts, id, 0);
      Some(ts[0])
    else
      var r := FindTicket(ts[1..], id);
      assert r.Some? ==> exists i :: FirstWithId(ts, id, i) && ts[i] == r.value by {
        if r.Some? {
          var i :| FirstWithId(ts[1..], id, i) && ts[1..][i] == r.value;
          assert FirstWithId(ts, id, i + 1);
        }
      }
      r
  }

  /** Position `i` holds the first ticket of `ts` with id `id`. */
  ghost predicate FirstWithId(ts: seq<Ticket>, id: U64, i: int)
  {
    0 <= i < |ts| && ts[i].id == id && forall j :: 0 <= j < i ==> ts[j].id != id
  }

  function TicketOf(msg: AddTicketMsg): Ticket
  {
    Ticket(msg.id, msg.betFinishTimestamp, msg.closeTimestamp, msg.result, msg.collateral)
  }

  /** The ticket `t` after the update `msg`: each `Some` field replaces, each `None` keeps. */
  ghost function Patched(t: Ticket, msg: UpdateTicketMsg): Ticket
  {
    t.(betFinishTimestamp := if msg.betFinishTimestamp.Some? then msg.betFinishTimestamp.value else t.betFinishTimestamp,
       closeTimestamp := if msg.closeTimestamp.Some? then msg.closeTimestamp.value else t.closeTimestamp,
       result := if msg.result.Some? then msg.result.value else t.result,
       collateral := if msg.collateral.Some? then msg.collateral.value else t.collateral)
  }

  /** `ts.into_iter().map(|x| if x.id == id { t.clone() } else { x })`. */
  function ReplaceById(ts: seq<Ticket>, id: U64, t: Ticket): (r: seq<Ticket>)
    ensures |r| == |ts|
    ensures forall i :: 0 <= i < |ts| && ts[i].id == id ==> r[i] == t
    ensures forall i :: 0 <= i < |ts| && ts[i].id != id ==> r[i] == ts[i]
  {
    if ts == [] then []
    else [if ts[0].id == id then t else ts[0]] + ReplaceById(ts[1..], id, t)
  }

  /** `ts.into_iter().filter(|t| t.id != id)`. */
  function RemoveById(ts: seq<Ticket>, id: U64): (r: seq<Ticket>)
    ensures forall i :: 0 <= i < |r| ==> r[i].id != id && r[i] in ts
    ensures forall i :: 0 <= i < |ts| && ts[i].id != id ==> ts[i] in r
  {
    Filter(ts, (t: Ticket) => t.id != id)
  }

  /**
   Removing an id drops every ticket with that id and nothing else: each other ticket
   keeps its multiplicity, the result splits over concatenation (so the order is kept),
   and removing an id no ticket has is the identity.
   */
  lemma RemoveByIdSpec(ts: seq<Ticket>, id: U64)
    ensures forall i :: 0 <= i < |RemoveById(ts, id)| ==> RemoveById(ts, id)[i].id != id
    ensures forall t: Ticket :: t.id != id ==> multiset(RemoveById(ts, id))[t] == multiset(ts)[t]
    ensures forall a, b :: ts == a + b ==> RemoveById(ts, id) == RemoveById(a, id) + RemoveById(b, id)
    ensures (forall i :: 0 <= i < |ts| ==> ts[i].id != id) ==> RemoveById(ts, id) == ts
  {
    var keep := (t: Ticket) => t.id != id;
    forall t: Ticket | t.id != id
      ensures multiset(RemoveById(ts, id))[t] == multiset(ts)[t]
    {
      FilterMultiset(ts, keep, t);
    }
    forall a, b | ts == a + b
      ensures RemoveById(ts, id) == RemoveById(a, id) + RemoveById(b, id)
    {
      FilterAppend(a, b, keep);
    }
    if forall i :: 0 <= i < |ts| ==> ts[i].id != id {
      FilterKeepsAll(ts, keep);
    }
  }

  /** `Uint128::checked_add`. */
  function CheckedAdd(a: U128, b: U128): (r: Option<U128>)
    ensures r.Some? <==> a + b < U128_LIMIT
    ensures r.Some? ==> r.value == a + b
  {
    if a + b < U128_LIMIT then Some(a + b) else None
  }

  class Contract {
    var config: Config
    var tickets: seq<Ticket>
    var twPair: map<U64, string>

    /** The state `instantiate` stores; `Instantiate` adds the funds check, whose error a constructor cannot return. */
    constructor FromInstantiate(info: MessageInfo, msg: InstantiateMsg)
      ensures config == Config(info.sender, msg.auctionManager, msg.userBoard)
      ensures tickets == [] && twPair == map[0 := ""]
    {
      config := Config(info.sender, msg.auctionManager, msg.userBoard);
      tickets := [];
      twPair := map[0 := ""];
    }

    /**
     `instantiate`: refuses attached funds; otherwise the sender becomes the admin board,
     the ticket list is empty and ticket 0 is paired with the empty worker.
     */
    static method Instantiate(info: MessageInfo, msg: InstantiateMsg) returns (r: Result<Contract>)
      ensures info.funds != [] ==> r == Err(Ta(UnnecessaryFunds))
      ensures info.funds == [] ==> r.Ok? && fresh(r.value)
      ensures r.Ok? ==> r.value.config == Config(info.sender, msg.auctionManager, msg.userBoard)
      ensures r.Ok? ==> r.value.tickets == [] && r.value.twPair == map[0 := ""]
    {
      if info.funds != [] {
        return Err(Ta(UnnecessaryFunds));
      }
      var c := new Contract.FromInstantiate(info, msg);
      r := Ok(c);
    }

    // ---- state.rs ----

    /** `store_tickets`: the stored list becomes `ts`, so a following read returns `ts`. */
    method StoreTickets(ts: seq<Ticket>)
      modifies this`tickets
      ensures tickets == ts
    {
      tickets := ts;
    }

    /** `read_ticket_for_id`: the first ticket with the id, or `NotFound`. */
    function ReadTicketForId(tid: U64): (r: Result<Ticket>)
      reads this
      ensures r.Err? ==> r.error == Ta(NotFound) && forall i :: 0 <= i < |tickets| ==> tickets[i].id != tid
      ensures r.Ok? ==> exists i :: FirstWithId(tickets, tid, i) && tickets[i] == r.value
    {
      match FindTicket(tickets, tid)
      case Some(t) => Ok(t)
      case None => Err(Ta(NotFound))
    }

    /** `store_tw_pair`: one worker per ticket id, the previous one overwritten. */
    method StoreTwPair(pair: TicketWorkerPair)
      modifies this`twPair
      ensures twPair == old(twPair)[pair.tid := pair.worker]
      ensures forall t :: t != pair.tid ==> (t in twPair <==> t in old(twPair))
      ensures forall t :: t != pair.tid && t in twPair ==> twPair[t] == old(twPair)[t]
    {
      twPair := twPair[pair.tid := pair.worker];
    }

    /** `read_worker_for_ticket`: the `TWPAIR` load, which fails for an id never stored. */
    function ReadWorkerForTicket(tid: U64): (r: Result<string>)
      reads this
      ensures r.Err? <==> tid !in twPair
      ensures r.Err? ==> r.error == LoadMissing
      ensures r.Ok? ==> r.value == twPair[tid]
    {
      if tid in twPair then Ok(twPair[tid]) else Err(LoadMissing)
    }

    /** `read_all_assigned_tickets`: every stored ticket id once, in ascending order. */
    method ReadAllAssignedTickets() returns (tids: seq<U64>)
      ensures StorageKeys.Ascending(tids)
      ensures forall t :: t in tids <==> t in twPair
    {
      tids := StorageKeys.AscendingKeys(twPair);
    }

    // ---- contract.rs: execute ----

    /** `add_ticket`: only the admin board; appends the ticket, with no check on its id. */
    method AddTicket(info: MessageInfo, msg: AddTicketMsg) returns (r: Outcome)
      modifies this`tickets
      ensures info.sender != config.adminBoard ==> r == Err(Ta(NotAuthorized)) && tickets == old(tickets)
      ensures info.sender == config.adminBoard ==> r == Ok([]) && tickets == old(tickets) + [TicketOf(msg)]
    {
      if info.sender != config.adminBoard {
        return Err(Ta(NotAuthorized));
      }
      var ts := tickets;
      ts := ts + [TicketOf(msg)];
      StoreTickets(ts);
      r := Ok([]);
    }

    /**
     `update_ticket`: only the admin board; `NotFound` when no ticket has the id;
     otherwise the first ticket with the id is patched and every ticket with that id is
     replaced by the patched one, all others left as they are.
     */
    method UpdateTicket(info: MessageInfo, msg: UpdateTicketMsg) returns (r: Outcome)
      modifies this`tickets
      ensures info.sender != config.adminBoard ==> r == Err(Ta(NotAuthorized)) && tickets == old(tickets)
      ensures info.sender == config.adminBoard && !HasTicket(old(tickets), msg.id) ==>
        r == Err(Ta(NotFound)) && tickets == old(tickets)
      ensures info.sender == config.adminBoard && HasTicket(old(tickets), msg.id) ==>
        r == Ok([]) && |tickets| == |old(tickets)|
        && (exists k :: FirstWithId(old(tickets), msg.id, k)
              && forall i :: 0 <= i < |tickets| ==>
                tickets[i] == if old(tickets)[i].id == msg.id then Patched(old(tickets)[k], msg) else old(tickets)[i])
    {
      if info.sender != config.adminBoard {
        return Err(Ta(NotAuthorized));
      }
      var found := ReadTicketForId(msg.id);
      if found.Err? {
        return Err(found.error);
      }
      var ticket := found.value;
      if msg.betFinishTimestamp.Some? {
        ticket := ticket.(betFinishTimestamp := msg.betFinishTimestamp.value);
      }
      if msg.closeTimestamp.Some? {
        ticket := ticket.(closeTimestamp := msg.closeTimestamp.value);
      }
      if msg.collateral.Some? {
        ticket := ticket.(collateral := msg.collateral.value);
      }
      if msg.result.Some? {
        ticket := ticket.(result := msg.result.value);
      }
      StoreTickets(ReplaceById(tickets, msg.id, ticket));
      r := Ok([]);
    }

    /** `remove_ticket`: only the admin board; drops every ticket with the id (none is fine). */
    method RemoveTicket(info: MessageInfo, id: U64) returns (r: Outcome)
      modifies this`tickets
      ensures info.sender != config.adminBoard ==> r == Err(Ta(NotAuthorized)) && tickets == old(tickets)
      ensures info.sender == config.adminBoard ==> r == Ok([]) && tickets == RemoveById(old(tickets), id)
    {
      if info.sender != config.adminBoard {
        return Err(Ta(NotAuthorized));
      }
      StoreTickets(RemoveById(tickets, id));
      r := Ok([]);
    }

    /**
     `save_ticket_worker`: `NotInitialized` without an auction manager, `NotAuthorized`
     unless it is the sender, `NotFound` for an unknown ticket; otherwise the pair for the
     ticket is overwritten.
     */
    method SaveTicketWorker(info: MessageInfo, msg: TicketWorkerPair) returns (r: Outcome)
      modifies this`twPair
      ensures config.auctionManager.None? ==> r == Err(Ta(NotInitialized)) && twPair == old(twPair)
      ensures config.auctionManager.Some? && info.sender != config.auctionManager.value ==>
        r == Err(Ta(NotAuthorized)) && twPair == old(twPair)
      ensures config.auctionManager == Some(info.sender) && !HasTicket(tickets, msg.tid) ==>
        r == Err(Ta(NotFound)) && twPair == old(twPair)
      ensures config.auctionManager == Some(info.sender) && HasTicket(tickets, msg.tid) ==>
        r == Ok([]) && twPair == old(twPair)[msg.tid := msg.worker]
    {
      if config.auctionManager.None? {
        return Err(Ta(NotInitialized));
      }
      var auctionManager := config.auctionManager.value;
      if info.sender != auctionManager {
        return Err(Ta(NotAuthorized));
      }
      if !HasTicket(tickets, msg.tid) {
        return Err(Ta(NotFound));
      }
      StoreTwPair(msg);
      r := Ok([]);
    }

    /**
     `assess_submission`: refuses funds, fails to load a ticket with no recorded worker,
     `NotAuthorized` unless `msg.worker` is the recorded worker, `NotFound` for a missing
     ticket, and the `addr_validate` failure; the sender is never checked. On success
     it asks the admin board to release the stake with the computed slash and writes
     nothing. As written the two additions to the slash are computed and dropped, so
     the slash sent is 0 whatever the result and the time.
     */
    method AssessSubmission(info: MessageInfo, now: U64, msg: TicketResultMsg, workerAddrValid: bool)
      returns (r: Outcome)
      ensures info.funds != [] ==> r == Err(Ta(UnnecessaryFunds))
      ensures info.funds == [] && msg.tid !in twPair ==> r == Err(LoadMissing)
      ensures info.funds == [] && msg.tid in twPair && twPair[msg.tid] != msg.worker ==>
        r == Err(Ta(NotAuthorized))
      ensures info.funds == [] && msg.tid in twPair && twPair[msg.tid] == msg.worker ==>
        if !HasTicket(tickets, msg.tid) then r == Err(Ta(NotFound))
        else if !workerAddrValid then r == Err(AddrRejected)
        else r == Ok([WasmExecute(config.adminBoard,
                        AdminReleaseStakeWithSlash(SlashMsg(msg.tid, msg.worker, 0)), [])])
    {
      if info.funds != [] {
        return Err(Ta(UnnecessaryFunds));
      }
      var assignee := ReadWorkerForTicket(msg.tid);
      if assignee.Err? {
        return Err(assignee.error);
      }
      if msg.worker != assignee.value {
        return Err(Ta(NotAuthorized));
      }
      var slashPerc: U128 := 0;
      var found := ReadTicketForId(msg.tid);
      if found.Err? {
        return Err(found.error);
      }
      var ticket := found.value;
      if ticket.result != msg.result {
        // `slash_perc.checked_add(500)?`: the sum is computed and dropped
        var _ := CheckedAdd(slashPerc, 500);
      }
      if now > ticket.closeTimestamp {
        // `slash_perc.checked_add(300)?`: likewise dropped
        var _ := CheckedAdd(slashPerc, 300);
      }
      if !workerAddrValid {
        return Err(AddrRejected);
      }
      r := Ok([WasmExecute(config.adminBoard,
                AdminReleaseStakeWithSlash(SlashMsg(msg.tid, msg.worker, slashPerc)), [])]);
    }

    /** `execute_post_config`: replaces both peers (`None` clears one); the admin board stays. */
    method PostConfig(info: MessageInfo, msg: PostConfigMsg) returns (r: Outcome)
      modifies this`config
      ensures info.funds != [] ==> r == Err(Ta(UnnecessaryFunds)) && config == old(config)
      ensures info.funds == [] && info.sender != old(config).adminBoard ==>
        r == Err(Ta(NotAuthorized)) && config == old(config)
      ensures info.funds == [] && info.sender == old(config).adminBoard ==>
        r == Ok([]) && config == Config(old(config).adminBoard, msg.auctionManager, msg.userBoard)
    {
      if info.funds != [] {
        return Err(Ta(UnnecessaryFunds));
      }
      if info.sender != config.adminBoard {
        return Err(Ta(NotAuthorized));
      }
      config := config.(auctionManager := msg.auctionManager, userBoard := msg.userBoard);
      r := Ok([]);
    }

    // ---- contract.rs: queries ----

    /** `query_ticket`: the first ticket with the id, or `NotFound`. */
    function QueryTicket(id: U64): (r: Result<Ticket>)
      reads this
      ensures r.Err? <==> !HasTicket(tickets, id)
      ensures r.Err? ==> r.error == Ta(NotFound)
      ensures r.Ok? ==> exists i :: FirstWithId(tickets, id, i) && tickets[i] == r.value
    {
      ReadTicketForId(id)
    }

    /** `query_ticket_worker`: the recorded worker, a failed load reported as `NotFound`. */
    function QueryTicketWorker(tid: U64): (r: Result<string>)
      reads this
      ensures r.Err? <==> tid !in twPair
      ensures r.Err? ==> r.error == Ta(NotFound)
      ensures r.Ok? ==> r.value == twPair[tid]
    {
      match ReadWorkerForTicket(tid)
      case Ok(w) => Ok(w)
      case Err(_) => Err(Ta(NotFound))
    }

    /** `query_ticket_worker_pairs`: every recorded pair once, in ascending ticket order. */
    method QueryTicketWorkerPairs() returns (pairs: seq<TicketWorkerPair>)
      ensures forall i, j :: 0 <= i < j < |pairs| ==> pairs[i].tid < pairs[j].tid
      ensures forall i :: 0 <= i < |pairs| ==> pairs[i].tid in twPair && pairs[i].worker == twPair[pairs[i].tid]
      ensures forall tid :: tid in twPair ==> exists i :: 0 <= i < |pairs| && pairs[i].tid == tid
    {
      var tids := ReadAllAssignedTickets();
      pairs := [];
      var i := 0;
      while i < |tids|
        invariant 0 <= i <= |tids|
        invariant |pairs| == i
        invariant forall j :: 0 <= j < i ==> pairs[j] == TicketWorkerPair(tids[j], twPair[tids[j]])
      {
        // `read_worker_for_ticket(..).unwrap()` cannot fail: the id was listed from TWPAIR
        var worker := ReadWorkerForTicket(tids[i]);
        pairs := pairs + [TicketWorkerPair(tids[i], worker.value)];
        i := i + 1;
      }
      forall tid | tid in twPair
        ensures exists i :: 0 <= i < |pairs| && pairs[i].tid == tid
      {
        var j :| 0 <= j < |tids| && tids[j] == tid;
        assert pairs[j].tid == tid;
      }
    }
  }

  // ---- the slash rule the comments of assess_submission describe ----

  /**
   The slash, in thousandths, that `assess_submission` means to send: 500 for a result
   that differs from the ticket's, plus 300 for a submission after the close time
   (strictly after: at the close time itself it is on time).
   */
  function IntendedSlashPerc(ticket: Ticket, result: string, now: U64): (p: U128)
    ensures p in {0, 300, 500, 800}
    ensures p == 0 <==> ticket.result == result && now <= ticket.closeTimestamp
    ensures p == 800 <==> ticket.result != result && now > ticket.closeTimestamp
    ensures ticket.result != result && now <= ticket.closeTimestamp ==> p == 500
    ensures ticket.result == result && now > ticket.closeTimestamp ==> p == 300
    ensures p <= 1000
  {
    var p0: U128 := 0;
    var p1 := if ticket.result != result then p0 + 500 else p0;
    if now > ticket.closeTimestamp then p1 + 300 else p1
  }

  /** The intended slash never decreases with lateness or with a wrong result. */
  lemma IntendedSlashMonotone(ticket: Ticket, result: string, now: U64, later: U64)
    requires now <= later
    ensures IntendedSlashPerc(ticket, result, now) <= IntendedSlashPerc(ticket, result, later)
    ensures IntendedSlashPerc(ticket, ticket.result, now) <= IntendedSlashPerc(ticket, result, now)
  {
  }
}
