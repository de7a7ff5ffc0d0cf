/**
 The collateral manager contract: it records who has locked collateral for each ticket
 (`STAKES`) and pays the collateral back, less the slash, when the admin board releases it.
 */
module CollateralManager {
  import opened TicketAuction

  /** The only denomination the contract accepts and pays out. */
  const BASE_DENOM: string := "uluna"

  datatype Config = Config(adminBoard: Addr, ticketManager: Addr, userBoard: Addr)

  datatype InstantiateMsg = InstantiateMsg(ticketManager: Addr, userBoard: Addr)

  /** The attached coins of the base denomination, in their order. */
  function BaseCoins(funds: seq<Coin>): (r: seq<Coin>)
    ensures forall i :: 0 <= i < |r| ==> r[i].denom == BASE_DENOM && r[i] in funds
    ensures forall i :: 0 <= i < |funds| && funds[i].denom == BASE_DENOM ==> funds[i] in r
  {
    Filter(funds, (c: Coin) => c.denom == BASE_DENOM)
  }

  /** Funds made only of base coins pass the filter whole. */
  lemma BaseCoinsOfBase(funds: seq<Coin>)
    requires forall i :: 0 <= i < |funds| ==> funds[i].denom == BASE_DENOM
    ensures BaseCoins(funds) == funds
  {
    FilterKeepsAll(funds, (c: Coin) => c.denom == BASE_DENOM);
  }

  /**
   The funds check of `execute_lock_stake` as written: it rejects only when the count is
   not one AND the first amount differs from the collateral. With no base coin the
   index `base_coin[0]` panics; a single base coin passes whatever its amount.
   */
  function LockFundsCheck(base: seq<Coin>, collateral: U64): (r: Result<()>)
    ensures r == Err(Abort) <==> base == []
    ensures r == Err(Ta(UnnecessaryFunds)) <==> |base| >= 2 && base[0].amount != collateral
    ensures r.Ok? <==> |base| == 1 || (|base| >= 2 && base[0].amount == collateral)
  {
    if |base| != 1 then
      if base == [] then Err(Abort)
      else if base[0].amount != collateral then Err(Ta(UnnecessaryFunds))
      else Ok(())
    else Ok(())
  }

  /**
   The funds check with line 83's `&&` read as `||`: exactly one base coin, and its
   amount is the collateral. The comment there asks only for "sufficient" funds.
   */
  function IntendedLockFundsCheck(base: seq<Coin>, collateral: U64): (r: Result<()>)
    ensures r.Ok? <==> |base| == 1 && base[0].amount == collateral
    ensures r.Err? ==> r.error == Ta(UnnecessaryFunds)
  {
    if |base| != 1 || base[0].amount != collateral then Err(Ta(UnnecessaryFunds)) else Ok(())
  }

  /**
   The check as written accepts a single coin of any amount, which the intended check
   refuses, and panics on no coin, which the intended check reports as an error.
   */
  lemma LockFundsCheckTooWeak(collateral: U64, amount: U128)
    requires amount != collateral
    ensures LockFundsCheck([Coin(BASE_DENOM, amount)], collateral).Ok?
    ensures IntendedLockFundsCheck([Coin(BASE_DENOM, amount)], collateral) == Err(Ta(UnnecessaryFunds))
    ensures LockFundsCheck([], collateral) == Err(Abort)
    ensures IntendedLockFundsCheck([], collateral) == Err(Ta(UnnecessaryFunds))
  {
  }

  /** Whatever the intended check accepts, the check as written accepts too. */
  lemma IntendedLockFundsCheckStronger(base: seq<Coin>, collateral: U64)
    requires IntendedLockFundsCheck(base, collateral).Ok?
    ensures LockFundsCheck(base, collateral).Ok?
  {
  }

  /** The stakers of a ticket once `worker` is released (`filter(|w| *w != worker)`). */
  function WithoutWorker(ws: seq<Addr>, worker: Addr): (r: seq<Addr>)
    ensures forall i :: 0 <= i < |r| ==> r[i] != worker && r[i] in ws
    ensures forall i :: 0 <= i < |ws| && ws[i] != worker ==> ws[i] in r
  {
    Filter(ws, (w: Addr) => w != worker)
  }

  /**
   Releasing a worker removes every occurrence of it and nothing else: the others keep
   their multiplicity and their order, and an absent worker leaves the list as it is.
   */
  lemma {:induction false} WithoutWorkerSpec(ws: seq<Addr>, worker: Addr)
    ensures worker !in WithoutWorker(ws, worker)
    ensures forall w :: w != worker ==> multiset(WithoutWorker(ws, worker))[w] == multiset(ws)[w]
    ensures forall a, b :: ws == a + b ==> WithoutWorker(ws, worker) == WithoutWorker(a, worker) + WithoutWorker(b, worker)
    ensures worker !in ws ==> WithoutWorker(ws, worker) == ws
  {
    var keep := (w: Addr) => w != worker;
    FilterMultiset(ws, keep, worker);
    forall w | w != worker
      ensures multiset(WithoutWorker(ws, worker))[w] == multiset(ws)[w]
    {
      FilterMultiset(ws, keep, w);
    }
    forall a, b | ws == a + b
      ensures WithoutWorker(ws, worker) == WithoutWorker(a, worker) + WithoutWorker(b, worker)
    {
      FilterAppend(a, b, keep);
    }
    if worker !in ws {
      FilterKeepsAll(ws, keep);
    }
  }

  /** Releasing a worker right after it locked gives the list from before the lock. */
  lemma LockThenRelease(ws: seq<Addr>, worker: Addr)
    ensures WithoutWorker(ws + [worker], worker) == WithoutWorker(ws, worker)
  {
    var keep := (w: Addr) => w != worker;
    FilterAppend(ws, [worker], keep);
    assert Filter([worker], keep) == [];
  }

  class Contract {
    var config: Config
    var stakes: map<U64, seq<Addr>>

    /** The state `instantiate` stores; `Instantiate` adds the funds check, whose error a constructor cannot return. */
    constructor FromInstantiate(info: MessageInfo, msg: InstantiateMsg)
      ensures config == Config(info.sender, msg.ticketManager, msg.userBoard)
      ensures stakes == map[0 := []]
    {
      config := Config(info.sender, msg.ticketManager, msg.userBoard);
      stakes := map[0 := []];
    }

    /**
     `instantiate`: refuses attached funds; the sender becomes the admin board and ticket
     0 is seeded with an empty list of stakers, the only list present at the start.
     */
    static method Instantiate(info: MessageInfo, msg: InstantiateMsg) returns (r: Result<Contract>)
      ensures info.funds != [] ==> r == Err(Ta(UnnecessaryFunds))
      ensures info.funds == [] ==> r.Ok? && fresh(r.value)
      ensures r.Ok? ==> r.value.config == Config(info.sender, msg.ticketManager, msg.userBoard)
      ensures r.Ok? ==> r.value.stakes == map[0 := []]
    {
      if info.funds != [] {
        return Err(Ta(UnnecessaryFunds));
      }
      var c := new Contract.FromInstantiate(info, msg);
      r := Ok(c);
    }

    /** `read_stakes`: the `STAKES` load, which fails for a ticket with no stored list. */
    function ReadStakes(tid: U64): (r: Result<seq<Addr>>)
      reads this
      ensures r.Err? <==> tid !in stakes
      ensures r.Err? ==> r.error == LoadMissing
      ensures r.Ok? ==> r.value == stakes[tid]
    {
      if tid in stakes then Ok(stakes[tid]) else Err(LoadMissing)
    }

    /**
     `execute_lock_stake`: only the user board; the ticket's information is queried
     (through the ticket manager); the base coins must pass the funds check as written;
     the ticket's list must already be stored. The sender, that is the user board, is
     appended to the stakers, not the worker who sent the funds to it.
     */
    method LockStake(info: MessageInfo, tid: U64, ticketInfo: Option<Ticket>) returns (r: Outcome)
      modifies this`stakes
      ensures r.Err? ==> stakes == old(stakes)
      ensures info.sender != config.userBoard ==> r == Err(Ta(NotAuthorized))
      ensures info.sender == config.userBoard ==>
        if ticketInfo.None? then r == Err(QueryFailed)
        else if LockFundsCheck(BaseCoins(info.funds), ticketInfo.value.collateral).Err? then
          r == Err(LockFundsCheck(BaseCoins(info.funds), ticketInfo.value.collateral).error)
        else if tid !in old(stakes) then r == Err(LoadMissing)
        else (r == Ok([]) && stakes == old(stakes)[tid := old(stakes)[tid] + [info.sender]])
      ensures r.Ok? ==> QueryStakeStatus(tid, info.sender) == Ok(true)
    {
      if info.sender != config.userBoard {
        return Err(Ta(NotAuthorized));
      }
      if ticketInfo.None? {
        return Err(QueryFailed);
      }
      var baseCoin := BaseCoins(info.funds);
      var check := LockFundsCheck(baseCoin, ticketInfo.value.collateral);
      if check.Err? {
        return Err(check.error);
      }
      var loaded := ReadStakes(tid);
      if loaded.Err? {
        return Err(loaded.error);
      }
      var workers := loaded.value;
      workers := workers + [info.sender];
      stakes := stakes[tid := workers];
      r := Ok([]);
    }

    /**
     `execute_release_stake`: only the admin board; the ticket's list must be stored. Every
     occurrence of the worker is dropped from it, and one bank send pays `msg.amt` of the
     base denomination to the worker.
     */
    method ReleaseStake(info: MessageInfo, msg: ReleaseStakeMsg) returns (r: Outcome)
      modifies this`stakes
      ensures r.Err? ==> stakes == old(stakes)
      ensures info.sender != config.adminBoard ==> r == Err(Ta(NotAuthorized))
      ensures info.sender == config.adminBoard && msg.tid !in old(stakes) ==> r == Err(LoadMissing)
      ensures info.sender == config.adminBoard && msg.tid in old(stakes) ==>
        r == Ok([BankSend(msg.worker, [Coin(BASE_DENOM, msg.amt)])])
        && stakes == old(stakes)[msg.tid := WithoutWorker(old(stakes)[msg.tid], msg.worker)]
      ensures r.Ok? ==> QueryStakeStatus(msg.tid, msg.worker) == Ok(false)
    {
      if info.sender != config.adminBoard {
        return Err(Ta(NotAuthorized));
      }
      var loaded := ReadStakes(msg.tid);
      if loaded.Err? {
        return Err(loaded.error);
      }
      var workers := WithoutWorker(loaded.value, msg.worker);
      WithoutWorkerSpec(loaded.value, msg.worker);
      stakes := stakes[msg.tid := workers];
      r := Ok([BankSend(msg.worker, [Coin(BASE_DENOM, msg.amt)])]);
    }

    /** `query_stake_status`: whether the worker is among the ticket's stakers. */
    function QueryStakeStatus(tid: U64, worker: Addr): (r: Result<bool>)
      reads this
      ensures r.Err? <==> tid !in stakes
      ensures r.Err? ==> r.error == LoadMissing
      ensures r.Ok? ==> (r.value <==> exists i :: 0 <= i < |stakes[tid]| && stakes[tid][i] == worker)
    {
      match ReadStakes(tid)
      case Ok(ws) => Ok(worker in ws)
      case Err(e) => Err(e)
    }
  }
}
