/**
 * The treasury as a value, and each ledger call as one atomic transition on it.
 *
 * A call that fails returns the treasury it was given. That the in-place ledger lives up to this,
 * although it writes some fields before its last checked operation, is proved in `SimulatedLedgers`.
 */
module Ledger {
  import opened Prelude
  import opened Sums
  import opened Money
  import opened Reserve
  import opened Exchange
  import opened BankRefs
  import opened Redemptions

  /** Burned records stay, so that a late reclaim finds them and is refused. */
  datatype EscrowRecord = EscrowRecord(amount: Thb, escrowedAt: i64, burned: bool)

  datatype Treasury = Treasury(
    reserve: ReserveState,
    inventory: Inventory,
    params: ExchangeParams,
    nullifiers: set<Digest>,
    escrows: map<RedeemKey, EscrowRecord>,
    balances: map<string, Thb>,
    now: i64
  ) {
    function BalanceOf(user: string): Thb {
      if user in balances then balances[user] else 0
    }

    predicate LiveEscrow(key: RedeemKey) {
      key in escrows && !escrows[key].burned
    }
  }

  datatype Snapshot = Snapshot(reserve: ReserveState, inventory: Inventory, params: ExchangeParams,
                               redemptionQueueLen: Option<u32>)

  function TakeSnapshot(t: Treasury): Snapshot {
    Snapshot(t.reserve, t.inventory, t.params, Some(SaturateU32(|LiveAmounts(t.escrows)|)))
  }

  type Reply = PortResult<ConfirmOutcome>

  /** The simulator's delta is fixed at a day. */
  const SIMULATED_DELTA_SECS: i64 := 86_400

  function NewTreasury(reserve: Thb, ttlSecs: i64, now: i64): Treasury {
    Treasury(
      ReserveState(Attestation(reserve, now, ttlSecs), 0, 0),
      Inventory(0, 0),
      ExchangeParams(4_000_000, 25, false),
      {}, map[], map[], now)
  }

  function FundInventory(t: Treasury, user: string, amount: Thb): (Treasury, PortResult<Unit>) {
    if t.BalanceOf(user) < amount then (t, Err(Domain(Underflow)))
    else if t.inventory.thbc + amount > U64_MAX then (t, Err(Domain(MathOverflow)))
    else
      (t.(balances := t.balances[user := t.BalanceOf(user) - amount],
          inventory := t.inventory.(thbc := t.inventory.thbc + amount)),
       Ok(Unit))
  }

  function FundGrxInventory(t: Treasury, amount: Grx): (Treasury, PortResult<Unit>) {
    if t.inventory.grx + amount > U64_MAX then (t, Err(Domain(MathOverflow)))
    else (t.(inventory := t.inventory.(grx := t.inventory.grx + amount)), Ok(Unit))
  }

  function Issue(t: Treasury, wallet: string, amount: Thb, nullifier: Digest): (Treasury, Reply) {
    if nullifier in t.nullifiers then (t, Err(Rejected))
    else match t.reserve.CheckIssuance(amount, t.now)
      case Err(e) => (t, Err(Domain(e)))
      case Ok(newSupply) =>
        if t.BalanceOf(wallet) + amount > U64_MAX then (t, Err(Domain(MathOverflow)))
        else
          (t.(nullifiers := t.nullifiers + {nullifier},
              reserve := t.reserve.(supply := newSupply),
              balances := t.balances[wallet := t.BalanceOf(wallet) + amount]),
           Ok(ConfirmOutcome.Confirmed))
  }

  function Escrow(t: Treasury, key: RedeemKey, amount: Thb): (Treasury, Reply) {
    if key in t.escrows then (t, Err(Conflict))
    else if t.BalanceOf(key.user) < amount then (t, Err(Domain(Underflow)))
    else
      (t.(balances := t.balances[key.user := t.BalanceOf(key.user) - amount],
          escrows := t.escrows[key := EscrowRecord(amount, t.now, false)]),
       Ok(ConfirmOutcome.Confirmed))
  }

  function Burn(t: Treasury, key: RedeemKey): (Treasury, Reply) {
    if key !in t.escrows then (t, Err(NotFound))
    else if t.escrows[key].burned then (t, Err(Rejected))
    else if t.reserve.supply < t.escrows[key].amount then (t, Err(Domain(Underflow)))
    else
      (t.(reserve := t.reserve.(supply := t.reserve.supply - t.escrows[key].amount),
          escrows := t.escrows[key := t.escrows[key].(burned := true)]),
       Ok(ConfirmOutcome.Confirmed))
  }

  function Return(t: Treasury, key: RedeemKey): (Treasury, Reply) {
    if key !in t.escrows then (t, Err(NotFound))
    else if t.escrows[key].burned then (t, Err(Rejected))
    else if SaturatingSubI64(t.now, t.escrows[key].escrowedAt) < SIMULATED_DELTA_SECS then (t, Err(Rejected))
    else if t.BalanceOf(key.user) + t.escrows[key].amount > U64_MAX then (t, Err(Domain(MathOverflow)))
    else
      (t.(balances := t.balances[key.user := t.BalanceOf(key.user) + t.escrows[key].amount],
          escrows := t.escrows - {key}),
       Ok(ConfirmOutcome.Confirmed))
  }

  function Attest(t: Treasury, reserve: Thb, encumbered: Thb): (Treasury, Reply) {
    (t.(reserve := ReserveState(Attestation(reserve, t.now, t.reserve.attestation.ttlSecs),
                                encumbered, t.reserve.supply)),
     Ok(ConfirmOutcome.Confirmed))
  }

  // ---- Conservation -----------------------------------------------------------------------

  function LiveAmounts(escrows: map<RedeemKey, EscrowRecord>): map<RedeemKey, nat> {
    map k | k in escrows && !escrows[k].burned :: escrows[k].amount
  }

  /** Taking one escrow out takes it out of the live ones, if it is live. */
  lemma LiveMinus(escrows: map<RedeemKey, EscrowRecord>, k: RedeemKey)
    requires k in escrows
    ensures |LiveAmounts(escrows)| == |LiveAmounts(escrows - {k})| + (if escrows[k].burned then 0 else 1)
  {
    if escrows[k].burned {
      assert LiveAmounts(escrows - {k}) == LiveAmounts(escrows);
    } else {
      CardMinus(LiveAmounts(escrows), k);
      assert LiveAmounts(escrows - {k}) == LiveAmounts(escrows) - {k};
    }
  }

  /** Every THBC in supply is in exactly one place: a balance, a live escrow, or the inventory. */
  ghost predicate Conserved(t: Treasury) {
    Sum(t.balances) + Sum(LiveAmounts(t.escrows)) + t.inventory.thbc == t.reserve.supply
  }

  /** So no part exceeds the supply, and moving amounts between parts cannot overflow. */
  lemma PartsWithinSupply(t: Treasury, user: string, key: RedeemKey)
    requires Conserved(t)
    ensures t.BalanceOf(user) + t.inventory.thbc <= t.reserve.supply
    ensures t.LiveEscrow(key) ==> t.BalanceOf(user) + t.escrows[key].amount <= t.reserve.supply
  {
    if user in t.balances {
      ValueWithinSum(t.balances, user);
    }
    if t.LiveEscrow(key) {
      ValueWithinSum(LiveAmounts(t.escrows), key);
    }
  }

  lemma FundInventoryConserves(t: Treasury, user: string, amount: Thb)
    requires Conserved(t)
    ensures Conserved(FundInventory(t, user, amount).0)
    ensures FundInventory(t, user, amount).1 ==
            if t.BalanceOf(user) < amount then Err(Domain(Underflow)) else Ok(Unit)
  {
    PartsWithinSupply(t, user, RedeemKey(user, 0));
    if t.BalanceOf(user) >= amount {
      SumUpdate(t.balances, user, t.BalanceOf(user) - amount);
    }
  }

  lemma IssueConserves(t: Treasury, wallet: string, amount: Thb, nullifier: Digest)
    requires Conserved(t)
    ensures Conserved(Issue(t, wallet, amount, nullifier).0)
    ensures Issue(t, wallet, amount, nullifier).1.Ok?
       <==> nullifier !in t.nullifiers && t.reserve.CheckIssuance(amount, t.now).Ok?
  {
    PartsWithinSupply(t, wallet, RedeemKey(wallet, 0));
    if Issue(t, wallet, amount, nullifier).1.Ok? {
      SumUpdate(t.balances, wallet, t.BalanceOf(wallet) + amount);
    }
  }

  lemma EscrowConserves(t: Treasury, key: RedeemKey, amount: Thb)
    requires Conserved(t)
    ensures Conserved(Escrow(t, key, amount).0)
  {
    if Escrow(t, key, amount).1.Ok? {
      var after := Escrow(t, key, amount).0;
      SumUpdate(t.balances, key.user, t.BalanceOf(key.user) - amount);
      SumInsert(LiveAmounts(t.escrows), key, amount);
      assert LiveAmounts(after.escrows) == LiveAmounts(t.escrows)[key := amount];
    }
  }

  lemma BurnConserves(t: Treasury, key: RedeemKey)
    requires Conserved(t)
    ensures Conserved(Burn(t, key).0)
    ensures Burn(t, key).1.Ok? <==> t.LiveEscrow(key)
  {
    PartsWithinSupply(t, key.user, key);
    if t.LiveEscrow(key) {
      var after := Burn(t, key).0;
      SumRemove(LiveAmounts(t.escrows), key);
      assert LiveAmounts(after.escrows) == LiveAmounts(t.escrows) - {key};
    }
  }

  predicate ReturnDue(t: Treasury, key: RedeemKey) {
    t.LiveEscrow(key) && SaturatingSubI64(t.now, t.escrows[key].escrowedAt) >= SIMULATED_DELTA_SECS
  }

  lemma ReturnConserves(t: Treasury, key: RedeemKey)
    requires Conserved(t)
    ensures Conserved(Return(t, key).0)
    ensures Return(t, key).1.Ok? <==> ReturnDue(t, key)
  {
    PartsWithinSupply(t, key.user, key);
    if ReturnDue(t, key) {
      var after := Return(t, key).0;
      var amount := t.escrows[key].amount;
      SumUpdate(t.balances, key.user, t.BalanceOf(key.user) + amount);
      SumRemove(LiveAmounts(t.escrows), key);
      assert LiveAmounts(after.escrows) == LiveAmounts(t.escrows) - {key};
    }
  }

  // ---- Runs of the ledger -----------------------------------------------------------------

  datatype LedgerCall =
    | SetNow(now: i64)
    | SetParams(params: ExchangeParams)
    | SetEncumbered(encumbered: Thb)
    | CallFundInventory(user: string, amount: Thb)
    | CallFundGrx(atoms: Grx)
    | CallIssue(wallet: string, amount: Thb, nullifier: Digest)
    | CallEscrow(key: RedeemKey, amount: Thb)
    | CallBurn(key: RedeemKey)
    | CallReturn(key: RedeemKey)
    | CallAttest(reserve: Thb, encumbered: Thb)

  /** The treasury after a call, and whether the call succeeded. */
  function Perform(t: Treasury, call: LedgerCall): (Treasury, bool) {
    match call
    case SetNow(now) => (t.(now := now), true)
    case SetParams(params) => (t.(params := params), true)
    case SetEncumbered(e) => (t.(reserve := t.reserve.(encumbered := e)), true)
    case CallFundInventory(user, amount) => var (t', r) := FundInventory(t, user, amount); (t', r.Ok?)
    case CallFundGrx(atoms) => var (t', r) := FundGrxInventory(t, atoms); (t', r.Ok?)
    case CallIssue(wallet, amount, nullifier) => var (t', r) := Issue(t, wallet, amount, nullifier); (t', r.Ok?)
    case CallEscrow(key, amount) => var (t', r) := Escrow(t, key, amount); (t', r.Ok?)
    case CallBurn(key) => var (t', r) := Burn(t, key); (t', r.Ok?)
    case CallReturn(key) => var (t', r) := Return(t, key); (t', r.Ok?)
    case CallAttest(reserve, encumbered) => var (t', r) := Attest(t, reserve, encumbered); (t', r.Ok?)
  }

  function PerformAll(t: Treasury, calls: seq<LedgerCall>): Treasury
    decreases |calls|
  {
    if calls == [] then t else PerformAll(Perform(t, calls[0]).0, calls[1..])
  }

  /** A call that is refused leaves the treasury as it was. */
  lemma RefusedChangesNothing(t: Treasury, call: LedgerCall)
    ensures !Perform(t, call).1 ==> Perform(t, call).0 == t
  {
  }

  lemma PerformConserves(t: Treasury, call: LedgerCall)
    requires Conserved(t)
    ensures Conserved(Perform(t, call).0)
  {
    match call
    case CallFundInventory(user, amount) => FundInventoryConserves(t, user, amount);
    case CallIssue(wallet, amount, nullifier) => IssueConserves(t, wallet, amount, nullifier);
    case CallEscrow(key, amount) => EscrowConserves(t, key, amount);
    case CallBurn(key) => BurnConserves(t, key);
    case CallReturn(key) => ReturnConserves(t, key);
    case _ =>
  }

  lemma NewTreasuryConserved(reserve: Thb, ttlSecs: i64, now: i64)
    ensures Conserved(NewTreasury(reserve, ttlSecs, now))
  {
    var t := NewTreasury(reserve, ttlSecs, now);
    assert LiveAmounts(t.escrows) == map[];
  }

  lemma {:induction false} CallsConserve(t: Treasury, calls: seq<LedgerCall>)
    requires Conserved(t)
    ensures Conserved(PerformAll(t, calls))
    decreases |calls|
  {
    if calls != [] {
      PerformConserves(t, calls[0]);
      CallsConserve(Perform(t, calls[0]).0, calls[1..]);
    }
  }

  /** In every reachable ledger state, balances, live escrows and inventory add up to the supply. */
  lemma EveryReachableTreasuryConserves(reserve: Thb, ttlSecs: i64, start: i64, calls: seq<LedgerCall>)
    ensures Conserved(PerformAll(NewTreasury(reserve, ttlSecs, start), calls))
  {
    NewTreasuryConserved(reserve, ttlSecs, start);
    CallsConserve(NewTreasury(reserve, ttlSecs, start), calls);
  }

  /** A re-attestation, or a direct encumbrance write, that leaves less free backing than supply. */
  predicate DropsBacking(t: Treasury, call: LedgerCall) {
    match call
    case CallAttest(reserve, encumbered) => SaturatingSub(reserve, encumbered) < t.reserve.supply
    case SetEncumbered(e) => SaturatingSub(t.reserve.attestation.reserve, e) < t.reserve.supply
    case _ => false
  }

  /** From a solvent state, exactly such a call breaches F1. */
  lemma BreachExactly(t: Treasury, call: LedgerCall)
    requires t.reserve.F1Holds()
    ensures !Perform(t, call).0.reserve.F1Holds() <==> DropsBacking(t, call)
  {
    if call.CallIssue? {
      CheckIssuanceExactly(t.reserve, call.amount, t.now);
    }
  }

  /** In any run, the first insolvent state is the work of a call that dropped the backing. */
  lemma {:induction false} FirstBreach(t: Treasury, calls: seq<LedgerCall>) returns (i: nat)
    requires t.reserve.F1Holds() && !PerformAll(t, calls).reserve.F1Holds()
    ensures i < |calls|
    ensures forall j: nat :: j <= i ==> PerformAll(t, calls[..j]).reserve.F1Holds()
    ensures DropsBacking(PerformAll(t, calls[..i]), calls[i])
    decreases |calls|
  {
    if calls == [] {
      assert false;
    }
    BreachExactly(t, calls[0]);
    assert calls[..0] == [];
    if DropsBacking(t, calls[0]) {
      i := 0;
    } else {
      var next := Perform(t, calls[0]).0;
      var k := FirstBreach(next, calls[1..]);
      i := k + 1;
      forall j: nat | j <= i
        ensures PerformAll(t, calls[..j]).reserve.F1Holds()
        ensures j > 0 ==> PerformAll(t, calls[..j]) == PerformAll(next, calls[1..][..j - 1])
      {
        if j > 0 {
          assert calls[..j][0] == calls[0] && calls[..j][1..] == calls[1..][..j - 1];
        } else {
          assert calls[..j] == [];
        }
      }
    }
  }
}
