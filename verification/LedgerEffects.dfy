/** What each ledger call does, in full: every figure it moves, every one it leaves, and every refusal. */
module LedgerEffects {
  import opened Prelude
  import opened Money
  import opened Reserve
  import opened Exchange
  import opened BankRefs
  import opened Redemptions
  import opened Ledger

  /** Every user's balance moves by `amount` for `user`, and for nobody else. */
  ghost predicate Moved(t: Treasury, t': Treasury, user: string, amount: int) {
    forall u :: t'.BalanceOf(u) == t.BalanceOf(u) + (if u == user then amount else 0)
  }

  /** The reserve figures, in turn. */
  predicate ReserveIs(t: Treasury, reserve: int, ts: int, ttlSecs: int, encumbered: int, supply: int) {
    && t.reserve.attestation.reserve == reserve && t.reserve.attestation.ts == ts && t.reserve.attestation.ttlSecs == ttlSecs
    && t.reserve.encumbered == encumbered && t.reserve.supply == supply
  }

  /** `t'` has the reserve of `t`, but for a supply greater by `minted`. */
  predicate SupplyMoved(t: Treasury, t': Treasury, minted: int) {
    ReserveIs(t', t.reserve.attestation.reserve, t.reserve.attestation.ts, t.reserve.attestation.ttlSecs, t.reserve.encumbered,
              t.reserve.supply + minted)
  }

  predicate SameMarket(t: Treasury, t': Treasury) {
    t'.inventory == t.inventory && t'.params == t.params && t'.now == t.now
  }

  lemma NewTreasuryIs(reserve: Thb, ttlSecs: i64, now: i64)
    ensures var t := NewTreasury(reserve, ttlSecs, now);
            && ReserveIs(t, reserve, now, ttlSecs, 0, 0) && t.inventory.thbc == 0 && t.inventory.grx == 0
            && t.params.grxPerThbcRate == 4_000_000 && t.params.feeBps == 25 && !t.params.paused
            && t.nullifiers == {} && t.escrows == map[] && t.now == now && forall u :: t.BalanceOf(u) == 0
  {
  }

  /** A mint: refused for a known nullifier, or by the gate; otherwise to the wallet, under the nullifier, into the supply. */
  lemma IssueExactly(t: Treasury, wallet: string, amount: Thb, nullifier: Digest)
    requires Conserved(t)
    ensures var (t', r) := Issue(t, wallet, amount, nullifier);
            if nullifier in t.nullifiers then t' == t && r == Err(Rejected)
            else match t.reserve.CheckIssuance(amount, t.now)
              case Err(e) => t' == t && r == Err(Domain(e))
              case Ok(_) =>
                && r == Ok(ConfirmOutcome.Confirmed)
                && SupplyMoved(t, t', amount) && Moved(t, t', wallet, amount) && SameMarket(t, t')
                && t'.nullifiers == t.nullifiers + {nullifier} && t'.escrows == t.escrows
  {
    IssueConserves(t, wallet, amount, nullifier);
    GateExactly(t.reserve, amount, t.now);
  }

  /** An escrow: refused for a known key or a small balance; otherwise from the user, stamped with the ledger's clock. */
  lemma EscrowExactly(t: Treasury, key: RedeemKey, amount: Thb)
    ensures var (t', r) := Escrow(t, key, amount);
            if key in t.escrows then t' == t && r == Err(Conflict)
            else if t.BalanceOf(key.user) < amount then t' == t && r == Err(Domain(Underflow))
            else
              && r == Ok(ConfirmOutcome.Confirmed)
              && SupplyMoved(t, t', 0) && Moved(t, t', key.user, -(amount as int)) && SameMarket(t, t') && t'.nullifiers == t.nullifiers
              && t'.escrows.Keys == t.escrows.Keys + {key} && (forall k :: k in t.escrows ==> t'.escrows[k] == t.escrows[k])
              && t'.escrows[key].amount == amount && t'.escrows[key].escrowedAt == t.now && !t'.escrows[key].burned
  {
  }

  /** A burn: out of the supply, from no balance; the record stays, marked. */
  lemma BurnExactly(t: Treasury, key: RedeemKey)
    requires Conserved(t)
    ensures var (t', r) := Burn(t, key);
            if key !in t.escrows then t' == t && r == Err(NotFound)
            else if t.escrows[key].burned then t' == t && r == Err(Rejected)
            else
              && r == Ok(ConfirmOutcome.Confirmed)
              && SupplyMoved(t, t', -(t.escrows[key].amount as int)) && Moved(t, t', key.user, 0) && SameMarket(t, t')
              && t'.nullifiers == t.nullifiers && t'.escrows.Keys == t.escrows.Keys
              && (forall k :: k in t.escrows && k != key ==> t'.escrows[k] == t.escrows[k])
              && t'.escrows[key] == EscrowRecord(t.escrows[key].amount, t.escrows[key].escrowedAt, true)
  {
    BurnConserves(t, key);
  }

  /** A return: a day after the escrow at the earliest, back to its user; the record goes, the supply stays. */
  lemma ReturnExactly(t: Treasury, key: RedeemKey)
    requires Conserved(t)
    ensures var (t', r) := Return(t, key);
            if key !in t.escrows then t' == t && r == Err(NotFound)
            else if t.escrows[key].burned || t.now - t.escrows[key].escrowedAt < 86_400 then t' == t && r == Err(Rejected)
            else
              && r == Ok(ConfirmOutcome.Confirmed)
              && SupplyMoved(t, t', 0) && Moved(t, t', key.user, t.escrows[key].amount) && SameMarket(t, t')
              && t'.nullifiers == t.nullifiers && t'.escrows.Keys == t.escrows.Keys - {key}
              && (forall k :: k in t'.escrows ==> t'.escrows[k] == t.escrows[k])
  {
    ReturnConserves(t, key);
  }

  /** An attestation: all of the reserve but the time to live and the supply, stamped with the ledger's clock. */
  lemma AttestExactly(t: Treasury, reserve: Thb, encumbered: Thb)
    ensures var (t', r) := Attest(t, reserve, encumbered);
            && r == Ok(ConfirmOutcome.Confirmed)
            && ReserveIs(t', reserve, t.now, t.reserve.attestation.ttlSecs, encumbered, t.reserve.supply)
            && SameMarket(t, t') && t'.nullifiers == t.nullifiers && t'.escrows == t.escrows && t'.balances == t.balances
  {
  }

  /** Funding the inventory: THBC from one user's balance, or GRX from outside; the other side stays. */
  lemma FundingExactly(t: Treasury, user: string, amount: u64)
    requires Conserved(t)
    ensures var (t', r) := FundInventory(t, user, amount);
            if t.BalanceOf(user) < amount then t' == t && r == Err(Domain(Underflow))
            else
              && r == Ok(Unit) && Moved(t, t', user, -(amount as int)) && SupplyMoved(t, t', 0)
              && t'.inventory.thbc == t.inventory.thbc + amount && t'.inventory.grx == t.inventory.grx
              && t'.params == t.params && t'.now == t.now && t'.nullifiers == t.nullifiers && t'.escrows == t.escrows
    ensures var (t', r) := FundGrxInventory(t, amount);
            if t.inventory.grx + amount > U64_MAX then t' == t && r == Err(Domain(MathOverflow))
            else
              && r == Ok(Unit) && t'.inventory.grx == t.inventory.grx + amount && t'.inventory.thbc == t.inventory.thbc
              && t'.balances == t.balances && t'.reserve == t.reserve && t'.params == t.params && t'.now == t.now
              && t'.nullifiers == t.nullifiers && t'.escrows == t.escrows
  {
    FundInventoryConserves(t, user, amount);
  }

  /** What a reader of the treasury sees: its figures as they are, and how many escrows are not burned. */
  lemma SnapshotExactly(t: Treasury)
    ensures var s := TakeSnapshot(t);
            && s.reserve == t.reserve && s.inventory == t.inventory && s.params == t.params
            && var live := set k | k in t.escrows && !t.escrows[k].burned;
               s.redemptionQueueLen.Some?
               && s.redemptionQueueLen.value as int == if |live| < 4_294_967_295 then |live| else 4_294_967_295
  {
    var live := set k | k in t.escrows && !t.escrows[k].burned;
    assert LiveAmounts(t.escrows).Keys == live;
    Widths(0, 0, |live|);
  }

  /** A ledger call is the operation that its name says. */
  lemma CallsAreOperations(t: Treasury, call: LedgerCall)
    ensures match call
            case SetNow(now) => Perform(t, call) == (t.(now := now), true)
            case SetParams(params) => Perform(t, call) == (t.(params := params), true)
            case SetEncumbered(e) =>
              Perform(t, call).1 && Perform(t, call).0 == t.(reserve := t.reserve.(encumbered := e))
            case CallFundInventory(user, amount) => Perform(t, call).0 == FundInventory(t, user, amount).0
            case CallFundGrx(atoms) => Perform(t, call).0 == FundGrxInventory(t, atoms).0
            case CallIssue(wallet, amount, nullifier) => Perform(t, call).0 == Issue(t, wallet, amount, nullifier).0
            case CallEscrow(key, amount) => Perform(t, call).0 == Escrow(t, key, amount).0
            case CallBurn(key) => Perform(t, call).0 == Burn(t, key).0
            case CallReturn(key) => Perform(t, call).0 == Return(t, key).0
            case CallAttest(reserve, encumbered) => Perform(t, call).0 == Attest(t, reserve, encumbered).0
  {
  }
}
