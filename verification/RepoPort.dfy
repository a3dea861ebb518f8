/** The repository port: what the services ask, and what the in-memory stores answer. */
module RepoPort {
  import opened Prelude
  import opened BankRefs
  import opened Money
  import opened Repositories
  import D = Deposits
  import R = Redemptions

  /** What the services ask of the two repositories. */
  datatype RepoCall =
    | InsertD(d: D.Deposit)
    | FindD(h: Digest)
    | UpdateD(d: D.Deposit)
    | TotalEncumbered
    | TotalIssued
    | Held
    | InsertR(r: R.Redemption)
    | FindR(key: R.RedeemKey)
    | UpdateR(r: R.Redemption)
    | NextSeq(user: string)
    | Due(now: i64)
    | TotalRedeemed
    | PendingCount

  /** Lists come back as sets. */
  datatype RepoAnswer =
    | Done(result: PortResult<Unit>)
    | FoundDeposit(deposit: PortResult<Option<D.Deposit>>)
    | FoundRedemption(redemption: PortResult<R.Redemption>)
    | Total(total: PortResult<Thb>)
    | Number(n: PortResult<u64>)
    | SomeDeposits(deposits: PortResult<set<D.Deposit>>)
    | SomeRedemptions(redemptions: PortResult<set<R.Redemption>>)

  datatype Rows = Rows(deposits: DepositRows, redemptions: RedemptionRows)

  /** A service turns a missing redemption into `NotFound`. */
  function OrNotFound(found: PortResult<Option<R.Redemption>>): PortResult<R.Redemption> {
    match found
    case Ok(Some(r)) => Ok(r)
    case Ok(None) => Err(NotFound)
    case Err(e) => Err(e)
  }

  ghost function InMemory(rows: Rows, call: RepoCall): (Rows, RepoAnswer) {
    match call
    case InsertD(d) =>
      var (after, r) := InsertRow(rows.deposits, d.Nullifier(), d);
      (rows.(deposits := after), Done(r))
    case FindD(h) => (rows, FoundDeposit(Ok(FindRow(rows.deposits, h))))
    case UpdateD(d) =>
      var (after, r) := UpdateRow(rows.deposits, d.Nullifier(), d);
      (rows.(deposits := after), Done(r))
    case TotalEncumbered => (rows, Total(CheckedTotal(EncumberedAmounts(rows.deposits))))
    case TotalIssued => (rows, Total(CheckedTotal(IssuedAmounts(rows.deposits))))
    case Held => (rows, SomeDeposits(Ok(InState(rows.deposits, D.Screened).Values)))
    case InsertR(r) =>
      var (after, done) := InsertRow(rows.redemptions, r.Key(), r);
      (rows.(redemptions := after), Done(done))
    case FindR(key) => (rows, FoundRedemption(OrNotFound(Ok(FindRow(rows.redemptions, key)))))
    case UpdateR(r) =>
      var (after, done) := UpdateRow(rows.redemptions, r.Key(), r);
      (rows.(redemptions := after), Done(done))
    case NextSeq(user) => (rows, Number(Ok(Successor(MaxSeq(rows.redemptions, user)))))
    case Due(now) => (rows, SomeRedemptions(Ok(ReclaimableRows(rows.redemptions, now).Values)))
    case TotalRedeemed => (rows, Total(CheckedTotal(ConfirmedAmounts(rows.redemptions))))
    case PendingCount => (rows, Number(Ok(SaturateU32(|PendingRows(rows.redemptions)|))))
  }
}
