/** What a reconciliation makes of the two totals and the reserve: its drift, its shortfall, its verdict. */
module Reconciliation {
  import opened Prelude
  import opened Money
  import opened Reserve

  /** The two cumulative totals that the deposit and redemption rows add up to. */
  datatype LedgerTally = LedgerTally(issued: Thb, redeemed: Thb) {
    function ExpectedSupply(): CoreResult<Thb> {
      CheckedSub(issued, redeemed)
    }
  }

  datatype Severity = Healthy | Drift | Insolvent {
    function AsStr(): string {
      match this
      case Healthy => "ok"
      case Drift => "drift"
      case Insolvent => "insolvent"
    }
  }

  /** How each verdict is written. */
  lemma VerdictsSpelled(s: Severity)
    ensures s.AsStr() == "ok" <==> s.Healthy?
    ensures s.AsStr() == "drift" <==> s.Drift?
    ensures s.AsStr() == "insolvent" <==> s.Insolvent?
  {
  }

  datatype Report = Report(severity: Severity, drift: int, expectedSupply: Thb, ledgerSupply: Thb,
                           freeBacking: Thb, shortfall: Thb, checkedAt: i64)

  function Reconcile(tally: LedgerTally, reserve: ReserveState, now: i64): CoreResult<Report> {
    var expected :- tally.ExpectedSupply();
    var actual := reserve.supply;
    var free := reserve.FreeBacking();
    var shortfall := SaturatingSub(actual, free);
    var drift := actual - expected;
    var severity := if shortfall != 0 then Insolvent else if drift != 0 then Drift else Healthy;
    Ok(Report(severity, drift, expected, actual, free, shortfall, now))
  }

  function AssertF2(tally: LedgerTally, reserve: ReserveState): CoreResult<Unit> {
    var expected :- tally.ExpectedSupply();
    if expected == reserve.supply then Ok(Unit)
    else Err(ReconciliationDrift(tally.issued, tally.redeemed, expected, reserve.supply, reserve.supply - expected))
  }

  /** What each verdict means: insolvency hides drift, and the hard check passes exactly at zero drift. */
  lemma VerdictsExactly(tally: LedgerTally, reserve: ReserveState, now: i64)
    ensures Reconcile(tally, reserve, now).Ok? <==> tally.redeemed <= tally.issued
    ensures Reconcile(tally, reserve, now).Ok? ==>
              var r := Reconcile(tally, reserve, now).value;
              && (r.severity == Insolvent <==> !reserve.F1Holds())
              && (r.severity == Healthy <==> reserve.F1Holds() && AssertF2(tally, reserve).Ok?)
              && (r.drift == 0 <==> AssertF2(tally, reserve).Ok?)
              && r.drift == reserve.supply - (tally.issued - tally.redeemed)
  {
  }

  /** Every figure of a report, from the totals, the reserve, the encumbrance and the supply. */
  predicate FiguresAre(r: Report, issued: int, redeemed: int, reserve: int, encumbered: int, supply: int, now: int) {
    var free := Max(0, reserve - encumbered);
    && r.expectedSupply == issued - redeemed && r.ledgerSupply == supply && r.drift == supply - (issued - redeemed)
    && r.freeBacking == free && r.shortfall == Max(0, supply - free) && r.checkedAt == now
    && (r.severity == Insolvent <==> supply > free)
    && (r.severity == Drift <==> supply <= free && supply != issued - redeemed)
    && (r.severity == Healthy <==> supply <= free && supply == issued - redeemed)
  }

  lemma FiguresExactly(tally: LedgerTally, reserve: ReserveState, now: i64)
    ensures if tally.redeemed > tally.issued then Reconcile(tally, reserve, now) == Err(Underflow)
            else
              && Reconcile(tally, reserve, now).Ok?
              && FiguresAre(Reconcile(tally, reserve, now).value, tally.issued, tally.redeemed,
                            reserve.attestation.reserve, reserve.encumbered, reserve.supply, now)
    ensures tally.redeemed <= tally.issued && tally.issued - tally.redeemed != reserve.supply ==>
              AssertF2(tally, reserve) == Err(ReconciliationDrift(tally.issued, tally.redeemed, tally.issued - tally.redeemed,
                                                                  reserve.supply, reserve.supply - (tally.issued - tally.redeemed)))
  {
  }

  /** An insolvent treasury: 100 out against 60. */
  lemma ShortfallExample()
    ensures Reconcile(LedgerTally(100, 0), ReserveState(Attestation(60, 0, 10), 0, 100), 5)
         == Ok(Report(Insolvent, 0, 100, 100, 60, 40, 5))
  {
  }
}
