/** Attestation with the service's own encumbrance, and the F2 reconciliation with its history. */
module ReserveServices {
  import opened Prelude
  import opened Money
  import opened Reserve
  import opened Repositories
  import opened Reconciliation
  import opened Issuance
  import L = Ledger

  /** The reserve goes out together with the encumbrance, or not at all. */
  ghost function AttestReserve(s: OnRamp, reserve: Thb): (OnRamp, PortResult<Unit>) {
    match CheckedTotal(EncumberedAmounts(s.rows))
    case Err(e) => (s, Err(e))
    case Ok(encumbered) => (s.(ledger := L.Attest(s.ledger, reserve, encumbered).0), Ok(Unit))
  }

  /** The report, when every total is computable. */
  ghost function RunReconcile(s: OnRamp, redemptions: RedemptionRows, now: i64): PortResult<Report> {
    var issued :- CheckedTotal(IssuedAmounts(s.rows));
    var redeemed :- CheckedTotal(ConfirmedAmounts(redemptions));
    var state :- EffectiveReserve(s);
    Port(Reconcile(LedgerTally(issued, redeemed), state, now))
  }

  class ReserveService {
    const issuance: IssuanceService

    constructor (issuance: IssuanceService)
      ensures this.issuance == issuance
    {
      this.issuance := issuance;
    }

    method Current() returns (r: PortResult<ReserveState>)
      ensures r == EffectiveReserve(issuance.State())
    {
      r := issuance.ReadEffectiveReserve();
    }

    method Headroom() returns (r: PortResult<Thb>)
      ensures EffectiveReserve(issuance.State()).Ok? ==>
                r == Ok(EffectiveReserve(issuance.State()).value.Headroom())
      ensures EffectiveReserve(issuance.State()).Err? ==> r.Err?
    {
      var current := Current();
      if current.Err? {
        return Err(current.error);
      }
      r := Ok(current.value.Headroom());
    }

    /** Open exactly when some amount would pass the issuance gate. */
    method IsIssuanceOpen() returns (r: PortResult<bool>)
      ensures r.Ok? <==> EffectiveReserve(issuance.State()).Ok?
      ensures r.Ok? ==>
                (r.value <==> exists amount: Thb ::
                  EffectiveReserve(issuance.State()).value.CheckIssuance(amount, issuance.clock.now).Ok?)
    {
      var current := Current();
      if current.Err? {
        return Err(current.error);
      }
      var now := issuance.clock.now;
      r := Ok(current.value.attestation.IsFresh(now) && current.value.Headroom() != 0);
      forall amount: Thb {
        CheckIssuanceExactly(current.value, amount, now);
      }
      assert r.value ==> current.value.CheckIssuance(1, now).Ok?;
    }

    method Attest(reserve: Thb) returns (r: PortResult<Unit>)
      requires issuance.ledger.Valid()
      modifies issuance.ledger
      ensures issuance.ledger.Valid() && (issuance.State(), r) == AttestReserve(old(issuance.State()), reserve)
    {
      // The pre-read gates nothing but its own failure.
      var current := Current();
      if current.Err? {
        return Err(current.error);
      }
      var encumbered := issuance.deposits.TotalEncumbered();
      if encumbered.Err? {
        return Err(Domain(MathOverflow));
      }
      var outcome := issuance.ledger.UpdateAttestation(reserve, encumbered.value);
      match outcome
      case Ok(Confirmed) => r := Ok(Unit);
      case Ok(Submitted) => r := Err(Transient);
      case Ok(Failed) => r := Err(Rejected);
      case Err(e) => r := Err(e);
    }
  }

  class ReconciliationService {
    const redemptions: InMemoryRedemptionRepo
    const reserve: ReserveService
    const history: InMemoryReconciliationRepo

    constructor (redemptions: InMemoryRedemptionRepo, reserve: ReserveService, history: InMemoryReconciliationRepo)
      ensures this.redemptions == redemptions && this.reserve == reserve && this.history == history
    {
      this.redemptions, this.reserve, this.history := redemptions, reserve, history;
    }

    /** A returned report has been recorded; a failed run records nothing. */
    method Run() returns (r: PortResult<Report>)
      modifies history
      ensures r == RunReconcile(reserve.issuance.State(), redemptions.rows, reserve.issuance.clock.now)
      ensures history.runs == old(history.runs) + (if r.Ok? then [r.value] else [])
    {
      var issued := reserve.issuance.deposits.TotalIssued();
      if issued.Err? {
        return Err(issued.error);
      }
      var redeemed := redemptions.TotalRedeemed();
      if redeemed.Err? {
        return Err(redeemed.error);
      }
      var state := reserve.Current();
      if state.Err? {
        return Err(state.error);
      }
      var report := Reconcile(LedgerTally(issued.value, redeemed.value), state.value, reserve.issuance.clock.now);
      if report.Err? {
        return Err(Domain(report.error));
      }
      history.Record(report.value);
      r := Ok(report.value);
    }
  }
}
