/** Reserve accounting: attestation freshness (F5) and the issuance ceiling (F1). */
module Reserve {
  import opened Prelude
  import opened Money

  /** A claimed reserve with its time stamp and its time to live. */
  datatype Attestation = Attestation(reserve: Thb, ts: i64, ttlSecs: i64) {

    function AgeSecs(now: i64): i64 {
      SaturatingSubI64(now, ts)
    }

    function CheckFresh(now: i64): CoreResult<Unit> {
      var age := AgeSecs(now);
      if age < 0 then Err(AttestationInFuture(ts, now))
      else if age > ttlSecs then Err(StaleAttestation(age, ttlSecs))
      else Ok(Unit)
    }

    predicate IsFresh(now: i64) {
      CheckFresh(now).Ok?
    }
  }

  datatype ReserveState = ReserveState(attestation: Attestation, encumbered: Thb, supply: Thb) {

    function FreeBacking(): Thb {
      SaturatingSub(attestation.reserve, encumbered)
    }

    function Headroom(): Thb {
      SaturatingSub(FreeBacking(), supply)
    }

    predicate F1Holds() {
      supply <= FreeBacking()
    }

    /** F5 and then F1; the resulting supply on success. */
    function CheckIssuance(amount: Thb, now: i64): CoreResult<Thb> {
      if amount == 0 then Err(ZeroAmount)
      else
        var _ :- attestation.CheckFresh(now);
        var resulting :- CheckedAdd(supply, amount);
        if resulting > FreeBacking() then
          Err(ReserveInsufficient(amount, resulting, FreeBacking(), attestation.reserve, encumbered))
        else
          Ok(resulting)
    }
  }

  /**
   * Freshness in real arithmetic: the stamp is not in the future and its age is within the
   * time to live, where a time to live of `i64::MAX` never expires because ages saturate there.
   */
  lemma FreshExactly(a: Attestation, now: i64)
    ensures a.IsFresh(now) <==> a.ts <= now && (now - a.ts <= a.ttlSecs || a.ttlSecs == I64_MAX)
  {
  }

  /** The gate opens exactly for fresh attestations and positive amounts within the headroom. */
  lemma CheckIssuanceExactly(s: ReserveState, amount: Thb, now: i64)
    ensures s.CheckIssuance(amount, now).Ok?
       <==> s.attestation.IsFresh(now) && 0 < amount <= s.Headroom()
    ensures s.CheckIssuance(amount, now).Ok?
        ==> s.CheckIssuance(amount, now).value == s.supply + amount <= s.FreeBacking()
  {
  }

  /** Less encumbrance never closes the gate: what the stricter state admits, the looser one admits alike. */
  lemma CheckIssuanceMonotone(strict: ReserveState, loose: ReserveState, amount: Thb, now: i64)
    requires strict.attestation == loose.attestation && strict.supply == loose.supply
    requires loose.encumbered <= strict.encumbered
    requires strict.CheckIssuance(amount, now).Ok?
    ensures loose.CheckIssuance(amount, now) == strict.CheckIssuance(amount, now)
  {
  }

  // ---- In unbounded integers --------------------------------------------------------------

  function Max(a: int, b: int): int { if a < b then b else a }

  /** What is free of the reserve, what is left under the ceiling, and whether F1 holds. */
  lemma BackingExactly(s: ReserveState)
    ensures s.FreeBacking() as int == Max(0, s.attestation.reserve - s.encumbered)
    ensures s.Headroom() as int == Max(0, s.attestation.reserve - s.encumbered - s.supply)
    ensures s.F1Holds() <==> s.supply == 0 || s.supply + s.encumbered <= s.attestation.reserve
  {
  }

  /** The gate in figures, and each refusal with its reason, in the order in which they are given. */
  lemma GateExactly(s: ReserveState, amount: Thb, now: i64)
    ensures var r, a := s.CheckIssuance(amount, now), s.attestation;
            if amount == 0 then r == Err(ZeroAmount)
            else if now < a.ts then r == Err(AttestationInFuture(a.ts, now))
            else if !(now - a.ts <= a.ttlSecs || a.ttlSecs == I64_MAX) then
              r.Err? && r.error.StaleAttestation? && r.error.ttlSecs == a.ttlSecs
              && r.error.ageSecs as int == (if now - a.ts <= I64_MAX then now - a.ts else I64_MAX)
            else if s.supply + amount > U64_MAX then r == Err(MathOverflow)
            else if s.supply + amount + s.encumbered > a.reserve then
              r == Err(ReserveInsufficient(amount, s.supply + amount, s.FreeBacking(), a.reserve, s.encumbered))
            else r == Ok(s.supply + amount)
  {
  }
}
