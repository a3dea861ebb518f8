/** The reconciler's reads are not one read: what one retry between them does to the report. */
module InterleavingTornReads {
  import opened Prelude
  import opened Sums
  import opened Money
  import opened Reserve
  import opened BankRefs
  import opened Repositories
  import opened Reconciliation
  import D = Deposits
  import opened L = Ledger
  import opened Interleaving
  import opened InterleavingSteps
  import opened InterleavingTheorems
  import opened InterleavingTicks
  import opened InterleavingReports
  import P = PaymentLeg

  lemma ReadIssuedTick(s: Sys, id: nat)
    requires Sum(IssuedAmounts(s.deposits)) <= U64_MAX
    ensures Tick(At(s, id, ReadIssued), id) == At(s, id, ReadRedeemed(Sum(IssuedAmounts(s.deposits))))
  {
    var next := ReadRedeemed(Sum(IssuedAmounts(s.deposits)));
    assert s.calls[id := ReadIssued][id := next] == s.calls[id := next];
  }

  lemma ReadRedeemedTick(s: Sys, id: nat, issued: Thb)
    requires Sum(ConfirmedAmounts(s.redemptions)) <= U64_MAX
    ensures Tick(At(s, id, ReadRedeemed(issued)), id)
         == At(s, id, ReadSnapshot(LedgerTally(issued, Sum(ConfirmedAmounts(s.redemptions)))))
  {
    var next := ReadSnapshot(LedgerTally(issued, Sum(ConfirmedAmounts(s.redemptions))));
    assert s.calls[id := ReadRedeemed(issued)][id := next] == s.calls[id := next];
  }

  lemma ReadSnapshotTick(s: Sys, id: nat, tally: LedgerTally)
    ensures Tick(At(s, id, ReadSnapshot(tally)), id) == At(s, id, ReadBacking(tally, s.ledger.reserve))
  {
    var next := ReadBacking(tally, s.ledger.reserve);
    assert s.calls[id := ReadSnapshot(tally)][id := next] == s.calls[id := next];
  }

  /** The report that `tally` makes with the reserve and the encumbrance of `s`. */
  ghost function ReportOf(s: Sys, tally: LedgerTally): CoreResult<Report>
    requires Sum(EncumberedAmounts(s.deposits)) <= U64_MAX
  {
    Reconcile(tally, ReserveState(s.ledger.reserve.attestation, Sum(EncumberedAmounts(s.deposits)), s.ledger.reserve.supply), s.clock)
  }

  lemma ReadBackingTick(s: Sys, id: nat, tally: LedgerTally)
    requires Sum(EncumberedAmounts(s.deposits)) <= U64_MAX && ReportOf(s, tally).Ok?
    ensures Tick(At(s, id, ReadBacking(tally, s.ledger.reserve)), id) == At(s, id, RecordReport(ReportOf(s, tally).value))
  {
    var next := RecordReport(ReportOf(s, tally).value);
    assert s.calls[id := ReadBacking(tally, s.ledger.reserve)][id := next] == s.calls[id := next];
  }

  lemma RecordTick(s: Sys, id: nat, report: Report)
    requires id !in s.calls
    ensures Tick(At(s, id, RecordReport(report)), id) == s.(reports := s.reports + [report])
  {
    assert s.calls[id := RecordReport(report)] - {id} == s.calls;
  }

  /** The reconciler from its second read on, with nothing else happening. */
  lemma ReconcileOn(s: Sys, id: nat, issued: Thb) returns (report: Report)
    requires Reachable(At(s, id, ReadRedeemed(issued))) && id !in s.calls
    requires Sum(ConfirmedAmounts(s.redemptions)) <= issued && Sum(EncumberedAmounts(s.deposits)) <= U64_MAX
    ensures Reachable(s.(reports := s.reports + [report]))
    ensures report.drift == s.ledger.reserve.supply - (issued - Sum(ConfirmedAmounts(s.redemptions)))
  {
    var tally := LedgerTally(issued, Sum(ConfirmedAmounts(s.redemptions)));
    report := ReportOf(s, tally).value;
    ReachableTick(At(s, id, ReadRedeemed(issued)), id);
    ReadRedeemedTick(s, id, issued);
    ReachableTick(At(s, id, ReadSnapshot(tally)), id);
    ReadSnapshotTick(s, id, tally);
    ReachableTick(At(s, id, ReadBacking(tally, s.ledger.reserve)), id);
    ReadBackingTick(s, id, tally);
    ReachableTick(At(s, id, RecordReport(report)), id);
    RecordTick(s, id, report);
  }

  lemma StartReconcile(s: Sys, id: nat)
    requires Reachable(s) && id !in s.calls && Sum(IssuedAmounts(s.deposits)) <= U64_MAX
    ensures Reachable(At(s, id, ReadRedeemed(Sum(IssuedAmounts(s.deposits)))))
  {
    ReachableNext(s, Start(id, EnterReconcile));
    ReachableTick(At(s, id, ReadIssued), id);
    ReadIssuedTick(s, id);
  }

  /** Run on its own, the reconciler reports the gap there is. */
  lemma QuietReport(s: Sys, id: nat) returns (report: Report)
    requires Reachable(s) && id !in s.calls && Sum(EncumberedAmounts(s.deposits)) <= U64_MAX
    requires Sum(ConfirmedAmounts(s.redemptions)) <= Sum(IssuedAmounts(s.deposits)) <= U64_MAX
    ensures Reachable(s.(reports := s.reports + [report])) && report.drift == Gap(s)
  {
    StartReconcile(s, id);
    report := ReconcileOn(s, id, Sum(IssuedAmounts(s.deposits)));
    SupplyGap(s);
  }

  /** A held deposit that gate and ledger admit, and totals that can be reconciled. */
  ghost predicate Admissible(s: Sys, h: Digest) {
    && h in s.deposits && s.deposits[h].state.Screened? && GatePasses(s, s.deposits[h])
    && Issue(s.ledger, s.deposits[h].beneficiaryWallet, s.deposits[h].amount, h).1.Ok?
    && Sum(ConfirmedAmounts(s.redemptions)) <= Sum(IssuedAmounts(s.deposits))
    && Sum(IssuedAmounts(s.deposits)) + s.deposits[h].amount <= U64_MAX
  }

  /** `s` with the deposit under `h` minted, and its row in state `state`. */
  function After(s: Sys, h: Digest, state: D.DepositState): Sys
    requires h in s.deposits
  {
    MintedFor(s, s.deposits[h]).(deposits := s.deposits[h := s.deposits[h].(state := state)])
  }

  lemma AttestedRowSums(rows: DepositRows, h: Digest)
    requires h in rows && rows[h].state.Screened?
    ensures var after := rows[h := rows[h].(state := D.Attested)];
            IssuedAmounts(after) == IssuedAmounts(rows) && EncumberedAmounts(after) == EncumberedAmounts(rows)
  {
  }

  /** The sums after that. */
  lemma AfterSums(s: Sys, h: Digest, state: D.DepositState)
    requires h in s.deposits && s.deposits[h].state.Screened? && s.deposits[h].Nullifier() == h
    requires state == D.Issued || state == D.Attested
    ensures var t := After(s, h, state);
            && Sum(IssuedAmounts(t.deposits)) == Sum(IssuedAmounts(s.deposits)) + (if state == D.Issued then s.deposits[h].amount else 0)
            && Sum(EncumberedAmounts(t.deposits)) == Sum(EncumberedAmounts(s.deposits))
  {
    P.IssuedRowSums(s.deposits, h);
    AttestedRowSums(s.deposits, h);
  }

  /** A retry that completes after the issued total was read is reported as drift that is not there. */
  lemma TornReadInventsDrift(s: Sys, h: Digest, a: nat, b: nat) returns (t: Sys, report: Report)
    requires Reachable(s) && a !in s.calls && b !in s.calls && a != b && Admissible(s, h)
    ensures Reachable(t) && t.reports == s.reports + [report]
    ensures t == After(s, h, D.Issued).(reports := t.reports)
    ensures report.drift == Gap(t) + s.deposits[h].amount
  {
    assert s.deposits[h].Nullifier() == h by { ReachableInv(s); }
    var issued := Sum(IssuedAmounts(s.deposits));
    StartReconcile(s, a);
    var torn := RetryAlone(At(s, a, ReadRedeemed(issued)), h, b);
    AfterSums(s, h, D.Issued);
    assert torn == At(After(s, h, D.Issued), a, ReadRedeemed(issued));
    report := ReconcileOn(After(s, h, D.Issued), a, issued);
    t := After(s, h, D.Issued).(reports := s.reports + [report]);
    SupplyGap(t);
  }

  /** `After(.., Attested)` with the stale call waiting for its mint. */
  function AfterStale(s: Sys, h: Digest, a: nat): Sys
    requires h in s.deposits
  {
    After(s, h, D.Attested).(calls := s.calls[a := AskMint(s.deposits[h].(state := D.Attested))])
  }

  /** Three ids that no call has. */
  predicate Free(s: Sys, a: nat, b: nat, c: nat) {
    a !in s.calls && b !in s.calls && c !in s.calls && a != b && b != c && a != c
  }

  /** `After(.., Issued)` with the stale call waiting to save. */
  function BeforeStale(s: Sys, h: Digest, a: nat): Sys
    requires h in s.deposits
  {
    After(s, h, D.Issued).(calls := s.calls[a := SaveAttested(s.deposits[h].(state := D.Attested))])
  }

  lemma TwoRetries(s: Sys, h: Digest, a: nat, b: nat)
    requires Reachable(s) && a !in s.calls && b !in s.calls && a != b && Admissible(s, h) && s.deposits[h].Nullifier() == h
    ensures Reachable(BeforeStale(s, h, a))
  {
    RetryToSave(s, h, a);
    var s1 := RetryAlone(At(s, a, SaveAttested(s.deposits[h].(state := D.Attested))), h, b);
    assert s1 == BeforeStale(s, h, a);
  }

  lemma StaleSaveMoves(s: Sys, h: Digest, a: nat, c: nat, other: Call)
    requires a != c && h in s.deposits && s.deposits[h].Nullifier() == h
    ensures Tick(At(BeforeStale(s, h, a), c, other), a) == At(AfterStale(s, h, a), c, other)
  {
    var attested := s.deposits[h].(state := D.Attested);
    StaleTick(BeforeStale(s, h, a), a, c, attested, other);
    assert BeforeStale(s, h, a).deposits[h := attested] == AfterStale(s, h, a).deposits;
    assert BeforeStale(s, h, a).calls[a := AskMint(attested)] == AfterStale(s, h, a).calls;
  }

  /** Two retries and the first read of the reconciler, in the order that hides the gap. */
  lemma StaleSaveAfterRead(s: Sys, h: Digest, a: nat, b: nat, c: nat, issued: Thb)
    requires Reachable(s) && Free(s, a, b, c) && Admissible(s, h) && s.deposits[h].Nullifier() == h
    requires Sum(IssuedAmounts(BeforeStale(s, h, a).deposits)) == issued
    ensures Reachable(At(AfterStale(s, h, a), c, ReadRedeemed(issued)))
  {
    TwoRetries(s, h, a, b);
    StartReconcile(BeforeStale(s, h, a), c);
    ReachableTick(At(BeforeStale(s, h, a), c, ReadRedeemed(issued)), a);
    StaleSaveMoves(s, h, a, c, ReadRedeemed(issued));
  }

  lemma EncumbranceFits(s: Sys, h: Digest)
    requires h in s.deposits && GatePasses(s, s.deposits[h])
    ensures Sum(EncumberedAmounts(s.deposits)) <= U64_MAX
  {
  }

  /** The gap that the stale save opens. */
  lemma StaleGap(s: Sys, h: Digest, a: nat, reports: seq<Report>)
    requires Admissible(s, h) && s.deposits[h].Nullifier() == h
    requires Reachable(AfterStale(s, h, a).(reports := reports))
    ensures Gap(AfterStale(s, h, a).(reports := reports))
         == AfterStale(s, h, a).ledger.reserve.supply - (Sum(IssuedAmounts(s.deposits)) - Sum(ConfirmedAmounts(s.redemptions)))
  {
    AfterSums(s, h, D.Attested);
    SupplyGap(AfterStale(s, h, a).(reports := reports));
  }

  /** A stale save that lands after the issued total was read hides the gap it opens. */
  lemma TornReadHidesAGap(s: Sys, h: Digest, a: nat, b: nat, c: nat) returns (report: Report)
    requires Reachable(s) && Free(s, a, b, c) && Admissible(s, h)
    ensures var t := AfterStale(s, h, a).(reports := s.reports + [report]);
            Reachable(t) && report.drift == Gap(t) - s.deposits[h].amount
  {
    assert s.deposits[h].Nullifier() == h by { ReachableInv(s); }
    var issued: Thb := Sum(IssuedAmounts(s.deposits)) + s.deposits[h].amount;
    IssuedBefore(s, h, a);
    StaleSaveAfterRead(s, h, a, b, c, issued);
    StaleTotals(s, h, a);
    report := ReconcileOn(AfterStale(s, h, a), c, issued);
    StaleGap(s, h, a, s.reports + [report]);
  }

  lemma IssuedBefore(s: Sys, h: Digest, a: nat)
    requires Admissible(s, h) && s.deposits[h].Nullifier() == h
    ensures Sum(IssuedAmounts(BeforeStale(s, h, a).deposits)) == Sum(IssuedAmounts(s.deposits)) + s.deposits[h].amount
  {
    AfterSums(s, h, D.Issued);
  }

  lemma StaleTotals(s: Sys, h: Digest, a: nat)
    requires Admissible(s, h) && s.deposits[h].Nullifier() == h
    ensures Sum(ConfirmedAmounts(AfterStale(s, h, a).redemptions)) <= Sum(IssuedAmounts(s.deposits))
    ensures Sum(EncumberedAmounts(AfterStale(s, h, a).deposits)) <= U64_MAX
  {
    EncumbranceFits(s, h);
    AfterSums(s, h, D.Attested);
  }

  lemma StaleTick(s: Sys, a: nat, c: nat, d: D.Deposit, other: Call)
    requires a in s.calls && s.calls[a] == SaveAttested(d) && a != c && d.Nullifier() in s.deposits
    ensures Tick(At(s, c, other), a)
         == s.(deposits := s.deposits[d.Nullifier() := d], calls := s.calls[a := AskMint(d)][c := other])
  {
    var s' := At(s, c, other);
    assert At(s', a, SaveAttested(d)) == s' by { assert s'.calls[a := SaveAttested(d)] == s'.calls; }
    SaveAttestedTick(s', a, d);
    assert s.calls[c := other][a := AskMint(d)] == s.calls[a := AskMint(d)][c := other];
  }
}
