/** The reconciler among the other calls: what its four reads, taken at four times, make of the drift. */
module InterleavingReports {
  import opened Prelude
  import opened Sums
  import opened Money
  import opened Reserve
  import opened BankRefs
  import opened Repositories
  import opened Reconciliation
  import D = Deposits
  import R = Redemptions
  import opened Interleaving
  import opened InterleavingInvariant
  import opened InterleavingSteps
  import opened InterleavingChanges
  import opened InterleavingTheorems
  import opened InterleavingGaps

  // ---- Where a report comes from ----------------------------------------------------------

  /** The events at which the totals, the snapshot and the encumbrance of a report were read, and what was read. */
  datatype Trace = Trace(i: nat, j: nat, k: nat, l: nat, tally: LedgerTally, seen: ReserveState)

  /** Event `m` advances a call that stood at `c`. */
  ghost predicate StepOf(start: Sys, events: seq<Event>, m: nat, c: Call) {
    m < |events| && Advanced(At(start, events, m), events[m]) == Some(c)
  }

  ghost predicate IssuedRead(start: Sys, events: seq<Event>, i: nat, issued: Thb) {
    StepOf(start, events, i, ReadIssued) && Sum(IssuedAmounts(At(start, events, i).deposits)) == issued
  }

  ghost predicate RedeemedRead(start: Sys, events: seq<Event>, j: nat, tally: LedgerTally) {
    && StepOf(start, events, j, ReadRedeemed(tally.issued))
    && Sum(ConfirmedAmounts(At(start, events, j).redemptions)) == tally.redeemed
  }

  ghost predicate SnapshotRead(start: Sys, events: seq<Event>, k: nat, tally: LedgerTally, seen: ReserveState) {
    StepOf(start, events, k, ReadSnapshot(tally)) && At(start, events, k).ledger.reserve == seen
  }

  /** The report that `tally` and `seen` make with the encumbrance and the clock at event `l`. */
  ghost predicate BackingRead(start: Sys, events: seq<Event>, l: nat, tally: LedgerTally, seen: ReserveState, report: Report) {
    && StepOf(start, events, l, ReadBacking(tally, seen))
    && Sum(EncumberedAmounts(At(start, events, l).deposits)) <= U64_MAX
    && Reconcile(tally, ReserveState(seen.attestation, Sum(EncumberedAmounts(At(start, events, l).deposits)), seen.supply),
                 At(start, events, l).clock) == Ok(report)
  }

  ghost predicate TalliesTraced(start: Sys, events: seq<Event>, t: Trace) {
    t.i < t.j && IssuedRead(start, events, t.i, t.tally.issued) && RedeemedRead(start, events, t.j, t.tally)
  }

  ghost predicate ReportTraced(start: Sys, events: seq<Event>, report: Report, t: Trace) {
    && t.j < t.k < t.l && TalliesTraced(start, events, t) && SnapshotRead(start, events, t.k, t.tally, t.seen)
    && BackingRead(start, events, t.l, t.tally, t.seen, report)
  }

  /** What a call of the reconciler holds was read at the events of `t`, in order. */
  ghost predicate Traced(start: Sys, events: seq<Event>, c: Call, t: Trace) {
    match c
    case ReadRedeemed(issued) => t.tally.issued == issued && IssuedRead(start, events, t.i, issued)
    case ReadSnapshot(tally) => t.tally == tally && TalliesTraced(start, events, t)
    case ReadBacking(tally, seen) =>
      && t.tally == tally && t.seen == seen
      && t.j < t.k && TalliesTraced(start, events, t) && SnapshotRead(start, events, t.k, tally, seen)
    case RecordReport(report) => ReportTraced(start, events, report, t)
    case _ => true
  }

  predicate Reconciling(c: Call) {
    c.ReadRedeemed? || c.ReadSnapshot? || c.ReadBacking? || c.RecordReport?
  }

  ghost predicate AllTraced(start: Sys, events: seq<Event>, end: Sys) {
    && (forall id :: id in end.calls ==> exists t :: Traced(start, events, end.calls[id], t))
    && (forall r :: r in end.reports ==> exists t :: ReportTraced(start, events, r, t))
  }

  // ---- The trace is kept ------------------------------------------------------------------

  lemma AtPrefix(start: Sys, events: seq<Event>, n: nat, m: nat)
    requires m <= n <= |events|
    ensures At(start, events[..n], m) == At(start, events, m)
  {
    assert events[..n][..m] == events[..m];
  }

  lemma TracedLater(start: Sys, events: seq<Event>, n: nat, c: Call, t: Trace)
    requires n <= |events| && Traced(start, events[..n], c, t)
    ensures Traced(start, events, c, t)
  {
    forall m: nat | m <= n
      ensures At(start, events[..n], m) == At(start, events, m)
    {
      AtPrefix(start, events, n, m);
    }
  }

  /** How a reconciler call got to `next` from where it stood in `s`. */
  ghost predicate ReconcilerStep(s: Sys, c: Call, next: Call) {
    match next
    case ReadRedeemed(issued) => c.ReadIssued? && Sum(IssuedAmounts(s.deposits)) == issued
    case ReadSnapshot(tally) => c == ReadRedeemed(tally.issued) && Sum(ConfirmedAmounts(s.redemptions)) == tally.redeemed
    case ReadBacking(tally, seen) => c == ReadSnapshot(tally) && s.ledger.reserve == seen
    case RecordReport(report) =>
      && c.ReadBacking? && Sum(EncumberedAmounts(s.deposits)) <= U64_MAX
      && Reconcile(c.tally, ReserveState(c.seen.attestation, Sum(EncumberedAmounts(s.deposits)), c.seen.supply), s.clock)
         == Ok(report)
    case _ => true
  }

  lemma StoreMoved(s: Sys, c: Call)
    requires Asks(c).Some? && Following(s, c).Some? && Reconciling(Following(s, c).value)
    ensures ReconcilerStep(s, c, Following(s, c).value)
  {
  }

  lemma PortMoved(s: Sys, id: nat, c: Call, answer: Answer, screen: PortResult<D.ScreenOutcome>)
    requires Asks(c).None? && id in StepPort(s, id, c, answer, screen).calls
    requires Reconciling(StepPort(s, id, c, answer, screen).calls[id])
    ensures ReconcilerStep(s, c, StepPort(s, id, c, answer, screen).calls[id])
  {
    TokensDoNotReconcile(s, id, c, answer, screen);
  }

  lemma TokensDoNotReconcile(s: Sys, id: nat, c: Call, answer: Answer, screen: PortResult<D.ScreenOutcome>)
    ensures (c.AskMint? || c.AskEscrow? || c.AskBurn? || c.AskReturn?) && id in StepPort(s, id, c, answer, screen).calls
            ==> !Reconciling(StepPort(s, id, c, answer, screen).calls[id])
  {
  }

  /** The step that put a reconciler call where it is now. */
  lemma ReconcilerMoved(s: Sys, e: Event, id: nat)
    requires id in Happen(s, e).calls && Reconciling(Happen(s, e).calls[id])
    ensures (id in s.calls && s.calls[id] == Happen(s, e).calls[id])
         || (e.Advance? && e.id == id && id in s.calls && ReconcilerStep(s, s.calls[id], Happen(s, e).calls[id]))
  {
    if e.Advance? && e.id == id && id in s.calls {
      if AsksStore(s, e) {
        StoreMoved(s, s.calls[id]);
      } else {
        PortMoved(s, id, s.calls[id], e.answer, e.screen);
      }
    } else if !e.Start? || e.id != id {
      OthersStay(s, e, id);
    }
  }

  lemma PortReports(s: Sys, id: nat, c: Call, answer: Answer, screen: PortResult<D.ScreenOutcome>)
    ensures StepPort(s, id, c, answer, screen).reports
         == if c.RecordReport? then s.reports + [c.report] else s.reports
  {
  }

  lemma ReportsAfter(s: Sys, e: Event)
    ensures Happen(s, e).reports
         == match Advanced(s, e) case Some(RecordReport(report)) => s.reports + [report] case _ => s.reports
  {
    if e.Advance? && e.id in s.calls && !AsksStore(s, e) {
      PortReports(s, e.id, s.calls[e.id], e.answer, e.screen);
    }
  }

  /** One more read, at event `n`, extends the trace. */
  lemma TraceGoesOn(start: Sys, events: seq<Event>, n: nat, c: Call, next: Call, t: Trace) returns (t': Trace)
    requires StepOf(start, events, n, c) && Traced(start, events, c, t) && TracedBy(c, t, n)
    requires ReconcilerStep(At(start, events, n), c, next)
    ensures Traced(start, events, next, t')
  {
    match next
    case ReadRedeemed(issued) => t' := t.(i := n, tally := LedgerTally(issued, 0));
    case ReadSnapshot(tally) => t' := t.(j := n, tally := tally);
    case ReadBacking(tally, seen) => t' := t.(k := n, seen := seen);
    case RecordReport(_) => t' := t.(l := n);
    case _ => t' := t;
  }

  /** The latest read of `c` came before event `n`. */
  predicate TracedBy(c: Call, t: Trace, n: nat) {
    match c
    case ReadRedeemed(_) => t.i < n
    case ReadSnapshot(_) => t.j < n
    case ReadBacking(_, _) => t.k < n
    case _ => true
  }

  /** What was read was read within the run. */
  lemma TraceBefore(start: Sys, events: seq<Event>, c: Call, t: Trace)
    requires Traced(start, events, c, t)
    ensures TracedBy(c, t, |events|)
  {
  }

  lemma CallsTraced(start: Sys, events: seq<Event>, id: nat)
    requires events != [] && id in Run(start, events).calls && Reconciling(Run(start, events).calls[id])
    requires AllTraced(start, events[..|events| - 1], Run(start, events[..|events| - 1]))
    ensures exists t :: Traced(start, events, Run(start, events).calls[id], t)
  {
    var n := |events| - 1;
    var s, e := Run(start, events[..n]), events[n];
    LastEvent(start, events);
    ReconcilerMoved(s, e, id);
    var t :| Traced(start, events[..n], s.calls[id], t);
    if s.calls[id] == Run(start, events).calls[id] {
      TracedLater(start, events, n, s.calls[id], t);
    } else {
      TraceBefore(start, events[..n], s.calls[id], t);
      TracedLater(start, events, n, s.calls[id], t);
      var t' := TraceGoesOn(start, events, n, s.calls[id], Run(start, events).calls[id], t);
    }
  }

  lemma ReportsTraced(start: Sys, events: seq<Event>, r: Report)
    requires events != [] && r in Run(start, events).reports
    requires AllTraced(start, events[..|events| - 1], Run(start, events[..|events| - 1]))
    ensures exists t :: ReportTraced(start, events, r, t)
  {
    var n := |events| - 1;
    var s, e := Run(start, events[..n]), events[n];
    LastEvent(start, events);
    ReportsAfter(s, e);
    if r in s.reports {
      var t :| ReportTraced(start, events[..n], r, t);
      assert Traced(start, events[..n], RecordReport(r), t);
      TracedLater(start, events, n, RecordReport(r), t);
    } else {
      assert s.calls[e.id] == RecordReport(r);
      var t :| Traced(start, events[..n], s.calls[e.id], t);
      TracedLater(start, events, n, RecordReport(r), t);
    }
  }

  lemma {:induction false} RunTraced(start: Sys, events: seq<Event>)
    requires start.calls == map[] && start.reports == []
    ensures AllTraced(start, events, Run(start, events))
    decreases |events|
  {
    if events != [] {
      RunTraced(start, events[..|events| - 1]);
      var end := Run(start, events);
      forall id | id in end.calls
        ensures exists t :: Traced(start, events, end.calls[id], t)
      {
        if Reconciling(end.calls[id]) {
          CallsTraced(start, events, id);
        } else {
          assert Traced(start, events, end.calls[id], Trace(0, 0, 0, 0, LedgerTally(0, 0), start.ledger.reserve));
        }
      }
      forall r | r in end.reports
        ensures exists t :: ReportTraced(start, events, r, t)
      {
        ReportsTraced(start, events, r);
      }
    }
  }

  // ---- What the drift amounts to ----------------------------------------------------------

  /** The deposits that say `Issued` in `b` and not in `a`. */
  function IssuedSince(a: DepositRows, b: DepositRows): map<Digest, Thb> {
    map h | h in b && b[h].state.Issued? && !Says(a, h) :: b[h].amount
  }

  function ConfirmedSince(a: RedemptionRows, b: RedemptionRows): map<R.RedeemKey, Thb> {
    map k | k in b && b[k].state.Confirmed? && !SaysConfirmed(a, k) :: b[k].amount
  }

  /** How much more `Issued` there is in `b` than in `a`: what became so, less what a stale save took back. */
  ghost function IssuedGain(a: DepositRows, b: DepositRows): int {
    Sum(IssuedSince(a, b)) - Sum(IssuedSince(b, a))
  }

  ghost function ConfirmedGain(a: RedemptionRows, b: RedemptionRows): int {
    Sum(ConfirmedSince(a, b)) - Sum(ConfirmedSince(b, a))
  }

  lemma IssuedGainIs(a: DepositRows, b: DepositRows)
    requires forall h :: h in a ==> h in b && b[h].amount == a[h].amount
    ensures Sum(IssuedAmounts(b)) - Sum(IssuedAmounts(a)) == IssuedGain(a, b)
  {
    var both := map h | h in a && a[h].state.Issued? && Says(b, h) :: a[h].amount;
    SumSplit(both, IssuedSince(a, b));
    SumSplit(both, IssuedSince(b, a));
    assert both + IssuedSince(a, b) == IssuedAmounts(b);
    assert both + IssuedSince(b, a) == IssuedAmounts(a);
  }

  lemma ConfirmedGainIs(a: RedemptionRows, b: RedemptionRows)
    requires forall k :: k in a ==> k in b && b[k].amount == a[k].amount
    ensures Sum(ConfirmedAmounts(b)) - Sum(ConfirmedAmounts(a)) == ConfirmedGain(a, b)
  {
    var both := map k | k in a && a[k].state.Confirmed? && SaysConfirmed(b, k) :: a[k].amount;
    SumSplit(both, ConfirmedSince(a, b));
    SumSplit(both, ConfirmedSince(b, a));
    assert both + ConfirmedSince(a, b) == ConfirmedAmounts(b);
    assert both + ConfirmedSince(b, a) == ConfirmedAmounts(a);
  }

  lemma {:induction false} RunSplits(s: Sys, first: seq<Event>, rest: seq<Event>)
    ensures Run(s, first + rest) == Run(Run(s, first), rest)
    decreases |first|
  {
    if first == [] {
      assert first + rest == rest;
    } else {
      RunSplits(Happen(s, first[0]), first[1..], rest);
      assert (first + rest)[1..] == first[1..] + rest;
    }
  }

  /** Between two points of a run rows are only added, and keep their amounts. */
  lemma RowsKeepAmounts(start: Sys, events: seq<Event>, i: nat, k: nat)
    requires Inv(start) && i <= k <= |events|
    ensures RowsGrow(At(start, events, i), At(start, events, k))
  {
    RunSplits(start, events[..i], events[i..k]);
    assert events[..i] + events[i..k] == events[..k];
    RunKeepsInv(start, events[..i]);
    RunGrowsRows(At(start, events, i), events[i..k]);
  }

  /** The gap between ledger and records in one state. */
  ghost function Gap(s: Sys): int {
    Sum(UnrecordedMints(s)) - Sum(UnrecordedBurns(s))
  }

  ghost predicate DriftDecomposed(start: Sys, events: seq<Event>, drift: int, t: Trace)
    requires t.i <= |events| && t.j <= |events| && t.k <= |events|
  {
    drift == Gap(At(start, events, t.k))
             + IssuedGain(At(start, events, t.i).deposits, At(start, events, t.k).deposits)
             - ConfirmedGain(At(start, events, t.j).redemptions, At(start, events, t.k).redemptions)
  }

  /** A total that fits and a reconciliation of it: the drift is the plain difference. */
  lemma DriftIs(tally: LedgerTally, reserve: ReserveState, now: i64, report: Report)
    requires Reconcile(tally, reserve, now) == Ok(report)
    ensures report.drift == reserve.supply - (tally.issued - tally.redeemed)
  {
  }

  lemma GainsFromTrace(start: Sys, events: seq<Event>, i: nat, j: nat, k: nat)
    requires Inv(start) && i <= j <= k <= |events|
    ensures var a, b, c := At(start, events, i), At(start, events, j), At(start, events, k);
            && Sum(IssuedAmounts(c.deposits)) - Sum(IssuedAmounts(a.deposits)) == IssuedGain(a.deposits, c.deposits)
            && Sum(ConfirmedAmounts(c.redemptions)) - Sum(ConfirmedAmounts(b.redemptions))
               == ConfirmedGain(b.redemptions, c.redemptions)
  {
    RowsKeepAmounts(start, events, i, k);
    RowsKeepAmounts(start, events, j, k);
    IssuedGainIs(At(start, events, i).deposits, At(start, events, k).deposits);
    ConfirmedGainIs(At(start, events, j).redemptions, At(start, events, k).redemptions);
  }

  /** The figures of a report, from the rows, the ledger and the clock where each was read. */
  ghost predicate FiguresRead(start: Sys, events: seq<Event>, r: Report, t: Trace)
    requires t.i <= |events| && t.j <= |events| && t.k <= |events| && t.l <= |events|
  {
    var seen := At(start, events, t.k).ledger.reserve;
    FiguresAre(r, Sum(IssuedAmounts(At(start, events, t.i).deposits)), Sum(ConfirmedAmounts(At(start, events, t.j).redemptions)),
               seen.attestation.reserve, Sum(EncumberedAmounts(At(start, events, t.l).deposits)), seen.supply,
               At(start, events, t.l).clock)
  }

  lemma TracedFigures(start: Sys, events: seq<Event>, r: Report, t: Trace)
    requires ReportTraced(start, events, r, t)
    ensures t.i < t.j < t.k < t.l < |events| && FiguresRead(start, events, r, t)
  {
    FiguresExactly(t.tally, ReserveState(t.seen.attestation, Sum(EncumberedAmounts(At(start, events, t.l).deposits)), t.seen.supply),
                   At(start, events, t.l).clock);
  }

  lemma TracedDrift(start: Sys, events: seq<Event>, r: Report, t: Trace)
    requires ReportTraced(start, events, r, t)
    ensures t.i < t.j < t.k < t.l < |events|
    ensures r.drift == At(start, events, t.k).ledger.reserve.supply
                       - (Sum(IssuedAmounts(At(start, events, t.i).deposits)) - Sum(ConfirmedAmounts(At(start, events, t.j).redemptions)))
  {
    DriftIs(t.tally, ReserveState(t.seen.attestation, Sum(EncumberedAmounts(At(start, events, t.l).deposits)), t.seen.supply),
            At(start, events, t.l).clock, r);
  }

  lemma GapAt(reserve: Thb, ttlSecs: i64, now: i64, delta: i64, events: seq<Event>, k: nat)
    requires k <= |events|
    ensures var c := At(NewSys(reserve, ttlSecs, now, delta), events, k);
            c.ledger.reserve.supply - (Sum(IssuedAmounts(c.deposits)) - Sum(ConfirmedAmounts(c.redemptions))) == Gap(c)
  {
    var c := At(NewSys(reserve, ttlSecs, now, delta), events, k);
    assert Reachable(c);
    SupplyGap(c);
  }

  /**
   * Every report recorded in any interleaved run comes from four reads in order, and its drift is the
   * gap at the snapshot, plus what became `Issued` since the issued total was read, minus what became
   * `Confirmed` since the redeemed total was. It is the gap exactly when those two cancel out. Its other
   * figures are those of the reads too.
   */
  lemma ReportedDrift(reserve: Thb, ttlSecs: i64, now: i64, delta: i64, events: seq<Event>, r: Report)
    returns (t: Trace)
    requires r in Run(NewSys(reserve, ttlSecs, now, delta), events).reports
    ensures var start := NewSys(reserve, ttlSecs, now, delta);
            && ReportTraced(start, events, r, t)
            && DriftDecomposed(start, events, r.drift, t)
            && FiguresRead(start, events, r, t)
            && (r.drift == Gap(At(start, events, t.k))
                <==> IssuedGain(At(start, events, t.i).deposits, At(start, events, t.k).deposits)
                     == ConfirmedGain(At(start, events, t.j).redemptions, At(start, events, t.k).redemptions))
  {
    var start := NewSys(reserve, ttlSecs, now, delta);
    RunTraced(start, events);
    t :| ReportTraced(start, events, r, t);
    TracedDrift(start, events, r, t);
    TracedFigures(start, events, r, t);
    NewSysInv(reserve, ttlSecs, now, delta);
    GainsFromTrace(start, events, t.i, t.j, t.k);
    GapAt(reserve, ttlSecs, now, delta, events, t.k);
  }
}
