/** Every interleaved service run, with the tables in place of the maps. */
module PostgresRuns {
  import opened Prelude
  import opened Sums
  import opened Money
  import opened Repositories
  import opened RepoPort
  import opened Postgres
  import opened PostgresAnswers
  import D = Deposits
  import I = Interleaving
  import V = InterleavingInvariant
  import S = InterleavingSteps
  import C = InterleavingChanges
  import G = InterleavingGaps

  // ---- The system over the tables ---------------------------------------------------------

  const NO_ROWS: Rows := Rows(map[], map[])

  /** Services, ledger, queue and effects in `shell`, which keeps no rows and no reports: those are in the tables. */
  datatype PgSys = PgSys(shell: I.Sys, tables: Tables)

  ghost predicate Checked(p: PgSys) {
    ChecksHold(p.tables)
  }

  /** A step takes its answer from the tables, or has nothing to do with them. */
  ghost function PgHappen(p: PgSys, e: I.Event): (next: PgSys)
    requires Checked(p)
    ensures Checked(next)
  {
    if I.AsksStore(p.shell, e) then
      var c := p.shell.calls[e.id];
      var (tables, a) := InPostgres(p.tables, I.Asks(c).value);
      PgSys(I.Resume(p.shell, e.id, I.Told(c, a, p.shell.clock, p.shell.delta)), tables)
    else
      PgSys(I.Elsewhere(p.shell, e).(reports := []), AfterRecord(p, e))
  }

  /** The tables after the report, if there is one, has been recorded. */
  function AfterRecord(p: PgSys, e: I.Event): Tables {
    match G.Advanced(p.shell, e)
    case Some(RecordReport(report)) => RecordRun(p.tables, report).0
    case _ => p.tables
  }

  ghost function PgRun(p: PgSys, events: seq<I.Event>): (end: PgSys)
    requires Checked(p)
    ensures Checked(end)
    decreases |events|
  {
    if events == [] then p else PgRun(PgHappen(p, events[0]), events[1..])
  }

  function NewPgSys(reserve: Thb, ttlSecs: i64, now: i64, delta: i64): PgSys {
    PgSys(I.NewSys(reserve, ttlSecs, now, delta), Tables(map[], map[], []))
  }

  /** `s` without what the stores hold. */
  function Bare(s: I.Sys): I.Sys {
    I.Over(s, NO_ROWS).(reports := [])
  }

  /** The same calls, ledger, queue and effects, and the same rows and reports. */
  ghost predicate Mirrors(p: PgSys, s: I.Sys) {
    p.shell == Bare(s) && Holds(p.tables, I.RowsOf(s)) && RunsRepresented(p.tables.runs, s.reports) && Checked(p)
  }

  // ---- Steps that ask nothing of the stores -----------------------------------------------

  lemma MintStepIgnoresRows(s: I.Sys, id: nat, c: I.Call, answer: I.Answer, screen: PortResult<D.ScreenOutcome>)
    requires c.AskMint? || c.AskEscrow?
    ensures I.StepPort(Bare(s), id, c, answer, screen).(reports := []) == Bare(I.StepPort(s, id, c, answer, screen))
  {
  }

  lemma BurnStepIgnoresRows(s: I.Sys, id: nat, c: I.Call, answer: I.Answer, screen: PortResult<D.ScreenOutcome>)
    requires c.AskBurn? || c.AskReturn?
    ensures I.StepPort(Bare(s), id, c, answer, screen).(reports := []) == Bare(I.StepPort(s, id, c, answer, screen))
  {
  }

  lemma SendStepIgnoresRows(s: I.Sys, id: nat, c: I.Call, answer: I.Answer, screen: PortResult<D.ScreenOutcome>)
    requires c.SendWire? || c.RecordReport?
    ensures I.StepPort(Bare(s), id, c, answer, screen).(reports := []) == Bare(I.StepPort(s, id, c, answer, screen))
  {
  }

  lemma ReadStepIgnoresRows(s: I.Sys, id: nat, c: I.Call, answer: I.Answer, screen: PortResult<D.ScreenOutcome>)
    requires c.AskScreen? || c.ReadReserve? || c.ReadSnapshot?
    ensures I.StepPort(Bare(s), id, c, answer, screen).(reports := []) == Bare(I.StepPort(s, id, c, answer, screen))
  {
  }

  lemma OtherStepIgnoresRows(s: I.Sys, id: nat, c: I.Call, answer: I.Answer, screen: PortResult<D.ScreenOutcome>)
    requires I.Asks(c).Some?
    ensures I.StepPort(Bare(s), id, c, answer, screen).(reports := []) == Bare(I.StepPort(s, id, c, answer, screen))
  {
  }

  lemma PortStepIgnoresRows(s: I.Sys, id: nat, c: I.Call, answer: I.Answer, screen: PortResult<D.ScreenOutcome>)
    ensures I.StepPort(Bare(s), id, c, answer, screen).(reports := []) == Bare(I.StepPort(s, id, c, answer, screen))
  {
    if c.AskMint? || c.AskEscrow? {
      MintStepIgnoresRows(s, id, c, answer, screen);
    } else if c.AskBurn? || c.AskReturn? {
      BurnStepIgnoresRows(s, id, c, answer, screen);
    } else if c.SendWire? || c.RecordReport? {
      SendStepIgnoresRows(s, id, c, answer, screen);
    } else if c.AskScreen? || c.ReadReserve? || c.ReadSnapshot? {
      ReadStepIgnoresRows(s, id, c, answer, screen);
    } else {
      OtherStepIgnoresRows(s, id, c, answer, screen);
    }
  }

  lemma ElsewhereIgnoresRows(s: I.Sys, e: I.Event)
    ensures I.Elsewhere(Bare(s), e).(reports := []) == Bare(I.Elsewhere(s, e))
  {
    if e.Advance? && e.id in s.calls {
      PortStepIgnoresRows(s, e.id, s.calls[e.id], e.answer, e.screen);
    }
  }

  // ---- Staying in range -------------------------------------------------------------------

  predicate EntryInRange(entry: I.Entry) {
    match entry
    case EnterDeposit(bankRef, amount, beneficiary, wallet) =>
      bankRef.IsNormal() && amount <= I64_MAX && TextOk(bankRef.text) && TextOk(beneficiary) && TextOk(wallet)
    case EnterRequest(user, amount) => amount <= I64_MAX && TextOk(user)
    case EnterPayout(key) => TextOk(key.user)
    case EnterConfirm(key) => TextOk(key.user)
    case EnterReclaim(key) => TextOk(key.user)
    case _ => true
  }

  /** What comes in fits the columns, and so do the sums, the numbers and the ages computed. */
  ghost predicate EventInRange(s: I.Sys, e: I.Event) {
    && (e.Start? ==> EntryInRange(e.entry))
    && (match G.Advanced(s, e) case Some(RecordReport(report)) => ReportFits(report) case _ => true)
    && (match C.RepoCallOf(s, e)
        case Some(NextSeq(user)) => 0 < Successor(MaxSeq(s.redemptions, user)) <= I64_MAX
        case Some(TotalEncumbered) => Sum(EncumberedAmounts(s.deposits)) <= I64_MAX
        case Some(TotalIssued) => Sum(IssuedAmounts(s.deposits)) <= I64_MAX
        case Some(TotalRedeemed) => Sum(ConfirmedAmounts(s.redemptions)) <= I64_MAX
        case Some(Due(now)) => InRange(I.RowsOf(s), Due(now))
        case _ => true)
  }

  /** What a call was given fits: rows on their way to an insert, and users. */
  predicate GivenFits(c: I.Call) {
    match c
    case InsertDeposit(d, _) => DepositFits(d)
    case ReadNextSeq(user, amount, _) => amount <= I64_MAX && TextOk(user)
    case InsertRedemption(r) => RedemptionFits(r)
    case FindPayout(key) => TextOk(key.user)
    case FindConfirm(key) => TextOk(key.user)
    case FindReclaim(key) => TextOk(key.user)
    case _ => true
  }

  predicate AllGivenFit(s: I.Sys) {
    s.delta > 0 && forall i :: i in s.calls ==> GivenFits(s.calls[i])
  }

  lemma BeginFits(entry: I.Entry, clock: i64)
    requires EntryInRange(entry) && I.Begin(entry, clock).Some?
    ensures GivenFits(I.Begin(entry, clock).value)
  {
  }

  lemma ToldFits(s: I.Sys, c: I.Call)
    requires I.Asks(c).Some? && GivenFits(c) && s.delta > 0
    requires c.ReadNextSeq? ==> 0 < Successor(MaxSeq(s.redemptions, c.user)) <= I64_MAX
    ensures S.Following(s, c).Some? ==> GivenFits(S.Following(s, c).value)
  {
  }

  lemma PortFits(s: I.Sys, id: nat, c: I.Call, answer: I.Answer, screen: PortResult<D.ScreenOutcome>)
    requires I.Asks(c).None?
    ensures I.StepPort(s, id, c, answer, screen).delta == s.delta
    ensures id in I.StepPort(s, id, c, answer, screen).calls ==> GivenFits(I.StepPort(s, id, c, answer, screen).calls[id])
  {
  }

  lemma DeltaStays(s: I.Sys, e: I.Event)
    ensures I.Happen(s, e).delta == s.delta
  {
    if e.Advance? && e.id in s.calls && !I.AsksStore(s, e) {
      PortFits(s, e.id, s.calls[e.id], e.answer, e.screen);
    }
  }

  lemma StepKeepsFit(s: I.Sys, e: I.Event, id: nat)
    requires AllGivenFit(s) && EventInRange(s, e) && id in I.Happen(s, e).calls
    ensures GivenFits(I.Happen(s, e).calls[id])
  {
    if e.Advance? && e.id == id && id in s.calls {
      if I.AsksStore(s, e) {
        ToldFits(s, s.calls[id]);
      } else {
        PortFits(s, id, s.calls[id], e.answer, e.screen);
      }
    } else if e.Start? && e.id == id {
      if id !in s.calls && I.Begin(e.entry, s.clock).Some? {
        BeginFits(e.entry, s.clock);
      }
    } else {
      C.OthersStay(s, e, id);
    }
  }

  /** The partial updates are enough: every local copy differs from its row only where they write. */
  lemma CallsInRange(s: I.Sys, e: I.Event, call: RepoCall)
    requires V.Inv(s) && AllGivenFit(s) && EventInRange(s, e) && C.RepoCallOf(s, e) == Some(call)
    ensures InRange(I.RowsOf(s), call)
  {
    var c := s.calls[e.id];
    assert V.CallOk(s, c) && GivenFits(c);
  }

  // ---- The refinement ---------------------------------------------------------------------

  /** The answer that `e` gets from the tables, and the one it gets from the maps. */
  ghost predicate SameAnswer(p: PgSys, s: I.Sys, e: I.Event)
    requires Checked(p)
  {
    match C.RepoCallOf(s, e)
    case Some(call) => InPostgres(p.tables, call).1 == InMemory(I.RowsOf(s), call).1
    case None => true
  }

  lemma StoreStepReports(s: I.Sys, id: nat, c: I.Call)
    requires I.Asks(c).Some?
    ensures I.StepStore(s, id, c).reports == s.reports
    ensures Bare(I.StepStore(s, id, c)) == I.Resume(Bare(s), id, S.Following(s, c))
  {
  }

  lemma PortReports(s: I.Sys, e: I.Event)
    ensures I.Elsewhere(s, e).reports
         == match G.Advanced(s, e) case Some(RecordReport(report)) => s.reports + [report] case _ => s.reports
  {
    if e.Advance? && e.id in s.calls {
      PortStepReports(s, e.id, s.calls[e.id], e.answer, e.screen);
    }
  }

  lemma PortStepReports(s: I.Sys, id: nat, c: I.Call, answer: I.Answer, screen: PortResult<D.ScreenOutcome>)
    ensures I.StepPort(s, id, c, answer, screen).reports == if c.RecordReport? then s.reports + [c.report] else s.reports
  {
  }

  /** What the tables hold after an event that asks them nothing: the rows as they were, and a report more if there is one. */
  lemma RecordKeeps(p: PgSys, s: I.Sys, e: I.Event)
    requires Mirrors(p, s) && EventInRange(s, e)
    ensures AfterRecord(p, e).deposits == p.tables.deposits && AfterRecord(p, e).redemptions == p.tables.redemptions
    ensures RunsRepresented(AfterRecord(p, e).runs, I.Elsewhere(s, e).reports)
  {
    PortReports(s, e);
    assert G.Advanced(p.shell, e) == G.Advanced(s, e);
    match G.Advanced(s, e)
    case Some(RecordReport(report)) =>
      RecordRepresents(p.tables, s.reports, report);
      ReportStoredExactly(p.tables, report);
    case _ =>
  }

  /** A repository call changes no report, in the tables as in the maps. */
  lemma StatementsKeepRuns(t: Tables, call: RepoCall)
    requires ChecksHold(t)
    ensures InPostgres(t, call).0.runs == t.runs
  {
  }

  /** One event: the same answer, and the two systems still mirror each other. */
  lemma PgStep(p: PgSys, s: I.Sys, e: I.Event)
    requires Mirrors(p, s) && V.Inv(s) && AllGivenFit(s) && EventInRange(s, e)
    ensures SameAnswer(p, s, e) && Mirrors(PgHappen(p, e), I.Happen(s, e))
  {
    if I.AsksStore(s, e) {
      var call := C.RepoCallOf(s, e).value;
      CallsInRange(s, e, call);
      PostgresAnswersAsMemory(p.tables, I.RowsOf(s), call);
      StatementsKeepRuns(p.tables, call);
      StoreStepReports(s, e.id, s.calls[e.id]);
    } else {
      ElsewhereIgnoresRows(s, e);
      C.ElsewhereKeepsRows(s, e);
      RecordKeeps(p, s, e);
    }
  }

  ghost predicate RunInRange(s: I.Sys, events: seq<I.Event>)
    decreases |events|
  {
    events == [] || (EventInRange(s, events[0]) && RunInRange(I.Happen(s, events[0]), events[1..]))
  }

  ghost predicate SameAnswers(p: PgSys, s: I.Sys, events: seq<I.Event>)
    requires Checked(p)
    decreases |events|
  {
    events == [] ||
    (SameAnswer(p, s, events[0]) && SameAnswers(PgHappen(p, events[0]), I.Happen(s, events[0]), events[1..]))
  }

  lemma FitIsKept(s: I.Sys, e: I.Event)
    requires AllGivenFit(s) && EventInRange(s, e)
    ensures AllGivenFit(I.Happen(s, e))
  {
    DeltaStays(s, e);
    forall id | id in I.Happen(s, e).calls
      ensures GivenFits(I.Happen(s, e).calls[id])
    {
      StepKeepsFit(s, e, id);
    }
  }

  lemma {:induction false} RunMirrors(p: PgSys, s: I.Sys, events: seq<I.Event>)
    requires Mirrors(p, s) && V.Inv(s) && AllGivenFit(s) && RunInRange(s, events)
    ensures SameAnswers(p, s, events) && Mirrors(PgRun(p, events), I.Run(s, events))
    decreases |events|
  {
    if events != [] {
      PgStep(p, s, events[0]);
      FitIsKept(s, events[0]);
      S.HappenKeepsInv(s, events[0]);
      RunMirrors(PgHappen(p, events[0]), I.Happen(s, events[0]), events[1..]);
    }
  }

  /**
   * Whatever the interleaving, the crashes and the ledger's answers, as long as the figures stay in
   * range: the services over the tables get the same answers, make the same calls, move the ledger and
   * the queue alike as over the maps, and the tables hold the same rows and the same reports.
   */
  lemma PostgresRefinesMemory(reserve: Thb, ttlSecs: i64, now: i64, delta: i64, events: seq<I.Event>)
    requires delta > 0 && RunInRange(I.NewSys(reserve, ttlSecs, now, delta), events)
    ensures var s, p := I.NewSys(reserve, ttlSecs, now, delta), NewPgSys(reserve, ttlSecs, now, delta);
            SameAnswers(p, s, events) && Mirrors(PgRun(p, events), I.Run(s, events))
  {
    S.NewSysInv(reserve, ttlSecs, now, delta);
    RunMirrors(NewPgSys(reserve, ttlSecs, now, delta), I.NewSys(reserve, ttlSecs, now, delta), events);
  }
}
