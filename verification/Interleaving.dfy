/**
 * Every interleaving of service calls. Each port call is one step; any number of calls are in flight,
 * each holding its own, possibly stale, copy of a row; a call may die between any two steps; and the
 * ledger may answer `Submitted` to an effect that did or did not land, `Failed`, or the `Confirmed` of
 * an earlier sending of the same request.
 */
module Interleaving {
  import opened Prelude
  import opened Money
  import opened Reserve
  import opened BankRefs
  import opened Repositories
  import opened RepoPort
  import opened Reconciliation
  import opened Adapters
  import D = Deposits
  import R = Redemptions
  import opened L = Ledger

  // ---- The history of effects -------------------------------------------------------------

  datatype Kind = Escrowing | Burning | Returning | Wiring

  /** What really happened, in order: mints, token movements of the off-ramp, and wires. */
  datatype Effect =
    | Minted(h: Digest, wallet: string, amount: Thb)
    | Moved(kind: Kind, key: R.RedeemKey, amount: Thb)

  type Log = seq<Effect>

  function Mints(log: Log): map<Digest, Thb> {
    if log == [] then map[]
    else
      var rest, e := Mints(log[..|log| - 1]), log[|log| - 1];
      if e.Minted? then rest[e.h := e.amount] else rest
  }

  function Moves(log: Log, kind: Kind): map<R.RedeemKey, Thb> {
    if log == [] then map[]
    else
      MoveOne(Moves(log[..|log| - 1], kind), log[|log| - 1], kind)
  }

  function MoveOne(moves: map<R.RedeemKey, Thb>, e: Effect, kind: Kind): map<R.RedeemKey, Thb> {
    if e.Moved? && e.kind == kind then moves[e.key := e.amount] else moves
  }

  lemma MintsAppend(log: Log, e: Effect)
    ensures Mints(log + [e]) == if e.Minted? then Mints(log)[e.h := e.amount] else Mints(log)
  {
    assert (log + [e])[..|log|] == log;
  }

  lemma MovesAppend(log: Log, e: Effect)
    ensures forall kind ::
              Moves(log + [e], kind) == MoveOne(Moves(log, kind), e, kind)
  {
    assert (log + [e])[..|log|] == log;
  }

  /** The tallies list exactly what is in the log. */
  lemma {:induction false} TalliesAreTheLog(log: Log)
    ensures forall e :: e in log && e.Minted? ==> e.h in Mints(log)
    ensures forall e :: e in log && e.Moved? ==> e.key in Moves(log, e.kind)
    ensures forall h :: h in Mints(log) ==> exists w :: Minted(h, w, Mints(log)[h]) in log
    ensures forall kind, k :: k in Moves(log, kind) ==> Moved(kind, k, Moves(log, kind)[k]) in log
  {
    if log != [] {
      var rest, e := log[..|log| - 1], log[|log| - 1];
      TalliesAreTheLog(rest);
      assert log == rest + [e];
      forall h | h in Mints(log)
        ensures exists w :: Minted(h, w, Mints(log)[h]) in log
      {
        if e.Minted? && e.h == h {
          assert Minted(h, e.wallet, Mints(log)[h]) in log;
        } else {
          var w :| Minted(h, w, Mints(rest)[h]) in rest;
          assert Minted(h, w, Mints(log)[h]) in log;
        }
      }
    }
  }

  /** Two effects that must never both happen: the same one twice, or a burn and a return of one escrow. */
  predicate Clash(a: Effect, b: Effect) {
    match (a, b)
    case (Minted(g, _, _), Minted(h, _, _)) => g == h
    case (Moved(i, k, _), Moved(j, l, _)) =>
      k == l && (i == j || (i == Burning && j == Returning) || (i == Returning && j == Burning))
    case _ => false
  }

  /** Nothing clashes, and whatever happens to an escrow happens after it, for its amount. */
  predicate LogInv(log: Log) {
    && (forall i, j :: 0 <= i < j < |log| ==> !Clash(log[i], log[j]))
    && (forall j :: 0 <= j < |log| && log[j].Moved? && log[j].kind != Escrowing ==>
          Moved(Escrowing, log[j].key, log[j].amount) in log[..j])
  }

  /** `e` may happen next: it is new, and what it needs has happened. */
  predicate CanAppend(log: Log, e: Effect) {
    match e
    case Minted(h, _, _) => h !in Mints(log)
    case Moved(kind, k, amount) =>
      && k !in Moves(log, kind)
      && (kind == Burning ==> k !in Moves(log, Returning))
      && (kind == Returning ==> k !in Moves(log, Burning))
      && (kind != Escrowing ==> k in Moves(log, Escrowing) && amount == Moves(log, Escrowing)[k])
  }

  lemma AppendKeepsLogInv(log: Log, e: Effect)
    requires LogInv(log) && CanAppend(log, e)
    ensures LogInv(log + [e])
  {
    TalliesAreTheLog(log);
    var after := log + [e];
    forall i, j | 0 <= i < j < |after|
      ensures !Clash(after[i], after[j])
    {
      assert after[i] in log;
    }
    forall j | 0 <= j < |after| && after[j].Moved? && after[j].kind != Escrowing
      ensures Moved(Escrowing, after[j].key, after[j].amount) in after[..j]
    {
      assert after[..j] == log[..j];
    }
  }

  // ---- Calls in flight --------------------------------------------------------------------

  /** Where a call stands: the next port call it will make, with its local copies. */
  datatype Call =
    | InsertDeposit(d: D.Deposit, now: i64)
    | AnswerReplay(h: Digest)
    | AskScreen(d: D.Deposit, now: i64)
    | SaveScreen(d: D.Deposit, now: i64)
    | ReadReserve(d: D.Deposit, now: i64)
    | ReadEncumbered(d: D.Deposit, now: i64, seen: ReserveState)
    | SaveAttested(d: D.Deposit)
    | AskMint(d: D.Deposit)
    | SaveIssued(d: D.Deposit)
    | FindHeld(h: Digest)
    | ListHeld
    | ReadNextSeq(user: string, amount: Thb, now: i64)
    | InsertRedemption(r: R.Redemption)
    | AskEscrow(r: R.Redemption)
    | SaveEscrow(r: R.Redemption)
    | FindPayout(key: R.RedeemKey)
    | SavePayout(r: R.Redemption)
    | SendWire(key: R.RedeemKey, amount: Thb)
    | FindConfirm(key: R.RedeemKey)
    | AskBurn(r: R.Redemption)
    | SaveConfirm(r: R.Redemption)
    | FindReclaim(key: R.RedeemKey)
    | AskReturn(r: R.Redemption)
    | SaveReclaim(r: R.Redemption)
    | ListDue(now: i64)
    | CountPending
    | ReadIssued
    | ReadRedeemed(issued: Thb)
    | ReadSnapshot(tally: LedgerTally)
    | ReadBacking(tally: LedgerTally, seen: ReserveState)
    | RecordReport(report: Report)

  /**
   * How the ledger answers one request: as it stands, `Submitted` whether or not the effect landed,
   * `Failed`, or with the `Confirmed` it recorded when the same request landed before.
   */
  datatype Answer = Prompt | Lost(landed: bool) | Refused | Replayed

  datatype Entry =
    | EnterDeposit(bankRef: BankRef, amount: Thb, beneficiary: string, wallet: string)
    | EnterRetry(bankRef: BankRef)
    | EnterRetryAll
    | EnterRequest(user: string, amount: Thb)
    | EnterPayout(key: R.RedeemKey)
    | EnterConfirm(key: R.RedeemKey)
    | EnterReclaim(key: R.RedeemKey)
    | EnterSweep
    | EnterQueueLen
    | EnterReconcile

  datatype Event =
    | Start(id: nat, entry: Entry)
    | Advance(id: nat, answer: Answer, screen: PortResult<D.ScreenOutcome>)
    | Crash(id: nat)
    | ServiceClock(to: i64)
    | LedgerSide(call: L.LedgerCall)

  datatype Sys = Sys(
    ledger: Treasury,
    deposits: DepositRows,
    redemptions: RedemptionRows,
    sent: seq<Wire>,
    log: Log,
    calls: map<nat, Call>,
    reports: seq<Report>,
    clock: i64,
    delta: i64
  )

  function NewSys(reserve: Thb, ttlSecs: i64, now: i64, delta: i64): Sys {
    Sys(NewTreasury(reserve, ttlSecs, now), map[], map[], [], [], map[], [], now, delta)
  }

  /** The call moves on to `next`, or is over. */
  function Resume(s: Sys, id: nat, next: Option<Call>): Sys {
    s.(calls := match next case Some(c) => s.calls[id := c] case None => s.calls - {id})
  }

  function Begin(entry: Entry, clock: i64): Option<Call> {
    match entry
    case EnterDeposit(bankRef, amount, beneficiary, wallet) =>
      (match D.ObserveDeposit(bankRef, amount, beneficiary, wallet, clock)
       case Ok(d) => Some(InsertDeposit(d, clock))
       case Err(_) => None)
    case EnterRetry(bankRef) => Some(FindHeld(bankRef.Hash()))
    case EnterRetryAll => Some(ListHeld)
    case EnterRequest(user, amount) => Some(ReadNextSeq(user, amount, clock))
    case EnterPayout(key) => Some(FindPayout(key))
    case EnterConfirm(key) => Some(FindConfirm(key))
    case EnterReclaim(key) => Some(FindReclaim(key))
    case EnterSweep => Some(ListDue(clock))
    case EnterQueueLen => Some(CountPending)
    case EnterReconcile => Some(ReadIssued)
  }

  // ---- Calls on the repositories ----------------------------------------------------------

  /** The repository call that a call is about to make, if its next port call is one. */
  function Asks(c: Call): Option<RepoCall> {
    match c
    case InsertDeposit(d, _) => Some(InsertD(d))
    case AnswerReplay(h) => Some(FindD(h))
    case SaveScreen(d, _) => Some(UpdateD(d))
    case ReadEncumbered(_, _, _) => Some(TotalEncumbered)
    case SaveAttested(d) => Some(UpdateD(d))
    case SaveIssued(d) => Some(UpdateD(d))
    case FindHeld(h) => Some(FindD(h))
    case ListHeld => Some(Held)
    case ReadNextSeq(user, _, _) => Some(NextSeq(user))
    case InsertRedemption(r) => Some(InsertR(r))
    case SaveEscrow(r) => Some(UpdateR(r))
    case FindPayout(key) => Some(FindR(key))
    case SavePayout(r) => Some(UpdateR(r))
    case FindConfirm(key) => Some(FindR(key))
    case SaveConfirm(r) => Some(UpdateR(r))
    case FindReclaim(key) => Some(FindR(key))
    case SaveReclaim(r) => Some(UpdateR(r))
    case ListDue(now) => Some(Due(now))
    case CountPending => Some(PendingCount)
    case ReadIssued => Some(TotalIssued)
    case ReadRedeemed(_) => Some(TotalRedeemed)
    case ReadBacking(_, _) => Some(TotalEncumbered)
    case _ => None
  }

  /** The call carries on if its write was done, and is over otherwise. */
  function IfDone(a: RepoAnswer, next: Call): Option<Call> {
    if a == Done(Ok(Unit)) then Some(next) else None
  }

  predicate IsHeld(a: RepoAnswer) {
    a.FoundDeposit? && a.deposit.Ok? && a.deposit.value.Some? && a.deposit.value.value.state.Screened?
  }

  predicate Found(a: RepoAnswer) {
    a.FoundRedemption? && a.redemption.Ok?
  }

  predicate Totalled(a: RepoAnswer) {
    a.Total? && a.total.Ok?
  }

  /** Where a call goes on being told `a`. What it knows of the stores it knows from here. */
  function Told(c: Call, a: RepoAnswer, clock: i64, delta: i64): Option<Call> {
    match c
    case InsertDeposit(d, now) =>
      if a == Done(Err(Conflict)) then Some(AnswerReplay(d.Nullifier())) else IfDone(a, AskScreen(d, now))
    case SaveScreen(d, now) => if d.state.Encumbered? then None else IfDone(a, ReadReserve(d, now))
    case ReadEncumbered(d, now, seen) =>
      if Totalled(a) && ReserveState(seen.attestation, a.total.value, seen.supply).CheckIssuance(d.amount, now).Ok?
         && d.Next(D.MarkAttested).Ok?
      then Some(SaveAttested(d.Next(D.MarkAttested).value)) else None
    case SaveAttested(d) => IfDone(a, AskMint(d))
    case FindHeld(_) => if IsHeld(a) then Some(ReadReserve(a.deposit.value.value, clock)) else None
    case ReadNextSeq(user, amount, now) =>
      if a.Number? && a.n.Ok? && R.RequestRedemption(user, a.n.value, amount, delta, now).Ok?
      then Some(InsertRedemption(R.RequestRedemption(user, a.n.value, amount, delta, now).value)) else None
    case InsertRedemption(r) => IfDone(a, AskEscrow(r))
    case FindPayout(_) =>
      if Found(a) && a.redemption.value.Next(R.EnqueuePayout).Ok?
      then Some(SavePayout(a.redemption.value.Next(R.EnqueuePayout).value)) else None
    case SavePayout(r) => IfDone(a, SendWire(r.Key(), r.amount))
    case FindConfirm(_) => if Found(a) then Some(AskBurn(a.redemption.value)) else None
    case FindReclaim(_) =>
      if Found(a) && a.redemption.value.Next(R.Reclaim(clock)).Ok?
      then Some(AskReturn(a.redemption.value.Next(R.Reclaim(clock)).value)) else None
    case ReadIssued => if Totalled(a) then Some(ReadRedeemed(a.total.value)) else None
    case ReadRedeemed(issued) => if Totalled(a) then Some(ReadSnapshot(LedgerTally(issued, a.total.value))) else None
    case ReadBacking(tally, seen) =>
      if Totalled(a) && Reconcile(tally, ReserveState(seen.attestation, a.total.value, seen.supply), clock).Ok?
      then Some(RecordReport(Reconcile(tally, ReserveState(seen.attestation, a.total.value, seen.supply), clock).value))
      else None
    case _ => None
  }

  function RowsOf(s: Sys): Rows {
    Rows(s.deposits, s.redemptions)
  }

  /** `s` over other stores. */
  function Over(s: Sys, rows: Rows): Sys {
    s.(deposits := rows.deposits, redemptions := rows.redemptions)
  }

  ghost function StepStore(s: Sys, id: nat, c: Call): Sys
    requires Asks(c).Some?
  {
    var (rows, a) := InMemory(RowsOf(s), Asks(c).value);
    Resume(Over(s, rows), id, Told(c, a, s.clock, s.delta))
  }

  // ---- Calls on the other ports -----------------------------------------------------------

  /**
   * What the service hears and what the treasury becomes, given the honest transition, and whether
   * the same request has landed before.
   */
  function Hear(before: Treasury, honest: (Treasury, Reply), known: bool, answer: Answer): (Treasury, Reply) {
    match answer
    case Prompt => honest
    case Lost(landed) => (if landed then honest.0 else before, Ok(ConfirmOutcome.Submitted))
    case Refused => (before, Ok(ConfirmOutcome.Failed))
    case Replayed => (before, Ok(if known then ConfirmOutcome.Confirmed else ConfirmOutcome.Submitted))
  }

  /** Whether the request took effect. */
  predicate Landed(honest: (Treasury, Reply), answer: Answer) {
    honest.1.Ok? && (answer.Prompt? || answer == Lost(true))
  }

  /** What the ledger itself holds under a key: the amount a burn or a return moves. */
  function HeldAmount(t: Treasury, key: R.RedeemKey): Thb {
    if key in t.escrows then t.escrows[key].amount else 0
  }

  predicate BurnedIn(t: Treasury, key: R.RedeemKey) {
    key in t.escrows && t.escrows[key].burned
  }

  /** The log after a request for `e`. */
  function Record(log: Log, e: Effect, honest: (Treasury, Reply), answer: Answer): Log {
    if Landed(honest, answer) then log + [e] else log
  }

  predicate IsConfirmed(r: Reply) {
    r == Ok(ConfirmOutcome.Confirmed)
  }

  /** Issuing and burning carry a key under which the ledger replays its outcome. */
  function StepPort(s: Sys, id: nat, c: Call, answer: Answer, screen: PortResult<D.ScreenOutcome>): Sys {
    match c
    case AskScreen(d, now) =>
      Resume(s, id, if screen.Ok? && d.Next(D.Screen(screen.value)).Ok?
                    then Some(SaveScreen(d.Next(D.Screen(screen.value)).value, now)) else None)
    case ReadReserve(d, now) => Resume(s, id, Some(ReadEncumbered(d, now, s.ledger.reserve)))
    case AskMint(d) =>
      var honest := Issue(s.ledger, d.beneficiaryWallet, d.amount, d.Nullifier());
      var (t, heard) := Hear(s.ledger, honest, d.Nullifier() in s.ledger.nullifiers, answer);
      var log := Record(s.log, Minted(d.Nullifier(), d.beneficiaryWallet, d.amount), honest, answer);
      var issued := d.Next(D.MarkIssued);
      Resume(s.(ledger := t, log := log), id,
             if IsConfirmed(heard) && issued.Ok? then Some(SaveIssued(issued.value)) else None)
    case AskEscrow(r) =>
      var honest := Escrow(s.ledger, r.Key(), r.amount);
      var (t, heard) := Hear(s.ledger, honest, false, answer);
      var log := Record(s.log, Moved(Escrowing, r.Key(), r.amount), honest, answer);
      Resume(s.(ledger := t, log := log), id,
             if heard.Ok? && r.state.Requested? then Some(SaveEscrow(r.Next(R.EscrowOutcome(heard.value, s.clock)).value))
             else None)
    case SendWire(key, amount) =>
      var log := if Wired(s.sent, key) then s.log else s.log + [Moved(Wiring, key, amount)];
      Resume(s.(sent := Enqueue(s.sent, Wire(key, amount)), log := log), id, None)
    case AskBurn(r) =>
      var honest := Burn(s.ledger, r.Key());
      var (t, heard) := Hear(s.ledger, honest, BurnedIn(s.ledger, r.Key()), answer);
      var log := Record(s.log, Moved(Burning, r.Key(), HeldAmount(s.ledger, r.Key())), honest, answer);
      var confirmed := r.Next(R.Confirm);
      Resume(s.(ledger := t, log := log), id,
             if IsConfirmed(heard) && confirmed.Ok? then Some(SaveConfirm(confirmed.value)) else None)
    case AskReturn(r) =>
      var honest := Return(s.ledger, r.Key());
      var (t, heard) := Hear(s.ledger, honest, false, answer);
      var log := Record(s.log, Moved(Returning, r.Key(), HeldAmount(s.ledger, r.Key())), honest, answer);
      Resume(s.(ledger := t, log := log), id, if IsConfirmed(heard) then Some(SaveReclaim(r)) else None)
    case ReadSnapshot(tally) => Resume(s, id, Some(ReadBacking(tally, s.ledger.reserve)))
    case RecordReport(report) => Resume(s.(reports := s.reports + [report]), id, None)
    case _ => Resume(s, id, None)
  }

  // ---- Events -----------------------------------------------------------------------------

  /** Ledger activity that is not a service's issue, escrow, confirm or reclaim. */
  predicate Housekeeping(call: L.LedgerCall) {
    call.SetNow? || call.SetParams? || call.SetEncumbered? || call.CallFundInventory? || call.CallFundGrx? || call.CallAttest?
  }

  predicate AsksStore(s: Sys, e: Event) {
    e.Advance? && e.id in s.calls && Asks(s.calls[e.id]).Some?
  }

  /** An event that asks nothing of the repositories. */
  function Elsewhere(s: Sys, e: Event): Sys {
    match e
    case Start(id, entry) =>
      if id in s.calls || Begin(entry, s.clock).None? then s else Resume(s, id, Begin(entry, s.clock))
    case Advance(id, answer, screen) =>
      if id in s.calls then StepPort(s, id, s.calls[id], answer, screen) else s
    case Crash(id) => Resume(s, id, None)
    case ServiceClock(to) => s.(clock := to)
    case LedgerSide(call) => if Housekeeping(call) then s.(ledger := Perform(s.ledger, call).0) else s
  }

  ghost function Happen(s: Sys, e: Event): Sys {
    if AsksStore(s, e) then StepStore(s, e.id, s.calls[e.id]) else Elsewhere(s, e)
  }

  ghost function Run(s: Sys, events: seq<Event>): Sys
    decreases |events|
  {
    if events == [] then s else Run(Happen(s, events[0]), events[1..])
  }
}
