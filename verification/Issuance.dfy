/**
 * The on-ramp service: from a bank webhook to a mint, attestation before issuance.
 *
 * Each call is first given as a transition on the ledger and the deposit rows, then as the service
 * method that performs it port call by port call.
 */
module Issuance {
  import opened Prelude
  import opened Money
  import opened Reserve
  import opened BankRefs
  import opened Deposits
  import opened Repositories
  import L = Ledger
  import SimulatedLedgers
  import Adapters

  datatype HeldReason =
    | DuplicateIncomplete
    | CeilingRefused(cause: CoreError)
    | NotRetryable(state: DepositState)
    | NotConfirmed(outcome: ConfirmOutcome)

  datatype IssuanceOutcome =
    | OutcomeIssued(amount: Thb)
    | AlreadyIssued
    | OutcomeEncumbered(amount: Thb)
    | Held(reason: HeldReason)

  /** The state an on-ramp call touches. */
  datatype OnRamp = OnRamp(ledger: L.Treasury, rows: DepositRows)

  function Put(rows: DepositRows, d: Deposit): DepositRows {
    rows[d.Nullifier() := d]
  }

  /** The ledger's attestation and its supply with the encumbrance of this service's own rows. */
  ghost function EffectiveReserve(s: OnRamp): PortResult<ReserveState> {
    var encumbered :- CheckedTotal(EncumberedAmounts(s.rows));
    Ok(ReserveState(s.ledger.reserve.attestation, encumbered, s.ledger.reserve.supply))
  }

  /** A replay is answered from the stored row alone. */
  function ReplayAnswer(found: Option<Deposit>): IssuanceOutcome {
    match found
    case Some(d) =>
      if d.state.Issued? then AlreadyIssued
      else if d.IsEncumbering() then OutcomeEncumbered(d.amount)
      else Held(DuplicateIncomplete)
    case None => Held(DuplicateIncomplete)
  }

  /** Steps 4 and 5 for a screened deposit: ceiling, attest, mint, record. */
  ghost function TryIssue(s: OnRamp, d: Deposit, now: i64): (OnRamp, PortResult<IssuanceOutcome>)
  {
    match EffectiveReserve(s)
    case Err(e) => (s, Err(e))
    case Ok(state) =>
      match state.CheckIssuance(d.amount, now)
      case Err(e) => (s, Ok(Held(CeilingRefused(e))))
      case Ok(_) =>
        var rows := Put(s.rows, d.(state := Attested));
        var (ledger, reply) := L.Issue(s.ledger, d.beneficiaryWallet, d.amount, d.Nullifier());
        match reply
        case Err(e) => (OnRamp(ledger, rows), Err(e))
        case Ok(outcome) =>
          if outcome == ConfirmOutcome.Confirmed then
            (OnRamp(ledger, Put(rows, d.(state := Issued))), Ok(OutcomeIssued(d.amount)))
          else
            (OnRamp(ledger, rows), Ok(Held(NotConfirmed(outcome))))
  }

  ghost function HandleDeposit(s: OnRamp, bankRef: BankRef, amount: Thb, beneficiary: string, wallet: string,
                               screen: PortResult<ScreenOutcome>, now: i64)
    : (OnRamp, PortResult<IssuanceOutcome>)
  {
    match ObserveDeposit(bankRef, amount, beneficiary, wallet, now)
    case Err(e) => (s, Err(Domain(e)))
    case Ok(observed) =>
      if observed.Nullifier() in s.rows then
        (s, Ok(ReplayAnswer(FindRow(s.rows, observed.Nullifier()))))
      else match screen
        case Err(e) => (s.(rows := Put(s.rows, observed)), Err(e))
        case Ok(Fail) =>
          (s.(rows := Put(s.rows, observed.(state := Encumbered))), Ok(OutcomeEncumbered(amount)))
        case Ok(Pass) =>
          var screened := observed.(state := Screened);
          TryIssue(s.(rows := Put(s.rows, screened)), screened, now)
  }

  ghost function RetryHeld(s: OnRamp, bankRef: BankRef, now: i64): (OnRamp, PortResult<IssuanceOutcome>) {
    match FindRow(s.rows, bankRef.Hash())
    case None => (s, Err(NotFound))
    case Some(d) =>
      if !d.state.Screened? then (s, Ok(Held(NotRetryable(d.state))))
      else TryIssue(s, d, now)
  }

  predicate Released(r: PortResult<IssuanceOutcome>) {
    r.Ok? && r.value.OutcomeIssued?
  }

  /** One turn of the sweep: retry one deposit and count it if it was issued. */
  ghost function RetryOne(sofar: (OnRamp, nat), bankRef: BankRef, now: i64): (OnRamp, nat) {
    var (s, r) := RetryHeld(sofar.0, bankRef, now);
    (s, sofar.1 + (if Released(r) then 1 else 0))
  }

  /** The sweep over `held` in the given order, and how many deposits it issued. */
  ghost function RetryEach(s: OnRamp, held: seq<Deposit>, now: i64): (OnRamp, nat)
    decreases |held|
  {
    if held == [] then (s, 0)
    else RetryOne(RetryEach(s, held[..|held| - 1], now), held[|held| - 1].bankRef, now)
  }

  lemma RetryEachNext(s: OnRamp, done: seq<Deposit>, d: Deposit, now: i64)
    ensures RetryEach(s, done + [d], now) == RetryOne(RetryEach(s, done, now), d.bankRef, now)
  {
    assert (done + [d])[..|done|] == done;
  }

  class IssuanceService {
    const deposits: InMemoryDepositRepo
    const ledger: SimulatedLedgers.SimulatedLedger
    const clock: Adapters.FixedClock

    constructor (deposits: InMemoryDepositRepo, ledger: SimulatedLedgers.SimulatedLedger, clock: Adapters.FixedClock)
      ensures this.deposits == deposits && this.ledger == ledger && this.clock == clock
    {
      this.deposits, this.ledger, this.clock := deposits, ledger, clock;
    }

    ghost predicate Valid()
      reads this, deposits, ledger
    {
      deposits.Valid() && ledger.Valid()
    }

    function State(): OnRamp
      reads this, deposits, ledger
    {
      OnRamp(ledger.State(), deposits.rows)
    }

    method ReadEffectiveReserve() returns (r: PortResult<ReserveState>)
      ensures r == EffectiveReserve(State())
    {
      var snapshot := ledger.Snapshot();
      var total := deposits.TotalEncumbered();
      if total.Err? {
        return Err(total.error);
      }
      r := Ok(ReserveState(snapshot.reserve.attestation, total.value, snapshot.reserve.supply));
    }

    /** The shared tail of a first attempt and a retry. */
    method IssueScreened(deposit: DepositRecord, now: i64) returns (r: PortResult<IssuanceOutcome>)
      requires Valid() && deposit.state == Screened && deposit.Row().Nullifier() in deposits.rows
      modifies ledger, deposits, deposit`state
      ensures Valid() && (State(), r) == TryIssue(old(State()), old(deposit.Row()), now)
    {
      ghost var row := deposit.Row();
      var nullifier := deposit.bankRef.Hash();
      var state := ReadEffectiveReserve();
      if state.Err? {
        return Err(state.error);
      }
      var gate := state.value.CheckIssuance(deposit.amount, now);
      if gate.Err? {
        return Ok(Held(CeilingRefused(gate.error)));
      }
      var _ := deposit.MarkAttested();
      var _ := deposits.Update(deposit.Row());

      var outcome := ledger.Issue(deposit.beneficiaryWallet, deposit.amount, nullifier);
      if outcome.Err? {
        return Err(outcome.error);
      }
      var answer := outcome.value;
      if answer != ConfirmOutcome.Confirmed {
        return Ok(Held(NotConfirmed(answer)));
      }
      var _ := deposit.MarkIssued();
      var _ := deposits.Update(deposit.Row());
      r := Ok(OutcomeIssued(deposit.amount));
    }

    /** `screen` is what the compliance port answers when it is asked. */
    method Handle(bankRef: BankRef, amount: Thb, beneficiary: string, wallet: string, screen: PortResult<ScreenOutcome>)
      returns (r: PortResult<IssuanceOutcome>)
      requires Valid()
      modifies ledger, deposits
      ensures Valid()
      ensures (State(), r) == HandleDeposit(old(State()), bankRef, amount, beneficiary, wallet, screen, clock.now)
    {
      var now := clock.now;
      var observed := ObserveDeposit(bankRef, amount, beneficiary, wallet, now);
      if observed.Err? {
        return Err(Domain(observed.error));
      }
      var deposit := new DepositRecord(observed.value);
      var nullifier := deposit.Row().Nullifier();

      var inserted := deposits.Insert(deposit.Row());
      if inserted == Err(Conflict) {
        var existing := deposits.Find(nullifier);
        return Ok(ReplayAnswer(existing));
      }

      if screen.Err? {
        return Err(screen.error);
      }
      var _ := deposit.Screen(screen.value);
      ghost var stored := deposits.rows;
      var _ := deposits.Update(deposit.Row());
      assert deposits.rows == Put(old(deposits.rows), deposit.Row());
      if screen.value == Fail {
        return Ok(OutcomeEncumbered(amount));
      }
      r := IssueScreened(deposit, now);
    }

    method Retry(bankRef: BankRef) returns (r: PortResult<IssuanceOutcome>)
      requires Valid()
      modifies ledger, deposits
      ensures Valid() && (State(), r) == RetryHeld(old(State()), bankRef, clock.now)
    {
      var nullifier := bankRef.Hash();
      var found := deposits.Find(nullifier);
      if found.None? {
        return Err(NotFound);
      }
      if found.value.state != Screened {
        return Ok(Held(NotRetryable(found.value.state)));
      }
      var deposit := new DepositRecord(found.value);
      r := IssueScreened(deposit, clock.now);
    }

    method RetryNext(deposit: Deposit, issued: nat, ghost start: OnRamp, ghost done: seq<Deposit>)
      returns (total: nat)
      requires Valid() && (State(), issued) == RetryEach(start, done, clock.now)
      modifies ledger, deposits
      ensures Valid() && (State(), total) == RetryEach(start, done + [deposit], clock.now)
    {
      var r := Retry(deposit.bankRef);
      total := if Released(r) then issued + 1 else issued;
      RetryEachNext(start, done, deposit, clock.now);
    }

    method RetryList(list: seq<Deposit>) returns (issued: nat)
      requires Valid()
      modifies ledger, deposits
      ensures Valid() && (State(), issued) == RetryEach(old(State()), list, clock.now)
    {
      issued := 0;
      for i := 0 to |list|
        invariant Valid()
        invariant (State(), issued) == RetryEach(old(State()), list[..i], clock.now)
      {
        issued := RetryNext(list[i], issued, old(State()), list[..i]);
        assert list[..i] + [list[i]] == list[..i + 1];
      }
      assert list[..|list|] == list;
    }

    /** Sweeps every held deposit; failures of single deposits do not stop it. */
    method RetryAllHeld() returns (retried: nat, issued: nat, ghost held: seq<Deposit>, ghost order: seq<Digest>)
      requires Valid()
      modifies ledger, deposits
      ensures Valid()
      ensures EnumeratesBy(held, order, InState(old(deposits.rows), Screened)) && retried == |held|
      ensures (State(), issued) == RetryEach(old(State()), held, clock.now)
    {
      var list;
      list, order := deposits.Held();
      held := list;
      issued := RetryList(list);
      retried := |list|;
    }
  }
}
