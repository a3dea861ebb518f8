/** The on-ramp state machine: observe, screen, attest, issue. */
module Deposits {
  import opened Prelude
  import opened Money
  import opened BankRefs

  datatype ScreenOutcome = Pass | Fail

  datatype DepositState = Observed | Screened | Attested | Issued | Encumbered | Disputed {
    function AsStr(): string {
      match this
      case Observed => "observed"
      case Screened => "screened"
      case Attested => "attested"
      case Issued => "issued"
      case Encumbered => "encumbered"
      case Disputed => "disputed"
    }

    predicate IsTerminal() { Issued? || Encumbered? }
  }

  /** One deposit as a stored row: the value that repositories clone in and out. */
  datatype Deposit = Deposit(bankRef: BankRef, amount: Thb, beneficiary: string,
                             beneficiaryWallet: string, state: DepositState, observedAt: i64) {

    function Nullifier(): Digest { bankRef.Hash() }

    predicate IsEncumbering() { state.Encumbered? || state.Disputed? }

    function Expect(want: DepositState, to: DepositState): CoreResult<Unit> {
      if state == want then Ok(Unit) else Err(InvalidDepositTransition(state.AsStr(), to.AsStr()))
    }

    /** The row after one transition, or the refusal that leaves it as it was. */
    function Next(step: Transition): CoreResult<Deposit> {
      match step
      case Screen(outcome) =>
        var to := if outcome.Pass? then Screened else Encumbered;
        var _ :- Expect(Observed, to);
        Ok(this.(state := to))
      case Dispute =>
        if state.Observed? || state.Screened? then Ok(this.(state := Disputed))
        else Err(InvalidDepositTransition(state.AsStr(), Disputed.AsStr()))
      case Resolve(settled) =>
        if settled == 0 then Err(ZeroAmount)
        else
          var _ :- Expect(Disputed, Screened);
          Ok(this.(amount := settled, state := Screened))
      case MarkAttested =>
        var _ :- Expect(Screened, Attested);
        Ok(this.(state := Attested))
      case MarkIssued =>
        var _ :- Expect(Attested, Issued);
        Ok(this.(state := Issued))
    }
  }

  /** How each state is written, in refusals and in the table. */
  lemma StatesSpelled(s: DepositState)
    ensures s.AsStr() == "observed" <==> s.Observed?
    ensures s.AsStr() == "screened" <==> s.Screened?
    ensures s.AsStr() == "attested" <==> s.Attested?
    ensures s.AsStr() == "issued" <==> s.Issued?
    ensures s.AsStr() == "encumbered" <==> s.Encumbered?
    ensures s.AsStr() == "disputed" <==> s.Disputed?
  {
  }

  datatype Transition = Screen(outcome: ScreenOutcome) | Dispute | Resolve(settled: Thb) | MarkAttested | MarkIssued

  function ObserveDeposit(bankRef: BankRef, amount: Thb, beneficiary: string, wallet: string, now: i64)
    : (r: CoreResult<Deposit>)
    ensures r.Ok? ==> r.value.state == Observed && r.value.amount > 0 && r.value.Nullifier() == bankRef.Hash()
  {
    if amount == 0 then Err(ZeroAmount)
    else if TrimEnd(TrimStart(wallet)) == "" then Err(MissingBeneficiaryWallet)
    else Ok(Deposit(bankRef, amount, beneficiary, wallet, Observed, now))
  }

  /** Two rows that differ in `state` alone. */
  predicate SameDeposit(a: Deposit, b: Deposit) {
    a == b.(state := a.state)
  }

  // ---- Runs of the bare machine -----------------------------------------------------------

  /** The steps of `steps` that the machine accepts, in order. */
  function Accepted(d: Deposit, steps: seq<Transition>): seq<Transition>
    decreases |steps|
  {
    if steps == [] then []
    else match d.Next(steps[0])
      case Ok(next) => [steps[0]] + Accepted(next, steps[1..])
      case Err(_) => Accepted(d, steps[1..])
  }

  function After(d: Deposit, steps: seq<Transition>): Deposit
    decreases |steps|
  {
    if steps == [] then d
    else match d.Next(steps[0])
      case Ok(next) => After(next, steps[1..])
      case Err(_) => After(d, steps[1..])
  }

  /** What the machine has accepted on the way to `s` when nothing was disputed. */
  function Path(s: DepositState): seq<Transition> {
    match s
    case Screened => [Screen(Pass)]
    case Attested => [Screen(Pass), MarkAttested]
    case Issued => [Screen(Pass), MarkAttested, MarkIssued]
    case Encumbered => [Screen(Fail)]
    case _ => []
  }

  /**
   * Whatever transitions are attempted in whatever order, an undisputed deposit is where its
   * accepted steps put it: `Issued` means screened, then attested, then issued, and nothing else.
   */
  lemma {:induction false} UndisputedPath(d: Deposit, steps: seq<Transition>)
    requires Dispute !in steps && !d.state.Disputed?
    ensures !After(d, steps).state.Disputed? && SameDeposit(After(d, steps), d)
    ensures Path(d.state) + Accepted(d, steps) == Path(After(d, steps).state)
    decreases |steps|
  {
    if steps != [] {
      var rest := steps[1..];
      match d.Next(steps[0])
      case Ok(next) =>
        UndisputedPath(next, rest);
        assert Path(next.state) == Path(d.state) + [steps[0]];
        assert Path(d.state) + ([steps[0]] + Accepted(next, rest)) == Path(next.state) + Accepted(next, rest);
      case Err(_) =>
        UndisputedPath(d, rest);
    }
  }

  /** A terminal deposit never moves again. */
  lemma {:induction false} TerminalStays(d: Deposit, steps: seq<Transition>)
    requires d.state.IsTerminal()
    ensures After(d, steps) == d && Accepted(d, steps) == []
  {
    if steps != [] {
      assert d.Next(steps[0]).Err?;
      TerminalStays(d, steps[1..]);
    }
  }

  /** Once a deposit has left `Observed` it never returns, so no screen is accepted any more. */
  lemma {:induction false} NoLateScreen(d: Deposit, steps: seq<Transition>)
    requires !d.state.Observed?
    ensures !After(d, steps).state.Observed? && forall t :: t in Accepted(d, steps) ==> !t.Screen?
    decreases |steps|
  {
    if steps != [] {
      match d.Next(steps[0])
      case Ok(next) => NoLateScreen(next, steps[1..]);
      case Err(_) => NoLateScreen(d, steps[1..]);
    }
  }

  /**
   * When "issued implies screened" holds: an issued deposit passed the screen exactly if the first step
   * it accepted was not a dispute. Disputes raised later, or refused, do no harm.
   */
  lemma {:induction false} IssuedWasScreenedExactly(d: Deposit, steps: seq<Transition>)
    requires d.state.Observed? && After(d, steps).state.Issued?
    ensures Accepted(d, steps) != []
    ensures Screen(Pass) in Accepted(d, steps) <==> Accepted(d, steps)[0] != Dispute
    decreases |steps|
  {
    var rest := steps[1..];
    match d.Next(steps[0])
    case Ok(next) =>
      NoLateScreen(next, rest);
      if next.state.Encumbered? {
        TerminalStays(next, rest);
      }
    case Err(_) =>
      IssuedWasScreenedExactly(d, rest);
  }

  /** And it does fail: a dispute raised before the screen lets a deposit be issued unscreened. */
  lemma DisputeSkipsTheScreen(d: Deposit)
    requires d.state.Observed?
    ensures var steps := [Dispute, Resolve(1), MarkAttested, MarkIssued];
            After(d, steps).state.Issued? && Accepted(d, steps) == steps
  {
  }

  // ---- The working copy -------------------------------------------------------------------

  /** Whether a mutating call did what `Next` says: move to the new row, or refuse and not mutate. */
  predicate Follows(before: Deposit, step: Transition, after: Deposit, r: CoreResult<Unit>) {
    match before.Next(step)
    case Ok(d) => r == Ok(Unit) && after == d
    case Err(e) => r == Err(e) && after == before
  }

  /** A deposit being worked on by a service, advanced in place. */
  class DepositRecord {
    const bankRef: BankRef
    var amount: Thb
    const beneficiary: string
    const beneficiaryWallet: string
    var state: DepositState
    const observedAt: i64

    /** The clone handed to a repository. */
    function Row(): Deposit
      reads this
    {
      Deposit(bankRef, amount, beneficiary, beneficiaryWallet, state, observedAt)
    }

    constructor (row: Deposit)
      ensures Row() == row
    {
      bankRef, amount, beneficiary := row.bankRef, row.amount, row.beneficiary;
      beneficiaryWallet, state, observedAt := row.beneficiaryWallet, row.state, row.observedAt;
    }

    method Screen(outcome: ScreenOutcome) returns (r: CoreResult<Unit>)
      modifies this`state
      ensures Follows(old(Row()), Transition.Screen(outcome), Row(), r)
    {
      var to := match outcome { case Pass => Screened case Fail => Encumbered };
      r := Row().Expect(Observed, to);
      if r.Ok? {
        state := to;
      }
    }

    method Dispute() returns (r: CoreResult<Unit>)
      modifies this`state
      ensures Follows(old(Row()), Transition.Dispute, Row(), r)
    {
      match state
      case Observed | Screened =>
        state := Disputed;
        r := Ok(Unit);
      case _ =>
        r := Err(InvalidDepositTransition(state.AsStr(), Disputed.AsStr()));
    }

    method ResolveDispute(settled: Thb) returns (r: CoreResult<Unit>)
      modifies this`amount, this`state
      ensures Follows(old(Row()), Resolve(settled), Row(), r)
    {
      if settled == 0 {
        return Err(ZeroAmount);
      }
      r := Row().Expect(Disputed, Screened);
      if r.Ok? {
        amount := settled;
        state := Screened;
      }
    }

    method MarkAttested() returns (r: CoreResult<Unit>)
      modifies this`state
      ensures Follows(old(Row()), Transition.MarkAttested, Row(), r)
    {
      r := Row().Expect(Screened, Attested);
      if r.Ok? {
        state := Attested;
      }
    }

    method MarkIssued() returns (r: CoreResult<Unit>)
      modifies this`state
      ensures Follows(old(Row()), Transition.MarkIssued, Row(), r)
    {
      r := Row().Expect(Attested, Issued);
      if r.Ok? {
        state := Issued;
      }
    }
  }

  // ---- The machine, step by step ----------------------------------------------------------

  /** Where a step leads from a state, if it is allowed there. */
  predicate Leads(from: DepositState, step: Transition, to: DepositState) {
    match (from, step)
    case (Observed, Screen(Pass)) => to.Screened?
    case (Observed, Screen(Fail)) => to.Encumbered?
    case (Observed, Dispute) => to.Disputed?
    case (Screened, Dispute) => to.Disputed?
    case (Disputed, Resolve(settled)) => settled > 0 && to.Screened?
    case (Screened, MarkAttested) => to.Attested?
    case (Attested, MarkIssued) => to.Issued?
    case _ => false
  }

  /** The state a step is for, as a refusal names it. */
  function Aim(step: Transition): string {
    match step
    case Screen(Pass) => "screened"
    case Screen(Fail) => "encumbered"
    case Dispute => "disputed"
    case Resolve(_) => "screened"
    case MarkAttested => "attested"
    case MarkIssued => "issued"
  }

  /**
   * A step is taken exactly where it leads somewhere, and changes nothing but the state, and the amount
   * when a dispute is settled. A refusal names the state the deposit is in and the one aimed at; settling at zero is refused first.
   */
  lemma StepsExactly(d: Deposit, step: Transition)
    ensures d.Next(step).Ok? <==> exists to :: Leads(d.state, step, to)
    ensures d.Next(step).Ok? ==>
              && Leads(d.state, step, d.Next(step).value.state)
              && d.Next(step).value == d.(state := d.Next(step).value.state, amount := if step.Resolve? then step.settled else d.amount)
    ensures d.Next(step).Err? ==>
              if step == Resolve(0) then d.Next(step) == Err(ZeroAmount)
              else d.Next(step) == Err(InvalidDepositTransition(d.state.AsStr(), Aim(step)))
    ensures d.IsEncumbering() <==> d.state == Encumbered || d.state == Disputed
  {
    if d.Next(step).Ok? {
      assert Leads(d.state, step, d.Next(step).value.state);
    }
  }

  /** A webhook's figures become the row, column by column; a zero amount or a blank wallet is refused. */
  lemma ObservedExactly(bankRef: BankRef, amount: Thb, beneficiary: string, wallet: string, now: i64)
    ensures var r := ObserveDeposit(bankRef, amount, beneficiary, wallet, now);
            if amount == 0 then r == Err(ZeroAmount)
            else if TrimEnd(TrimStart(wallet)) == "" then r == Err(MissingBeneficiaryWallet)
            else
              && r.Ok? && r.value.bankRef == bankRef && r.value.amount == amount && r.value.beneficiary == beneficiary
              && r.value.beneficiaryWallet == wallet && r.value.state == Observed && r.value.observedAt == now
  {
  }
}
