/** The off-ramp state machine: request, escrow, pay out, and then confirm or reclaim. */
module Redemptions {
  import opened Prelude
  import opened Money

  datatype RedemptionState = Requested | Escrowed | PayoutQueued | Confirmed | Reclaimed | Failed {
    function AsStr(): string {
      match this
      case Requested => "requested"
      case Escrowed => "escrowed"
      case PayoutQueued => "payout_queued"
      case Confirmed => "confirmed"
      case Reclaimed => "reclaimed"
      case Failed => "failed"
    }

    predicate IsPending() { Escrowed? || PayoutQueued? }
  }

  /** How each state is written, in refusals and in the table. */
  lemma StatesSpelled(s: RedemptionState)
    ensures s.AsStr() == "requested" <==> s.Requested?
    ensures s.AsStr() == "escrowed" <==> s.Escrowed?
    ensures s.AsStr() == "payout_queued" <==> s.PayoutQueued?
    ensures s.AsStr() == "confirmed" <==> s.Confirmed?
    ensures s.AsStr() == "reclaimed" <==> s.Reclaimed?
    ensures s.AsStr() == "failed" <==> s.Failed?
  {
  }

  /** `[redeem, user, seq]`. */
  datatype RedeemKey = RedeemKey(user: string, seqNo: u64)

  datatype Transition =
    | EscrowOutcome(outcome: ConfirmOutcome, at: i64)
    | EnqueuePayout
    | Confirm
    | Reclaim(at: i64)

  /** One redemption as a stored row. */
  datatype Redemption = Redemption(user: string, seqNo: u64, amount: Thb, state: RedemptionState,
                                   requestedAt: i64, escrowedAt: Option<i64>, deltaSecs: i64) {

    function Key(): RedeemKey { RedeemKey(user, seqNo) }

    function EscrowAge(now: i64): Option<i64> {
      match escrowedAt
      case Some(t) => Some(SaturatingSubI64(now, t))
      case None => None
    }

    predicate IsReclaimable(now: i64) {
      state.IsPending() && EscrowAge(now).Some? && EscrowAge(now).value >= deltaSecs
    }

    function SupplyReduction(): Thb {
      if state.Confirmed? then amount else 0
    }

    function Reject(to: RedemptionState): CoreError {
      InvalidRedemptionTransition(state.AsStr(), to.AsStr())
    }

    /** The row after one transition, or the refusal that leaves it as it was. */
    function Next(step: Transition): CoreResult<Redemption> {
      match step
      case EscrowOutcome(outcome, at) =>
        if !state.Requested? then Err(Reject(Escrowed))
        else match outcome {
          case Confirmed => Ok(this.(state := Escrowed, escrowedAt := Some(at)))
          case Failed => Ok(this.(state := RedemptionState.Failed))
          case Submitted => Ok(this)
        }
      case EnqueuePayout =>
        if state.Escrowed? then Ok(this.(state := PayoutQueued)) else Err(BurnNotConfirmed(state.AsStr()))
      case Confirm =>
        if state.IsPending() then Ok(this.(state := RedemptionState.Confirmed))
        else Err(Reject(RedemptionState.Confirmed))
      case Reclaim(at) =>
        if !state.IsPending() then Err(Reject(Reclaimed))
        else
          var elapsed := if EscrowAge(at).Some? then EscrowAge(at).value else 0;
          if elapsed < deltaSecs then Err(TimelockNotExpired(elapsed, deltaSecs))
          else Ok(this.(state := Reclaimed))
    }

    /** The table constraint: past the escrow, the confirmation time is recorded. */
    predicate EscrowStamped() {
      state.Requested? || state.Failed? || escrowedAt.Some?
    }
  }

  function RequestRedemption(user: string, seqNo: u64, amount: Thb, deltaSecs: i64, now: i64)
    : (r: CoreResult<Redemption>)
    ensures r.Ok? ==> r.value.Key() == RedeemKey(user, seqNo) && r.value.state.Requested? && r.value.amount > 0
  {
    if amount == 0 then Err(ZeroAmount)
    else Ok(Redemption(user, seqNo, amount, Requested, now, None, deltaSecs))
  }

  /** Two rows that differ in `state` and `escrowedAt` alone. */
  predicate SameRedemption(a: Redemption, b: Redemption) {
    a == b.(state := a.state, escrowedAt := a.escrowedAt)
  }

  /**
   * A reclaim is admitted exactly when the sweep lists the redemption, except that a pending row
   * with no escrow stamp and a non-positive delta is admitted without ever being listed.
   */
  lemma ReclaimExactly(r: Redemption, now: i64)
    ensures r.Next(Reclaim(now)).Ok?
       <==> r.IsReclaimable(now) || (r.state.IsPending() && r.escrowedAt.None? && r.deltaSecs <= 0)
    ensures r.EscrowStamped() ==> (r.Next(Reclaim(now)).Ok? <==> r.IsReclaimable(now))
  {
  }

  // ---- Runs of the bare machine -----------------------------------------------------------

  function After(r: Redemption, steps: seq<Transition>): Redemption
    decreases |steps|
  {
    if steps == [] then r
    else match r.Next(steps[0])
      case Ok(next) => After(next, steps[1..])
      case Err(_) => After(r, steps[1..])
  }

  /** How far along a redemption is. Every accepted step but a `Submitted` reply moves strictly forward. */
  function Rank(s: RedemptionState): nat {
    match s
    case Requested => 0
    case Escrowed => 1
    case PayoutQueued => 2
    case _ => 3
  }

  /**
   * Over any run from a fresh request: the rank never falls, a terminal state is final, and being
   * anywhere past the escrow means a `Confirmed` escrow reply was received at the stamped time.
   */
  lemma {:induction false} RunNeedsConfirmedEscrow(r: Redemption, steps: seq<Transition>)
    requires r.EscrowStamped()
    ensures var end := After(r, steps);
            && end.EscrowStamped() && SameRedemption(end, r)
            && Rank(r.state) <= Rank(end.state)
            && (Rank(r.state) == 3 ==> end == r)
            && (!r.state.Requested? ==> end.escrowedAt == r.escrowedAt)
            && (r.state.Requested? && !end.state.Requested? && !end.state.Failed? ==>
                  EscrowOutcome(ConfirmOutcome.Confirmed, end.escrowedAt.value) in steps)
    decreases |steps|
  {
    if steps != [] {
      match r.Next(steps[0])
      case Ok(next) => RunNeedsConfirmedEscrow(next, steps[1..]);
      case Err(_) => RunNeedsConfirmedEscrow(r, steps[1..]);
    }
  }

  // ---- The working copy -------------------------------------------------------------------

  predicate Follows(before: Redemption, step: Transition, after: Redemption, r: CoreResult<Unit>) {
    match before.Next(step)
    case Ok(row) => r == Ok(Unit) && after == row
    case Err(e) => r == Err(e) && after == before
  }

  /** A redemption being worked on by a service, advanced in place. */
  class RedemptionRecord {
    const user: string
    const seqNo: u64
    const amount: Thb
    var state: RedemptionState
    const requestedAt: i64
    var escrowedAt: Option<i64>
    const deltaSecs: i64

    /** The clone handed to a repository. */
    function Row(): Redemption
      reads this
    {
      Redemption(user, seqNo, amount, state, requestedAt, escrowedAt, deltaSecs)
    }

    constructor (row: Redemption)
      ensures Row() == row
    {
      user, seqNo, amount, state := row.user, row.seqNo, row.amount, row.state;
      requestedAt, escrowedAt, deltaSecs := row.requestedAt, row.escrowedAt, row.deltaSecs;
    }

    method ApplyEscrowOutcome(outcome: ConfirmOutcome, now: i64) returns (r: CoreResult<Unit>)
      modifies this`state, this`escrowedAt
      ensures Follows(old(Row()), EscrowOutcome(outcome, now), Row(), r)
    {
      if !state.Requested? {
        return Err(Row().Reject(Escrowed));
      }
      match outcome
      case Confirmed =>
        state := Escrowed;
        escrowedAt := Some(now);
        r := Ok(Unit);
      case Failed =>
        state := RedemptionState.Failed;
        r := Ok(Unit);
      case Submitted =>
        r := Ok(Unit);
    }

    /** The F4 barrier. */
    method EnqueuePayout() returns (r: CoreResult<Unit>)
      modifies this`state
      ensures Follows(old(Row()), Transition.EnqueuePayout, Row(), r)
    {
      if !state.Escrowed? {
        return Err(BurnNotConfirmed(state.AsStr()));
      }
      state := PayoutQueued;
      r := Ok(Unit);
    }

    method Confirm() returns (r: CoreResult<Unit>)
      modifies this`state
      ensures Follows(old(Row()), Transition.Confirm, Row(), r)
    {
      match state
      case Escrowed | PayoutQueued =>
        state := RedemptionState.Confirmed;
        r := Ok(Unit);
      case _ =>
        r := Err(Row().Reject(RedemptionState.Confirmed));
    }

    method Reclaim(now: i64) returns (r: CoreResult<Unit>)
      modifies this`state
      ensures Follows(old(Row()), Transition.Reclaim(now), Row(), r)
    {
      if !state.IsPending() {
        return Err(Row().Reject(Reclaimed));
      }
      var age := Row().EscrowAge(now);
      var elapsed := if age.Some? then age.value else 0;
      if elapsed < deltaSecs {
        return Err(TimelockNotExpired(elapsed, deltaSecs));
      }
      state := Reclaimed;
      r := Ok(Unit);
    }
  }

  // ---- The machine, step by step ----------------------------------------------------------

  /** Where a step leads from a row, if it is allowed there; the age is in unbounded integers. */
  predicate Leads(r: Redemption, step: Transition, to: RedemptionState) {
    match step
    case EscrowOutcome(outcome, _) =>
      r.state.Requested? && to == (match outcome case Confirmed => Escrowed case Failed => RedemptionState.Failed case Submitted => Requested)
    case EnqueuePayout => r.state.Escrowed? && to.PayoutQueued?
    case Confirm => (r.state.Escrowed? || r.state.PayoutQueued?) && to.Confirmed?
    case Reclaim(at) => (r.state.Escrowed? || r.state.PayoutQueued?) && to.Reclaimed? && OldEnough(r, at)
  }

  /** Escrowed for at least its delta; with no stamp the age counts as zero. */
  predicate OldEnough(r: Redemption, at: i64) {
    match r.escrowedAt
    case Some(t) => if at - t > I64_MAX then true else if at - t < I64_MIN then r.deltaSecs == I64_MIN else at - t >= r.deltaSecs
    case None => r.deltaSecs <= 0
  }

  /** A step is taken exactly where it leads somewhere; the stamp is set with a confirmed escrow and never else. */
  lemma StepsExactly(r: Redemption, step: Transition)
    ensures r.Next(step).Ok? <==> exists to :: Leads(r, step, to)
    ensures r.Next(step).Ok? ==>
              && Leads(r, step, r.Next(step).value.state)
              && r.Next(step).value == r.(state := r.Next(step).value.state,
                                          escrowedAt := if step.EscrowOutcome? && step.outcome.Confirmed? then Some(step.at) else r.escrowedAt)
    ensures r.Next(step).Err? ==>
              match step
              case EscrowOutcome(_, _) => r.Next(step) == Err(InvalidRedemptionTransition(r.state.AsStr(), "escrowed"))
              case EnqueuePayout => r.Next(step) == Err(BurnNotConfirmed(r.state.AsStr()))
              case Confirm => r.Next(step) == Err(InvalidRedemptionTransition(r.state.AsStr(), "confirmed"))
              case Reclaim(at) =>
                if !r.state.IsPending() then r.Next(step) == Err(InvalidRedemptionTransition(r.state.AsStr(), "reclaimed"))
                else r.Next(step) == Err(TimelockNotExpired(if r.escrowedAt.Some? then SaturatingSubI64(at, r.escrowedAt.value) else 0, r.deltaSecs))
  {
    if r.Next(step).Ok? {
      assert Leads(r, step, r.Next(step).value.state);
    }
  }

  /** A request becomes a row, column by column, unless its amount is zero. */
  lemma RequestedExactly(user: string, seqNo: u64, amount: Thb, deltaSecs: i64, now: i64)
    ensures var r := RequestRedemption(user, seqNo, amount, deltaSecs, now);
            if amount == 0 then r == Err(ZeroAmount)
            else r == Ok(Redemption(user, seqNo, amount, Requested, now, None, deltaSecs))
    ensures forall r: Redemption :: r.SupplyReduction() as int == if r.state.Confirmed? then r.amount else 0
  {
  }

  /** What the sweep lists: pending rows with a stamp that are old enough. */
  lemma ListedExactly(r: Redemption, now: i64)
    ensures r.IsReclaimable(now) <==> (r.state.Escrowed? || r.state.PayoutQueued?) && r.escrowedAt.Some? && OldEnough(r, now)
  {
  }
}
