/**
 * The off-ramp service: request and escrow, the F4 barrier, and then confirm or reclaim.
 *
 * Each call is first given as a transition on the ledger, the redemption rows and the payout queue,
 * then as the service method that performs it port call by port call.
 */
module OffRamps {
  import opened Prelude
  import opened Money
  import opened Redemptions
  import opened Repositories
  import opened Adapters
  import L = Ledger
  import SimulatedLedgers

  datatype RedemptionOutcome =
    | OutcomeEscrowed(key: RedeemKey)
    | OutcomePending(key: RedeemKey)
    | OutcomeFailed

  /** The state an off-ramp call touches. */
  datatype OffRamp = OffRamp(ledger: L.Treasury, rows: RedemptionRows, sent: seq<Wire>)

  function Put(rows: RedemptionRows, r: Redemption): RedemptionRows {
    rows[r.Key() := r]
  }

  function OutcomeOf(r: Redemption): RedemptionOutcome {
    match r.state
    case Escrowed => OutcomeEscrowed(r.Key())
    case Failed => OutcomeFailed
    case _ => OutcomePending(r.Key())
  }

  /** Escrowed and failed are told apart from every other state, which is still pending. */
  lemma OutcomesExactly(r: Redemption)
    ensures OutcomeOf(r) == OutcomeEscrowed(RedeemKey(r.user, r.seqNo)) <==> r.state.Escrowed?
    ensures OutcomeOf(r) == OutcomeFailed <==> r.state.Failed?
    ensures OutcomeOf(r) == OutcomePending(RedeemKey(r.user, r.seqNo)) <==> !r.state.Escrowed? && !r.state.Failed?
  {
  }

  ghost function Request(s: OffRamp, user: string, amount: Thb, delta: i64, now: i64)
    : (OffRamp, PortResult<RedemptionOutcome>)
  {
    var seqNo := Successor(MaxSeq(s.rows, user));
    match RequestRedemption(user, seqNo, amount, delta, now)
    case Err(e) => (s, Err(Domain(e)))
    case Ok(requested) =>
      if requested.Key() in s.rows then (s, Err(Conflict))
      else
        var rows := Put(s.rows, requested);
        var (ledger, reply) := L.Escrow(s.ledger, requested.Key(), amount);
        match reply
        case Err(e) => (OffRamp(ledger, rows, s.sent), Err(e))
        case Ok(outcome) =>
          var answered := requested.Next(EscrowOutcome(outcome, now)).value;
          (OffRamp(ledger, Put(rows, answered), s.sent), Ok(OutcomeOf(answered)))
  }

  function ProcessPayout(s: OffRamp, key: RedeemKey): (OffRamp, PortResult<Unit>) {
    match FindRow(s.rows, key)
    case None => (s, Err(NotFound))
    case Some(found) =>
      match found.Next(EnqueuePayout)
      case Err(e) => (s, Err(Domain(e)))
      case Ok(queued) =>
        (OffRamp(s.ledger, Put(s.rows, queued), Enqueue(s.sent, Wire(key, queued.amount))), Ok(Unit))
  }

  /** The burn comes first; the record is consulted after it. */
  function ConfirmRedemption(s: OffRamp, key: RedeemKey): (OffRamp, PortResult<Unit>) {
    match FindRow(s.rows, key)
    case None => (s, Err(NotFound))
    case Some(found) =>
      var (ledger, reply) := L.Burn(s.ledger, key);
      match reply
      case Err(e) => (s.(ledger := ledger), Err(e))
      case Ok(outcome) =>
        if outcome != ConfirmOutcome.Confirmed then (s.(ledger := ledger), Err(Rejected))
        else match found.Next(Confirm)
          case Err(e) => (s.(ledger := ledger), Err(Domain(e)))
          case Ok(confirmed) => (OffRamp(ledger, Put(s.rows, confirmed), s.sent), Ok(Unit))
  }

  function ReclaimRedemption(s: OffRamp, key: RedeemKey, now: i64): (OffRamp, PortResult<Unit>) {
    match FindRow(s.rows, key)
    case None => (s, Err(NotFound))
    case Some(found) =>
      match found.Next(Reclaim(now))
      case Err(e) => (s, Err(Domain(e)))
      case Ok(reclaimed) =>
        var (ledger, reply) := L.Return(s.ledger, key);
        match reply
        case Err(e) => (s.(ledger := ledger), Err(e))
        case Ok(outcome) =>
          if outcome != ConfirmOutcome.Confirmed then (s.(ledger := ledger), Err(Rejected))
          else (OffRamp(ledger, Put(s.rows, reclaimed), s.sent), Ok(Unit))
  }

  class RedemptionService {
    const redemptions: InMemoryRedemptionRepo
    const ledger: SimulatedLedgers.SimulatedLedger
    const payouts: RecordingPayoutQueue
    const clock: FixedClock
    const deltaSecs: i64

    constructor (redemptions: InMemoryRedemptionRepo, ledger: SimulatedLedgers.SimulatedLedger,
                 payouts: RecordingPayoutQueue, clock: FixedClock, deltaSecs: i64)
      ensures this.redemptions == redemptions && this.ledger == ledger
      ensures this.payouts == payouts && this.clock == clock && this.deltaSecs == deltaSecs
    {
      this.redemptions, this.ledger := redemptions, ledger;
      this.payouts, this.clock, this.deltaSecs := payouts, clock, deltaSecs;
    }

    ghost predicate Valid()
      reads this, redemptions, ledger
    {
      redemptions.Valid() && ledger.Valid()
    }

    function State(): OffRamp
      reads this, redemptions, ledger, payouts
    {
      OffRamp(ledger.State(), redemptions.rows, payouts.sent)
    }

    method RequestRedeem(user: string, amount: Thb) returns (r: PortResult<RedemptionOutcome>)
      requires Valid()
      modifies ledger, redemptions
      ensures Valid() && (State(), r) == Request(old(State()), user, amount, deltaSecs, clock.now)
    {
      var now := clock.now;
      var seqNo := redemptions.NextSeq(user);
      var requested := RequestRedemption(user, seqNo, amount, deltaSecs, now);
      if requested.Err? {
        return Err(Domain(requested.error));
      }
      var redemption := new RedemptionRecord(requested.value);
      var inserted := redemptions.Insert(redemption.Row());
      if inserted.Err? {
        return Err(inserted.error);
      }

      var outcome := ledger.EscrowRedemption(redemption.Row());
      if outcome.Err? {
        return Err(outcome.error);
      }
      // Neither of these can be refused: the record is `Requested` and its row is stored.
      var _ := redemption.ApplyEscrowOutcome(outcome.value, clock.now);
      var _ := redemptions.Update(redemption.Row());
      r := Ok(OutcomeOf(redemption.Row()));
    }

    /** The F4 barrier: the state is stored before the wire is enqueued. */
    method Payout(user: string, seqNo: u64) returns (r: PortResult<Unit>)
      requires Valid()
      modifies redemptions, payouts
      ensures Valid() && (State(), r) == ProcessPayout(old(State()), RedeemKey(user, seqNo))
    {
      var found := redemptions.Find(user, seqNo);
      if found.None? {
        return Err(NotFound);
      }
      var redemption := new RedemptionRecord(found.value);
      var queued := redemption.EnqueuePayout();
      if queued.Err? {
        return Err(Domain(queued.error));
      }
      var _ := redemptions.Update(redemption.Row());
      r := payouts.EnqueueWire(user, seqNo, redemption.amount);
    }

    method ConfirmRedeem(user: string, seqNo: u64) returns (r: PortResult<Unit>)
      requires Valid()
      modifies ledger, redemptions
      ensures Valid() && (State(), r) == ConfirmRedemption(old(State()), RedeemKey(user, seqNo))
    {
      var found := redemptions.Find(user, seqNo);
      if found.None? {
        return Err(NotFound);
      }
      var redemption := new RedemptionRecord(found.value);
      var outcome := ledger.ConfirmRedemption(user, seqNo);
      if outcome.Err? {
        return Err(outcome.error);
      }
      if outcome.value != ConfirmOutcome.Confirmed {
        return Err(Rejected);
      }
      var confirmed := redemption.Confirm();
      if confirmed.Err? {
        return Err(Domain(confirmed.error));
      }
      r := redemptions.Update(redemption.Row());
    }

    method ReclaimRedeem(user: string, seqNo: u64) returns (r: PortResult<Unit>)
      requires Valid()
      modifies ledger, redemptions
      ensures Valid() && (State(), r) == ReclaimRedemption(old(State()), RedeemKey(user, seqNo), clock.now)
    {
      var found := redemptions.Find(user, seqNo);
      if found.None? {
        return Err(NotFound);
      }
      var redemption := new RedemptionRecord(found.value);
      var reclaimed := redemption.Reclaim(clock.now);
      if reclaimed.Err? {
        return Err(Domain(reclaimed.error));
      }
      var outcome := ledger.ReclaimRedemption(user, seqNo);
      if outcome.Err? {
        return Err(outcome.error);
      }
      if outcome.value != ConfirmOutcome.Confirmed {
        return Err(Rejected);
      }
      r := redemptions.Update(redemption.Row());
    }

    /** Reports and never acts. */
    method SweepReclaimable() returns (due: seq<Redemption>, ghost order: seq<RedeemKey>)
      ensures EnumeratesBy(due, order, ReclaimableRows(redemptions.rows, clock.now))
      ensures Enumerates(due, ReclaimableRows(redemptions.rows, clock.now))
    {
      due, order := redemptions.Reclaimable(clock.now);
    }

    method QueueLen() returns (n: u32)
      ensures n == SaturateU32(|PendingRows(redemptions.rows)|)
    {
      n := redemptions.PendingCount();
    }
  }
}
