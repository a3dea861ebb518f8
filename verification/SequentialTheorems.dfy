/** What follows from the agreement of records and ledger for whole sequential runs. */
module SequentialTheorems {
  import opened Prelude
  import opened Sums
  import opened Money
  import opened Reserve
  import opened BankRefs
  import opened Repositories
  import opened Reconciliation
  import opened PaymentLeg
  import D = Deposits
  import R = Redemptions
  import L = Ledger
  import I = Issuance
  import O = OffRamps
  import S = ReserveServices

  // ---- F2: the reconciler -----------------------------------------------------------------

  /** The reconciler answers exactly when its three totals fit in 64 bits, and then reports no drift. */
  lemma ReportExactly(w: World)
    requires Good(w)
    ensures var r := S.RunReconcile(w.OnRamp(), w.redemptions, w.now);
            && (r.Ok? <==> Sum(IssuedAmounts(w.deposits)) <= U64_MAX && Sum(EncumberedAmounts(w.deposits)) <= U64_MAX)
            && (r.Err? ==> r == Err(Domain(MathOverflow)))
            && (r.Ok? ==> r.value.drift == 0 && r.value.severity != Drift
                          && r.value.expectedSupply == w.ledger.reserve.supply
                          && FiguresAre(r.value, Sum(IssuedAmounts(w.deposits)), Sum(ConfirmedAmounts(w.redemptions)),
                                        w.ledger.reserve.attestation.reserve, Sum(EncumberedAmounts(w.deposits)),
                                        w.ledger.reserve.supply, w.now))
  {
    if Sum(IssuedAmounts(w.deposits)) <= U64_MAX && Sum(EncumberedAmounts(w.deposits)) <= U64_MAX {
      FiguresExactly(LedgerTally(Sum(IssuedAmounts(w.deposits)), Sum(ConfirmedAmounts(w.redemptions))),
                     ReserveState(w.ledger.reserve.attestation, Sum(EncumberedAmounts(w.deposits)), w.ledger.reserve.supply), w.now);
    }
  }

  ghost predicate NoDriftIn(history: seq<Reconciliation.Report>) {
    forall r :: r in history ==> r.drift == 0
  }

  lemma NoDriftReported(w: World)
    requires Good(w)
    ensures var r := S.RunReconcile(w.OnRamp(), w.redemptions, w.now); r.Ok? ==> r.value.drift == 0
  {
    ReportExactly(w);
  }

  /** One call records at most one report, of the state it is made in. */
  lemma HistoryStep(w: World, op: Op)
    requires Good(w) && NoDriftIn(w.history)
    ensures NoDriftIn(Apply(w, op).history)
  {
    if op.RunReconciliation? {
      NoDriftReported(w);
    }
  }

  /** Every report recorded in any sequential run has drift zero. */
  lemma {:induction false} NoRunEverDrifts(w: World, ops: seq<Op>)
    requires Good(w) && NoDriftIn(w.history)
    ensures NoDriftIn(Run(w, ops).history)
    decreases |ops|
  {
    if ops != [] {
      ApplyKeepsGood(w, ops[0]);
      HistoryStep(w, ops[0]);
      NoRunEverDrifts(Apply(w, ops[0]), ops[1..]);
    }
  }

  // ---- The public queue length ------------------------------------------------------------

  /** The ledger's queue length is the repository's pending count. */
  lemma QueueLengthsAgree(w: World)
    requires Good(w)
    ensures L.TakeSnapshot(w.ledger).redemptionQueueLen == Some(SaturateU32(|PendingRows(w.redemptions)|))
  {
    var live, pending := L.LiveAmounts(w.ledger.escrows), PendingRows(w.redemptions);
    forall k
      ensures k in live <==> k in pending
    {
      if k in w.redemptions {
        assert RowAgrees(w.ledger, w.redemptions[k]);
      }
    }
    assert live.Keys == pending.Keys;
    assert |live| == |live.Keys| && |pending| == |pending.Keys|;
  }

  // ---- F7: the holder's way out -----------------------------------------------------------

  predicate Reclaimable(w: World, key: R.RedeemKey) {
    key in w.redemptions && w.redemptions[key].IsReclaimable(w.now)
  }

  /** With a service delta of at least the ledger's, whatever the sweep lists can be reclaimed at once. */
  lemma SweptCanBeReclaimed(w: World, key: R.RedeemKey)
    requires Good(w) && w.delta >= L.SIMULATED_DELTA_SECS && Reclaimable(w, key)
    ensures var (s, r) := O.ReclaimRedemption(w.OffRamp(), key, w.now);
            && r == Ok(Unit)
            && s.rows[key].state == R.Reclaimed
            && s.ledger.BalanceOf(key.user) == w.ledger.BalanceOf(key.user) + w.redemptions[key].amount
            && s.ledger.reserve.supply == w.ledger.reserve.supply
  {
    assert RowAgrees(w.ledger, w.redemptions[key]) && w.redemptions[key].Key() == key;
    ReclaimExactly(w, key);
  }

  /**
   * What a wire in the queue says about the tokens: its escrow was confirmed, and they are destroyed
   * exactly when the row says `Confirmed`. Until then they are still in escrow, or back with the holder.
   */
  lemma WiredTokens(w: World, i: nat)
    requires Good(w) && i < |w.sent|
    ensures var key := w.sent[i].key;
            && key in w.redemptions && w.redemptions[key].amount == w.sent[i].amount
            && w.redemptions[key].escrowedAt.Some?
            && (w.ledger.LiveEscrow(key) <==> w.redemptions[key].state.PayoutQueued?)
            && (key in w.ledger.escrows && w.ledger.escrows[key].burned <==> w.redemptions[key].state.Confirmed?)
            && (key !in w.ledger.escrows <==> w.redemptions[key].state.Reclaimed?)
  {
    var key := w.sent[i].key;
    assert RowAgrees(w.ledger, w.redemptions[key]) && w.redemptions[key].Key() == key;
  }

  /** So the wire does not wait for the burn: once both timelocks are past, a queued payout can be reclaimed, and the wire stays. */
  lemma WireOutlivesReclaim(w: World, key: R.RedeemKey)
    requires Good(w) && PastBothTimelocks(w, key) && w.redemptions[key].state.PayoutQueued?
    ensures var (s, r) := O.ReclaimRedemption(w.OffRamp(), key, w.now);
            && r == Ok(Unit) && Adapters.Wired(s.sent, key)
            && s.ledger.BalanceOf(key.user) == w.ledger.BalanceOf(key.user) + w.redemptions[key].amount
            && s.ledger.reserve.supply == w.ledger.reserve.supply
  {
    ReclaimExactly(w, key);
  }

  /** Whatever the service's delta, what the sweep lists is reclaimed exactly if it is a day old; else nothing happens. */
  lemma ShortDeltaListsTooEarly(w: World, key: R.RedeemKey)
    requires Good(w) && Reclaimable(w, key)
    ensures var (s, r) := O.ReclaimRedemption(w.OffRamp(), key, w.now);
            if w.redemptions[key].EscrowAge(w.now).value >= L.SIMULATED_DELTA_SECS
            then r == Ok(Unit) && s.rows[key].state == R.Reclaimed
            else s == w.OffRamp() && r == Err(Rejected)
  {
    assert RowAgrees(w.ledger, w.redemptions[key]) && w.redemptions[key].Key() == key;
    ReclaimExactly(w, key);
    R.ReclaimExactly(w.redemptions[key], w.now);
  }

  /** The clock never goes back during `ops`. */
  predicate Forward(now: i64, ops: seq<Op>)
    decreases |ops|
  {
    ops == [] ||
    (if ops[0].Warp? then now <= ops[0].to && Forward(ops[0].to, ops[1..]) else Forward(now, ops[1..]))
  }

  /** The row is still reclaimable, or was closed by one of the two ways out. */
  predicate StillOpenOrClosed(w: World, key: R.RedeemKey, confirmed: bool, reclaimed: bool) {
    && key in w.redemptions
    && (Reclaimable(w, key)
        || (confirmed && w.redemptions[key].state.Confirmed?)
        || (reclaimed && w.redemptions[key].state.Reclaimed?))
  }

  /** The only ways one call can change the row under `key`. */
  predicate RowStep(before: R.Redemption, after: R.Redemption, op: Op, key: R.RedeemKey) {
    || after == before
    || (op == Payout(key) && before.state.Escrowed? && after == before.(state := R.PayoutQueued))
    || (op == Confirm(key) && before.state.IsPending() && after == before.(state := R.Confirmed))
    || (op == Reclaim(key) && before.state.IsPending() && after == before.(state := R.Reclaimed))
  }

  lemma OffRampRowStep(w: World, op: Op, key: R.RedeemKey)
    requires Good(w) && key in w.redemptions && (op.Request? || op.Payout? || op.Confirm? || op.Reclaim?)
    ensures key in Apply(w, op).redemptions && RowStep(w.redemptions[key], Apply(w, op).redemptions[key], op, key)
  {
    match op
    case Request(user, amount) => RequestExactly(w.OffRamp(), user, amount, w.delta, w.now);
    case Payout(k) => assert k in w.redemptions ==> w.redemptions[k].Key() == k;
    case Confirm(k) =>
      ConfirmExactly(w, k);
      assert k in w.redemptions ==> w.redemptions[k].Key() == k;
    case Reclaim(k) =>
      ReclaimExactly(w, k);
      assert k in w.redemptions ==> w.redemptions[k].Key() == k;
  }

  lemma EveryRowStep(w: World, op: Op, key: R.RedeemKey)
    requires Good(w) && key in w.redemptions
    ensures key in Apply(w, op).redemptions && RowStep(w.redemptions[key], Apply(w, op).redemptions[key], op, key)
  {
    if op.Request? || op.Payout? || op.Confirm? || op.Reclaim? {
      OffRampRowStep(w, op, key);
    }
  }

  lemma ClockOnlyWarps(w: World, op: Op)
    ensures Apply(w, op).now == if op.Warp? then op.to else w.now
  {
  }

  lemma StepKeepsReclaimable(w: World, op: Op, key: R.RedeemKey)
    requires Good(w) && Reclaimable(w, key) && (op.Warp? ==> w.now <= op.to)
    ensures StillOpenOrClosed(Apply(w, op), key, op == Confirm(key), op == Reclaim(key))
  {
    EveryRowStep(w, op, key);
    ClockOnlyWarps(w, op);
  }

  lemma {:induction false} ClosedStays(w: World, ops: seq<Op>, key: R.RedeemKey)
    requires Good(w) && key in w.redemptions && (w.redemptions[key].state.Confirmed? || w.redemptions[key].state.Reclaimed?)
    ensures key in Run(w, ops).redemptions && Run(w, ops).redemptions[key] == w.redemptions[key]
    decreases |ops|
  {
    if ops != [] {
      EveryRowStep(w, ops[0], key);
      ApplyKeepsGood(w, ops[0]);
      ClosedStays(Apply(w, ops[0]), ops[1..], key);
    }
  }

  /**
   * Once reclaimable, a redemption stays so through any later calls while time moves forward, until
   * it is confirmed or reclaimed; and a closed redemption never reopens.
   */
  lemma {:induction false} ReclaimableUntilClosed(w: World, ops: seq<Op>, key: R.RedeemKey)
    requires Good(w) && Reclaimable(w, key) && Forward(w.now, ops)
    ensures StillOpenOrClosed(Run(w, ops), key, Confirm(key) in ops, Reclaim(key) in ops)
    decreases |ops|
  {
    if ops != [] {
      var next := Apply(w, ops[0]);
      StepKeepsReclaimable(w, ops[0], key);
      ApplyKeepsGood(w, ops[0]);
      if Reclaimable(next, key) {
        ReclaimableUntilClosed(next, ops[1..], key);
      } else {
        ClosedStays(next, ops[1..], key);
      }
    }
  }

  // ---- The retry sweep --------------------------------------------------------------------

  /** The deposits that were held in `w` and are issued in `rows`. */
  function Freed(w: World, rows: DepositRows): map<Digest, Thb> {
    map h | h in w.deposits && h in rows && w.deposits[h].state.Screened? && rows[h].state.Issued? :: w.deposits[h].amount
  }

  /** Too stale or too large for what is left. */
  ghost predicate Refused(s: I.OnRamp, d: D.Deposit, now: i64) {
    && I.EffectiveReserve(s).Ok?
    && (!s.ledger.reserve.attestation.IsFresh(now) || d.amount > I.EffectiveReserve(s).value.Headroom())
  }

  /** Where the sweep stands after the deposits in `done`. */
  ghost predicate Swept(w: World, s: I.OnRamp, n: nat, done: seq<Digest>) {
    && s.rows.Keys == w.deposits.Keys
    && (forall h :: h in w.deposits ==>
          s.rows[h] == w.deposits[h] || (h in done && s.rows[h] == w.deposits[h].(state := D.Issued)))
    && EncumberedAmounts(s.rows) == EncumberedAmounts(w.deposits)
    && s.ledger.reserve.attestation == w.ledger.reserve.attestation
    && s.ledger.reserve.supply == w.ledger.reserve.supply + Sum(Freed(w, s.rows))
    && n == |Freed(w, s.rows)|
    && (forall h :: h in done && h in s.rows && s.rows[h].state.Screened? ==> Refused(s, s.rows[h], w.now))
  }

  lemma SweepStart(w: World)
    ensures Swept(w, w.OnRamp(), 0, [])
  {
    assert Freed(w, w.deposits) == map[];
  }

  lemma RefusedStaysRefused(s: I.OnRamp, t: I.OnRamp, d: D.Deposit, now: i64)
    requires Refused(s, d, now)
    requires EncumberedAmounts(t.rows) == EncumberedAmounts(s.rows)
    requires t.ledger.reserve.attestation == s.ledger.reserve.attestation
    requires t.ledger.reserve.supply >= s.ledger.reserve.supply
    ensures Refused(t, d, now)
  {
  }

  lemma FreedGrows(w: World, rows: DepositRows, h: Digest)
    requires h in w.deposits && w.deposits[h].state.Screened? && h in rows && rows[h] == w.deposits[h]
    ensures var after := rows[h := w.deposits[h].(state := D.Issued)];
            && h !in Freed(w, rows) && Freed(w, after) == Freed(w, rows)[h := w.deposits[h].amount]
            && EncumberedAmounts(after) == EncumberedAmounts(rows)
  {
  }

  lemma SweepIssued(w: World, s: I.OnRamp, n: nat, done: seq<Digest>, h: Digest, t: I.OnRamp)
    requires Swept(w, s, n, done) && h in w.deposits && h !in done && w.deposits[h].state.Screened?
    requires t.rows == s.rows[h := w.deposits[h].(state := D.Issued)]
    requires Minted(s.ledger, t.ledger, h, w.deposits[h].amount)
    ensures Swept(w, t, n + 1, done + [h])
  {
    FreedGrows(w, s.rows, h);
    SumInsert(Freed(w, s.rows), h, w.deposits[h].amount);
    var done' := done + [h];
    assert forall g :: g in done' <==> g in done || g == h;
    forall g | g in done' && g in t.rows && t.rows[g].state.Screened?
      ensures Refused(t, t.rows[g], w.now)
    {
      RefusedStaysRefused(s, t, s.rows[g], w.now);
    }
    assert t.rows.Keys == w.deposits.Keys;
    assert |Freed(w, t.rows)| == |Freed(w, s.rows)| + 1;
  }

  ghost predicate SweptTo(w: World, r: (I.OnRamp, nat), done: seq<Digest>) {
    Good(w.WithOnRamp(r.0)) && Swept(w, r.0, r.1, done)
  }

  lemma SweepStep(w: World, r: (I.OnRamp, nat), done: seq<Digest>, h: Digest)
    requires SweptTo(w, r, done) && Sum(EncumberedAmounts(w.deposits)) <= U64_MAX
    requires h in w.deposits && h !in done && w.deposits[h].state.Screened? && w.deposits[h].Nullifier() == h
    ensures SweptTo(w, I.RetryOne(r, w.deposits[h].bankRef, w.now), done + [h])
  {
    var s := r.0;
    var w1 := w.WithOnRamp(s);
    var d := w.deposits[h];
    assert w1.OnRamp() == s && w1.deposits[h] == d;
    var (t, answer) := I.RetryHeld(s, d.bankRef, w.now);
    TryIssueAllOrNothing(w1, h);
    if ServiceAdmits(s, d, w.now) {
      IssuedRowKeepsGood(w1, h, t.ledger);
      assert w.WithOnRamp(t) == w1.(ledger := t.ledger, deposits := w1.deposits[h := d.(state := D.Issued)]);
      SweepIssued(w, s, r.1, done, h, t);
    } else {
      CheckIssuanceExactly(I.EffectiveReserve(s).value, d.amount, w.now);
      assert Refused(s, d, w.now);
    }
  }

  /** `held` are distinct screened rows of `w`, listed under their digests in `order`. */
  ghost predicate HeldRows(w: World, held: seq<D.Deposit>, order: seq<Digest>) {
    && |held| == |order|
    && (forall i, j :: 0 <= i < j < |order| ==> order[i] != order[j])
    && (forall i :: 0 <= i < |order| ==>
          && order[i] in w.deposits && w.deposits[order[i]] == held[i]
          && held[i].state.Screened? && held[i].Nullifier() == order[i])
  }

  lemma {:induction false} SweepAll(w: World, held: seq<D.Deposit>, order: seq<Digest>)
    requires Good(w) && Sum(EncumberedAmounts(w.deposits)) <= U64_MAX && HeldRows(w, held, order)
    ensures SweptTo(w, I.RetryEach(w.OnRamp(), held, w.now), order)
    decreases |held|
  {
    if held == [] {
      SweepStart(w);
      assert w.WithOnRamp(w.OnRamp()) == w;
    } else {
      var last := |held| - 1;
      var done, h := order[..last], order[last];
      assert done + [h] == order && held[..last] + [held[last]] == held;
      SweepAll(w, held[..last], done);
      assert h !in done && w.deposits[h] == held[last];
      SweepStep(w, I.RetryEach(w.OnRamp(), held[..last], w.now), done, h);
      I.RetryEachNext(w.OnRamp(), held[..last], held[last], w.now);
    }
  }

  /**
   * The sweep is maximal whatever order the store lists the held deposits in: supply grows by exactly
   * what was freed, the count is exact, and whatever is still held is refused by the final state.
   */
  lemma RetryAllIsMaximal(w: World, held: seq<D.Deposit>, order: seq<Digest>)
    requires Good(w) && Sum(EncumberedAmounts(w.deposits)) <= U64_MAX
    requires EnumeratesBy(held, order, InState(w.deposits, D.Screened))
    ensures var (s, n) := I.RetryEach(w.OnRamp(), held, w.now);
            && s.ledger.reserve.supply == w.ledger.reserve.supply + Sum(Freed(w, s.rows))
            && n == |Freed(w, s.rows)|
            && s.rows.Keys == w.deposits.Keys
            && (forall h :: h in s.rows ==>
                  s.rows[h] == w.deposits[h] || s.rows[h] == w.deposits[h].(state := D.Issued))
            && (forall h :: h in s.rows && s.rows[h].state.Screened? ==> Refused(s, s.rows[h], w.now))
  {
    AreHeldRows(w, held, order);
    SweepAll(w, held, order);
    SweptMeans(w, I.RetryEach(w.OnRamp(), held, w.now), order);
  }

  lemma AreHeldRows(w: World, held: seq<D.Deposit>, order: seq<Digest>)
    requires DepositsKeyed(w.deposits) && EnumeratesBy(held, order, InState(w.deposits, D.Screened))
    ensures HeldRows(w, held, order) && forall h :: h in w.deposits && w.deposits[h].state.Screened? ==> h in order
  {
    forall h | h in w.deposits && w.deposits[h].state.Screened?
      ensures h in order
    {
      assert h in InState(w.deposits, D.Screened);
    }
  }

  /** Having swept every screened row, whatever is still screened was refused. */
  lemma SweptMeans(w: World, r: (I.OnRamp, nat), order: seq<Digest>)
    requires Swept(w, r.0, r.1, order)
    requires forall h :: h in w.deposits && w.deposits[h].state.Screened? ==> h in order
    ensures r.0.rows.Keys == w.deposits.Keys
    ensures forall h :: h in r.0.rows ==> r.0.rows[h] == w.deposits[h] || r.0.rows[h] == w.deposits[h].(state := D.Issued)
    ensures forall h :: h in r.0.rows && r.0.rows[h].state.Screened? ==> Refused(r.0, r.0.rows[h], w.now)
  {
  }

  /** When the encumbrance total does not fit, the sweep changes nothing. */
  lemma {:induction false} RetryAllWithoutTotal(w: World, held: seq<D.Deposit>)
    requires Sum(EncumberedAmounts(w.deposits)) > U64_MAX
    ensures I.RetryEach(w.OnRamp(), held, w.now) == (w.OnRamp(), 0)
    decreases |held|
  {
    if held != [] {
      RetryAllWithoutTotal(w, held[..|held| - 1]);
    }
  }

  // ---- F3: exactly-once on-ramp -----------------------------------------------------------

  /** The normal forms whose digests already have a row. */
  predicate Recorded(seen: set<string>, rows: DepositRows) {
    forall n :: n in seen ==> SHA256(n) in rows
  }

  /** A webhook that `observe` accepts, so that it is recorded. */
  predicate Recordable(op: Op) {
    op.Webhook? && NewBankRef(op.raw).Ok? && op.amount > 0 && TrimEnd(TrimStart(op.wallet)) != ""
  }

  /** `ops` without every webhook whose normalised reference was recorded by an earlier one. */
  function WithoutReplays(seen: set<string>, ops: seq<Op>): seq<Op>
    decreases |ops|
  {
    if ops == [] then []
    else if ops[0].Webhook? && Normalise(ops[0].raw) in seen then WithoutReplays(seen, ops[1..])
    else
      var seen' := if Recordable(ops[0]) then seen + {Normalise(ops[0].raw)} else seen;
      [ops[0]] + WithoutReplays(seen', ops[1..])
  }

  lemma RowsOnlyGrow(w: World, op: Op)
    ensures w.deposits.Keys <= Apply(w, op).deposits.Keys
    ensures Recordable(op) ==> SHA256(Normalise(op.raw)) in Apply(w, op).deposits
  {
    if op.RetryAll? {
      RetryRowsGrow(w.OnRamp(), op.held, w.now);
    }
  }

  lemma {:induction false} RetryRowsGrow(s: I.OnRamp, held: seq<D.Deposit>, now: i64)
    ensures s.rows.Keys <= I.RetryEach(s, held, now).0.rows.Keys
    decreases |held|
  {
    if held != [] {
      RetryRowsGrow(s, held[..|held| - 1], now);
    }
  }

  /** A replay changes nothing, and its answer is a function of the stored row. */
  lemma ReplayIsQuiet(w: World, op: Op)
    requires op.Webhook? && NewBankRef(op.raw).Ok? && SHA256(Normalise(op.raw)) in w.deposits
    ensures Apply(w, op) == w
    ensures Recordable(op) ==>
              I.HandleDeposit(w.OnRamp(), NewBankRef(op.raw).value, op.amount, op.beneficiary, op.wallet, op.screen, w.now).1
              == Ok(I.ReplayAnswer(Some(w.deposits[SHA256(Normalise(op.raw))])))
  {
  }

  /** Deleting every replay from any sequential run leaves its final state unchanged. */
  lemma {:induction false} ReplaysDoNotMatter(w: World, seen: set<string>, ops: seq<Op>)
    requires Recorded(seen, w.deposits)
    ensures Run(w, WithoutReplays(seen, ops)) == Run(w, ops)
    decreases |ops|
  {
    if ops != [] {
      var op, rest := ops[0], ops[1..];
      var next := Apply(w, op);
      RowsOnlyGrow(w, op);
      if op.Webhook? && Normalise(op.raw) in seen {
        if NewBankRef(op.raw).Ok? {
          ReplayIsQuiet(w, op);
        }
        ReplaysDoNotMatter(w, seen, rest);
      } else {
        var seen' := if Recordable(op) then seen + {Normalise(op.raw)} else seen;
        ReplaysDoNotMatter(next, seen', rest);
        assert ([op] + WithoutReplays(seen', rest))[1..] == WithoutReplays(seen', rest);
      }
    }
  }
}
