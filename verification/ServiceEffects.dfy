/** What each service call does to rows, ledger and queue, and what it answers, case by case. */
module ServiceEffects {
  import opened Prelude
  import opened Sums
  import opened Money
  import opened Reserve
  import opened BankRefs
  import opened Repositories
  import opened PaymentLeg
  import D = Deposits
  import R = Redemptions
  import L = Ledger
  import I = Issuance
  import O = OffRamps
  import S = ReserveServices
  import E = LedgerEffects
  import C = Reconciliation
  import V = BankRefVariants
  import T = SequentialTheorems

  // ---- The ceiling that the service holds against -----------------------------------------

  /** The figures of the effective reserve: the ledger's, with the rows' own encumbrance. */
  lemma EffectiveExactly(s: I.OnRamp)
    ensures var total := Sum(EncumberedAmounts(s.rows));
            if total > U64_MAX then I.EffectiveReserve(s) == Err(Domain(MathOverflow))
            else
              && I.EffectiveReserve(s).Ok?
              && var r := I.EffectiveReserve(s).value;
                 && r.attestation.reserve == s.ledger.reserve.attestation.reserve && r.attestation.ts == s.ledger.reserve.attestation.ts
                 && r.attestation.ttlSecs == s.ledger.reserve.attestation.ttlSecs
                 && r.encumbered == total && r.supply == s.ledger.reserve.supply
  {
  }

  /** Fresh, positive, and within the reserve together with what is out and what is encumbered. */
  ghost predicate Admitted(s: I.OnRamp, amount: Thb, now: i64) {
    var a := s.ledger.reserve.attestation;
    && amount > 0 && a.ts <= now && (now - a.ts <= a.ttlSecs || a.ttlSecs == I64_MAX)
    && s.ledger.reserve.supply + amount + Sum(EncumberedAmounts(s.rows)) <= a.reserve
  }

  /** The service's gate, in figures. */
  lemma AdmittedExactly(s: I.OnRamp, d: D.Deposit, now: i64)
    ensures ServiceAdmits(s, d, now) <==> Admitted(s, d.amount, now)
  {
    if Sum(EncumberedAmounts(s.rows)) <= U64_MAX {
      GateExactly(I.EffectiveReserve(s).value, d.amount, now);
    }
  }

  // ---- Issuing ----------------------------------------------------------------------------

  /** Nothing happened, and the answer says what stood in the way. */
  ghost predicate HeldBack(s: I.OnRamp, amount: Thb, now: i64, r: PortResult<I.IssuanceOutcome>) {
    if Sum(EncumberedAmounts(s.rows)) > U64_MAX then r == Err(Domain(MathOverflow))
    else
      && I.EffectiveReserve(s).Ok? && I.EffectiveReserve(s).value.CheckIssuance(amount, now).Err?
      && r == Ok(I.Held(I.CeilingRefused(I.EffectiveReserve(s).value.CheckIssuance(amount, now).error)))
  }

  /** Issuing a screened deposit: minted to its wallet and recorded, exactly when it is admitted. */
  lemma TryIssueExactly(w: World, h: Digest)
    requires Good(w) && h in w.deposits && w.deposits[h].state.Screened?
    ensures var d := w.deposits[h];
            var (s, r) := I.TryIssue(w.OnRamp(), d, w.now);
            if Admitted(w.OnRamp(), d.amount, w.now) then
              && r == Ok(I.OutcomeIssued(d.amount))
              && s.rows == w.deposits[h := d.(state := D.Issued)]
              && Minted(w.ledger, s.ledger, h, d.amount) && Credited(w.ledger, s.ledger, d.beneficiaryWallet, d.amount)
            else s == w.OnRamp() && HeldBack(w.OnRamp(), d.amount, w.now, r)
  {
    AdmittedExactly(w.OnRamp(), w.deposits[h], w.now);
    TryIssueAllOrNothing(w, h);
  }

  // ---- The webhook ------------------------------------------------------------------------

  /** The row of a webhook's figures in a given state. */
  function RowOf(bankRef: BankRef, amount: Thb, beneficiary: string, wallet: string, now: i64, state: D.DepositState): D.Deposit {
    D.Deposit(bankRef, amount, beneficiary, wallet, state, now)
  }

  lemma HandleIs(w: World, bankRef: BankRef, amount: Thb, beneficiary: string, wallet: string, screen: PortResult<D.ScreenOutcome>)
    requires amount > 0 && TrimEnd(TrimStart(wallet)) != "" && bankRef.Hash() !in w.deposits
    ensures var h := bankRef.Hash();
            var r := I.HandleDeposit(w.OnRamp(), bankRef, amount, beneficiary, wallet, screen, w.now);
            match screen
            case Err(e) => r == (I.OnRamp(w.ledger, w.deposits[h := RowOf(bankRef, amount, beneficiary, wallet, w.now, D.Observed)]), Err(e))
            case Ok(Fail) =>
              r == (I.OnRamp(w.ledger, w.deposits[h := RowOf(bankRef, amount, beneficiary, wallet, w.now, D.Encumbered)]),
                    Ok(I.OutcomeEncumbered(amount)))
            case Ok(Pass) =>
              var d := RowOf(bankRef, amount, beneficiary, wallet, w.now, D.Screened);
              r == I.TryIssue(I.OnRamp(w.ledger, w.deposits[h := d]), d, w.now)
  {
    D.ObservedExactly(bankRef, amount, beneficiary, wallet, w.now);
  }

  /** A compliance answer that does not come leaves the deposit observed, and is the answer. */
  lemma UnansweredScreen(w: World, bankRef: BankRef, amount: Thb, beneficiary: string, wallet: string, e: PortError)
    requires amount > 0 && TrimEnd(TrimStart(wallet)) != "" && bankRef.Hash() !in w.deposits
    ensures var (s, r) := I.HandleDeposit(w.OnRamp(), bankRef, amount, beneficiary, wallet, Err(e), w.now);
            && r == Err(e) && s.ledger == w.ledger
            && s.rows == w.deposits[bankRef.Hash() := RowOf(bankRef, amount, beneficiary, wallet, w.now, D.Observed)]
            && EncumberedAmounts(s.rows) == EncumberedAmounts(w.deposits)
  {
    HandleIs(w, bankRef, amount, beneficiary, wallet, Err(e));
  }

  /** A failed screen encumbers the whole amount, mints nothing, and says so. */
  lemma FailedScreen(w: World, bankRef: BankRef, amount: Thb, beneficiary: string, wallet: string)
    requires amount > 0 && TrimEnd(TrimStart(wallet)) != "" && bankRef.Hash() !in w.deposits
    ensures var (s, r) := I.HandleDeposit(w.OnRamp(), bankRef, amount, beneficiary, wallet, Ok(D.Fail), w.now);
            && r == Ok(I.OutcomeEncumbered(amount)) && s.ledger == w.ledger
            && s.rows == w.deposits[bankRef.Hash() := RowOf(bankRef, amount, beneficiary, wallet, w.now, D.Encumbered)]
            && Sum(EncumberedAmounts(s.rows)) == Sum(EncumberedAmounts(w.deposits)) + amount
  {
    HandleIs(w, bankRef, amount, beneficiary, wallet, Ok(D.Fail));
    PutDepositAmounts(w.deposits, RowOf(bankRef, amount, beneficiary, wallet, w.now, D.Encumbered));
    SumInsert(EncumberedAmounts(w.deposits), bankRef.Hash(), amount);
  }

  /** A passed screen issues exactly what the ceiling admits, and holds the rest as screened. */
  lemma PassedScreen(w: World, bankRef: BankRef, amount: Thb, beneficiary: string, wallet: string)
    requires Good(w) && amount > 0 && TrimEnd(TrimStart(wallet)) != "" && bankRef.Hash() !in w.deposits
    ensures var h, screened := bankRef.Hash(), RowOf(bankRef, amount, beneficiary, wallet, w.now, D.Screened);
            var (s, r) := I.HandleDeposit(w.OnRamp(), bankRef, amount, beneficiary, wallet, Ok(D.Pass), w.now);
            if Admitted(w.OnRamp(), amount, w.now) then
              && r == Ok(I.OutcomeIssued(amount))
              && s.rows == w.deposits[h := screened.(state := D.Issued)]
              && Minted(w.ledger, s.ledger, h, amount) && Credited(w.ledger, s.ledger, wallet, amount)
            else
              && s.ledger == w.ledger && s.rows == w.deposits[h := screened] && HeldBack(s, amount, w.now, r)
  {
    HandleIs(w, bankRef, amount, beneficiary, wallet, Ok(D.Pass));
    ScreenedIssues(w, RowOf(bankRef, amount, beneficiary, wallet, w.now, D.Screened));
  }

  lemma ScreenedIssues(w: World, d: D.Deposit)
    requires Good(w) && d.state.Screened? && d.amount > 0 && d.Nullifier() !in w.deposits
    ensures var (s, r) := I.TryIssue(I.OnRamp(w.ledger, w.deposits[d.Nullifier() := d]), d, w.now);
            if Admitted(w.OnRamp(), d.amount, w.now) then
              && r == Ok(I.OutcomeIssued(d.amount))
              && s.rows == w.deposits[d.Nullifier() := d.(state := D.Issued)]
              && Minted(w.ledger, s.ledger, d.Nullifier(), d.amount) && Credited(w.ledger, s.ledger, d.beneficiaryWallet, d.amount)
            else
              && s.ledger == w.ledger && s.rows == w.deposits[d.Nullifier() := d] && HeldBack(s, d.amount, w.now, r)
  {
    var h := d.Nullifier();
    var w' := w.(deposits := w.deposits[h := d]);
    ScreenedIsGood(w, d);
    TryIssueExactly(w', h);
    assert w.deposits[h := d][h := d.(state := D.Issued)] == w.deposits[h := d.(state := D.Issued)];
  }

  /** A new screened row keeps the agreement and the encumbrance. */
  lemma ScreenedIsGood(w: World, d: D.Deposit)
    requires Good(w) && d.state.Screened? && d.amount > 0 && d.Nullifier() !in w.deposits
    ensures Good(w.(deposits := w.deposits[d.Nullifier() := d]))
    ensures EncumberedAmounts(w.deposits[d.Nullifier() := d]) == EncumberedAmounts(w.deposits)
  {
    FreshRowKeepsGood(w, d);
    PutDepositAmounts(w.deposits, d);
    assert EncumberedAmounts(w.deposits) - {d.Nullifier()} == EncumberedAmounts(w.deposits);
  }

  /** Refused before anything is recorded. */
  lemma WebhookRefused(w: World, bankRef: BankRef, amount: Thb, beneficiary: string, wallet: string, screen: PortResult<D.ScreenOutcome>)
    requires amount == 0 || TrimEnd(TrimStart(wallet)) == ""
    ensures I.HandleDeposit(w.OnRamp(), bankRef, amount, beneficiary, wallet, screen, w.now)
         == (w.OnRamp(), Err(Domain(if amount == 0 then ZeroAmount else MissingBeneficiaryWallet)))
  {
  }

  /** What a stored row makes of a replay. */
  predicate ReplayedAs(d: D.Deposit, r: PortResult<I.IssuanceOutcome>) {
    match d.state
    case Issued => r == Ok(I.AlreadyIssued)
    case Encumbered => r == Ok(I.OutcomeEncumbered(d.amount))
    case Disputed => r == Ok(I.OutcomeEncumbered(d.amount))
    case _ => r == Ok(I.Held(I.DuplicateIncomplete))
  }

  /** A replay is answered from the stored row, with the stored amount, and does nothing. */
  lemma ReplayExactly(w: World, bankRef: BankRef, amount: Thb, beneficiary: string, wallet: string, screen: PortResult<D.ScreenOutcome>)
    requires amount > 0 && TrimEnd(TrimStart(wallet)) != "" && bankRef.Hash() in w.deposits
    ensures var (s, r) := I.HandleDeposit(w.OnRamp(), bankRef, amount, beneficiary, wallet, screen, w.now);
            s == w.OnRamp() && ReplayedAs(w.deposits[bankRef.Hash()], r)
  {
  }

  /** A retry touches screened rows alone, and says why otherwise. */
  lemma RetryExactly(w: World, bankRef: BankRef)
    requires Good(w)
    ensures var h := bankRef.Hash();
            var (s, r) := I.RetryHeld(w.OnRamp(), bankRef, w.now);
            if h !in w.deposits then s == w.OnRamp() && r == Err(NotFound)
            else
              var d := w.deposits[h];
              if !d.state.Screened? then s == w.OnRamp() && r == Ok(I.Held(I.NotRetryable(d.state)))
              else if Admitted(w.OnRamp(), d.amount, w.now) then
                r == Ok(I.OutcomeIssued(d.amount)) && s.rows == w.deposits[h := d.(state := D.Issued)]
                && Minted(w.ledger, s.ledger, h, d.amount) && Credited(w.ledger, s.ledger, d.beneficiaryWallet, d.amount)
              else s == w.OnRamp() && HeldBack(w.OnRamp(), d.amount, w.now, r)
  {
    if bankRef.Hash() in w.deposits && w.deposits[bankRef.Hash()].state.Screened? {
      TryIssueExactly(w, bankRef.Hash());
    }
  }

  // ---- Attestation ------------------------------------------------------------------------

  /**
   * The reserve is published with the rows' own encumbrance, or, if that total does not fit, not at all.
   */
  lemma AttestExactly(s: I.OnRamp, reserve: Thb)
    ensures var (s', r) := S.AttestReserve(s, reserve);
            var total := Sum(EncumberedAmounts(s.rows));
            if total > U64_MAX then s' == s && r == Err(Domain(MathOverflow))
            else
              && r == Ok(Unit) && s'.rows == s.rows
              && E.ReserveIs(s'.ledger, reserve, s.ledger.now, s.ledger.reserve.attestation.ttlSecs, total, s.ledger.reserve.supply)
              && E.SameMarket(s.ledger, s'.ledger) && s'.ledger.nullifiers == s.ledger.nullifiers
              && s'.ledger.escrows == s.ledger.escrows && s'.ledger.balances == s.ledger.balances
  {
    if Sum(EncumberedAmounts(s.rows)) <= U64_MAX {
      E.AttestExactly(s.ledger, reserve, Sum(EncumberedAmounts(s.rows)));
    }
  }

  /** Right after it, the ledger's ceiling is the service's: they admit the same screened deposits. */
  lemma AttestedGatesAgree(w: World, reserve: Thb, h: Digest)
    requires Good(w) && S.AttestReserve(w.OnRamp(), reserve).1.Ok? && h in w.deposits && w.deposits[h].state.Screened?
    ensures var s, d := S.AttestReserve(w.OnRamp(), reserve).0, w.deposits[h];
            ServiceAdmits(s, d, w.now) <==> L.Issue(s.ledger, d.beneficiaryWallet, d.amount, h).1.Ok?
  {
    var s, d := S.AttestReserve(w.OnRamp(), reserve).0, w.deposits[h];
    AttestKeepsGood(w, reserve);
    AttestExactly(w.OnRamp(), reserve);
    L.IssueConserves(s.ledger, d.beneficiaryWallet, d.amount, h);
    GateExactly(s.ledger.reserve, d.amount, w.now);
    AdmittedExactly(s, d, w.now);
  }

  // ---- Answers of the off-ramp ------------------------------------------------------------

  /** Why a payout is refused. */
  lemma PayoutAnswers(w: World, key: R.RedeemKey)
    ensures var (s, r) := O.ProcessPayout(w.OffRamp(), key);
            if key !in w.redemptions then s == w.OffRamp() && r == Err(NotFound)
            else if !w.redemptions[key].state.Escrowed? then
              s == w.OffRamp() && r == Err(Domain(BurnNotConfirmed(w.redemptions[key].state.AsStr())))
            else r == Ok(Unit)
  {
  }

  /** Why a confirm is refused: by the ledger, which has no such escrow, or has burned it. */
  lemma ConfirmAnswers(w: World, key: R.RedeemKey)
    requires Good(w)
    ensures var (s, r) := O.ConfirmRedemption(w.OffRamp(), key);
            if Pending(w, key) then r == Ok(Unit)
            else if key in w.redemptions && w.redemptions[key].state.Confirmed? then s == w.OffRamp() && r == Err(Rejected)
            else s == w.OffRamp() && r == Err(NotFound)
  {
    ConfirmExactly(w, key);
    E.BurnExactly(w.ledger, key);
    if key in w.redemptions {
      assert RowAgrees(w.ledger, w.redemptions[key]) && w.redemptions[key].Key() == key;
    }
  }

  /** Why a reclaim is refused: by the row, which is closed or too young, or by the ledger's own day. */
  lemma ReclaimAnswers(w: World, key: R.RedeemKey)
    requires Good(w)
    ensures var (s, r) := O.ReclaimRedemption(w.OffRamp(), key, w.now);
            if key !in w.redemptions then s == w.OffRamp() && r == Err(NotFound)
            else
              var row := w.redemptions[key];
              if !row.state.IsPending() then
                s == w.OffRamp() && r == Err(Domain(InvalidRedemptionTransition(row.state.AsStr(), "reclaimed")))
              else if !row.IsReclaimable(w.now) then
                s == w.OffRamp() && r.Err? && r.error.Domain? && r.error.cause.TimelockNotExpired?
              else if w.now - row.escrowedAt.value < 86_400 then s == w.OffRamp() && r == Err(Rejected)
              else r == Ok(Unit)
  {
    ReclaimExactly(w, key);
    E.ReturnExactly(w.ledger, key);
    if key in w.redemptions {
      assert RowAgrees(w.ledger, w.redemptions[key]) && w.redemptions[key].Key() == key;
      R.ReclaimExactly(w.redemptions[key], w.now);
      R.StepsExactly(w.redemptions[key], R.Reclaim(w.now));
    }
  }

  /** A request for nothing is refused; one whose number is taken conflicts; neither does anything. */
  lemma RequestRefused(w: World, user: string, amount: Thb)
    requires amount == 0 || R.RedeemKey(user, Successor(MaxSeq(w.redemptions, user))) in w.redemptions
    ensures O.Request(w.OffRamp(), user, amount, w.delta, w.now)
         == (w.OffRamp(), if amount == 0 then Err(Domain(ZeroAmount)) else Err(Conflict))
  {
  }

  // ---- A failed screen, for good ----------------------------------------------------------

  lemma {:induction false} SweepLeavesUnheld(s: I.OnRamp, held: seq<D.Deposit>, now: i64, h: Digest)
    requires h in s.rows && s.rows[h].state.Encumbered? && DepositsKeyed(s.rows)
    ensures var t := I.RetryEach(s, held, now).0;
            h in t.rows && t.rows[h] == s.rows[h] && DepositsKeyed(t.rows)
    decreases |held|
  {
    if held != [] {
      SweepLeavesUnheld(s, held[..|held| - 1], now, h);
    }
  }

  lemma WebhookLeaves(s: I.OnRamp, bankRef: BankRef, op: Op, now: i64, h: Digest)
    requires h in s.rows && op.Webhook?
    ensures var t := I.HandleDeposit(s, bankRef, op.amount, op.beneficiary, op.wallet, op.screen, now).0;
            h in t.rows && t.rows[h] == s.rows[h]
  {
  }

  lemma RetryLeaves(s: I.OnRamp, bankRef: BankRef, now: i64, h: Digest)
    requires h in s.rows && s.rows[h].state.Encumbered? && DepositsKeyed(s.rows)
    ensures var t := I.RetryHeld(s, bankRef, now).0; h in t.rows && t.rows[h] == s.rows[h]
  {
  }

  /** No call touches an encumbered row. */
  lemma EncumberedStep(w: World, op: Op, h: Digest)
    requires DepositsKeyed(w.deposits) && h in w.deposits && w.deposits[h].state.Encumbered?
    ensures h in Apply(w, op).deposits && Apply(w, op).deposits[h] == w.deposits[h]
  {
    match op
    case Webhook(raw, _, _, _, _) =>
      if NewBankRef(raw).Ok? {
        WebhookLeaves(w.OnRamp(), NewBankRef(raw).value, op, w.now, h);
      }
    case Retry(raw) =>
      if NewBankRef(raw).Ok? {
        RetryLeaves(w.OnRamp(), NewBankRef(raw).value, w.now, h);
      }
    case RetryAll(held) => SweepLeavesUnheld(w.OnRamp(), held, w.now, h);
    case _ =>
  }

  lemma {:induction false} EncumberedForGood(w: World, ops: seq<Op>, h: Digest)
    requires Good(w) && h in w.deposits && w.deposits[h].state.Encumbered?
    ensures Good(Run(w, ops)) && h in Run(w, ops).deposits && Run(w, ops).deposits[h] == w.deposits[h]
    ensures h !in Run(w, ops).ledger.nullifiers
    decreases |ops|
  {
    if ops != [] {
      EncumberedStep(w, ops[0], h);
      ApplyKeepsGood(w, ops[0]);
      EncumberedForGood(Apply(w, ops[0]), ops[1..], h);
    }
  }

  /** Once a new deposit has failed its screen, no later run of calls mints it. */
  lemma FailedScreenIsNeverMinted(w: World, op: Op, ops: seq<Op>)
    requires Good(w) && op.Webhook? && op.screen == Ok(D.Fail) && NewBankRef(op.raw).Ok?
    requires op.amount > 0 && TrimEnd(TrimStart(op.wallet)) != "" && NewBankRef(op.raw).value.Hash() !in w.deposits
    ensures var h := NewBankRef(op.raw).value.Hash();
            var end := Run(Apply(w, op), ops);
            h in end.deposits && end.deposits[h].state.Encumbered? && end.deposits[h].amount == op.amount
            && h !in end.ledger.nullifiers
  {
    var bankRef := NewBankRef(op.raw).value;
    FailedScreen(w, bankRef, op.amount, op.beneficiary, op.wallet);
    ApplyKeepsGood(w, op);
    EncumberedForGood(Apply(w, op), ops, bankRef.Hash());
  }

  // ---- Variants of one reference ----------------------------------------------------------

  lemma {:induction false} RunRowsGrow(w: World, ops: seq<Op>)
    ensures w.deposits.Keys <= Run(w, ops).deposits.Keys
    decreases |ops|
  {
    if ops != [] {
      T.RowsOnlyGrow(w, ops[0]);
      RunRowsGrow(Apply(w, ops[0]), ops[1..]);
    }
  }

  /**
   * Once a webhook has been recorded, another whose reference differs from it in surrounding white space
   * and in ASCII case alone is a replay at any later time: it changes nothing, whatever else it says.
   */
  lemma VariantIsReplay(w: World, first: Op, ops: seq<Op>, later: Op)
    requires T.Recordable(first) && later.Webhook? && V.DifferInSpaceAndCase(first.raw, later.raw)
    ensures var t := Run(Apply(w, first), ops); Apply(t, later) == t
  {
    V.VariantsExactly(first.raw, later.raw);
    T.RowsOnlyGrow(w, first);
    RunRowsGrow(Apply(w, first), ops);
    T.ReplayIsQuiet(Run(Apply(w, first), ops), later);
  }

  // ---- Reconciliation ---------------------------------------------------------------------

  /** The report, whatever the state: from the three totals and the ledger's reserve, or the first that does not fit. */
  lemma ReconcileExactly(s: I.OnRamp, redemptions: RedemptionRows, now: i64)
    ensures var issued, redeemed, encumbered :=
              Sum(IssuedAmounts(s.rows)), Sum(ConfirmedAmounts(redemptions)), Sum(EncumberedAmounts(s.rows));
            var r := S.RunReconcile(s, redemptions, now);
            if issued > U64_MAX || redeemed > U64_MAX || encumbered > U64_MAX then r == Err(Domain(MathOverflow))
            else if redeemed > issued then r == Err(Domain(Underflow))
            else
              r.Ok? && C.FiguresAre(r.value, issued, redeemed, s.ledger.reserve.attestation.reserve, encumbered,
                                    s.ledger.reserve.supply, now)
  {
    var issued, redeemed, encumbered := Sum(IssuedAmounts(s.rows)), Sum(ConfirmedAmounts(redemptions)), Sum(EncumberedAmounts(s.rows));
    if issued <= U64_MAX && redeemed <= U64_MAX && encumbered <= U64_MAX {
      C.FiguresExactly(C.LedgerTally(issued, redeemed),
                       ReserveState(s.ledger.reserve.attestation, encumbered, s.ledger.reserve.supply), now);
    }
  }

  // ---- Operations of a run ----------------------------------------------------------------

  /** Each operation of a run takes the effect of its call. */
  lemma OnRampOpsTakeEffect(w: World, op: Op)
    requires Good(w)
    ensures op.Webhook? && T.Recordable(op) && op.screen == Ok(D.Fail) && NewBankRef(op.raw).value.Hash() !in w.deposits ==>
              Sum(EncumberedAmounts(Apply(w, op).deposits)) == Sum(EncumberedAmounts(w.deposits)) + op.amount
    ensures op.Retry? && NewBankRef(op.raw).Ok? && NewBankRef(op.raw).value.Hash() in w.deposits ==>
              var h := NewBankRef(op.raw).value.Hash();
              w.deposits[h].state.Screened? && Admitted(w.OnRamp(), w.deposits[h].amount, w.now) ==>
                Apply(w, op).deposits == w.deposits[h := w.deposits[h].(state := D.Issued)] && h in Apply(w, op).ledger.nullifiers
    ensures op.RetryAll? ==> Apply(w, op) == w.WithOnRamp(I.RetryEach(w.OnRamp(), op.held, w.now).0)
    ensures op.Attest? && Sum(EncumberedAmounts(w.deposits)) <= U64_MAX ==>
              E.ReserveIs(Apply(w, op).ledger, op.reserve, w.now, w.ledger.reserve.attestation.ttlSecs,
                          Sum(EncumberedAmounts(w.deposits)), w.ledger.reserve.supply)
  {
    match op
    case Webhook(raw, amount, beneficiary, wallet, screen) =>
      if T.Recordable(op) && screen == Ok(D.Fail) && NewBankRef(raw).value.Hash() !in w.deposits {
        FailedScreen(w, NewBankRef(raw).value, amount, beneficiary, wallet);
      }
    case Retry(raw) =>
      if NewBankRef(raw).Ok? {
        RetryExactly(w, NewBankRef(raw).value);
      }
    case Attest(reserve) => AttestExactly(w.OnRamp(), reserve);
    case _ =>
  }

  lemma OffRampOpsTakeEffect(w: World, op: Op)
    requires Good(w)
    ensures op.Payout? && op.key in w.redemptions && w.redemptions[op.key].state.Escrowed? ==>
              RowSays(Apply(w, op), op.key, R.PayoutQueued) && |Apply(w, op).sent| == |w.sent| + 1
    ensures op.Confirm? && Pending(w, op.key) ==>
              RowSays(Apply(w, op), op.key, R.Confirmed)
              && Apply(w, op).ledger.reserve.supply == w.ledger.reserve.supply - w.redemptions[op.key].amount
    ensures op.Reclaim? && PastBothTimelocks(w, op.key) ==>
              RowSays(Apply(w, op), op.key, R.Reclaimed)
              && Apply(w, op).ledger.BalanceOf(op.key.user) == w.ledger.BalanceOf(op.key.user) + w.redemptions[op.key].amount
  {
    match op
    case Payout(key) => PayoutKeepsGood(w, key);
    case Confirm(key) =>
      ConfirmExactly(w, key);
      KeyedRow(w, key);
    case Reclaim(key) =>
      ReclaimExactly(w, key);
      KeyedRow(w, key);
    case _ =>
  }

  predicate RowSays(w: World, key: R.RedeemKey, state: R.RedemptionState) {
    key in w.redemptions && w.redemptions[key].state == state
  }

  lemma KeyedRow(w: World, key: R.RedeemKey)
    requires Good(w)
    ensures key in w.redemptions ==> w.redemptions[key].Key() == key
  {
  }

  lemma RequestTakesEffect(w: World, user: string, amount: Thb)
    requires Good(w) && 0 < amount <= w.ledger.BalanceOf(user)
    requires R.RedeemKey(user, Successor(MaxSeq(w.redemptions, user))) !in w.redemptions
    ensures RowSays(Apply(w, Request(user, amount)), R.RedeemKey(user, Successor(MaxSeq(w.redemptions, user))), R.Escrowed)
  {
    RequestAllOrNothing(w, user, amount);
  }

  /** A reconciliation that can be made is stored last in the history, with every figure; one that cannot changes nothing. */
  lemma ReconciliationTakesEffect(w: World)
    requires Good(w)
    ensures var issued, encumbered := Sum(IssuedAmounts(w.deposits)), Sum(EncumberedAmounts(w.deposits));
            var after := Apply(w, RunReconciliation);
            if issued <= U64_MAX && encumbered <= U64_MAX
            then |after.history| == |w.history| + 1 && after == w.(history := w.history + [after.history[|w.history|]])
                 && C.FiguresAre(after.history[|w.history|], issued, Sum(ConfirmedAmounts(w.redemptions)),
                                 w.ledger.reserve.attestation.reserve, encumbered, w.ledger.reserve.supply, w.now)
            else after == w
  {
    T.ReportExactly(w);
  }

  lemma OtherOpsTakeEffect(w: World, op: Op)
    requires Good(w)
    ensures op.FundInventory? && op.amount <= w.ledger.BalanceOf(op.user) ==>
              Apply(w, op).ledger.inventory.thbc == w.ledger.inventory.thbc + op.amount
    ensures op.FundGrx? && w.ledger.inventory.grx + op.atoms <= U64_MAX ==>
              Apply(w, op).ledger.inventory.grx == w.ledger.inventory.grx + op.atoms
    ensures op.SetParams? ==> Apply(w, op).ledger.params == op.params
    ensures op.Warp? ==> Apply(w, op).now == op.to && Apply(w, op).ledger.now == op.to
  {
    match op
    case FundInventory(user, amount) => E.FundingExactly(w.ledger, user, amount);
    case FundGrx(atoms) => E.FundingExactly(w.ledger, "", atoms);
    case _ =>
  }
}
