/**
 * Orderly runs: calls on one row never overlap, the ledger answers promptly, and no call dies between
 * asking the ledger and saving what it heard. When all calls are over, records and ledger agree.
 */
module InterleavingOrderly {
  import opened Prelude
  import opened Sums
  import opened Money
  import opened BankRefs
  import opened Repositories
  import opened RepoPort
  import D = Deposits
  import R = Redemptions
  import opened Interleaving
  import opened InterleavingInvariant
  import opened InterleavingSteps
  import opened InterleavingChanges
  import opened InterleavingTheorems
  import opened InterleavingGaps
  import opened InterleavingPhases
  import opened InterleavingDepositPhases

  // ---- What a caller has to see to --------------------------------------------------------

  /** A copy of the deposit under `h`. */
  predicate HoldsDeposit(c: Call, h: Digest) {
    Screening(c, h) || Taken(c, h)
  }

  /** A copy of the redemption under `k` that is, or is on its way to be, written back. */
  predicate Writer(c: Call, k: R.RedeemKey) {
    match c
    case SavePayout(r) => r.Key() == k
    case SaveConfirm(r) => r.Key() == k
    case AskReturn(r) => r.Key() == k
    case SaveReclaim(r) => r.Key() == k
    case _ => Requesting(c, k)
  }

  predicate Burner(c: Call, k: R.RedeemKey) {
    c.AskBurn? && c.r.Key() == k
  }

  predicate HoldsRedemption(c: Call, k: R.RedeemKey) {
    Writer(c, k) || Burner(c, k)
  }

  /** No two calls in flight hold copies of one row. */
  ghost predicate NoOverlap(s: Sys) {
    && (forall h, i, j :: i in s.calls && j in s.calls && i != j ==> !HoldsDeposit(s.calls[i], h) || !HoldsDeposit(s.calls[j], h))
    && (forall k, i, j :: i in s.calls && j in s.calls && i != j ==> !HoldsRedemption(s.calls[i], k) || !HoldsRedemption(s.calls[j], k))
  }

  /** Between the ledger's answer and the save of it. */
  predicate Owing(c: Call) {
    c.SaveIssued? || c.SaveEscrow? || c.SaveConfirm? || c.SaveReclaim?
  }

  predicate OrderlyEvent(s: Sys, e: Event) {
    && (e.Advance? ==> e.answer.Prompt?)
    && (e.Crash? && e.id in s.calls ==> !Owing(s.calls[e.id]))
  }

  ghost predicate OrderlyRun(s: Sys, events: seq<Event>)
    decreases |events|
  {
    NoOverlap(s) && (events == [] || (OrderlyEvent(s, events[0]) && OrderlyRun(Happen(s, events[0]), events[1..])))
  }

  // ---- What then holds --------------------------------------------------------------------

  predicate SavingIssued(s: Sys, h: Digest) {
    exists i :: i in s.calls && s.calls[i].SaveIssued? && s.calls[i].d.Nullifier() == h
  }

  /** An unrecorded mint is about to be recorded, and no copy from before the mint outlives its record. */
  predicate TidyDeposit(s: Sys, h: Digest) {
    && (h in UnrecordedMints(s) ==> SavingIssued(s, h))
    && (forall i :: i in s.calls && HoldsDeposit(s.calls[i], h) && !s.calls[i].SaveIssued? ==> !Says(s.deposits, h))
  }

  predicate SavingConfirm(s: Sys, k: R.RedeemKey) {
    exists i :: i in s.calls && s.calls[i].SaveConfirm? && s.calls[i].r.Key() == k
  }

  predicate SavingReclaim(s: Sys, k: R.RedeemKey) {
    exists i :: i in s.calls && s.calls[i].SaveReclaim? && s.calls[i].r.Key() == k
  }

  /** The call that has heard that its escrow is confirmed. */
  predicate SavingEscrow(s: Sys, k: R.RedeemKey) {
    exists i :: i in s.calls && s.calls[i].SaveEscrow? && s.calls[i].r.Key() == k && s.calls[i].r.state.Escrowed?
  }

  predicate Open(s: Sys, k: R.RedeemKey) {
    RowIs(s, k, R.Requested) || RowIs(s, k, R.Escrowed) || RowIs(s, k, R.PayoutQueued)
  }

  /** The row does not say that the escrow happened. */
  predicate Unescrowed(s: Sys, k: R.RedeemKey) {
    RowIs(s, k, R.Requested) || RowIs(s, k, R.Failed)
  }

  predicate CopiesFresh(s: Sys, k: R.RedeemKey) {
    && (forall i :: i in s.calls && Writer(s.calls[i], k) ==> Open(s, k))
    && (forall i :: i in s.calls && Burner(s.calls[i], k) ==> RowIs(s, k, s.calls[i].r.state))
  }

  predicate TidyRedemption(s: Sys, k: R.RedeemKey) {
    && (k in UnrecordedBurns(s) ==> SavingConfirm(s, k))
    && (k in UnrecordedReturns(s) ==> SavingReclaim(s, k))
    && (k in Moves(s.log, Escrowing) && Unescrowed(s, k) ==> SavingEscrow(s, k))
    && CopiesFresh(s, k)
  }

  // ---- Calls that stay, and calls that move -----------------------------------------------

  /** A call that owes a save is still there after an orderly event that does not advance it. */
  lemma OwingStays(s: Sys, e: Event, id: nat)
    requires OrderlyEvent(s, e) && id in s.calls && Owing(s.calls[id]) && !(e.Advance? && e.id == id)
    ensures id in Happen(s, e).calls && Happen(s, e).calls[id] == s.calls[id]
  {
    if e.Advance? && e.id in s.calls && !AsksStore(s, e) {
      PortOthers(s, e.id, s.calls[e.id], e.answer, e.screen, id);
    }
  }

  // ---- Deposits ---------------------------------------------------------------------------

  /** A prompt mint that lands is about to be saved. */
  lemma MintIsSaved(s: Sys, e: Event, h: Digest)
    requires AdvancedOk(s, e) && OrderlyEvent(s, e) && MintLandsFor(s, e, h)
    ensures SavingIssued(Happen(s, e), h)
  {
    var d := s.calls[e.id].d;
    MintIs(s, e.id, d, e.answer, e.screen);
    assert Happen(s, e).calls[e.id] == SaveIssued(d.(state := D.Issued));
  }

  lemma UnrecordedMintIsOwed(s: Sys, e: Event, h: Digest)
    requires Inv(s) && AdvancedOk(s, e) && OrderlyEvent(s, e) && TidyDeposit(s, h) && h in UnrecordedMints(Happen(s, e))
    ensures SavingIssued(Happen(s, e), h)
  {
    MintGapExactly(s, e, h);
    NoStaleDepositSave(s, e, h);
    if MintLandsFor(s, e, h) {
      MintIsSaved(s, e, h);
    } else {
      OwedIssuedStays(s, e, h);
    }
  }

  lemma NoStaleDepositSave(s: Sys, e: Event, h: Digest)
    requires TidyDeposit(s, h)
    ensures !StaleDepositSave(s, e, h)
  {
    if StaleDepositSave(s, e, h) {
      assert HoldsDeposit(s.calls[e.id], h);
    }
  }

  lemma OwedIssuedStays(s: Sys, e: Event, h: Digest)
    requires OrderlyEvent(s, e) && SavingIssued(s, h) && !MintSaved(s, e, h)
    ensures SavingIssued(Happen(s, e), h)
  {
    var i :| i in s.calls && s.calls[i].SaveIssued? && s.calls[i].d.Nullifier() == h;
    OwingStays(s, e, i);
  }

  /** A copy from before the mint was there, or is of a row that is not `Issued`. */
  lemma EarlyCopyComes(s: Sys, e: Event, id: nat, h: Digest)
    requires DepositsKeyed(s.deposits) && id in Happen(s, e).calls
    requires HoldsDeposit(Happen(s, e).calls[id], h) && !Happen(s, e).calls[id].SaveIssued?
    ensures (id in s.calls && HoldsDeposit(s.calls[id], h) && !s.calls[id].SaveIssued?)
         || h !in s.deposits || ScreenSaved(s, e, h) || DepositIs(s, h, D.Screened)
  {
    if Screening(Happen(s, e).calls[id], h) {
      ScreeningComes(s, e, id, h);
    } else {
      TakenComes(s, e, id, h);
      if !(e.Advance? && e.id == id) && !(e.Start? && e.id == id) {
        OthersStay(s, e, id);
      }
    }
  }

  lemma EarlyCopyIsFresh(s: Sys, e: Event, id: nat, h: Digest)
    requires Inv(s) && AdvancedOk(s, e) && NoOverlap(s) && TidyDeposit(s, h) && id in Happen(s, e).calls
    requires HoldsDeposit(Happen(s, e).calls[id], h) && !Happen(s, e).calls[id].SaveIssued?
    ensures !Says(Happen(s, e).deposits, h)
  {
    IssuedAfter(s, e, h);
    EarlyCopyComes(s, e, id, h);
    if MintSaved(s, e, h) {
      assert HoldsDeposit(s.calls[e.id], h);
      assert DepositCopy(s, s.calls[e.id].d);
      SavedIssuedEnds(s, e);
      OthersStay(s, e, id);
    } else if ScreenSaved(s, e, h) {
      assert HoldsDeposit(s.calls[e.id], h);
    }
  }

  lemma SavedIssuedEnds(s: Sys, e: Event)
    requires e.Advance? && e.id in s.calls && s.calls[e.id].SaveIssued?
    ensures e.id !in Happen(s, e).calls
  {
  }

  lemma TidyDepositStep(s: Sys, e: Event, h: Digest)
    requires Inv(s) && NoOverlap(s) && OrderlyEvent(s, e) && TidyDeposit(s, h)
    ensures TidyDeposit(Happen(s, e), h)
  {
    assert AdvancedOk(s, e);
    if h in UnrecordedMints(Happen(s, e)) {
      UnrecordedMintIsOwed(s, e, h);
    }
    forall i | i in Happen(s, e).calls && HoldsDeposit(Happen(s, e).calls[i], h) && !Happen(s, e).calls[i].SaveIssued?
      ensures !Says(Happen(s, e).deposits, h)
    {
      EarlyCopyIsFresh(s, e, i, h);
    }
  }

  // ---- Redemptions ------------------------------------------------------------------------

  lemma ToldWriter(c: Call, a: RepoAnswer, clock: i64, delta: i64, k: R.RedeemKey)
    requires Told(c, a, clock, delta).Some? && Writer(Told(c, a, clock, delta).value, k)
    ensures || (c.InsertRedemption? && c.r.Key() == k && a == Done(Ok(Unit)))
            || ((c.FindPayout? || c.FindReclaim?) && Found(a) && a.redemption.value.Key() == k
                && a.redemption.value.state.IsPending())
  {
  }

  lemma TokenWriter(s: Sys, id: nat, c: Call, answer: Answer, screen: PortResult<D.ScreenOutcome>, k: R.RedeemKey)
    requires (c.AskEscrow? || c.AskBurn? || c.AskReturn?) && id in StepPort(s, id, c, answer, screen).calls
    requires Writer(StepPort(s, id, c, answer, screen).calls[id], k)
    ensures Writer(c, k) || (Burner(c, k) && c.r.state.IsPending())
  {
  }

  lemma OtherWriter(s: Sys, id: nat, c: Call, answer: Answer, screen: PortResult<D.ScreenOutcome>, k: R.RedeemKey)
    requires !c.AskEscrow? && !c.AskBurn? && !c.AskReturn? && id in StepPort(s, id, c, answer, screen).calls
    ensures !Writer(StepPort(s, id, c, answer, screen).calls[id], k)
  {
  }

  lemma PortWriter(s: Sys, id: nat, c: Call, answer: Answer, screen: PortResult<D.ScreenOutcome>, k: R.RedeemKey)
    requires Asks(c).None? && id in StepPort(s, id, c, answer, screen).calls
    requires Writer(StepPort(s, id, c, answer, screen).calls[id], k)
    ensures Writer(c, k) || (Burner(c, k) && c.r.state.IsPending())
  {
    if c.AskEscrow? || c.AskBurn? || c.AskReturn? {
      TokenWriter(s, id, c, answer, screen, k);
    } else {
      OtherWriter(s, id, c, answer, screen, k);
    }
  }

  /** The call that the event advances, when it is `id`. */
  predicate Steps(s: Sys, e: Event, id: nat) {
    e.Advance? && e.id == id && id in s.calls
  }

  /** A writer was one, or has just inserted the row, or found it pending, or burned its pending copy. */
  lemma WriterComes(s: Sys, e: Event, id: nat, k: R.RedeemKey)
    requires RedemptionsKeyed(s.redemptions) && id in Happen(s, e).calls && Writer(Happen(s, e).calls[id], k)
    ensures || (id in s.calls && Writer(s.calls[id], k) && (Steps(s, e, id) ==> !AsksStore(s, e)))
            || (Steps(s, e, id) && s.calls[id].InsertRedemption? && s.calls[id].r.Key() == k && k !in s.redemptions)
            || (Steps(s, e, id) && AsksStore(s, e) && Reads(Asks(s.calls[id]).value)
                && k in s.redemptions && s.redemptions[k].state.IsPending())
            || (Steps(s, e, id) && Burner(s.calls[id], k) && s.calls[id].r.state.IsPending())
  {
    if Steps(s, e, id) {
      if AsksStore(s, e) {
        ToldWriter(s.calls[id], InMemory(RowsOf(s), Asks(s.calls[id]).value).1, s.clock, s.delta, k);
      } else {
        PortWriter(s, id, s.calls[id], e.answer, e.screen, k);
      }
    } else if !e.Start? || e.id != id {
      OthersStay(s, e, id);
    }
  }

  lemma ToldBurner(c: Call, a: RepoAnswer, clock: i64, delta: i64)
    requires Told(c, a, clock, delta).Some? && Told(c, a, clock, delta).value.AskBurn?
    ensures c.FindConfirm? && Found(a) && a.redemption.value == Told(c, a, clock, delta).value.r
  {
  }

  lemma PortBurner(s: Sys, id: nat, c: Call, answer: Answer, screen: PortResult<D.ScreenOutcome>)
    requires Asks(c).None? && id in StepPort(s, id, c, answer, screen).calls
    ensures !StepPort(s, id, c, answer, screen).calls[id].AskBurn?
  {
  }

  /** A burner was one, or has just read the row. */
  lemma BurnerComes(s: Sys, e: Event, id: nat, k: R.RedeemKey)
    requires RedemptionsKeyed(s.redemptions) && id in Happen(s, e).calls && Burner(Happen(s, e).calls[id], k)
    ensures || (id in s.calls && s.calls[id] == Happen(s, e).calls[id] && !Steps(s, e, id))
            || (Steps(s, e, id) && AsksStore(s, e) && Reads(Asks(s.calls[id]).value)
                && k in s.redemptions && s.redemptions[k] == Happen(s, e).calls[id].r)
  {
    if Steps(s, e, id) {
      if AsksStore(s, e) {
        ToldBurner(s.calls[id], InMemory(RowsOf(s), Asks(s.calls[id]).value).1, s.clock, s.delta);
      } else {
        PortBurner(s, id, s.calls[id], e.answer, e.screen);
      }
    } else if !e.Start? || e.id != id {
      OthersStay(s, e, id);
    }
  }

  /** Only a save by a call that holds a copy changes a row that is there; and that call is then no writer. */
  lemma RowChanges(s: Sys, e: Event, k: R.RedeemKey)
    requires k in s.redemptions
    ensures Happen(s, e).redemptions.Keys >= s.redemptions.Keys
    ensures Happen(s, e).redemptions[k] != s.redemptions[k] ==>
              Advanced(s, e).Some? && Writer(Advanced(s, e).value, k) && AsksStore(s, e) && !Reads(Asks(s.calls[e.id]).value)
  {
    RowsAre(s, e);
  }

  lemma OpenAfter(s: Sys, e: Event, id: nat, k: R.RedeemKey)
    requires Inv(s) && AdvancedOk(s, e) && NoOverlap(s) && CopiesFresh(s, k)
    requires id in Happen(s, e).calls && Writer(Happen(s, e).calls[id], k)
    ensures Open(Happen(s, e), k)
  {
    WriterComes(s, e, id, k);
    if k in s.redemptions {
      RowChanges(s, e, k);
      assert Open(s, k);
      if Happen(s, e).redemptions[k] != s.redemptions[k] {
        assert HoldsRedemption(s.calls[e.id], k);
      }
    } else {
      NewRowIsOpen(s, e, id, k);
    }
  }

  lemma NewRowIsOpen(s: Sys, e: Event, id: nat, k: R.RedeemKey)
    requires AdvancedOk(s, e) && k !in s.redemptions
    requires Steps(s, e, id) && s.calls[id].InsertRedemption? && s.calls[id].r.Key() == k
    ensures RowIs(Happen(s, e), k, R.Requested)
  {
    RowsAre(s, e);
  }

  lemma BurnerFreshAfter(s: Sys, e: Event, id: nat, k: R.RedeemKey)
    requires Inv(s) && NoOverlap(s) && CopiesFresh(s, k)
    requires id in Happen(s, e).calls && Burner(Happen(s, e).calls[id], k)
    ensures RowIs(Happen(s, e), k, Happen(s, e).calls[id].r.state)
  {
    BurnerComes(s, e, id, k);
    RowChanges(s, e, k);
    if Happen(s, e).redemptions[k] != s.redemptions[k] {
      assert HoldsRedemption(s.calls[e.id], k);
    }
  }

  lemma CopiesStayFresh(s: Sys, e: Event, k: R.RedeemKey)
    requires Inv(s) && AdvancedOk(s, e) && NoOverlap(s) && CopiesFresh(s, k)
    ensures CopiesFresh(Happen(s, e), k)
  {
    var t := Happen(s, e);
    forall i | i in t.calls && Writer(t.calls[i], k)
      ensures Open(t, k)
    {
      OpenAfter(s, e, i, k);
    }
    forall i | i in t.calls && Burner(t.calls[i], k)
      ensures RowIs(t, k, t.calls[i].r.state)
    {
      BurnerFreshAfter(s, e, i, k);
    }
  }

  /** The row of a live escrow is pending, unless it does not yet say that the escrow happened. */
  lemma LiveRow(s: Sys, k: R.RedeemKey)
    requires StoreInv(s) && s.ledger.LiveEscrow(k)
    ensures k in Moves(s.log, Escrowing) && k in s.redemptions
    ensures Unescrowed(s, k) || s.redemptions[k].state.IsPending()
  {
    assert k in Moves(s.log, Escrowing) && k !in Moves(s.log, Burning) && k !in Moves(s.log, Returning);
    assert RedemptionBacked(s.log, s.redemptions[k]) && s.redemptions[k].Key() == k;
  }

  /** Nobody who is about to save an escrow overlaps a burner. */
  lemma BurnerIsAlone(s: Sys, id: nat, k: R.RedeemKey)
    requires NoOverlap(s) && id in s.calls && Burner(s.calls[id], k)
    ensures !SavingEscrow(s, k)
  {
    forall i | i in s.calls && s.calls[i].SaveEscrow? && s.calls[i].r.Key() == k
      ensures false
    {
      assert HoldsRedemption(s.calls[i], k) && HoldsRedemption(s.calls[id], k);
    }
  }

  /** So a fresh copy of a live escrow's row is pending. */
  lemma LiveCopyIsPending(s: Sys, id: nat, k: R.RedeemKey)
    requires StoreInv(s) && NoOverlap(s) && TidyRedemption(s, k) && id in s.calls && Burner(s.calls[id], k)
    requires s.ledger.LiveEscrow(k)
    ensures s.calls[id].r.state.IsPending()
  {
    LiveRow(s, k);
    BurnerIsAlone(s, id, k);
  }

  lemma BurnIsSaved(s: Sys, e: Event, k: R.RedeemKey)
    requires OrderlyEvent(s, e) && BurnLandsFor(s, e, k) && s.calls[e.id].r.state.IsPending()
    ensures SavingConfirm(Happen(s, e), k)
  {
    var r := s.calls[e.id].r;
    BurnIs(s, e.id, r, e.answer, e.screen);
    assert IsConfirmed(BurnAnswer(s, k, e.answer));
    assert Happen(s, e).calls[e.id] == SaveConfirm(r.(state := R.Confirmed));
  }

  lemma NoStaleSave(s: Sys, e: Event, k: R.RedeemKey)
    requires CopiesFresh(s, k)
    ensures !StaleRedemptionSave(s, e, k) && !StaleReturnSave(s, e, k)
  {
    if StaleRedemptionSave(s, e, k) || StaleReturnSave(s, e, k) {
      assert Writer(s.calls[e.id], k);
    }
  }

  lemma OwedConfirmStays(s: Sys, e: Event, k: R.RedeemKey)
    requires OrderlyEvent(s, e) && SavingConfirm(s, k) && !BurnSaved(s, e, k)
    ensures SavingConfirm(Happen(s, e), k)
  {
    var i :| i in s.calls && s.calls[i].SaveConfirm? && s.calls[i].r.Key() == k;
    OwingStays(s, e, i);
  }

  lemma OwedReclaimStays(s: Sys, e: Event, k: R.RedeemKey)
    requires OrderlyEvent(s, e) && SavingReclaim(s, k) && !ReturnSaved(s, e, k)
    ensures SavingReclaim(Happen(s, e), k)
  {
    var i :| i in s.calls && s.calls[i].SaveReclaim? && s.calls[i].r.Key() == k;
    OwingStays(s, e, i);
  }

  lemma LandingBurnIsOwed(s: Sys, e: Event, k: R.RedeemKey)
    requires StoreInv(s) && NoOverlap(s) && OrderlyEvent(s, e) && TidyRedemption(s, k) && BurnLandsFor(s, e, k)
    ensures SavingConfirm(Happen(s, e), k)
  {
    LiveCopyIsPending(s, e.id, k);
    BurnIsSaved(s, e, k);
  }

  lemma UnrecordedBurnIsOwed(s: Sys, e: Event, k: R.RedeemKey)
    requires Inv(s) && NoOverlap(s) && OrderlyEvent(s, e) && TidyRedemption(s, k) && k in UnrecordedBurns(Happen(s, e))
    ensures SavingConfirm(Happen(s, e), k)
  {
    BurnGapExactly(s, e, k);
    NoStaleSave(s, e, k);
    if BurnLandsFor(s, e, k) {
      LandingBurnIsOwed(s, e, k);
    } else {
      OwedConfirmStays(s, e, k);
    }
  }

  lemma ReturnIsSaved(s: Sys, e: Event, k: R.RedeemKey)
    requires OrderlyEvent(s, e) && ReturnLandsFor(s, e, k)
    ensures SavingReclaim(Happen(s, e), k)
  {
    var r := s.calls[e.id].r;
    ReturnIs(s, e.id, r, e.answer, e.screen);
    assert Happen(s, e).calls[e.id] == SaveReclaim(r);
  }

  lemma UnrecordedReturnIsOwed(s: Sys, e: Event, k: R.RedeemKey)
    requires Inv(s) && OrderlyEvent(s, e) && TidyRedemption(s, k) && k in UnrecordedReturns(Happen(s, e))
    ensures SavingReclaim(Happen(s, e), k)
  {
    ReturnGapExactly(s, e, k);
    NoStaleSave(s, e, k);
    if ReturnLandsFor(s, e, k) {
      ReturnIsSaved(s, e, k);
    } else {
      OwedReclaimStays(s, e, k);
    }
  }

  predicate EscrowLandsFor(s: Sys, e: Event, k: R.RedeemKey) {
    match Advanced(s, e)
    case Some(AskEscrow(r)) => r.Key() == k && EscrowLanded(s, r, e.answer)
    case _ => false
  }

  lemma EscrowsAfter(s: Sys, e: Event, k: R.RedeemKey)
    ensures k in Moves(Happen(s, e).log, Escrowing) <==> k in Moves(s.log, Escrowing) || EscrowLandsFor(s, e, k)
  {
    LogIs(s, e);
    if EffectOf(s, e).Some? {
      MovesAppend(s.log, EffectOf(s, e).value);
    }
  }

  lemma EscrowIsSaved(s: Sys, e: Event, k: R.RedeemKey)
    requires AdvancedOk(s, e) && OrderlyEvent(s, e) && EscrowLandsFor(s, e, k)
    ensures SavingEscrow(Happen(s, e), k)
  {
    var r := s.calls[e.id].r;
    EscrowIs(s, e.id, r, e.answer, e.screen);
    assert IsConfirmed(EscrowAnswer(s, r, e.answer));
    assert Happen(s, e).calls[e.id] == SaveEscrow(r.(state := R.Escrowed, escrowedAt := Some(s.clock)));
  }

  /** A row becomes `Requested` or `Failed` only by its insertion or by its request's own save. */
  lemma UnescrowedComes(s: Sys, e: Event, k: R.RedeemKey)
    requires AdvancedOk(s, e) && RequestsFirst(s, k) && Unescrowed(Happen(s, e), k)
    ensures || k !in s.redemptions
            || (Unescrowed(s, k) && !(match Advanced(s, e) case Some(SaveEscrow(r)) => r.Key() == k && r.state.Escrowed? case _ => false))
  {
    RowsAre(s, e);
  }

  lemma LandedEscrowIsOwed(s: Sys, e: Event, k: R.RedeemKey)
    requires Inv(s) && AdvancedOk(s, e) && RequestsFirst(s, k) && OrderlyEvent(s, e) && TidyRedemption(s, k)
    requires k in Moves(Happen(s, e).log, Escrowing) && Unescrowed(Happen(s, e), k)
    ensures SavingEscrow(Happen(s, e), k)
  {
    EscrowsAfter(s, e, k);
    UnescrowedComes(s, e, k);
    if EscrowLandsFor(s, e, k) {
      EscrowIsSaved(s, e, k);
    } else {
      var i :| i in s.calls && s.calls[i].SaveEscrow? && s.calls[i].r.Key() == k && s.calls[i].r.state.Escrowed?;
      OwingStays(s, e, i);
    }
  }

  lemma TidyRedemptionStep(s: Sys, e: Event, k: R.RedeemKey)
    requires Inv(s) && Phased(s, k) && NoOverlap(s) && OrderlyEvent(s, e) && TidyRedemption(s, k)
    ensures TidyRedemption(Happen(s, e), k)
  {
    assert AdvancedOk(s, e);
    CopiesStayFresh(s, e, k);
    if k in UnrecordedBurns(Happen(s, e)) {
      UnrecordedBurnIsOwed(s, e, k);
    }
    if k in UnrecordedReturns(Happen(s, e)) {
      UnrecordedReturnIsOwed(s, e, k);
    }
    if k in Moves(Happen(s, e).log, Escrowing) && Unescrowed(Happen(s, e), k) {
      LandedEscrowIsOwed(s, e, k);
    }
  }

  // ---- Whole runs -------------------------------------------------------------------------

  lemma {:induction false} OrderlyDeposits(s: Sys, events: seq<Event>, h: Digest)
    requires Inv(s) && OrderlyRun(s, events) && TidyDeposit(s, h)
    ensures TidyDeposit(Run(s, events), h)
    decreases |events|
  {
    if events != [] {
      TidyDepositStep(s, events[0], h);
      HappenKeepsInv(s, events[0]);
      OrderlyDeposits(Happen(s, events[0]), events[1..], h);
    }
  }

  lemma {:induction false} OrderlyRedemptions(s: Sys, events: seq<Event>, k: R.RedeemKey)
    requires Inv(s) && Phased(s, k) && OrderlyRun(s, events) && TidyRedemption(s, k)
    ensures TidyRedemption(Run(s, events), k)
    decreases |events|
  {
    if events != [] {
      TidyRedemptionStep(s, events[0], k);
      PhaseStep(s, events[0], k);
      HappenKeepsInv(s, events[0]);
      OrderlyRedemptions(Happen(s, events[0]), events[1..], k);
    }
  }

  /**
   * An orderly run that has come to rest leaves nothing unrecorded, neither mint nor burn nor return, and
   * the supply is what the records say.
   */
  lemma OrderlyRunsDoNotDrift(reserve: Thb, ttlSecs: i64, now: i64, delta: i64, events: seq<Event>)
    requires OrderlyRun(NewSys(reserve, ttlSecs, now, delta), events)
    requires Run(NewSys(reserve, ttlSecs, now, delta), events).calls == map[]
    ensures var end := Run(NewSys(reserve, ttlSecs, now, delta), events);
            && UnrecordedMints(end) == map[] && UnrecordedBurns(end) == map[] && UnrecordedReturns(end) == map[]
            && end.ledger.reserve.supply == Sum(IssuedAmounts(end.deposits)) - Sum(ConfirmedAmounts(end.redemptions))
  {
    var start := NewSys(reserve, ttlSecs, now, delta);
    var end := Run(start, events);
    NewSysInv(reserve, ttlSecs, now, delta);
    forall h
      ensures h !in UnrecordedMints(end)
    {
      OrderlyDeposits(start, events, h);
    }
    forall k
      ensures k !in UnrecordedBurns(end) && k !in UnrecordedReturns(end)
    {
      OrderlyRedemptions(start, events, k);
    }
    assert UnrecordedMints(end) == map[] && UnrecordedBurns(end) == map[] && UnrecordedReturns(end) == map[];
    SupplyGap(end);
  }
}
