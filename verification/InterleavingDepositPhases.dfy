/**
 * A deposit passes through its phases once: while it is being screened the row says `Observed` and
 * nothing else holds a copy, and no row before `Attested` has been minted for.
 */
module InterleavingDepositPhases {
  import opened Prelude
  import opened BankRefs
  import opened Repositories
  import opened RepoPort
  import D = Deposits
  import opened Interleaving
  import opened InterleavingInvariant
  import opened InterleavingSteps
  import opened InterleavingChanges
  import opened InterleavingTheorems
  import opened InterleavingGaps

  predicate Screening(c: Call, h: Digest) {
    match c
    case AskScreen(d, _) => d.Nullifier() == h
    case SaveScreen(d, _) => d.Nullifier() == h
    case _ => false
  }

  /** A call that asks for the mint or saves that it was made. */
  predicate Minting(c: Call, h: Digest) {
    match c
    case AskMint(d) => d.Nullifier() == h
    case SaveIssued(d) => d.Nullifier() == h
    case _ => false
  }

  /** A call that holds a copy from after the screen. */
  predicate Taken(c: Call, h: Digest) {
    match c
    case ReadReserve(d, _) => d.Nullifier() == h
    case ReadEncumbered(d, _, _) => d.Nullifier() == h
    case SaveAttested(d) => d.Nullifier() == h
    case _ => Minting(c, h)
  }

  predicate DepositIs(s: Sys, h: Digest, state: D.DepositState) {
    h in s.deposits && s.deposits[h].state == state
  }

  predicate ScreensFirst(s: Sys, h: Digest) {
    && (forall i :: i in s.calls && Screening(s.calls[i], h) ==> DepositIs(s, h, D.Observed))
    && (forall i, j :: i in s.calls && j in s.calls && i != j ==> !Screening(s.calls[i], h) || !Screening(s.calls[j], h))
  }

  predicate NobodyTook(s: Sys, h: Digest) {
    h !in Mints(s.log) && forall i :: i in s.calls ==> !Taken(s.calls[i], h)
  }

  predicate NobodyMints(s: Sys, h: Digest) {
    h !in Mints(s.log) && forall i :: i in s.calls ==> !Minting(s.calls[i], h)
  }

  /** The row has been screened, and nothing more. */
  predicate JustScreened(s: Sys, h: Digest) {
    DepositIs(s, h, D.Screened) || DepositIs(s, h, D.Encumbered)
  }

  predicate DepositPhased(s: Sys, h: Digest) {
    && ScreensFirst(s, h) && !DepositIs(s, h, D.Disputed)
    && (DepositIs(s, h, D.Observed) ==> NobodyTook(s, h))
    && (JustScreened(s, h) ==> NobodyMints(s, h))
    && (DepositIs(s, h, D.Encumbered) ==> NobodyTook(s, h))
  }

  // ---- Where a call comes from ------------------------------------------------------------

  lemma ToldScreening(c: Call, a: RepoAnswer, clock: i64, delta: i64, h: Digest)
    requires Told(c, a, clock, delta).Some? && Screening(Told(c, a, clock, delta).value, h)
    ensures c.InsertDeposit? && c.d.Nullifier() == h && a == Done(Ok(Unit))
  {
  }

  lemma PortScreening(s: Sys, id: nat, c: Call, answer: Answer, screen: PortResult<D.ScreenOutcome>, h: Digest)
    requires Asks(c).None? && id in StepPort(s, id, c, answer, screen).calls
    requires Screening(StepPort(s, id, c, answer, screen).calls[id], h)
    ensures Screening(c, h)
  {
  }

  lemma ScreeningComes(s: Sys, e: Event, id: nat, h: Digest)
    requires id in Happen(s, e).calls && Screening(Happen(s, e).calls[id], h)
    ensures (id in s.calls && Screening(s.calls[id], h))
         || (e.Advance? && e.id == id && id in s.calls && s.calls[id].InsertDeposit? && s.calls[id].d.Nullifier() == h
             && h !in s.deposits)
  {
    if e.Advance? && e.id == id && id in s.calls {
      if AsksStore(s, e) {
        ToldScreening(s.calls[id], InMemory(RowsOf(s), Asks(s.calls[id]).value).1, s.clock, s.delta, h);
      } else {
        PortScreening(s, id, s.calls[id], e.answer, e.screen, h);
      }
    } else if !e.Start? || e.id != id {
      OthersStay(s, e, id);
    }
  }

  /** The screen of `h`, passed, is saved with this event. */
  predicate ScreenSaved(s: Sys, e: Event, h: Digest) {
    match Advanced(s, e)
    case Some(SaveScreen(d, _)) => d.Nullifier() == h && h in s.deposits && !d.state.Encumbered?
    case _ => false
  }

  predicate AttestationSaved(s: Sys, e: Event, h: Digest) {
    match Advanced(s, e)
    case Some(SaveAttested(d)) => d.Nullifier() == h && h in s.deposits
    case _ => false
  }

  lemma ToldTaken(c: Call, a: RepoAnswer, clock: i64, delta: i64, h: Digest)
    requires Told(c, a, clock, delta).Some? && Taken(Told(c, a, clock, delta).value, h)
    ensures || Taken(c, h)
            || (c.SaveScreen? && c.d.Nullifier() == h && a == Done(Ok(Unit)) && !c.d.state.Encumbered?)
            || (c.FindHeld? && IsHeld(a) && a.deposit.value.value.Nullifier() == h)
  {
  }

  lemma PortTaken(s: Sys, id: nat, c: Call, answer: Answer, screen: PortResult<D.ScreenOutcome>, h: Digest)
    requires Asks(c).None? && id in StepPort(s, id, c, answer, screen).calls
    requires Taken(StepPort(s, id, c, answer, screen).calls[id], h)
    ensures Taken(c, h)
  {
  }

  /** A copy from after the screen was there, or the screen is saved now, or a retry found the row screened. */
  lemma TakenComes(s: Sys, e: Event, id: nat, h: Digest)
    requires DepositsKeyed(s.deposits) && id in Happen(s, e).calls && Taken(Happen(s, e).calls[id], h)
    ensures (id in s.calls && Taken(s.calls[id], h)) || ScreenSaved(s, e, h) || DepositIs(s, h, D.Screened)
  {
    if e.Advance? && e.id == id && id in s.calls {
      if AsksStore(s, e) {
        ToldTaken(s.calls[id], InMemory(RowsOf(s), Asks(s.calls[id]).value).1, s.clock, s.delta, h);
      } else {
        PortTaken(s, id, s.calls[id], e.answer, e.screen, h);
      }
    } else if !e.Start? || e.id != id {
      OthersStay(s, e, id);
    }
  }

  lemma ToldMinting(c: Call, a: RepoAnswer, clock: i64, delta: i64, h: Digest)
    requires Told(c, a, clock, delta).Some? && Minting(Told(c, a, clock, delta).value, h)
    ensures c.SaveAttested? && c.d.Nullifier() == h && a == Done(Ok(Unit))
  {
  }

  lemma PortMinting(s: Sys, id: nat, c: Call, answer: Answer, screen: PortResult<D.ScreenOutcome>, h: Digest)
    requires Asks(c).None? && id in StepPort(s, id, c, answer, screen).calls
    requires Minting(StepPort(s, id, c, answer, screen).calls[id], h)
    ensures Minting(c, h)
  {
  }

  lemma MintingComes(s: Sys, e: Event, id: nat, h: Digest)
    requires id in Happen(s, e).calls && Minting(Happen(s, e).calls[id], h)
    ensures (id in s.calls && Minting(s.calls[id], h)) || AttestationSaved(s, e, h)
  {
    if e.Advance? && e.id == id && id in s.calls {
      if AsksStore(s, e) {
        ToldMinting(s.calls[id], InMemory(RowsOf(s), Asks(s.calls[id]).value).1, s.clock, s.delta, h);
      } else {
        PortMinting(s, id, s.calls[id], e.answer, e.screen, h);
      }
    } else if !e.Start? || e.id != id {
      OthersStay(s, e, id);
    }
  }

  // ---- Where a row's state comes from -----------------------------------------------------

  lemma UnknownIsIdle(s: Sys, h: Digest)
    requires Inv(s) && h !in s.deposits
    ensures NobodyTook(s, h) && forall i :: i in s.calls ==> !Screening(s.calls[i], h)
  {
    forall i | i in s.calls
      ensures !Screening(s.calls[i], h) && !Taken(s.calls[i], h)
    {
      assert CallOk(s, s.calls[i]);
    }
  }

  lemma ObservedComes(s: Sys, e: Event, h: Digest)
    requires AdvancedOk(s, e) && DepositIs(Happen(s, e), h, D.Observed)
    ensures !ScreenSaved(s, e, h) && (h !in s.deposits || DepositIs(s, h, D.Observed))
  {
    RowsAre(s, e);
  }

  lemma JustScreenedComes(s: Sys, e: Event, h: Digest)
    requires AdvancedOk(s, e) && ScreensFirst(s, h) && JustScreened(Happen(s, e), h)
    ensures !AttestationSaved(s, e, h) && (JustScreened(s, h) || DepositIs(s, h, D.Observed))
  {
    RowsAre(s, e);
  }

  lemma NeverDisputed(s: Sys, e: Event, h: Digest)
    requires AdvancedOk(s, e) && !DepositIs(s, h, D.Disputed)
    ensures !DepositIs(Happen(s, e), h, D.Disputed)
  {
    RowsAre(s, e);
  }

  lemma ObservedStays(s: Sys, e: Event, h: Digest)
    requires AdvancedOk(s, e) && DepositIs(s, h, D.Observed) && NobodyTook(s, h)
    requires Advanced(s, e).Some? ==> !Screening(Advanced(s, e).value, h)
    ensures DepositIs(Happen(s, e), h, D.Observed)
  {
    RowsAre(s, e);
    if Advanced(s, e).Some? {
      assert !Taken(Advanced(s, e).value, h);
    }
  }

  // ---- Every event ------------------------------------------------------------------------

  lemma ObservedPhase(s: Sys, e: Event, h: Digest)
    requires Inv(s) && DepositPhased(s, h) && AdvancedOk(s, e) && DepositIs(Happen(s, e), h, D.Observed)
    ensures NobodyTook(Happen(s, e), h)
  {
    ObservedComes(s, e, h);
    if h !in s.deposits {
      UnknownIsIdle(s, h);
    }
    MintsAfter(s, e, h);
    assert !MintLandsFor(s, e, h);
    forall id | id in Happen(s, e).calls
      ensures !Taken(Happen(s, e).calls[id], h)
    {
      if Taken(Happen(s, e).calls[id], h) {
        TakenComes(s, e, id, h);
      }
    }
  }

  lemma ScreenedPhase(s: Sys, e: Event, h: Digest)
    requires DepositPhased(s, h) && AdvancedOk(s, e) && JustScreened(Happen(s, e), h)
    ensures NobodyMints(Happen(s, e), h)
  {
    JustScreenedComes(s, e, h);
    forall i | i in s.calls
      ensures !Minting(s.calls[i], h)
    {
      if NobodyTook(s, h) {
        assert !Taken(s.calls[i], h);
      }
    }
    MintsAfter(s, e, h);
    assert !MintLandsFor(s, e, h);
    forall id | id in Happen(s, e).calls
      ensures !Minting(Happen(s, e).calls[id], h)
    {
      if Minting(Happen(s, e).calls[id], h) {
        MintingComes(s, e, id, h);
      }
    }
  }

  lemma EncumberedComes(s: Sys, e: Event, h: Digest)
    requires AdvancedOk(s, e) && ScreensFirst(s, h) && DepositIs(Happen(s, e), h, D.Encumbered)
    ensures !ScreenSaved(s, e, h) && (DepositIs(s, h, D.Encumbered) || DepositIs(s, h, D.Observed))
  {
    RowsAre(s, e);
  }

  /** Nothing takes up a deposit that failed its screen. */
  lemma EncumberedPhase(s: Sys, e: Event, h: Digest)
    requires DepositPhased(s, h) && AdvancedOk(s, e) && DepositsKeyed(s.deposits) && DepositIs(Happen(s, e), h, D.Encumbered)
    ensures NobodyTook(Happen(s, e), h)
  {
    EncumberedComes(s, e, h);
    MintsAfter(s, e, h);
    assert !MintLandsFor(s, e, h);
    forall id | id in Happen(s, e).calls
      ensures !Taken(Happen(s, e).calls[id], h)
    {
      if Taken(Happen(s, e).calls[id], h) {
        TakenComes(s, e, id, h);
      }
    }
  }

  lemma ScreeningRow(s: Sys, e: Event, id: nat, h: Digest)
    requires Inv(s) && DepositPhased(s, h) && AdvancedOk(s, e)
    requires id in Happen(s, e).calls && Screening(Happen(s, e).calls[id], h)
    ensures DepositIs(Happen(s, e), h, D.Observed)
  {
    ScreeningComes(s, e, id, h);
    if id in s.calls && Screening(s.calls[id], h) {
      if e.Advance? && e.id == id {
        AdvancedScreening(s, e, h);
      } else {
        ObservedStays(s, e, h);
      }
    } else {
      RowsAre(s, e);
    }
  }

  lemma AdvancedScreening(s: Sys, e: Event, h: Digest)
    requires e.Advance? && e.id in s.calls && Screening(s.calls[e.id], h) && DepositIs(s, h, D.Observed)
    requires e.id in Happen(s, e).calls && Screening(Happen(s, e).calls[e.id], h)
    ensures DepositIs(Happen(s, e), h, D.Observed)
  {
    RowsAre(s, e);
  }

  lemma OneScreening(s: Sys, e: Event, i: nat, j: nat, h: Digest)
    requires Inv(s) && ScreensFirst(s, h) && i != j && i in Happen(s, e).calls && j in Happen(s, e).calls
    ensures !Screening(Happen(s, e).calls[i], h) || !Screening(Happen(s, e).calls[j], h)
  {
    if Screening(Happen(s, e).calls[i], h) && Screening(Happen(s, e).calls[j], h) {
      ScreeningComes(s, e, i, h);
      ScreeningComes(s, e, j, h);
      if h !in s.deposits {
        UnknownIsIdle(s, h);
      }
    }
  }

  lemma DepositPhaseStep(s: Sys, e: Event, h: Digest)
    requires Inv(s) && DepositPhased(s, h)
    ensures DepositPhased(Happen(s, e), h)
  {
    var t := Happen(s, e);
    NeverDisputed(s, e, h);
    forall i | i in t.calls && Screening(t.calls[i], h)
      ensures DepositIs(t, h, D.Observed)
    {
      ScreeningRow(s, e, i, h);
    }
    forall i, j | i in t.calls && j in t.calls && i != j
      ensures !Screening(t.calls[i], h) || !Screening(t.calls[j], h)
    {
      OneScreening(s, e, i, j, h);
    }
    if DepositIs(t, h, D.Observed) {
      ObservedPhase(s, e, h);
    }
    if JustScreened(t, h) {
      ScreenedPhase(s, e, h);
    }
    if DepositIs(t, h, D.Encumbered) {
      EncumberedPhase(s, e, h);
    }
  }

  lemma {:induction false} RunKeepsDepositPhase(s: Sys, events: seq<Event>, h: Digest)
    requires Inv(s) && DepositPhased(s, h)
    ensures DepositPhased(Run(s, events), h)
    decreases |events|
  {
    if events != [] {
      DepositPhaseStep(s, events[0], h);
      HappenKeepsInv(s, events[0]);
      RunKeepsDepositPhase(Happen(s, events[0]), events[1..], h);
    }
  }

  lemma EveryDepositIsPhased(s: Sys, h: Digest)
    requires Reachable(s)
    ensures DepositPhased(s, h)
  {
    var reserve, ttlSecs, now, delta, events :| s == Run(NewSys(reserve, ttlSecs, now, delta), events);
    NewSysInv(reserve, ttlSecs, now, delta);
    RunKeepsDepositPhase(NewSys(reserve, ttlSecs, now, delta), events, h);
  }

  /**
   * In every reachable state a deposit that was minted for says `Attested` or `Issued`: so a mint is
   * unrecorded exactly when its row says `Attested`.
   */
  lemma MintedIsAttestedOrIssued(s: Sys, h: Digest)
    requires Reachable(s)
    ensures h in Mints(s.log) ==> DepositIs(s, h, D.Attested) || DepositIs(s, h, D.Issued)
    ensures h in UnrecordedMints(s) <==> h in Mints(s.log) && DepositIs(s, h, D.Attested)
  {
    ReachableInv(s);
    EveryDepositIsPhased(s, h);
  }
}
