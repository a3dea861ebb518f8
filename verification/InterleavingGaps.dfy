/** Exactly which events open and close a gap between ledger and records, and which runs end without one. */
module InterleavingGaps {
  import opened Prelude
  import opened Sums
  import opened Money
  import opened BankRefs
  import opened Repositories
  import R = Redemptions
  import opened Interleaving
  import opened InterleavingInvariant
  import opened InterleavingSteps
  import opened InterleavingChanges
  import opened InterleavingTheorems

  // ---- The events -------------------------------------------------------------------------

  /** The call that `e` advances. */
  function Advanced(s: Sys, e: Event): Option<Call> {
    if e.Advance? && e.id in s.calls then Some(s.calls[e.id]) else None
  }

  /** The copies that the advanced call holds are sound. */
  predicate AdvancedOk(s: Sys, e: Event) {
    Advanced(s, e).Some? ==> CallOk(s, Advanced(s, e).value)
  }

  predicate MintLandsFor(s: Sys, e: Event, h: Digest) {
    match Advanced(s, e)
    case Some(AskMint(d)) => d.Nullifier() == h && MintLanded(s, d, e.answer)
    case _ => false
  }

  /** A copy from before the mint is written over a row that says `Issued`. */
  predicate StaleDepositSave(s: Sys, e: Event, h: Digest) {
    && h in s.deposits && s.deposits[h].state.Issued?
    && match Advanced(s, e)
       case Some(SaveScreen(d, _)) => d.Nullifier() == h
       case Some(SaveAttested(d)) => d.Nullifier() == h
       case _ => false
  }

  predicate MintSaved(s: Sys, e: Event, h: Digest) {
    match Advanced(s, e)
    case Some(SaveIssued(d)) => d.Nullifier() == h
    case _ => false
  }

  predicate BurnLandsFor(s: Sys, e: Event, k: R.RedeemKey) {
    match Advanced(s, e)
    case Some(AskBurn(r)) => r.Key() == k && BurnLanded(s, k, e.answer)
    case _ => false
  }

  /** A copy from before the confirmation is written over a row that says `Confirmed`. */
  predicate StaleRedemptionSave(s: Sys, e: Event, k: R.RedeemKey) {
    && k in s.redemptions && s.redemptions[k].state.Confirmed?
    && match Advanced(s, e)
       case Some(SaveEscrow(r)) => r.Key() == k
       case Some(SavePayout(r)) => r.Key() == k
       case Some(SaveReclaim(r)) => r.Key() == k
       case _ => false
  }

  predicate BurnSaved(s: Sys, e: Event, k: R.RedeemKey) {
    match Advanced(s, e)
    case Some(SaveConfirm(r)) => r.Key() == k
    case _ => false
  }

  predicate ReturnLandsFor(s: Sys, e: Event, k: R.RedeemKey) {
    match Advanced(s, e)
    case Some(AskReturn(r)) => r.Key() == k && ReturnLanded(s, k, e.answer)
    case _ => false
  }

  /** A copy from before the return is written over a row that says `Reclaimed`. */
  predicate StaleReturnSave(s: Sys, e: Event, k: R.RedeemKey) {
    && SaysReclaimed(s.redemptions, k)
    && match Advanced(s, e)
       case Some(SaveEscrow(r)) => r.Key() == k
       case Some(SavePayout(r)) => r.Key() == k
       case Some(SaveConfirm(r)) => r.Key() == k
       case _ => false
  }

  predicate ReturnSaved(s: Sys, e: Event, k: R.RedeemKey) {
    match Advanced(s, e)
    case Some(SaveReclaim(r)) => r.Key() == k
    case _ => false
  }

  predicate OpensReturn(s: Sys, e: Event, k: R.RedeemKey) {
    ReturnLandsFor(s, e, k) || StaleReturnSave(s, e, k)
  }

  predicate OpensMint(s: Sys, e: Event, h: Digest) {
    MintLandsFor(s, e, h) || StaleDepositSave(s, e, h)
  }

  predicate OpensBurn(s: Sys, e: Event, k: R.RedeemKey) {
    BurnLandsFor(s, e, k) || StaleRedemptionSave(s, e, k)
  }

  // ---- One event --------------------------------------------------------------------------

  lemma MintsAfter(s: Sys, e: Event, h: Digest)
    ensures h in Mints(Happen(s, e).log) <==> h in Mints(s.log) || MintLandsFor(s, e, h)
  {
    LogIs(s, e);
    if EffectOf(s, e).Some? {
      MintsAppend(s.log, EffectOf(s, e).value);
    }
  }

  predicate Says(rows: DepositRows, h: Digest) {
    h in rows && rows[h].state.Issued?
  }

  lemma IssuedAfter(s: Sys, e: Event, h: Digest)
    requires AdvancedOk(s, e)
    ensures Says(Happen(s, e).deposits, h) <==> MintSaved(s, e, h) || (Says(s.deposits, h) && !StaleDepositSave(s, e, h))
  {
    RowsAre(s, e);
  }

  /** A mint is unrecorded after an event exactly if the event opened the gap, or it was open and not closed. */
  lemma MintGapExactly(s: Sys, e: Event, h: Digest)
    requires Inv(s)
    ensures h in UnrecordedMints(Happen(s, e))
       <==> OpensMint(s, e, h) || (h in UnrecordedMints(s) && !MintSaved(s, e, h))
  {
    MintsAfter(s, e, h);
    IssuedAfter(s, e, h);
    MintGapCases(s, e, h);
  }

  /** Where a mint lands nothing is recorded yet, and what is saved as issued was minted. */
  lemma MintGapCases(s: Sys, e: Event, h: Digest)
    requires Inv(s)
    ensures MintLandsFor(s, e, h) ==> h !in Mints(s.log) && !Says(s.deposits, h)
    ensures Says(s.deposits, h) || MintSaved(s, e, h) ==> h in Mints(s.log)
  {
    if e.Advance? && e.id in s.calls {
      assert CallOk(s, s.calls[e.id]);
    }
    if Says(s.deposits, h) {
      assert DepositBacked(s.log, s.deposits[h]);
    }
  }

  lemma BurnsAfter(s: Sys, e: Event, k: R.RedeemKey)
    ensures k in Moves(Happen(s, e).log, Burning) <==> k in Moves(s.log, Burning) || BurnLandsFor(s, e, k)
  {
    LogIs(s, e);
    if EffectOf(s, e).Some? {
      MovesAppend(s.log, EffectOf(s, e).value);
    }
  }

  predicate SaysConfirmed(rows: RedemptionRows, k: R.RedeemKey) {
    k in rows && rows[k].state.Confirmed?
  }

  /** Which state a written row says. */
  lemma WrittenConfirmed(s: Sys, e: Event, k: R.RedeemKey)
    requires AdvancedOk(s, e) && WrittenRedemption(s, e).Some? && WrittenRedemption(s, e).value.Key() == k
    ensures WrittenRedemption(s, e).value.state.Confirmed? <==> BurnSaved(s, e, k)
    ensures SaysConfirmed(s.redemptions, k) ==> BurnSaved(s, e, k) || StaleRedemptionSave(s, e, k)
  {
  }

  lemma SavesWrite(s: Sys, e: Event, k: R.RedeemKey)
    requires AdvancedOk(s, e) && (BurnSaved(s, e, k) || StaleRedemptionSave(s, e, k))
    ensures WrittenRedemption(s, e).Some? && WrittenRedemption(s, e).value.Key() == k
  {
  }

  lemma ConfirmedAfter(s: Sys, e: Event, k: R.RedeemKey)
    requires AdvancedOk(s, e)
    ensures SaysConfirmed(Happen(s, e).redemptions, k)
       <==> BurnSaved(s, e, k) || (SaysConfirmed(s.redemptions, k) && !StaleRedemptionSave(s, e, k))
  {
    RowsAre(s, e);
    if WrittenRedemption(s, e).Some? && WrittenRedemption(s, e).value.Key() == k {
      WrittenConfirmed(s, e, k);
      ExclusiveSaves(s, e, k);
    } else if BurnSaved(s, e, k) || StaleRedemptionSave(s, e, k) {
      SavesWrite(s, e, k);
    }
  }

  lemma ExclusiveSaves(s: Sys, e: Event, k: R.RedeemKey)
    ensures !(BurnSaved(s, e, k) && StaleRedemptionSave(s, e, k))
  {
  }

  lemma BurnGapCases(s: Sys, e: Event, k: R.RedeemKey)
    requires Inv(s)
    ensures BurnLandsFor(s, e, k) ==> k !in Moves(s.log, Burning) && !SaysConfirmed(s.redemptions, k)
    ensures SaysConfirmed(s.redemptions, k) || BurnSaved(s, e, k) ==> k in Moves(s.log, Burning)
  {
    if e.Advance? && e.id in s.calls {
      assert CallOk(s, s.calls[e.id]);
    }
    BurnedInLog(s.ledger, s.log, k);
    if SaysConfirmed(s.redemptions, k) {
      assert RedemptionBacked(s.log, s.redemptions[k]);
    }
  }

  /** The twin for burns. */
  lemma BurnGapExactly(s: Sys, e: Event, k: R.RedeemKey)
    requires Inv(s)
    ensures k in UnrecordedBurns(Happen(s, e))
       <==> OpensBurn(s, e, k) || (k in UnrecordedBurns(s) && !BurnSaved(s, e, k))
  {
    BurnsAfter(s, e, k);
    ConfirmedAfter(s, e, k);
    BurnGapCases(s, e, k);
  }

  predicate SaysReclaimed(rows: RedemptionRows, k: R.RedeemKey) {
    k in rows && rows[k].state.Reclaimed?
  }

  /** Returns whose row does not say `Reclaimed`. They do not move the supply, and so show in no report. */
  function UnrecordedReturns(s: Sys): map<R.RedeemKey, Thb> {
    map k | k in Moves(s.log, Returning) && !SaysReclaimed(s.redemptions, k) :: Moves(s.log, Returning)[k]
  }

  lemma ReturnsAfter(s: Sys, e: Event, k: R.RedeemKey)
    ensures k in Moves(Happen(s, e).log, Returning) <==> k in Moves(s.log, Returning) || ReturnLandsFor(s, e, k)
  {
    LogIs(s, e);
    if EffectOf(s, e).Some? {
      MovesAppend(s.log, EffectOf(s, e).value);
    }
  }

  lemma WrittenReclaimed(s: Sys, e: Event, k: R.RedeemKey)
    requires AdvancedOk(s, e) && WrittenRedemption(s, e).Some? && WrittenRedemption(s, e).value.Key() == k
    ensures WrittenRedemption(s, e).value.state.Reclaimed? <==> ReturnSaved(s, e, k)
    ensures SaysReclaimed(s.redemptions, k) ==> ReturnSaved(s, e, k) || StaleReturnSave(s, e, k)
  {
  }

  lemma ReturnSavesWrite(s: Sys, e: Event, k: R.RedeemKey)
    requires AdvancedOk(s, e) && (ReturnSaved(s, e, k) || StaleReturnSave(s, e, k))
    ensures WrittenRedemption(s, e).Some? && WrittenRedemption(s, e).value.Key() == k
  {
  }

  lemma ReclaimedAfter(s: Sys, e: Event, k: R.RedeemKey)
    requires AdvancedOk(s, e)
    ensures SaysReclaimed(Happen(s, e).redemptions, k)
       <==> ReturnSaved(s, e, k) || (SaysReclaimed(s.redemptions, k) && !StaleReturnSave(s, e, k))
  {
    RowsAre(s, e);
    if WrittenRedemption(s, e).Some? && WrittenRedemption(s, e).value.Key() == k {
      WrittenReclaimed(s, e, k);
    } else if ReturnSaved(s, e, k) || StaleReturnSave(s, e, k) {
      ReturnSavesWrite(s, e, k);
    }
  }

  lemma ReturnGapCases(s: Sys, e: Event, k: R.RedeemKey)
    requires Inv(s)
    ensures ReturnLandsFor(s, e, k) ==> k !in Moves(s.log, Returning) && !SaysReclaimed(s.redemptions, k)
    ensures SaysReclaimed(s.redemptions, k) || ReturnSaved(s, e, k) ==> k in Moves(s.log, Returning)
  {
    if e.Advance? && e.id in s.calls {
      assert CallOk(s, s.calls[e.id]);
    }
    if SaysReclaimed(s.redemptions, k) {
      assert RedemptionBacked(s.log, s.redemptions[k]);
    }
  }

  /** And for returns. */
  lemma ReturnGapExactly(s: Sys, e: Event, k: R.RedeemKey)
    requires Inv(s)
    ensures k in UnrecordedReturns(Happen(s, e))
       <==> OpensReturn(s, e, k) || (k in UnrecordedReturns(s) && !ReturnSaved(s, e, k))
  {
    ReturnsAfter(s, e, k);
    ReclaimedAfter(s, e, k);
    ReturnGapCases(s, e, k);
  }

  // ---- Whole runs -------------------------------------------------------------------------

  /** The state before event `m`. */
  ghost function At(start: Sys, events: seq<Event>, m: nat): Sys
    requires m <= |events|
  {
    Run(start, events[..m])
  }

  lemma {:induction false} RunAppend(s: Sys, events: seq<Event>, e: Event)
    ensures Run(s, events + [e]) == Happen(Run(s, events), e)
    decreases |events|
  {
    if events == [] {
      assert events + [e] == [e] && [e][1..] == [];
      assert Run(Happen(s, e), []) == Happen(s, e);
    } else {
      RunAppend(Happen(s, events[0]), events[1..], e);
      assert (events + [e])[1..] == events[1..] + [e];
    }
  }

  lemma LastEvent(start: Sys, events: seq<Event>)
    requires events != []
    ensures Run(start, events) == Happen(Run(start, events[..|events| - 1]), events[|events| - 1])
  {
    var before, e := events[..|events| - 1], events[|events| - 1];
    assert before + [e] == events;
    RunAppend(start, before, e);
  }

  /** Event `i` opened the gap for mint `h`, and nothing has closed it since. */
  ghost predicate MintOpenSince(start: Sys, events: seq<Event>, h: Digest, i: nat) {
    && i < |events| && OpensMint(At(start, events, i), events[i], h)
    && forall j :: i < j < |events| ==> !MintSaved(At(start, events, j), events[j], h)
  }

  ghost predicate BurnOpenSince(start: Sys, events: seq<Event>, k: R.RedeemKey, i: nat) {
    && i < |events| && OpensBurn(At(start, events, i), events[i], k)
    && forall j :: i < j < |events| ==> !BurnSaved(At(start, events, j), events[j], k)
  }

  ghost predicate ReturnOpenSince(start: Sys, events: seq<Event>, k: R.RedeemKey, i: nat) {
    && i < |events| && OpensReturn(At(start, events, i), events[i], k)
    && forall j :: i < j < |events| ==> !ReturnSaved(At(start, events, j), events[j], k)
  }

  /** Being open since some event of a run, event by event. */
  lemma MintOpenStep(start: Sys, events: seq<Event>, h: Digest)
    requires events != []
    ensures var before, e := events[..|events| - 1], events[|events| - 1];
            (exists i :: MintOpenSince(start, events, h, i))
            <==> OpensMint(Run(start, before), e, h)
                 || ((exists i :: MintOpenSince(start, before, h, i)) && !MintSaved(Run(start, before), e, h))
  {
    var n := |events| - 1;
    var before := events[..n];
    assert forall m {:trigger events[..m]} :: 0 <= m <= n ==> before[..m] == events[..m];
    assert forall m :: 0 <= m <= n ==> At(start, before, m) == At(start, events, m);
    if OpensMint(Run(start, before), events[n], h) {
      assert MintOpenSince(start, events, h, n);
    }
    if i :| MintOpenSince(start, before, h, i) && !MintSaved(Run(start, before), events[n], h) {
      assert MintOpenSince(start, events, h, i);
    }
    if i :| MintOpenSince(start, events, h, i) && i != n {
      assert MintOpenSince(start, before, h, i);
    }
  }

  lemma BurnOpenStep(start: Sys, events: seq<Event>, k: R.RedeemKey)
    requires events != []
    ensures var before, e := events[..|events| - 1], events[|events| - 1];
            (exists i :: BurnOpenSince(start, events, k, i))
            <==> OpensBurn(Run(start, before), e, k)
                 || ((exists i :: BurnOpenSince(start, before, k, i)) && !BurnSaved(Run(start, before), e, k))
  {
    var n := |events| - 1;
    var before := events[..n];
    assert forall m {:trigger events[..m]} :: 0 <= m <= n ==> before[..m] == events[..m];
    assert forall m :: 0 <= m <= n ==> At(start, before, m) == At(start, events, m);
    if OpensBurn(Run(start, before), events[n], k) {
      assert BurnOpenSince(start, events, k, n);
    }
    if i :| BurnOpenSince(start, before, k, i) && !BurnSaved(Run(start, before), events[n], k) {
      assert BurnOpenSince(start, events, k, i);
    }
    if i :| BurnOpenSince(start, events, k, i) && i != n {
      assert BurnOpenSince(start, before, k, i);
    }
  }

  lemma ReturnOpenStep(start: Sys, events: seq<Event>, k: R.RedeemKey)
    requires events != []
    ensures var before, e := events[..|events| - 1], events[|events| - 1];
            (exists i :: ReturnOpenSince(start, events, k, i))
            <==> OpensReturn(Run(start, before), e, k)
                 || ((exists i :: ReturnOpenSince(start, before, k, i)) && !ReturnSaved(Run(start, before), e, k))
  {
    var n := |events| - 1;
    var before := events[..n];
    assert forall m {:trigger events[..m]} :: 0 <= m <= n ==> before[..m] == events[..m];
    assert forall m :: 0 <= m <= n ==> At(start, before, m) == At(start, events, m);
    if OpensReturn(Run(start, before), events[n], k) {
      assert ReturnOpenSince(start, events, k, n);
    }
    if i :| ReturnOpenSince(start, before, k, i) && !ReturnSaved(Run(start, before), events[n], k) {
      assert ReturnOpenSince(start, events, k, i);
    }
    if i :| ReturnOpenSince(start, events, k, i) && i != n {
      assert ReturnOpenSince(start, before, k, i);
    }
  }

  /**
   * In any run, whatever overlaps or dies: a mint is unrecorded at the end exactly if some event opened
   * its gap, by landing it or by saving a stale copy over `Issued`, and no later event saved it as issued.
   */
  lemma {:induction false} MintGapOfRun(start: Sys, events: seq<Event>, h: Digest)
    requires Inv(start) && h !in UnrecordedMints(start)
    ensures h in UnrecordedMints(Run(start, events)) <==> exists i :: MintOpenSince(start, events, h, i)
    decreases |events|
  {
    if events != [] {
      var before := events[..|events| - 1];
      RunKeepsInv(start, before);
      MintGapOfRun(start, before, h);
      LastEvent(start, events);
      MintGapExactly(Run(start, before), events[|events| - 1], h);
      MintOpenStep(start, events, h);
    }
  }

  lemma {:induction false} BurnGapOfRun(start: Sys, events: seq<Event>, k: R.RedeemKey)
    requires Inv(start) && k !in UnrecordedBurns(start)
    ensures k in UnrecordedBurns(Run(start, events)) <==> exists i :: BurnOpenSince(start, events, k, i)
    decreases |events|
  {
    if events != [] {
      var before := events[..|events| - 1];
      RunKeepsInv(start, before);
      BurnGapOfRun(start, before, k);
      LastEvent(start, events);
      BurnGapExactly(Run(start, before), events[|events| - 1], k);
      BurnOpenStep(start, events, k);
    }
  }

  lemma {:induction false} ReturnGapOfRun(start: Sys, events: seq<Event>, k: R.RedeemKey)
    requires Inv(start) && k !in UnrecordedReturns(start)
    ensures k in UnrecordedReturns(Run(start, events)) <==> exists i :: ReturnOpenSince(start, events, k, i)
    decreases |events|
  {
    if events != [] {
      var before := events[..|events| - 1];
      RunKeepsInv(start, before);
      ReturnGapOfRun(start, before, k);
      LastEvent(start, events);
      ReturnGapExactly(Run(start, before), events[|events| - 1], k);
      ReturnOpenStep(start, events, k);
    }
  }

  /** No event of the run saves a copy from before a mint or a burn over the record of it. */
  ghost predicate NoStaleSaves(start: Sys, events: seq<Event>) {
    forall i :: 0 <= i < |events| ==>
      && (forall h :: !StaleDepositSave(At(start, events, i), events[i], h))
      && (forall k :: !StaleRedemptionSave(At(start, events, i), events[i], k))
  }

  /** Whatever landed was saved as landed later in the run. */
  ghost predicate LandedAreSaved(start: Sys, events: seq<Event>) {
    && (forall i, h :: 0 <= i < |events| && MintLandsFor(At(start, events, i), events[i], h) ==>
          exists j :: i < j < |events| && MintSaved(At(start, events, j), events[j], h))
    && (forall i, k :: 0 <= i < |events| && BurnLandsFor(At(start, events, i), events[i], k) ==>
          exists j :: i < j < |events| && BurnSaved(At(start, events, j), events[j], k))
  }

  /** Runs without stale saves whose landed effects are saved end with records and ledger in agreement. */
  lemma SavedRunsDoNotDrift(reserve: Thb, ttlSecs: i64, now: i64, delta: i64, events: seq<Event>)
    requires NoStaleSaves(NewSys(reserve, ttlSecs, now, delta), events)
    requires LandedAreSaved(NewSys(reserve, ttlSecs, now, delta), events)
    ensures var end := Run(NewSys(reserve, ttlSecs, now, delta), events);
            && UnrecordedMints(end) == map[] && UnrecordedBurns(end) == map[]
            && end.ledger.reserve.supply == Sum(IssuedAmounts(end.deposits)) - Sum(ConfirmedAmounts(end.redemptions))
  {
    var start := NewSys(reserve, ttlSecs, now, delta);
    var end := Run(start, events);
    NewSysInv(reserve, ttlSecs, now, delta);
    forall h
      ensures h !in UnrecordedMints(end)
    {
      MintGapOfRun(start, events, h);
    }
    forall k
      ensures k !in UnrecordedBurns(end)
    {
      BurnGapOfRun(start, events, k);
    }
    assert UnrecordedMints(end) == map[] && UnrecordedBurns(end) == map[];
    SupplyGap(end);
  }
}
