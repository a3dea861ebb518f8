/**
 * A redemption passes through its phases once: while its request is in flight the row says `Requested`
 * and nothing acts on it, and an `Escrowed` row is not wired.
 */
module InterleavingPhases {
  import opened Prelude
  import opened Repositories
  import opened RepoPort
  import opened Adapters
  import D = Deposits
  import R = Redemptions
  import opened Interleaving
  import opened InterleavingInvariant
  import opened InterleavingSteps
  import opened InterleavingChanges
  import opened InterleavingGaps

  /** The call that inserted the row under `k` and has not yet saved what became of the escrow. */
  predicate Requesting(c: Call, k: R.RedeemKey) {
    match c
    case AskEscrow(r) => r.Key() == k
    case SaveEscrow(r) => r.Key() == k
    case _ => false
  }

  predicate Sending(c: Call, k: R.RedeemKey) {
    c.SendWire? && c.key == k
  }

  /** A call that holds a copy from after the escrow. */
  predicate Acting(c: Call, k: R.RedeemKey) {
    match c
    case SavePayout(r) => r.Key() == k
    case SendWire(key, _) => key == k
    case AskBurn(r) => r.Key() == k && r.state.IsPending()
    case SaveConfirm(r) => r.Key() == k
    case AskReturn(r) => r.Key() == k
    case SaveReclaim(r) => r.Key() == k
    case _ => false
  }

  predicate RowIs(s: Sys, k: R.RedeemKey, state: R.RedemptionState) {
    k in s.redemptions && s.redemptions[k].state == state
  }

  predicate RequestsFirst(s: Sys, k: R.RedeemKey) {
    && (forall i :: i in s.calls && Requesting(s.calls[i], k) ==> RowIs(s, k, R.Requested))
    && (forall i, j :: i in s.calls && j in s.calls && i != j ==> !Requesting(s.calls[i], k) || !Requesting(s.calls[j], k))
  }

  predicate NobodyActs(s: Sys, k: R.RedeemKey) {
    !Wired(s.sent, k) && forall i :: i in s.calls ==> !Acting(s.calls[i], k)
  }

  predicate NobodySends(s: Sys, k: R.RedeemKey) {
    !Wired(s.sent, k) && forall i :: i in s.calls ==> !Sending(s.calls[i], k)
  }

  predicate Phased(s: Sys, k: R.RedeemKey) {
    && RequestsFirst(s, k)
    && (RowIs(s, k, R.Requested) ==> NobodyActs(s, k))
    && (RowIs(s, k, R.Escrowed) ==> NobodySends(s, k))
  }

  // ---- Where a call comes from ------------------------------------------------------------

  lemma ToldRequesting(c: Call, a: RepoAnswer, clock: i64, delta: i64, k: R.RedeemKey)
    requires Told(c, a, clock, delta).Some? && Requesting(Told(c, a, clock, delta).value, k)
    ensures c.InsertRedemption? && c.r.Key() == k && a == Done(Ok(Unit))
  {
  }

  lemma PortRequesting(s: Sys, id: nat, c: Call, answer: Answer, screen: PortResult<D.ScreenOutcome>, k: R.RedeemKey)
    requires Asks(c).None? && id in StepPort(s, id, c, answer, screen).calls
    requires Requesting(StepPort(s, id, c, answer, screen).calls[id], k)
    ensures Requesting(c, k)
  {
  }

  /** A request is in flight because it was, or because its row has just been inserted. */
  lemma RequestingComes(s: Sys, e: Event, id: nat, k: R.RedeemKey)
    requires id in Happen(s, e).calls && Requesting(Happen(s, e).calls[id], k)
    ensures (id in s.calls && Requesting(s.calls[id], k))
         || (e.Advance? && e.id == id && id in s.calls && s.calls[id].InsertRedemption? && s.calls[id].r.Key() == k
             && k !in s.redemptions)
  {
    if e.Advance? && e.id == id && id in s.calls {
      if AsksStore(s, e) {
        ToldRequesting(s.calls[id], InMemory(RowsOf(s), Asks(s.calls[id]).value).1, s.clock, s.delta, k);
      } else {
        PortRequesting(s, id, s.calls[id], e.answer, e.screen, k);
      }
    } else if !e.Start? || e.id != id {
      OthersStay(s, e, id);
    }
  }

  /** A step on a call that finds no row, and is not one that acts, does not begin to act. */
  lemma ToldActing(c: Call, a: RepoAnswer, clock: i64, delta: i64, k: R.RedeemKey)
    requires Told(c, a, clock, delta).Some? && Acting(Told(c, a, clock, delta).value, k)
    ensures Acting(c, k)
         || ((c.FindPayout? || c.FindConfirm? || c.FindReclaim?) && Found(a)
             && a.redemption.value.Key() == k && a.redemption.value.state.IsPending())
  {
  }

  lemma StoreActing(s: Sys, c: Call, k: R.RedeemKey)
    requires Asks(c).Some? && Following(s, c).Some? && Acting(Following(s, c).value, k) && RedemptionsKeyed(s.redemptions)
    ensures Acting(c, k) || (k in s.redemptions && s.redemptions[k].state.IsPending())
  {
    ToldActing(c, InMemory(RowsOf(s), Asks(c).value).1, s.clock, s.delta, k);
  }

  lemma PortActing(s: Sys, id: nat, c: Call, answer: Answer, screen: PortResult<D.ScreenOutcome>, k: R.RedeemKey)
    requires Asks(c).None? && id in StepPort(s, id, c, answer, screen).calls
    requires Acting(StepPort(s, id, c, answer, screen).calls[id], k)
    ensures Acting(c, k)
  {
  }

  /** A call acts because it did, or because it found the row pending. */
  lemma ActingComes(s: Sys, e: Event, id: nat, k: R.RedeemKey)
    requires RedemptionsKeyed(s.redemptions) && id in Happen(s, e).calls && Acting(Happen(s, e).calls[id], k)
    ensures (id in s.calls && Acting(s.calls[id], k)) || (k in s.redemptions && s.redemptions[k].state.IsPending())
  {
    if e.Advance? && e.id == id && id in s.calls {
      if AsksStore(s, e) {
        StoreActing(s, s.calls[id], k);
      } else {
        PortActing(s, id, s.calls[id], e.answer, e.screen, k);
      }
    } else if !e.Start? || e.id != id {
      OthersStay(s, e, id);
    }
  }

  lemma ToldSending(c: Call, a: RepoAnswer, clock: i64, delta: i64, k: R.RedeemKey)
    requires Told(c, a, clock, delta).Some? && Sending(Told(c, a, clock, delta).value, k)
    ensures c.SavePayout? && c.r.Key() == k && a == Done(Ok(Unit))
  {
  }

  lemma PortSending(s: Sys, id: nat, c: Call, answer: Answer, screen: PortResult<D.ScreenOutcome>, k: R.RedeemKey)
    requires Asks(c).None? && id in StepPort(s, id, c, answer, screen).calls
    ensures !Sending(StepPort(s, id, c, answer, screen).calls[id], k)
  {
  }

  /** A wire is about to be sent because it was, or because its payout has just been saved. */
  lemma SendingComes(s: Sys, e: Event, id: nat, k: R.RedeemKey)
    requires id in Happen(s, e).calls && Sending(Happen(s, e).calls[id], k)
    ensures (id in s.calls && Sending(s.calls[id], k))
         || (match Advanced(s, e) case Some(SavePayout(r)) => r.Key() == k && k in s.redemptions case _ => false)
  {
    if e.Advance? && e.id == id && id in s.calls {
      if AsksStore(s, e) {
        ToldSending(s.calls[id], InMemory(RowsOf(s), Asks(s.calls[id]).value).1, s.clock, s.delta, k);
      } else {
        PortSending(s, id, s.calls[id], e.answer, e.screen, k);
      }
    } else if !e.Start? || e.id != id {
      OthersStay(s, e, id);
    }
  }

  lemma PortSent(s: Sys, id: nat, c: Call, answer: Answer, screen: PortResult<D.ScreenOutcome>)
    ensures StepPort(s, id, c, answer, screen).sent
         == match c case SendWire(key, amount) => Enqueue(s.sent, Wire(key, amount)) case _ => s.sent
  {
  }

  lemma WiredComes(s: Sys, e: Event, k: R.RedeemKey)
    requires Wired(Happen(s, e).sent, k) && !Wired(s.sent, k)
    ensures Advanced(s, e).Some? && Sending(Advanced(s, e).value, k)
  {
    if e.Advance? && e.id in s.calls && !AsksStore(s, e) {
      PortSent(s, e.id, s.calls[e.id], e.answer, e.screen);
    }
  }

  // ---- Where a row's state comes from -----------------------------------------------------

  /** Before a key is recorded nothing is known of it. */
  lemma UnrecordedIsIdle(s: Sys, k: R.RedeemKey)
    requires Inv(s) && k !in s.redemptions
    ensures NobodyActs(s, k) && forall i :: i in s.calls ==> !Requesting(s.calls[i], k)
  {
    forall i | i in s.calls
      ensures !Requesting(s.calls[i], k) && !Acting(s.calls[i], k)
    {
      assert CallOk(s, s.calls[i]);
    }
  }

  /** A row says `Requested` because it did, or has just been inserted. */
  lemma RequestedComes(s: Sys, e: Event, k: R.RedeemKey)
    requires AdvancedOk(s, e) && RequestsFirst(s, k) && RowIs(Happen(s, e), k, R.Requested)
    ensures k !in s.redemptions || RowIs(s, k, R.Requested)
  {
    RowsAre(s, e);
  }

  /** A row says `Escrowed` because it did and no payout was saved, or because its request has just been saved. */
  lemma EscrowedComes(s: Sys, e: Event, k: R.RedeemKey)
    requires AdvancedOk(s, e) && RequestsFirst(s, k) && RowIs(Happen(s, e), k, R.Escrowed)
    ensures !(match Advanced(s, e) case Some(SavePayout(r)) => r.Key() == k && k in s.redemptions case _ => false)
    ensures RowIs(s, k, R.Escrowed) || RowIs(s, k, R.Requested)
  {
    RowsAre(s, e);
  }

  /** While a request is in flight only its own save writes the row. */
  lemma RequestedStays(s: Sys, e: Event, k: R.RedeemKey)
    requires AdvancedOk(s, e) && RowIs(s, k, R.Requested) && NobodyActs(s, k)
    requires Advanced(s, e).Some? ==> !Requesting(Advanced(s, e).value, k)
    ensures RowIs(Happen(s, e), k, R.Requested)
  {
    RowsAre(s, e);
    if Advanced(s, e).Some? {
      assert !Acting(Advanced(s, e).value, k);
    }
  }

  // ---- Every event ------------------------------------------------------------------------

  lemma NobodyActsStays(s: Sys, e: Event, k: R.RedeemKey)
    requires RedemptionsKeyed(s.redemptions) && NobodyActs(s, k) && (RowIs(s, k, R.Requested) || k !in s.redemptions)
    ensures NobodyActs(Happen(s, e), k)
  {
    forall id | id in Happen(s, e).calls
      ensures !Acting(Happen(s, e).calls[id], k)
    {
      if Acting(Happen(s, e).calls[id], k) {
        ActingComes(s, e, id, k);
      }
    }
    if Wired(Happen(s, e).sent, k) {
      WiredComes(s, e, k);
      assert Acting(s.calls[e.id], k);
    }
  }

  lemma RequestedPhase(s: Sys, e: Event, k: R.RedeemKey)
    requires Inv(s) && Phased(s, k) && AdvancedOk(s, e) && RowIs(Happen(s, e), k, R.Requested)
    ensures NobodyActs(Happen(s, e), k)
  {
    RequestedComes(s, e, k);
    if k !in s.redemptions {
      UnrecordedIsIdle(s, k);
    }
    NobodyActsStays(s, e, k);
  }

  lemma EscrowedPhase(s: Sys, e: Event, k: R.RedeemKey)
    requires Phased(s, k) && AdvancedOk(s, e) && RowIs(Happen(s, e), k, R.Escrowed)
    ensures NobodySends(Happen(s, e), k)
  {
    EscrowedComes(s, e, k);
    assert NobodySends(s, k) by {
      if NobodyActs(s, k) {
        forall i | i in s.calls
          ensures !Sending(s.calls[i], k)
        {
          assert !Acting(s.calls[i], k);
        }
      }
    }
    forall id | id in Happen(s, e).calls
      ensures !Sending(Happen(s, e).calls[id], k)
    {
      if Sending(Happen(s, e).calls[id], k) {
        SendingComes(s, e, id, k);
      }
    }
    if Wired(Happen(s, e).sent, k) {
      WiredComes(s, e, k);
    }
  }

  /** A request that is still in flight after the event was so before, and its row has not moved. */
  lemma RequestingRow(s: Sys, e: Event, id: nat, k: R.RedeemKey)
    requires Inv(s) && Phased(s, k) && AdvancedOk(s, e)
    requires id in Happen(s, e).calls && Requesting(Happen(s, e).calls[id], k)
    ensures RowIs(Happen(s, e), k, R.Requested)
  {
    RequestingComes(s, e, id, k);
    if id in s.calls && Requesting(s.calls[id], k) {
      if e.Advance? && e.id == id {
        AdvancedRequest(s, e, k);
      } else {
        RequestedStays(s, e, k);
      }
    } else {
      RowsAre(s, e);
    }
  }

  /** The advanced request is still in flight only if it has not saved. */
  lemma AdvancedRequest(s: Sys, e: Event, k: R.RedeemKey)
    requires e.Advance? && e.id in s.calls && Requesting(s.calls[e.id], k) && RowIs(s, k, R.Requested)
    requires e.id in Happen(s, e).calls
    ensures RowIs(Happen(s, e), k, R.Requested)
  {
    RowsAre(s, e);
  }

  lemma OneRequest(s: Sys, e: Event, i: nat, j: nat, k: R.RedeemKey)
    requires Inv(s) && RequestsFirst(s, k) && i != j && i in Happen(s, e).calls && j in Happen(s, e).calls
    ensures !Requesting(Happen(s, e).calls[i], k) || !Requesting(Happen(s, e).calls[j], k)
  {
    if Requesting(Happen(s, e).calls[i], k) && Requesting(Happen(s, e).calls[j], k) {
      RequestingComes(s, e, i, k);
      RequestingComes(s, e, j, k);
      if k !in s.redemptions {
        UnrecordedIsIdle(s, k);
      }
    }
  }

  lemma PhaseStep(s: Sys, e: Event, k: R.RedeemKey)
    requires Inv(s) && Phased(s, k)
    ensures Phased(Happen(s, e), k)
  {
    var t := Happen(s, e);
    forall i | i in t.calls && Requesting(t.calls[i], k)
      ensures RowIs(t, k, R.Requested)
    {
      RequestingRow(s, e, i, k);
    }
    forall i, j | i in t.calls && j in t.calls && i != j
      ensures !Requesting(t.calls[i], k) || !Requesting(t.calls[j], k)
    {
      OneRequest(s, e, i, j, k);
    }
    if RowIs(t, k, R.Requested) {
      RequestedPhase(s, e, k);
    }
    if RowIs(t, k, R.Escrowed) {
      EscrowedPhase(s, e, k);
    }
  }

  lemma {:induction false} RunKeepsPhase(s: Sys, events: seq<Event>, k: R.RedeemKey)
    requires Inv(s) && Phased(s, k)
    ensures Phased(Run(s, events), k)
    decreases |events|
  {
    if events != [] {
      PhaseStep(s, events[0], k);
      HappenKeepsInv(s, events[0]);
      RunKeepsPhase(Happen(s, events[0]), events[1..], k);
    }
  }

  /** In every reachable state, whatever overlaps: one request per row, before anything else acts on it. */
  lemma EveryKeyIsPhased(s: Sys, k: R.RedeemKey)
    requires Reachable(s)
    ensures Phased(s, k)
  {
    var reserve, ttlSecs, now, delta, events :| s == Run(NewSys(reserve, ttlSecs, now, delta), events);
    NewSysInv(reserve, ttlSecs, now, delta);
    RunKeepsPhase(NewSys(reserve, ttlSecs, now, delta), events, k);
  }
}
