/** What can still happen: exactly when a wire can yet come, and exactly when a mint can yet be recorded. */
module InterleavingFutures {
  import opened Prelude
  import opened Money
  import opened BankRefs
  import opened Repositories
  import opened RepoPort
  import opened Adapters
  import D = Deposits
  import R = Redemptions
  import opened Interleaving
  import opened InterleavingInvariant
  import opened InterleavingSteps
  import opened InterleavingChanges
  import opened InterleavingTheorems
  import opened InterleavingGaps
  import opened InterleavingPhases
  import opened InterleavingDepositPhases
  import T = InterleavingTicks
  import L = Ledger

  // ---- A wire that was lost ---------------------------------------------------------------

  /** A call that is on its way to a wire for `key`: its escrow confirmed, its payout accepted or saved. */
  predicate MayWire(c: Call, key: R.RedeemKey) {
    match c
    case SaveEscrow(r) => r.Key() == key && r.state.Escrowed?
    case SavePayout(r) => r.Key() == key
    case SendWire(k, _) => k == key
    case _ => false
  }

  predicate Asking(c: Call, key: R.RedeemKey) {
    c.AskEscrow? && c.r.Key() == key
  }

  predicate CouldWire(c: Call, key: R.RedeemKey) {
    MayWire(c, key) || Asking(c, key)
  }

  /** Recorded, not `Escrowed`, not wired, and no such call in flight. */
  predicate WireLost(s: Sys, key: R.RedeemKey) {
    && key in s.redemptions && !s.redemptions[key].state.Escrowed? && !Wired(s.sent, key)
    && forall i :: i in s.calls ==> !CouldWire(s.calls[i], key)
  }

  /** Some continuation wires `key`. */
  ghost predicate CanBeWired(s: Sys, key: R.RedeemKey) {
    exists events :: Wired(Run(s, events).sent, key)
  }

  /** Only finding an `Escrowed` row and inserting one bring such a copy. */
  lemma ToldCouldWire(c: Call, a: RepoAnswer, clock: i64, delta: i64, key: R.RedeemKey)
    requires !CouldWire(c, key) && !c.FindPayout? && !c.InsertRedemption?
    ensures Told(c, a, clock, delta).Some? ==> !CouldWire(Told(c, a, clock, delta).value, key)
  {
  }

  lemma FindPayoutCouldWire(s: Sys, found: R.RedeemKey, key: R.RedeemKey)
    requires RedemptionsKeyed(s.redemptions) && key in s.redemptions && !s.redemptions[key].state.Escrowed?
    ensures Following(s, FindPayout(found)).Some? ==> !CouldWire(Following(s, FindPayout(found)).value, key)
  {
  }

  lemma StoreCouldWire(s: Sys, c: Call, key: R.RedeemKey)
    requires RedemptionsKeyed(s.redemptions) && key in s.redemptions && !s.redemptions[key].state.Escrowed?
    requires Asks(c).Some? && !CouldWire(c, key)
    ensures Following(s, c).Some? ==> !CouldWire(Following(s, c).value, key)
  {
    if c.FindPayout? {
      FindPayoutCouldWire(s, c.key, key);
    } else if !c.InsertRedemption? {
      ToldCouldWire(c, InMemory(RowsOf(s), Asks(c).value).1, s.clock, s.delta, key);
    }
  }

  lemma PortCouldWire(s: Sys, id: nat, c: Call, answer: Answer, screen: PortResult<D.ScreenOutcome>, key: R.RedeemKey)
    requires Asks(c).None? && !CouldWire(c, key) && id in StepPort(s, id, c, answer, screen).calls
    ensures !CouldWire(StepPort(s, id, c, answer, screen).calls[id], key)
  {
  }

  lemma NoCopyAppears(s: Sys, e: Event, key: R.RedeemKey, id: nat)
    requires RedemptionsKeyed(s.redemptions) && WireLost(s, key) && id in Happen(s, e).calls
    ensures !CouldWire(Happen(s, e).calls[id], key)
  {
    if e.Advance? && e.id == id && id in s.calls {
      if AsksStore(s, e) {
        StoreCouldWire(s, s.calls[id], key);
      } else {
        PortCouldWire(s, id, s.calls[id], e.answer, e.screen, key);
      }
    } else if !e.Start? || e.id != id {
      OthersStay(s, e, id);
    }
  }

  /** Where the row of a lost wire may still go. */
  predicate LostStep(before: R.RedemptionState, after: R.RedemptionState) {
    after == before || after.Confirmed? || after.Reclaimed? || (before.Requested? && after.Failed?)
  }

  lemma StateAfter(s: Sys, e: Event, key: R.RedeemKey)
    requires AdvancedOk(s, e) && RequestsFirst(s, key) && WireLost(s, key)
    ensures key in Happen(s, e).redemptions
    ensures LostStep(s.redemptions[key].state, Happen(s, e).redemptions[key].state)
  {
    RowsAre(s, e);
    if Advanced(s, e).Some? {
      assert !CouldWire(Advanced(s, e).value, key);
    }
  }

  lemma LostWireStep(s: Sys, e: Event, key: R.RedeemKey)
    requires Inv(s) && RequestsFirst(s, key) && WireLost(s, key)
    ensures WireLost(Happen(s, e), key) && LostStep(s.redemptions[key].state, Happen(s, e).redemptions[key].state)
  {
    StateAfter(s, e, key);
    if Wired(Happen(s, e).sent, key) {
      WiredComes(s, e, key);
      assert CouldWire(s.calls[e.id], key);
    }
    forall id | id in Happen(s, e).calls
      ensures !CouldWire(Happen(s, e).calls[id], key)
    {
      NoCopyAppears(s, e, key, id);
    }
  }

  lemma {:induction false} LostWireRun(s: Sys, key: R.RedeemKey, events: seq<Event>)
    requires Inv(s) && Phased(s, key) && WireLost(s, key)
    ensures var end := Run(s, events);
            WireLost(end, key) && LostStep(s.redemptions[key].state, end.redemptions[key].state)
    decreases |events|
  {
    if events != [] {
      LostWireStep(s, events[0], key);
      PhaseStep(s, events[0], key);
      HappenKeepsInv(s, events[0]);
      LostWireRun(Happen(s, events[0]), key, events[1..]);
    }
  }

  /** Once lost, a wire stays lost: in every continuation the redemption is never wired. */
  lemma LostWireStaysLost(s: Sys, key: R.RedeemKey, events: seq<Event>)
    requires Reachable(s) && WireLost(s, key)
    ensures var end := Run(s, events);
            WireLost(end, key) && LostStep(s.redemptions[key].state, end.redemptions[key].state)
  {
    ReachableInv(s);
    EveryKeyIsPhased(s, key);
    LostWireRun(s, key, events);
  }

  // ---- A wire that can still come ---------------------------------------------------------

  lemma WiredAlready(s: Sys, key: R.RedeemKey)
    requires Wired(s.sent, key)
    ensures CanBeWired(s, key)
  {
    assert Run(s, []) == s;
  }

  /** What is possible after an event was possible before it. */
  lemma PossibleBefore(s: Sys, e: Event, key: R.RedeemKey)
    requires CanBeWired(Happen(s, e), key)
    ensures CanBeWired(s, key)
  {
    var events :| Wired(Run(Happen(s, e), events).sent, key);
    assert ([e] + events)[0] == e && ([e] + events)[1..] == events;
    assert Run(s, [e] + events) == Run(Happen(s, e), events);
  }

  lemma SendWires(s: Sys, id: nat, key: R.RedeemKey)
    requires id in s.calls && Sending(s.calls[id], key)
    ensures CanBeWired(s, key)
  {
    var wire := Wire(key, s.calls[id].amount);
    assert T.Tick(s, id).sent == Enqueue(s.sent, wire);
    if !Wired(s.sent, key) {
      assert T.Tick(s, id).sent[|s.sent|] == wire;
    }
    WiredAlready(T.Tick(s, id), key);
    PossibleBefore(s, Advance(id, Prompt, Ok(D.Pass)), key);
  }

  lemma PayoutSaveWires(s: Sys, id: nat, r: R.Redemption)
    requires id in s.calls && s.calls[id] == SavePayout(r) && r.Key() in s.redemptions
    ensures CanBeWired(s, r.Key())
  {
    SaveRedemptionIs(s, id, s.calls[id], r);
    SendWires(T.Tick(s, id), id, r.Key());
    PossibleBefore(s, Advance(id, Prompt, Ok(D.Pass)), r.Key());
  }

  lemma {:induction false} Above(ids: set<nat>) returns (n: nat)
    ensures forall i :: i in ids ==> i < n
    decreases |ids|
  {
    if ids == {} {
      n := 0;
    } else {
      var i :| i in ids;
      var m := Above(ids - {i});
      n := if i < m then m else i + 1;
      assert forall j :: j in ids ==> j == i || j in ids - {i};
    }
  }

  /** From an `Escrowed` row a wire is always still possible: a payout on its own brings it. */
  lemma EscrowedCanBeWired(s: Sys, key: R.RedeemKey)
    requires RowIs(s, key, R.Escrowed) && RedemptionsKeyed(s.redemptions)
    ensures CanBeWired(s, key)
  {
    var id := Above(s.calls.Keys);
    var queued := s.redemptions[key].(state := R.PayoutQueued);
    var finding := T.At(s, id, FindPayout(key));
    assert Happen(s, Start(id, EnterPayout(key))) == finding;
    T.FindPayoutTick(s, id, key);
    PayoutSaveWires(T.At(s, id, SavePayout(queued)), id, queued);
    PossibleBefore(finding, Advance(id, Prompt, Ok(D.Pass)), key);
    PossibleBefore(s, Start(id, EnterPayout(key)), key);
  }

  lemma EscrowSaveWires(s: Sys, id: nat, r: R.Redemption)
    requires id in s.calls && s.calls[id] == SaveEscrow(r) && r.state.Escrowed?
    requires r.Key() in s.redemptions && RedemptionsKeyed(s.redemptions)
    ensures CanBeWired(s, r.Key())
  {
    SaveRedemptionIs(s, id, s.calls[id], r);
    EscrowedCanBeWired(T.Tick(s, id), r.Key());
    PossibleBefore(s, Advance(id, Prompt, Ok(D.Pass)), r.Key());
  }

  /** And so it is while the request can still be granted. */
  lemma GrantableCanBeWired(s: Sys, id: nat, r: R.Redemption)
    requires id in s.calls && s.calls[id] == AskEscrow(r) && r.state.Requested?
    requires r.Key() in s.redemptions && RedemptionsKeyed(s.redemptions) && L.Escrow(s.ledger, r.Key(), r.amount).1.Ok?
    ensures CanBeWired(s, r.Key())
  {
    EscrowIs(s, id, r, Prompt, Ok(D.Pass));
    EscrowSaveWires(T.Tick(s, id), id, r.(state := R.Escrowed, escrowedAt := Some(s.clock)));
    PossibleBefore(s, Advance(id, Prompt, Ok(D.Pass)), r.Key());
  }

  lemma MayWireWires(s: Sys, id: nat, key: R.RedeemKey)
    requires Inv(s) && id in s.calls && MayWire(s.calls[id], key)
    ensures CanBeWired(s, key)
  {
    assert CallOk(s, s.calls[id]);
    match s.calls[id]
    case SendWire(_, _) => SendWires(s, id, key);
    case SavePayout(r) => PayoutSaveWires(s, id, r);
    case SaveEscrow(r) => EscrowSaveWires(s, id, r);
  }

  /**
   * Exactly when a recorded redemption whose escrow is not still being asked for can be wired: it is, or
   * its row says `Escrowed`, or a call is on its way with the confirmed escrow or the accepted payout.
   */
  lemma WirePossibleExactly(s: Sys, key: R.RedeemKey)
    requires Reachable(s) && key in s.redemptions && forall i :: i in s.calls ==> !Asking(s.calls[i], key)
    ensures CanBeWired(s, key) <==>
              Wired(s.sent, key) || RowIs(s, key, R.Escrowed) || exists i :: i in s.calls && MayWire(s.calls[i], key)
  {
    ReachableInv(s);
    if Wired(s.sent, key) {
      WiredAlready(s, key);
    } else if RowIs(s, key, R.Escrowed) {
      EscrowedCanBeWired(s, key);
    } else if i :| i in s.calls && MayWire(s.calls[i], key) {
      MayWireWires(s, i, key);
    } else if CanBeWired(s, key) {
      var events :| Wired(Run(s, events).sent, key);
      LostWireStaysLost(s, key, events);
    }
  }

  /** Once the row is past `Requested`, only an accepted or saved payout is on its way. */
  predicate PayingOut(c: Call, key: R.RedeemKey) {
    Sending(c, key) || (c.SavePayout? && c.r.Key() == key)
  }

  /** In particular, of a queued payout: it can still be wired exactly if it is, or a call is about to. */
  lemma QueuedWireExactly(s: Sys, key: R.RedeemKey)
    requires Reachable(s) && RowIs(s, key, R.PayoutQueued)
    ensures CanBeWired(s, key) <==> Wired(s.sent, key) || exists i :: i in s.calls && PayingOut(s.calls[i], key)
  {
    EveryKeyIsPhased(s, key);
    forall i | i in s.calls
      ensures !Requesting(s.calls[i], key)
    {
    }
    WirePossibleExactly(s, key);
  }

  /**
   * So when a payout dies after saving `PayoutQueued` and before enqueuing, no retry makes it good: it is
   * wired in some continuation exactly if another call was already on its way to the same wire.
   */
  lemma CrashedPayoutIsNeverWired(s: Sys, id: nat, amount: Thb, key: R.RedeemKey)
    requires Reachable(s) && id in s.calls && s.calls[id] == SendWire(key, amount)
    requires RowIs(s, key, R.PayoutQueued) && !Wired(s.sent, key)
    ensures CanBeWired(Happen(s, Crash(id)), key) <==> exists i :: i in s.calls && i != id && PayingOut(s.calls[i], key)
  {
    var t := Happen(s, Crash(id));
    T.ReachableNext(s, Crash(id));
    QueuedWireExactly(t, key);
    forall i
      ensures i in t.calls <==> i in s.calls && i != id
      ensures i in t.calls ==> t.calls[i] == s.calls[i]
    {
    }
  }

  // ---- A deposit that was abandoned -------------------------------------------------------

  /** A copy that has passed the ceiling. */
  predicate PastGate(c: Call, h: Digest) {
    match c
    case SaveAttested(d) => d.Nullifier() == h
    case AskMint(d) => d.Nullifier() == h
    case SaveIssued(d) => d.Nullifier() == h
    case _ => false
  }

  predicate BeforeGate(c: Call, h: Digest) {
    match c
    case AskScreen(d, _) => d.Nullifier() == h
    case SaveScreen(d, _) => d.Nullifier() == h
    case ReadReserve(d, _) => d.Nullifier() == h
    case ReadEncumbered(d, _, _) => d.Nullifier() == h
    case _ => false
  }

  /** A copy of the deposit under `h` that could still be written back. */
  predicate HoldsCopy(c: Call, h: Digest) {
    BeforeGate(c, h) || PastGate(c, h)
  }

  /** At rest where no retry takes it up, with no call working on it. */
  predicate Abandoned(s: Sys, h: Digest) {
    && h in s.deposits && !s.deposits[h].state.Screened?
    && forall i :: i in s.calls ==> !HoldsCopy(s.calls[i], h)
  }

  lemma FindHeldHoldsNoCopy(s: Sys, found: Digest, h: Digest)
    requires DepositsKeyed(s.deposits) && h in s.deposits && !s.deposits[h].state.Screened?
    ensures Following(s, FindHeld(found)).Some? ==> !HoldsCopy(Following(s, FindHeld(found)).value, h)
  {
  }

  /** Only finding a row and inserting one bring a copy that was not there. */
  lemma ToldHoldsCopy(c: Call, a: RepoAnswer, clock: i64, delta: i64, h: Digest)
    requires !HoldsCopy(c, h) && !c.FindHeld? && !c.InsertDeposit?
    ensures Told(c, a, clock, delta).Some? ==> !HoldsCopy(Told(c, a, clock, delta).value, h)
  {
  }

  lemma StoreHoldsCopy(s: Sys, c: Call, h: Digest)
    requires DepositsKeyed(s.deposits) && h in s.deposits && !s.deposits[h].state.Screened?
    requires Asks(c).Some? && !HoldsCopy(c, h)
    ensures Following(s, c).Some? ==> !HoldsCopy(Following(s, c).value, h)
  {
    if c.FindHeld? {
      FindHeldHoldsNoCopy(s, c.h, h);
    } else if !c.InsertDeposit? {
      ToldHoldsCopy(c, InMemory(RowsOf(s), Asks(c).value).1, s.clock, s.delta, h);
    }
  }

  lemma PortHoldsCopy(s: Sys, id: nat, c: Call, answer: Answer, screen: PortResult<D.ScreenOutcome>, h: Digest)
    requires Asks(c).None? && !HoldsCopy(c, h) && id in StepPort(s, id, c, answer, screen).calls
    ensures !HoldsCopy(StepPort(s, id, c, answer, screen).calls[id], h)
  {
  }

  lemma NoDepositCopyAppears(s: Sys, e: Event, h: Digest, id: nat)
    requires DepositsKeyed(s.deposits) && Abandoned(s, h) && id in Happen(s, e).calls
    ensures !HoldsCopy(Happen(s, e).calls[id], h)
  {
    if e.Advance? && e.id == id && id in s.calls {
      if AsksStore(s, e) {
        StoreHoldsCopy(s, s.calls[id], h);
      } else {
        PortHoldsCopy(s, id, s.calls[id], e.answer, e.screen, h);
      }
    } else if !e.Start? || e.id != id {
      OthersStay(s, e, id);
    }
  }

  lemma AbandonedStep(s: Sys, e: Event, h: Digest)
    requires DepositsKeyed(s.deposits) && Abandoned(s, h)
    ensures Abandoned(Happen(s, e), h) && Happen(s, e).deposits[h] == s.deposits[h]
  {
    RowsAre(s, e);
    forall id | id in Happen(s, e).calls
      ensures !HoldsCopy(Happen(s, e).calls[id], h)
    {
      NoDepositCopyAppears(s, e, h, id);
    }
  }

  /** An abandoned row never changes again, and nothing is ever minted for it again. */
  lemma {:induction false} AbandonedForever(s: Sys, h: Digest, events: seq<Event>)
    requires Inv(s) && Abandoned(s, h)
    ensures var end := Run(s, events);
            && Abandoned(end, h) && end.deposits[h] == s.deposits[h]
            && (h in Mints(end.log) <==> h in Mints(s.log))
    decreases |events|
  {
    if events != [] {
      AbandonedStep(s, events[0], h);
      MintUntouched(s, events[0], h);
      HappenKeepsInv(s, events[0]);
      AbandonedForever(Happen(s, events[0]), h, events[1..]);
    }
  }

  lemma MintUntouched(s: Sys, e: Event, h: Digest)
    requires Abandoned(s, h)
    ensures h in Mints(Happen(s, e).log) <==> h in Mints(s.log)
  {
    MintsAfter(s, e, h);
  }

  /** A mint whose reply was lost, and whose call is over, stays unrecorded in every continuation. */
  lemma LostMintStaysUnrecorded(s: Sys, h: Digest, events: seq<Event>)
    requires Reachable(s) && Abandoned(s, h) && h in UnrecordedMints(s)
    ensures h in UnrecordedMints(Run(s, events))
  {
    ReachableInv(s);
    AbandonedForever(s, h, events);
  }

  // ---- A mint that can still be recorded --------------------------------------------------

  /** Some continuation has the row under `h` say `Issued`. */
  ghost predicate CanBeIssued(s: Sys, h: Digest) {
    exists events :: Says(Run(s, events).deposits, h)
  }

  lemma IssuedBefore(s: Sys, e: Event, h: Digest)
    requires CanBeIssued(Happen(s, e), h)
    ensures CanBeIssued(s, h)
  {
    var events :| Says(Run(Happen(s, e), events).deposits, h);
    assert ([e] + events)[0] == e && ([e] + events)[1..] == events;
    assert Run(s, [e] + events) == Run(Happen(s, e), events);
  }

  lemma SaveIssuedIssues(s: Sys, id: nat, d: D.Deposit)
    requires id in s.calls && s.calls[id] == SaveIssued(d) && d.state.Issued? && d.Nullifier() in s.deposits
    ensures CanBeIssued(s, d.Nullifier())
  {
    SaveDepositIs(s, id, s.calls[id], d);
    assert Run(T.Tick(s, id), []) == T.Tick(s, id);
    assert Says(Run(T.Tick(s, id), []).deposits, d.Nullifier());
    IssuedBefore(s, Advance(id, Prompt, Ok(D.Pass)), d.Nullifier());
  }

  /** What was minted before is heard again as `Confirmed`. */
  lemma AskMintIssues(s: Sys, id: nat, d: D.Deposit)
    requires id in s.calls && s.calls[id] == AskMint(d) && d.state.Attested? && d.Nullifier() in s.deposits
    requires d.Nullifier() in s.ledger.nullifiers
    ensures CanBeIssued(s, d.Nullifier())
  {
    MintIs(s, id, d, Replayed, Ok(D.Pass));
    SaveIssuedIssues(Happen(s, Advance(id, Replayed, Ok(D.Pass))), id, d.(state := D.Issued));
    IssuedBefore(s, Advance(id, Replayed, Ok(D.Pass)), d.Nullifier());
  }

  lemma SaveAttestedIssues(s: Sys, id: nat, d: D.Deposit)
    requires id in s.calls && s.calls[id] == SaveAttested(d) && d.state.Attested? && d.Nullifier() in s.deposits
    requires d.Nullifier() in s.ledger.nullifiers
    ensures CanBeIssued(s, d.Nullifier())
  {
    SaveDepositIs(s, id, s.calls[id], d);
    AskMintIssues(T.Tick(s, id), id, d);
    IssuedBefore(s, Advance(id, Prompt, Ok(D.Pass)), d.Nullifier());
  }

  lemma PastGateIssues(s: Sys, id: nat, h: Digest)
    requires Inv(s) && id in s.calls && PastGate(s.calls[id], h) && h in Mints(s.log)
    ensures CanBeIssued(s, h)
  {
    assert CallOk(s, s.calls[id]);
    match s.calls[id]
    case SaveIssued(d) => SaveIssuedIssues(s, id, d);
    case AskMint(d) => AskMintIssues(s, id, d);
    case SaveAttested(d) => SaveAttestedIssues(s, id, d);
  }

  /** Some continuation records the mint of `h`. */
  ghost predicate CanBeRecorded(s: Sys, h: Digest) {
    exists events :: h !in UnrecordedMints(Run(s, events))
  }

  /** Some continuation changes the row under `h`. */
  ghost predicate CanMove(s: Sys, h: Digest)
    requires h in s.deposits
  {
    exists events :: h in Run(s, events).deposits && Run(s, events).deposits[h] != s.deposits[h]
  }

  /** A copy that has yet to pass the ceiling, or be refused by it. */
  predicate AtGate(c: Call, h: Digest) {
    match c
    case ReadReserve(d, _) => d.Nullifier() == h
    case ReadEncumbered(d, _, _) => d.Nullifier() == h
    case _ => false
  }

  /**
   * Exactly when an unrecorded mint can still be recorded, if no copy still waits at the ceiling: some
   * call in flight is saving the attestation, asking for the mint, or saving the issuance. It is also
   * exactly then that the row can change at all.
   */
  lemma RecordPossibleExactly(s: Sys, h: Digest)
    requires Reachable(s) && h in UnrecordedMints(s) && forall i :: i in s.calls ==> !AtGate(s.calls[i], h)
    ensures h in s.deposits
    ensures CanBeRecorded(s, h) <==> exists i :: i in s.calls && PastGate(s.calls[i], h)
    ensures CanMove(s, h) <==> exists i :: i in s.calls && PastGate(s.calls[i], h)
  {
    ReachableInv(s);
    EveryDepositIsPhased(s, h);
    MintedIsAttestedOrIssued(s, h);
    if i :| i in s.calls && PastGate(s.calls[i], h) {
      PastGateIssues(s, i, h);
      var events :| Says(Run(s, events).deposits, h);
      assert h !in UnrecordedMints(Run(s, events));
      assert Run(s, events).deposits[h] != s.deposits[h];
    } else {
      forall i | i in s.calls
        ensures !HoldsCopy(s.calls[i], h)
      {
        assert !Screening(s.calls[i], h);
      }
      forall events
        ensures h in UnrecordedMints(Run(s, events))
        ensures h in Run(s, events).deposits && Run(s, events).deposits[h] == s.deposits[h]
      {
        AbandonedForever(s, h, events);
      }
    }
  }

  /** A deposit that failed its screen stays encumbered in every continuation, and is never minted for. */
  lemma EncumberedIsNeverMinted(s: Sys, h: Digest, events: seq<Event>)
    requires Reachable(s) && DepositIs(s, h, D.Encumbered)
    ensures var end := Run(s, events);
            h in end.deposits && end.deposits[h] == s.deposits[h] && h !in Mints(end.log)
  {
    ReachableInv(s);
    EveryDepositIsPhased(s, h);
    forall i | i in s.calls
      ensures !HoldsCopy(s.calls[i], h)
    {
      assert !Taken(s.calls[i], h) && !Screening(s.calls[i], h);
    }
    AbandonedForever(s, h, events);
  }
}
