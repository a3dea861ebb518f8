/** Concrete runs: the gaps that `SupplyGap` allows for do open, from a new system and in a few steps. */
module InterleavingWitness {
  import opened Prelude
  import opened Sums
  import opened Money
  import opened Reserve
  import opened BankRefs
  import opened Repositories
  import D = Deposits
  import R = Redemptions
  import opened L = Ledger
  import opened Interleaving
  import opened InterleavingSteps
  import opened InterleavingTheorems
  import opened InterleavingTicks
  import opened InterleavingReports
  import opened InterleavingTornReads
  import opened InterleavingFutures
  import opened InterleavingReturns
  import opened Reconciliation
  import opened Adapters
  import I = Issuance

  // ---- A webhook whose call dies once its screening is saved ------------------------------

  lemma InsertTick(s: Sys, id: nat, d: D.Deposit)
    requires d.Nullifier() !in s.deposits
    ensures Tick(At(s, id, InsertDeposit(d, s.clock)), id)
         == At(s.(deposits := s.deposits[d.Nullifier() := d]), id, AskScreen(d, s.clock))
  {
    var next := AskScreen(d, s.clock);
    assert s.calls[id := InsertDeposit(d, s.clock)][id := next] == s.calls[id := next];
  }

  lemma ScreenTick(s: Sys, id: nat, d: D.Deposit)
    requires d.state.Observed?
    ensures Tick(At(s, id, AskScreen(d, s.clock)), id) == At(s, id, SaveScreen(d.(state := D.Screened), s.clock))
  {
    var next := SaveScreen(d.(state := D.Screened), s.clock);
    assert s.calls[id := AskScreen(d, s.clock)][id := next] == s.calls[id := next];
  }

  lemma SaveScreenTick(s: Sys, id: nat, d: D.Deposit)
    requires d.state.Screened? && d.Nullifier() in s.deposits
    ensures Tick(At(s, id, SaveScreen(d, s.clock)), id)
         == At(s.(deposits := s.deposits[d.Nullifier() := d]), id, ReadReserve(d, s.clock))
  {
    var next := ReadReserve(d, s.clock);
    assert s.calls[id := SaveScreen(d, s.clock)][id := next] == s.calls[id := next];
  }

  lemma InsertOnly(s: Sys, d: D.Deposit, b: nat)
    requires Reachable(s) && b !in s.calls && d.Nullifier() !in s.deposits
    requires D.ObserveDeposit(d.bankRef, d.amount, d.beneficiary, d.beneficiaryWallet, s.clock) == Ok(d)
    ensures Reachable(At(s.(deposits := s.deposits[d.Nullifier() := d]), b, AskScreen(d, s.clock)))
  {
    ReachableNext(s, Start(b, EnterDeposit(d.bankRef, d.amount, d.beneficiary, d.beneficiaryWallet)));
    ReachableTick(At(s, b, InsertDeposit(d, s.clock)), b);
    InsertTick(s, b, d);
  }

  lemma ScreenOnly(s: Sys, d: D.Deposit, b: nat)
    requires Reachable(At(s, b, AskScreen(d, s.clock))) && d.state.Observed? && d.Nullifier() in s.deposits
    ensures var screened := d.(state := D.Screened);
            Reachable(At(s.(deposits := s.deposits[d.Nullifier() := screened]), b, ReadReserve(screened, s.clock)))
  {
    var screened := d.(state := D.Screened);
    ReachableTick(At(s, b, AskScreen(d, s.clock)), b);
    ScreenTick(s, b, d);
    ReachableTick(At(s, b, SaveScreen(screened, s.clock)), b);
    SaveScreenTick(s, b, screened);
  }

  lemma CrashTick(s: Sys, id: nat, c: Call)
    requires id !in s.calls
    ensures Happen(At(s, id, c), Crash(id)) == s
  {
    assert s.calls[id := c] - {id} == s.calls;
  }

  lemma StoreHeld(s: Sys, d: D.Deposit, b: nat) returns (t: Sys)
    requires Reachable(s) && b !in s.calls && d.Nullifier() !in s.deposits
    requires D.ObserveDeposit(d.bankRef, d.amount, d.beneficiary, d.beneficiaryWallet, s.clock) == Ok(d)
    ensures Reachable(t) && t == s.(deposits := s.deposits[d.Nullifier() := d.(state := D.Screened)])
  {
    var h, screened := d.Nullifier(), d.(state := D.Screened);
    InsertOnly(s, d, b);
    ScreenOnly(s.(deposits := s.deposits[h := d]), d, b);
    assert s.deposits[h := d][h := screened] == s.deposits[h := screened];
    t := s.(deposits := s.deposits[h := screened]);
    ReachableNext(At(t, b, ReadReserve(screened, s.clock)), Crash(b));
    CrashTick(t, b, ReadReserve(screened, s.clock));
  }

  // ---- A request, whose escrow reply arrives or is lost -----------------------------------

  lemma ReadNextSeqTick(s: Sys, id: nat, user: string, amount: Thb)
    requires amount > 0
    ensures Tick(At(s, id, ReadNextSeq(user, amount, s.clock)), id)
         == At(s, id, InsertRedemption(NewRequest(s, user, amount)))
  {
    var next := InsertRedemption(NewRequest(s, user, amount));
    assert s.calls[id := ReadNextSeq(user, amount, s.clock)][id := next] == s.calls[id := next];
  }

  ghost function NewRequest(s: Sys, user: string, amount: Thb): R.Redemption {
    R.Redemption(user, Successor(MaxSeq(s.redemptions, user)), amount, R.Requested, s.clock, None, s.delta)
  }

  lemma InsertRequestTick(s: Sys, id: nat, r: R.Redemption)
    requires r.Key() !in s.redemptions
    ensures Tick(At(s, id, InsertRedemption(r)), id)
         == At(s.(redemptions := s.redemptions[r.Key() := r]), id, AskEscrow(r))
  {
    assert s.calls[id := InsertRedemption(r)][id := AskEscrow(r)] == s.calls[id := AskEscrow(r)];
  }

  /** `s` after the escrow for `r` has landed. */
  function Escrowed(s: Sys, r: R.Redemption): Sys {
    s.(ledger := Escrow(s.ledger, r.Key(), r.amount).0, log := s.log + [Moved(Escrowing, r.Key(), r.amount)])
  }

  /** The row that a request saves when it heard `answer`. */
  function HeardRow(s: Sys, r: R.Redemption, answer: Answer): R.Redemption {
    if answer.Prompt? then r.(state := R.Escrowed, escrowedAt := Some(s.clock)) else r
  }

  lemma AskEscrowTick(s: Sys, id: nat, r: R.Redemption, answer: Answer)
    requires r.state.Requested? && Escrow(s.ledger, r.Key(), r.amount).1.Ok? && answer in {Prompt, Lost(true)}
    ensures Happen(At(s, id, AskEscrow(r)), Advance(id, answer, Ok(D.Pass)))
         == At(Escrowed(s, r), id, SaveEscrow(HeardRow(s, r, answer)))
  {
    var next := SaveEscrow(HeardRow(s, r, answer));
    assert s.calls[id := AskEscrow(r)][id := next] == s.calls[id := next];
  }

  lemma SaveEscrowTick(s: Sys, id: nat, r: R.Redemption)
    requires r.Key() in s.redemptions
    ensures Tick(At(s, id, SaveEscrow(r)), id)
         == s.(redemptions := s.redemptions[r.Key() := r], calls := s.calls - {id})
  {
    assert s.calls[id := SaveEscrow(r)] - {id} == s.calls - {id};
  }

  /** A request up to the point where it asks for the escrow. */
  lemma RequestToEscrow(s: Sys, user: string, amount: Thb, b: nat)
    requires Reachable(s) && b !in s.calls && amount > 0 && NewRequest(s, user, amount).Key() !in s.redemptions
    ensures var r := NewRequest(s, user, amount);
            Reachable(At(s.(redemptions := s.redemptions[r.Key() := r]), b, AskEscrow(r)))
  {
    var r := NewRequest(s, user, amount);
    ReachableNext(s, Start(b, EnterRequest(user, amount)));
    ReachableTick(At(s, b, ReadNextSeq(user, amount, s.clock)), b);
    ReadNextSeqTick(s, b, user, amount);
    ReachableTick(At(s, b, InsertRedemption(r)), b);
    InsertRequestTick(s, b, r);
  }

  /** The escrow lands, and the call saves what it heard. */
  lemma EscrowHeard(s: Sys, r: R.Redemption, b: nat, answer: Answer) returns (t: Sys)
    requires Reachable(At(s, b, AskEscrow(r))) && b !in s.calls && answer in {Prompt, Lost(true)}
    requires r.state.Requested? && r.Key() in s.redemptions && Escrow(s.ledger, r.Key(), r.amount).1.Ok?
    ensures Reachable(t) && t == Escrowed(s, r).(redemptions := s.redemptions[r.Key() := HeardRow(s, r, answer)])
  {
    ReachableNext(At(s, b, AskEscrow(r)), Advance(b, answer, Ok(D.Pass)));
    AskEscrowTick(s, b, r, answer);
    var saving := At(Escrowed(s, r), b, SaveEscrow(HeardRow(s, r, answer)));
    ReachableTick(saving, b);
    SaveEscrowTick(Escrowed(s, r), b, HeardRow(s, r, answer));
    t := Tick(saving, b);
    assert s.calls - {b} == s.calls;
  }

  // ---- The runs ---------------------------------------------------------------------------

  /** One unit for wallet "w", against a reserve of 100. */
  function OneUnit(): D.Deposit {
    D.Deposit(BankRef("A"), 1, "u", "w", D.Observed, 0)
  }

  /** One held deposit that the ceiling admits. */
  lemma OneHeld() returns (s: Sys)
    ensures Reachable(s) && s.calls == map[] && s.redemptions == map[] && s.clock == 0 && s.delta == 1 && s.sent == [] && s.log == []
    ensures s.ledger == NewTreasury(100, 10, 0)
    ensures s.deposits == map[OneUnit().Nullifier() := OneUnit().(state := D.Screened)]
    ensures Admissible(s, OneUnit().Nullifier())
  {
    var s0 := NewSys(100, 10, 0, 1);
    ReachableStart(100, 10, 0, 1);
    assert TrimStart("w") == "w" && TrimEnd("w") == "w";
    s := StoreHeld(s0, OneUnit(), 0);
    assert EncumberedAmounts(s.deposits) == map[] && IssuedAmounts(s.deposits) == map[] && ConfirmedAmounts(s.redemptions) == map[];
    CheckIssuanceExactly(I.EffectiveReserve(I.OnRamp(s.ledger, s.deposits)).value, 1, 0);
    CheckIssuanceExactly(s.ledger.reserve, 1, 0);
  }

  /** That deposit issued, so that wallet "w" holds one unit. */
  lemma OneIssued() returns (s: Sys)
    ensures Reachable(s) && s.calls == map[] && s.redemptions == map[] && s.sent == []
    ensures s.ledger.escrows == map[] && s.ledger.BalanceOf("w") == 1
    ensures s.clock == 0 && s.delta == 1 && s.ledger.now == 0
  {
    var held := OneHeld();
    s := RetryAlone(held, OneUnit().Nullifier(), 0);
  }

  lemma OneRequested(answer: Answer) returns (s: Sys, key: R.RedeemKey)
    requires answer in {Prompt, Lost(true)}
    ensures Reachable(s) && s.calls == map[] && s.sent == [] && s.ledger.LiveEscrow(key)
    ensures key in s.redemptions && s.redemptions[key].Key() == key
    ensures if answer.Prompt? then s.redemptions[key].state.Escrowed? else s.redemptions[key].state.Requested?
    ensures answer.Prompt? ==> s.redemptions[key].escrowedAt == Some(0) && s.redemptions[key].deltaSecs == 1
    ensures s.ledger.escrows[key].escrowedAt == 0
  {
    var issued := OneIssued();
    var r := NewRequest(issued, "w", 1);
    key := r.Key();
    RequestToEscrow(issued, "w", 1, 0);
    s := EscrowHeard(issued.(redemptions := issued.redemptions[key := r]), r, 0, answer);
  }

  /**
   * Each gap opens: two overlapping retries of one deposit leave a mint unrecorded, a payout overlapping
   * a confirm leaves a burn unrecorded, and so does a confirm after a lost escrow reply.
   */
  lemma GapsOpen() returns (stale: Sys, overlapped: Sys, lost: Sys)
    ensures Reachable(stale) && OneUnit().Nullifier() in UnrecordedMints(stale)
    ensures Reachable(overlapped) && BurnUnrecordedIn(overlapped, R.PayoutQueued)
    ensures Reachable(lost) && BurnUnrecordedIn(lost, R.Requested)
  {
    var held := OneHeld();
    stale := StaleRetryHidesAMint(held, OneUnit().Nullifier(), 0, 1);
    overlapped := BurnHidden();
    lost := LostEscrowBurned();
  }

  /** Some burn is unrecorded, with its row in `state`. */
  predicate BurnUnrecordedIn(s: Sys, state: R.RedemptionState) {
    exists k :: k in s.redemptions && k in UnrecordedBurns(s) && s.redemptions[k].state == state
  }

  lemma BurnHidden() returns (s: Sys)
    ensures Reachable(s) && BurnUnrecordedIn(s, R.PayoutQueued)
  {
    var escrowed, key := OneRequested(Prompt);
    s := StalePayoutHidesABurn(escrowed, key, 0, 1);
  }

  lemma LostEscrowBurned() returns (s: Sys)
    ensures Reachable(s) && BurnUnrecordedIn(s, R.Requested)
  {
    var requested, key := OneRequested(Lost(true));
    ConfirmRecordsExactly(requested, key, 0);
    LiveEscrowRow(requested, key);
    RefusedConfirm(requested, key, 0);
    s := Confirming(requested, key, 0);
  }

  /** Torn reads: drift 1 is reported where nothing is unrecorded, and drift 0 where a mint is. */
  lemma ReportsMislead() returns (sound: Sys, gapped: Sys)
    ensures Reachable(sound) && sound.reports != [] && sound.reports[|sound.reports| - 1].drift == 1
    ensures UnrecordedMints(sound) == map[] && UnrecordedBurns(sound) == map[]
    ensures Reachable(gapped) && gapped.reports != [] && gapped.reports[|gapped.reports| - 1].drift == 0
    ensures OneUnit().Nullifier() in UnrecordedMints(gapped)
  {
    var held := OneHeld();
    var h := OneUnit().Nullifier();
    var invented, hidden: Report;
    sound, invented := TornReadInventsDrift(held, h, 0, 1);
    NothingUnrecorded(sound, h);
    hidden := TornReadHidesAGap(held, h, 0, 1, 2);
    gapped := AfterStale(held, h, 0).(reports := held.reports + [hidden]);
    OneMintUnrecorded(gapped, h);
  }

  lemma NothingUnrecorded(s: Sys, h: Digest)
    requires |s.log| == 1 && s.log[0].Minted? && s.log[0].h == h && h in s.deposits && s.deposits[h].state.Issued?
    ensures UnrecordedMints(s) == map[] && UnrecordedBurns(s) == map[] && Gap(s) == 0
  {
    assert s.log == [] + [s.log[0]];
    MintsAppend([], s.log[0]);
    MovesAppend([], s.log[0]);
  }

  lemma OneMintUnrecorded(s: Sys, h: Digest)
    requires s.log == [Minted(h, "w", 1)] && h in s.deposits && !s.deposits[h].state.Issued?
    ensures UnrecordedMints(s) == map[h := 1] && UnrecordedBurns(s) == map[] && Gap(s) == 1
  {
    assert s.log == [] + [s.log[0]];
    MintsAppend([], s.log[0]);
    MovesAppend([], s.log[0]);
    SumInsert(map[], h, 1);
    assert map[][h := 1] == UnrecordedMints(s);
  }

  /** A mint whose reply is lost, and a payout that dies before its wire: neither is ever made good. */
  lemma LossesHappen() returns (minted: Sys, unwired: Sys, key: R.RedeemKey)
    ensures Reachable(minted) && forall events :: OneUnit().Nullifier() in UnrecordedMints(Run(minted, events))
    ensures Reachable(unwired) && key in unwired.redemptions && unwired.redemptions[key].state.PayoutQueued?
    ensures forall events :: !Wired(Run(unwired, events).sent, key)
  {
    minted := LostMint();
    forall events
      ensures OneUnit().Nullifier() in UnrecordedMints(Run(minted, events))
    {
      LostMintStaysUnrecorded(minted, OneUnit().Nullifier(), events);
    }
    unwired, key := LostWire();
    ReachableInv(unwired);
    forall events
      ensures !Wired(Run(unwired, events).sent, key)
    {
      LostWireStaysLost(unwired, key, events);
    }
  }

  lemma LostMint() returns (s: Sys)
    ensures Reachable(s) && Abandoned(s, OneUnit().Nullifier()) && OneUnit().Nullifier() in UnrecordedMints(s)
  {
    var held := OneHeld();
    var h := OneUnit().Nullifier();
    var attested := held.deposits[h].(state := D.Attested);
    RetryToMint(held, h, 0);
    var s1 := held.(deposits := held.deposits[h := attested]);
    ReachableNext(At(s1, 0, AskMint(attested)), Advance(0, Lost(true), Ok(D.Pass)));
    LostMintTick(s1, 0, attested);
    s := MintedFor(s1, attested);
    MintsAppend(s1.log, Minted(h, attested.beneficiaryWallet, attested.amount));
  }

  lemma LostMintTick(s: Sys, id: nat, d: D.Deposit)
    requires id !in s.calls && d.state.Attested?
    requires Issue(s.ledger, d.beneficiaryWallet, d.amount, d.Nullifier()).1.Ok?
    ensures Happen(At(s, id, AskMint(d)), Advance(id, Lost(true), Ok(D.Pass))) == MintedFor(s, d)
  {
    assert s.calls[id := AskMint(d)] - {id} == s.calls;
  }

  lemma LostWire() returns (s: Sys, key: R.RedeemKey)
    ensures Reachable(s) && WireLost(s, key) && s.redemptions[key].state.PayoutQueued?
  {
    var escrowed: Sys;
    escrowed, key := OneRequested(Prompt);
    var queued := escrowed.redemptions[key].(state := R.PayoutQueued);
    ReachableNext(escrowed, Start(0, EnterPayout(key)));
    ReachableTick(At(escrowed, 0, FindPayout(key)), 0);
    FindPayoutTick(escrowed, 0, key);
    ReachableTick(At(escrowed, 0, SavePayout(queued)), 0);
    SavePayoutTick(escrowed, 0, queued);
    s := escrowed.(redemptions := escrowed.redemptions[key := queued]);
    ReachableNext(At(s, 0, SendWire(key, queued.amount)), Crash(0));
    CrashTick(s, 0, SendWire(key, queued.amount));
  }

  /** `s` with both clocks set. */
  function AtTime(s: Sys, to: i64): Sys {
    s.(clock := to, ledger := s.ledger.(now := to))
  }

  lemma SetClocks(s: Sys, to: i64)
    requires Reachable(s)
    ensures Reachable(AtTime(s, to))
  {
    ReachableNext(s, ServiceClock(to));
    ReachableNext(s.(clock := to), LedgerSide(L.SetNow(to)));
  }

  lemma LedgerReturns(t: Treasury, key: R.RedeemKey)
    requires Conserved(t) && t.LiveEscrow(key) && t.escrows[key].escrowedAt == 0 && t.now == 86_400
    ensures Return(t, key).1.Ok?
  {
    ReturnConserves(t, key);
  }

  lemma ReachableConserves(s: Sys)
    requires Reachable(s)
    ensures Conserved(s.ledger)
  {
    ReachableInv(s);
  }

  /** An escrowed redemption a day later. */
  lemma DayOld() returns (s: Sys, key: R.RedeemKey)
    ensures Reachable(s) && s.calls == map[] && Reclaimable(s, key)
  {
    var escrowed: Sys;
    escrowed, key := OneRequested(Prompt);
    SetClocks(escrowed, 86_400);
    s := AtTime(escrowed, 86_400);
    ReachableConserves(s);
    LedgerReturns(s.ledger, key);
  }

  /** Tokens returned and then wired: by an overlap, and by a lost reply alone. */
  lemma ReturnedIsWired() returns (before: Sys, overlapped: Sys, lost: Sys, key: R.RedeemKey)
    ensures Reachable(before) && Reachable(overlapped) && Reachable(lost)
    ensures ReturnedThenWired(before, overlapped, key) && ReturnedThenWired(before, lost, key)
  {
    before, key := DayOld();
    overlapped := WiredAfterReturn(before, key, 0, 1);
    lost := LostReturnThenWired(before, key, 0);
  }
}
