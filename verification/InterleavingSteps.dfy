/** Every event keeps the interleaving invariant: first the stores, then the calls. */
module InterleavingSteps {
  import opened Prelude
  import opened Sums
  import opened Money
  import opened Reserve
  import opened BankRefs
  import opened Repositories
  import opened RepoPort
  import opened Adapters
  import opened Reconciliation
  import D = Deposits
  import R = Redemptions
  import opened L = Ledger
  import opened Interleaving
  import opened InterleavingInvariant

  // ---- The stores -------------------------------------------------------------------------

  lemma PutDepositKeeps(s: Sys, d: D.Deposit)
    requires StoreInv(s) && DepositBacked(s.log, d)
    requires d.Nullifier() in s.deposits ==> D.SameDeposit(d, s.deposits[d.Nullifier()])
    ensures var s' := s.(deposits := s.deposits[d.Nullifier() := d]);
            StoreInv(s') && Grows(s, s')
  {
  }

  lemma PutRedemptionKeeps(s: Sys, r: R.Redemption)
    requires StoreInv(s) && RedemptionBacked(s.log, r)
    requires r.Key() in s.redemptions ==> R.SameRedemption(r, s.redemptions[r.Key()])
    requires r.Key() !in s.redemptions ==> SeqReady(s.redemptions, r.Key())
    ensures var s' := s.(redemptions := s.redemptions[r.Key() := r]);
            StoreInv(s') && Grows(s, s')
  {
  }

  /** A landed mint is new, and the row it belongs to is already there. */
  lemma MintKeeps(s: Sys, d: D.Deposit)
    requires StoreInv(s) && DepositCopy(s, d)
    requires Issue(s.ledger, d.beneficiaryWallet, d.amount, d.Nullifier()).1.Ok?
    ensures var e := Minted(d.Nullifier(), d.beneficiaryWallet, d.amount);
            var s' := s.(ledger := Issue(s.ledger, d.beneficiaryWallet, d.amount, d.Nullifier()).0, log := s.log + [e]);
            StoreInv(s') && Grows(s, s') && Moves(s'.log, Escrowing) == Moves(s.log, Escrowing)
            && e.h in Mints(s'.log)
  {
    var h := d.Nullifier();
    var e := Minted(h, d.beneficiaryWallet, d.amount);
    MintLedger(s.ledger, s.log, d.beneficiaryWallet, d.amount, h);
    MintsAppend(s.log, e);
    MovesAppend(s.log, e);
    AppendKeepsLogInv(s.log, e);
    RowsUnderMint(s.deposits, s.redemptions, s.log, e);
    Assemble(s, Issue(s.ledger, d.beneficiaryWallet, d.amount, h).0, s.sent, s.log + [e]);
  }

  lemma MintLedger(t: Treasury, log: Log, wallet: string, amount: Thb, h: Digest)
    requires LedgerMatchesLog(t, log) && Issue(t, wallet, amount, h).1.Ok?
    ensures h !in Mints(log) && LedgerMatchesLog(Issue(t, wallet, amount, h).0, log + [Minted(h, wallet, amount)])
  {
    var e := Minted(h, wallet, amount);
    IssueConserves(t, wallet, amount, h);
    MintsAppend(log, e);
    MovesAppend(log, e);
    SumInsert(Mints(log), h, amount);
    CheckIssuanceExactly(t.reserve, amount, t.now);
  }

  lemma RowsUnderMint(deposits: DepositRows, redemptions: RedemptionRows, log: Log, e: Effect)
    requires DepositRowsMatchLog(deposits, log) && RedemptionRowsMatchLog(redemptions, log)
    requires e.Minted? && e.h in deposits && deposits[e.h].amount == e.amount
    ensures DepositRowsMatchLog(deposits, log + [e]) && RedemptionRowsMatchLog(redemptions, log + [e])
  {
    MintsAppend(log, e);
    MovesAppend(log, e);
  }

  lemma Assemble(s: Sys, t: Treasury, sent: seq<Wire>, log: Log)
    requires SeqsClosed(s.redemptions) && LogInv(log) && LogGrows(s.log, log)
    requires LedgerMatchesLog(t, log) && WiresMatchLog(sent, log)
    requires DepositRowsMatchLog(s.deposits, log) && RedemptionRowsMatchLog(s.redemptions, log)
    ensures var s' := s.(ledger := t, sent := sent, log := log); StoreInv(s') && Grows(s, s')
  {
  }

  /** A token movement that may happen next keeps the stores, if ledger and wires follow it. */
  lemma MoveKeeps(s: Sys, e: Effect, t: Treasury, sent: seq<Wire>, log: Log)
    requires LogInv(s.log) && e.Moved? && CanAppend(s.log, e) && log == s.log + [e]
    requires DepositRowsMatchLog(s.deposits, s.log) && RedemptionRowsMatchLog(s.redemptions, s.log)
    requires e.kind == Escrowing ==> e.key in s.redemptions && s.redemptions[e.key].amount == e.amount
    requires SeqsClosed(s.redemptions) && LedgerMatchesLog(t, log) && WiresMatchLog(sent, log)
    ensures var s' := s.(ledger := t, sent := sent, log := log); StoreInv(s') && Grows(s, s')
    ensures Moves(log, Escrowing) == MoveOne(Moves(s.log, Escrowing), e, Escrowing)
  {
    MoveGrowsLog(s.log, e);
    AppendKeepsLogInv(s.log, e);
    RowsUnderMove(s.deposits, s.redemptions, s.log, e);
    Assemble(s, t, sent, log);
  }

  lemma MoveGrowsLog(log: Log, e: Effect)
    requires e.Moved? && CanAppend(log, e)
    ensures LogGrows(log, log + [e]) && Mints(log + [e]) == Mints(log)
    ensures Moves(log + [e], Escrowing) == MoveOne(Moves(log, Escrowing), e, Escrowing)
  {
    MintsAppend(log, e);
    MovesAppend(log, e);
  }

  lemma RowsUnderMove(deposits: DepositRows, redemptions: RedemptionRows, log: Log, e: Effect)
    requires DepositRowsMatchLog(deposits, log) && RedemptionRowsMatchLog(redemptions, log)
    requires e.Moved? && CanAppend(log, e)
    requires e.kind == Escrowing ==> e.key in redemptions && redemptions[e.key].amount == e.amount
    ensures DepositRowsMatchLog(deposits, log + [e]) && RedemptionRowsMatchLog(redemptions, log + [e])
  {
    MovesAppend(log, e);
    MoveGrowsLog(log, e);
  }

  lemma WiresIgnoreEscrow(sent: seq<Wire>, log: Log, e: Effect)
    requires WiresMatchLog(sent, log) && e.Moved? && e.kind != Wiring && CanAppend(log, e)
    ensures WiresMatchLog(sent, log + [e])
  {
    MovesAppend(log, e);
  }

  lemma EscrowKeeps(s: Sys, r: R.Redemption)
    requires StoreInv(s) && RedemptionCopy(s, r) && r.Key() !in Moves(s.log, Escrowing)
    requires Escrow(s.ledger, r.Key(), r.amount).1.Ok?
    ensures var e := Moved(Escrowing, r.Key(), r.amount);
            var s' := s.(ledger := Escrow(s.ledger, r.Key(), r.amount).0, log := s.log + [e]);
            StoreInv(s') && Grows(s, s') && Moves(s'.log, Escrowing) == Moves(s.log, Escrowing)[r.Key() := r.amount]
  {
    var e := Moved(Escrowing, r.Key(), r.amount);
    EscrowLedger(s.ledger, s.log, r.Key(), r.amount);
    WiresIgnoreEscrow(s.sent, s.log, e);
    MoveKeeps(s, e, Escrow(s.ledger, r.Key(), r.amount).0, s.sent, s.log + [e]);
  }

  lemma EscrowLedger(t: Treasury, log: Log, key: R.RedeemKey, amount: Thb)
    requires LedgerMatchesLog(t, log) && key !in Moves(log, Escrowing) && Escrow(t, key, amount).1.Ok?
    ensures LedgerMatchesLog(Escrow(t, key, amount).0, log + [Moved(Escrowing, key, amount)])
  {
    var e := Moved(Escrowing, key, amount);
    EscrowConserves(t, key, amount);
    MintsAppend(log, e);
    MovesAppend(log, e);
  }

  lemma BurnKeeps(s: Sys, key: R.RedeemKey)
    requires StoreInv(s) && Burn(s.ledger, key).1.Ok?
    ensures var e := Moved(Burning, key, HeldAmount(s.ledger, key));
            var s' := s.(ledger := Burn(s.ledger, key).0, log := s.log + [e]);
            StoreInv(s') && Grows(s, s') && Moves(s'.log, Escrowing) == Moves(s.log, Escrowing)
  {
    var e := Moved(Burning, key, HeldAmount(s.ledger, key));
    BurnLedger(s.ledger, s.log, key);
    WiresIgnoreEscrow(s.sent, s.log, e);
    MoveKeeps(s, e, Burn(s.ledger, key).0, s.sent, s.log + [e]);
  }

  lemma BurnLedger(t: Treasury, log: Log, key: R.RedeemKey)
    requires LedgerMatchesLog(t, log) && Burn(t, key).1.Ok?
    ensures CanAppend(log, Moved(Burning, key, HeldAmount(t, key)))
    ensures LedgerMatchesLog(Burn(t, key).0, log + [Moved(Burning, key, HeldAmount(t, key))])
  {
    var e := Moved(Burning, key, HeldAmount(t, key));
    BurnConserves(t, key);
    MintsAppend(log, e);
    MovesAppend(log, e);
    SumInsert(Moves(log, Burning), key, e.amount);
  }

  lemma ReturnKeeps(s: Sys, key: R.RedeemKey)
    requires StoreInv(s) && Return(s.ledger, key).1.Ok?
    ensures var e := Moved(Returning, key, HeldAmount(s.ledger, key));
            var s' := s.(ledger := Return(s.ledger, key).0, log := s.log + [e]);
            StoreInv(s') && Grows(s, s') && Moves(s'.log, Escrowing) == Moves(s.log, Escrowing)
  {
    var e := Moved(Returning, key, HeldAmount(s.ledger, key));
    ReturnLedger(s.ledger, s.log, key);
    WiresIgnoreEscrow(s.sent, s.log, e);
    MoveKeeps(s, e, Return(s.ledger, key).0, s.sent, s.log + [e]);
  }

  lemma ReturnLedger(t: Treasury, log: Log, key: R.RedeemKey)
    requires LedgerMatchesLog(t, log) && Return(t, key).1.Ok?
    ensures CanAppend(log, Moved(Returning, key, HeldAmount(t, key)))
    ensures LedgerMatchesLog(Return(t, key).0, log + [Moved(Returning, key, HeldAmount(t, key))])
  {
    var e := Moved(Returning, key, HeldAmount(t, key));
    ReturnConserves(t, key);
    MintsAppend(log, e);
    MovesAppend(log, e);
  }

  /** A wire not yet queued is not yet in the log, and its escrow is. */
  lemma WireKeeps(s: Sys, key: R.RedeemKey, amount: Thb)
    requires StoreInv(s) && !Wired(s.sent, key)
    requires key in Moves(s.log, Escrowing) && Moves(s.log, Escrowing)[key] == amount
    ensures var s' := s.(sent := s.sent + [Wire(key, amount)], log := s.log + [Moved(Wiring, key, amount)]);
            StoreInv(s') && Grows(s, s') && Moves(s'.log, Escrowing) == Moves(s.log, Escrowing)
  {
    var e := Moved(Wiring, key, amount);
    WireIsFree(s.ledger, s.log, e);
    WireQueued(s.sent, s.log, e);
    MoveKeeps(s, e, s.ledger, s.sent + [Wire(key, amount)], s.log + [e]);
  }

  lemma WireIsFree(t: Treasury, log: Log, e: Effect)
    requires LedgerMatchesLog(t, log) && e.Moved? && e.kind == Wiring && CanAppend(log, e)
    ensures LedgerMatchesLog(t, log + [e])
  {
    MintsAppend(log, e);
    MovesAppend(log, e);
  }

  lemma WireQueued(sent: seq<Wire>, log: Log, e: Effect)
    requires WiresMatchLog(sent, log) && e.Moved? && e.kind == Wiring && CanAppend(log, e)
    ensures WiresMatchLog(sent + [Wire(e.key, e.amount)], log + [e])
  {
    MovesAppend(log, e);
    var after := sent + [Wire(e.key, e.amount)];
    forall k | k in Moves(log + [e], Wiring)
      ensures Wired(after, k)
    {
      if k == e.key {
        assert after[|sent|].key == k;
      } else {
        var i :| 0 <= i < |sent| && sent[i].key == k;
        assert after[i].key == k;
      }
    }
  }

  lemma HousekeepingKeeps(s: Sys, call: L.LedgerCall)
    requires StoreInv(s) && Housekeeping(call)
    ensures StoreInv(s.(ledger := Perform(s.ledger, call).0))
  {
    PerformConserves(s.ledger, call);
  }

  // ---- One step of a call -----------------------------------------------------------------

  /** A step that touches no store. */
  lemma QuietStep(s: Sys, id: nat, next: Option<Call>)
    requires Inv(s) && (next.Some? ==> CallOk(s, next.value) && !next.value.AskEscrow?)
    ensures Inv(Resume(s, id, next))
  {
    ResumeKeepsInv(s, s, id, next);
  }

  /** A repository call that only reads. */
  predicate Reads(call: RepoCall) {
    !call.InsertD? && !call.UpdateD? && !call.InsertR? && !call.UpdateR?
  }

  /** What the in-memory stores tell `c`, and where that takes it. */
  ghost function Following(s: Sys, c: Call): Option<Call>
    requires Asks(c).Some?
  {
    Told(c, InMemory(RowsOf(s), Asks(c).value).1, s.clock, s.delta)
  }

  lemma ReadsKeepRows(rows: Rows, call: RepoCall)
    requires Reads(call)
    ensures InMemory(rows, call).0 == rows
  {
  }

  lemma ReadIs(s: Sys, id: nat, c: Call)
    requires Asks(c).Some? && Reads(Asks(c).value)
    ensures StepStore(s, id, c) == Resume(s, id, Following(s, c))
  {
    ReadsKeepRows(RowsOf(s), Asks(c).value);
    assert Over(s, RowsOf(s)) == s;
  }

  lemma ReadStep(s: Sys, id: nat, c: Call)
    requires Inv(s) && Asks(c).Some? && Reads(Asks(c).value)
    requires Following(s, c).Some? ==> CallOk(s, Following(s, c).value) && !Following(s, c).value.AskEscrow?
    ensures Inv(StepStore(s, id, c))
  {
    ReadIs(s, id, c);
    QuietStep(s, id, Following(s, c));
  }

  lemma SaveDepositIs(s: Sys, id: nat, c: Call, d: D.Deposit)
    requires Asks(c) == Some(UpdateD(d)) && d.Nullifier() in s.deposits
    ensures StepStore(s, id, c)
         == Resume(s.(deposits := s.deposits[d.Nullifier() := d]), id, Told(c, Done(Ok(Unit)), s.clock, s.delta))
  {
  }

  lemma SaveDepositStep(s: Sys, id: nat, c: Call, d: D.Deposit, next: Option<Call>)
    requires Inv(s) && DepositCopy(s, d) && DepositBacked(s.log, d) && Asks(c) == Some(UpdateD(d))
    requires next == Told(c, Done(Ok(Unit)), s.clock, s.delta)
    requires next.Some? ==> !next.value.AskEscrow? && CallOk(s.(deposits := s.deposits[d.Nullifier() := d]), next.value)
    ensures Inv(StepStore(s, id, c))
  {
    SaveDepositIs(s, id, c, d);
    PutDepositKeeps(s, d);
    ResumeKeepsInv(s, s.(deposits := s.deposits[d.Nullifier() := d]), id, next);
  }

  lemma SaveRedemptionIs(s: Sys, id: nat, c: Call, r: R.Redemption)
    requires Asks(c) == Some(UpdateR(r)) && r.Key() in s.redemptions
    ensures StepStore(s, id, c)
         == Resume(s.(redemptions := s.redemptions[r.Key() := r]), id, Told(c, Done(Ok(Unit)), s.clock, s.delta))
  {
  }

  lemma SaveRedemptionStep(s: Sys, id: nat, c: Call, r: R.Redemption, next: Option<Call>)
    requires Inv(s) && RedemptionCopy(s, r) && RedemptionBacked(s.log, r) && Asks(c) == Some(UpdateR(r))
    requires next == Told(c, Done(Ok(Unit)), s.clock, s.delta)
    requires next.Some? ==> !next.value.AskEscrow? && CallOk(s.(redemptions := s.redemptions[r.Key() := r]), next.value)
    ensures Inv(StepStore(s, id, c))
  {
    SaveRedemptionIs(s, id, c, r);
    PutRedemptionKeeps(s, r);
    ResumeKeepsInv(s, s.(redemptions := s.redemptions[r.Key() := r]), id, next);
  }

  // ---- The stores' steps ------------------------------------------------------------------

  lemma InsertDepositIs(s: Sys, id: nat, d: D.Deposit, now: i64)
    ensures StepStore(s, id, InsertDeposit(d, now))
         == if d.Nullifier() in s.deposits then Resume(s, id, Some(AnswerReplay(d.Nullifier())))
            else Resume(s.(deposits := s.deposits[d.Nullifier() := d]), id, Some(AskScreen(d, now)))
  {
  }

  lemma InsertDepositStep(s: Sys, id: nat, d: D.Deposit, now: i64)
    requires Inv(s) && CallOk(s, InsertDeposit(d, now))
    ensures Inv(StepStore(s, id, InsertDeposit(d, now)))
  {
    InsertDepositIs(s, id, d, now);
    if d.Nullifier() in s.deposits {
      QuietStep(s, id, Some(AnswerReplay(d.Nullifier())));
    } else {
      PutDepositKeeps(s, d);
      ResumeKeepsInv(s, s.(deposits := s.deposits[d.Nullifier() := d]), id, Some(AskScreen(d, now)));
    }
  }

  lemma SaveOnRampStep(s: Sys, id: nat, c: Call)
    requires Inv(s) && CallOk(s, c) && (c.SaveScreen? || c.SaveAttested? || c.SaveIssued?)
    ensures Inv(StepStore(s, id, c))
  {
    match c
    case SaveScreen(d, now) =>
      SaveDepositStep(s, id, c, d, if d.state.Encumbered? then None else Some(ReadReserve(d, now)));
    case SaveAttested(d) => SaveDepositStep(s, id, c, d, Some(AskMint(d)));
    case SaveIssued(d) => SaveDepositStep(s, id, c, d, None);
  }

  /** A number after the greatest one is ready, whatever is inserted meanwhile. */
  lemma SuccessorReady(rows: RedemptionRows, user: string)
    ensures SeqReady(rows, R.RedeemKey(user, Successor(MaxSeq(rows, user))))
  {
    var m := MaxSeq(rows, user);
  }

  lemma InsertRedemptionIs(s: Sys, id: nat, r: R.Redemption)
    ensures StepStore(s, id, InsertRedemption(r))
         == if r.Key() in s.redemptions then Resume(s, id, None)
            else Resume(s.(redemptions := s.redemptions[r.Key() := r]), id, Some(AskEscrow(r)))
  {
  }

  lemma InsertRedemptionStep(s: Sys, id: nat, r: R.Redemption)
    requires Inv(s) && CallOk(s, InsertRedemption(r))
    ensures Inv(StepStore(s, id, InsertRedemption(r)))
  {
    InsertRedemptionIs(s, id, r);
    if r.Key() in s.redemptions {
      QuietStep(s, id, None);
    } else {
      PutRedemptionKeeps(s, r);
      ResumeKeepsInv(s, s.(redemptions := s.redemptions[r.Key() := r]), id, Some(AskEscrow(r)));
    }
  }

  lemma SaveOffRampStep(s: Sys, id: nat, c: Call)
    requires Inv(s) && CallOk(s, c) && (c.SaveEscrow? || c.SavePayout? || c.SaveConfirm? || c.SaveReclaim?)
    ensures Inv(StepStore(s, id, c))
  {
    SaveRedemptionStep(s, id, c, c.r, if c.SavePayout? then Some(SendWire(c.r.Key(), c.r.amount)) else None);
  }

  /** What a reading call goes on with is sound: a row just found, or a number just computed. */
  lemma FollowingOk(s: Sys, c: Call)
    requires DepositRowsMatchLog(s.deposits, s.log) && RedemptionRowsMatchLog(s.redemptions, s.log) && CallOk(s, c)
    requires Asks(c).Some? && Reads(Asks(c).value)
    ensures Following(s, c).Some? ==> CallOk(s, Following(s, c).value) && !Following(s, c).value.AskEscrow?
  {
    match c
    case FindHeld(h) =>
    case ReadNextSeq(user, _, _) => SuccessorReady(s.redemptions, user);
    case FindPayout(key) => FindPayoutOk(s, key);
    case FindConfirm(key) =>
    case FindReclaim(key) => FindReclaimOk(s, key);
    case ReadEncumbered(_, _, _) =>
    case _ =>
  }

  lemma FindPayoutOk(s: Sys, key: R.RedeemKey)
    requires RedemptionRowsMatchLog(s.redemptions, s.log)
    ensures Following(s, FindPayout(key)).Some? ==> CallOk(s, Following(s, FindPayout(key)).value)
  {
  }

  lemma FindReclaimOk(s: Sys, key: R.RedeemKey)
    requires RedemptionRowsMatchLog(s.redemptions, s.log)
    ensures Following(s, FindReclaim(key)).Some? ==> CallOk(s, Following(s, FindReclaim(key)).value)
  {
  }

  lemma InsertStep(s: Sys, id: nat, c: Call)
    requires Inv(s) && CallOk(s, c) && (c.InsertDeposit? || c.InsertRedemption?)
    ensures Inv(StepStore(s, id, c))
  {
    match c
    case InsertDeposit(d, now) => InsertDepositStep(s, id, d, now);
    case InsertRedemption(r) => InsertRedemptionStep(s, id, r);
  }

  lemma UpdateStep(s: Sys, id: nat, c: Call)
    requires Inv(s) && CallOk(s, c) && Asks(c).Some? && (Asks(c).value.UpdateD? || Asks(c).value.UpdateR?)
    ensures Inv(StepStore(s, id, c))
  {
    if c.SaveScreen? || c.SaveAttested? || c.SaveIssued? {
      SaveOnRampStep(s, id, c);
    } else {
      SaveOffRampStep(s, id, c);
    }
  }

  lemma StoreStep(s: Sys, id: nat, c: Call)
    requires Inv(s) && CallOk(s, c) && Asks(c).Some?
    ensures Inv(StepStore(s, id, c))
  {
    if Reads(Asks(c).value) {
      FollowingOk(s, c);
      ReadStep(s, id, c);
    } else if c.InsertDeposit? || c.InsertRedemption? {
      InsertStep(s, id, c);
    } else {
      UpdateStep(s, id, c);
    }
  }

  // ---- The other ports' steps -------------------------------------------------------------

  /** The mint has landed; the call goes on to record it if it heard so. */
  function AfterMint(s: Sys, id: nat, d: D.Deposit, confirmed: bool): Sys {
    var e := Minted(d.Nullifier(), d.beneficiaryWallet, d.amount);
    var t := Issue(s.ledger, d.beneficiaryWallet, d.amount, d.Nullifier()).0;
    Resume(s.(ledger := t, log := s.log + [e]), id, MintHeard(d, confirmed))
  }

  function MintHeard(d: D.Deposit, confirmed: bool): Option<Call> {
    if confirmed then Some(SaveIssued(d.(state := D.Issued))) else None
  }

  function MintAnswer(s: Sys, d: D.Deposit, answer: Answer): Reply {
    Hear(s.ledger, Issue(s.ledger, d.beneficiaryWallet, d.amount, d.Nullifier()), d.Nullifier() in s.ledger.nullifiers, answer).1
  }

  predicate MintLanded(s: Sys, d: D.Deposit, answer: Answer) {
    Landed(Issue(s.ledger, d.beneficiaryWallet, d.amount, d.Nullifier()), answer)
  }

  lemma MintIs(s: Sys, id: nat, d: D.Deposit, answer: Answer, screen: PortResult<D.ScreenOutcome>)
    requires d.state.Attested?
    ensures StepPort(s, id, AskMint(d), answer, screen)
            == if MintLanded(s, d, answer) then AfterMint(s, id, d, IsConfirmed(MintAnswer(s, d, answer)))
               else Resume(s, id, MintHeard(d, IsConfirmed(MintAnswer(s, d, answer))))
    ensures !MintLanded(s, d, answer) && IsConfirmed(MintAnswer(s, d, answer)) ==> d.Nullifier() in s.ledger.nullifiers
  {
  }

  lemma MintStep(s: Sys, id: nat, d: D.Deposit, answer: Answer, screen: PortResult<D.ScreenOutcome>)
    requires Inv(s) && CallOk(s, AskMint(d))
    ensures Inv(StepPort(s, id, AskMint(d), answer, screen))
  {
    var confirmed := IsConfirmed(MintAnswer(s, d, answer));
    MintIs(s, id, d, answer, screen);
    if MintLanded(s, d, answer) {
      MintLands(s, id, d, confirmed);
    } else {
      QuietStep(s, id, MintHeard(d, confirmed));
    }
  }

  lemma MintLands(s: Sys, id: nat, d: D.Deposit, confirmed: bool)
    requires Inv(s) && CallOk(s, AskMint(d))
    requires Issue(s.ledger, d.beneficiaryWallet, d.amount, d.Nullifier()).1.Ok?
    ensures Inv(AfterMint(s, id, d, confirmed))
  {
    MintKeeps(s, d);
    var e := Minted(d.Nullifier(), d.beneficiaryWallet, d.amount);
    var t := Issue(s.ledger, d.beneficiaryWallet, d.amount, d.Nullifier()).0;
    ResumeKeepsInv(s, s.(ledger := t, log := s.log + [e]), id, MintHeard(d, confirmed));
  }

  /** Where an escrow reply takes the call that asked. */
  function AfterEscrow(r: R.Redemption, heard: Reply, clock: i64): Option<Call> {
    if heard.Ok? && r.state.Requested? then Some(SaveEscrow(r.Next(R.EscrowOutcome(heard.value, clock)).value)) else None
  }

  lemma EscrowedCopyOk(s: Sys, r: R.Redemption, heard: Reply, clock: i64)
    requires CallOk(s, AskEscrow(r)) && r.Key() in Moves(s.log, Escrowing)
    ensures AfterEscrow(r, heard, clock).Some? ==> CallOk(s, AfterEscrow(r, heard, clock).value)
  {
  }

  /** Without the escrow nothing is confirmed, so the copy stays where it was or fails. */
  lemma UnescrowedCopyOk(s: Sys, r: R.Redemption, heard: Reply, clock: i64)
    requires CallOk(s, AskEscrow(r)) && !IsConfirmed(heard)
    ensures AfterEscrow(r, heard, clock).Some? ==> CallOk(s, AfterEscrow(r, heard, clock).value)
  {
  }

  function EscrowAnswer(s: Sys, r: R.Redemption, answer: Answer): Reply {
    Hear(s.ledger, Escrow(s.ledger, r.Key(), r.amount), false, answer).1
  }

  predicate EscrowLanded(s: Sys, r: R.Redemption, answer: Answer) {
    Landed(Escrow(s.ledger, r.Key(), r.amount), answer)
  }

  lemma EscrowIs(s: Sys, id: nat, r: R.Redemption, answer: Answer, screen: PortResult<D.ScreenOutcome>)
    ensures var heard := EscrowAnswer(s, r, answer);
            StepPort(s, id, AskEscrow(r), answer, screen)
            == if EscrowLanded(s, r, answer) then AfterEscrowing(s, id, r, heard)
               else Resume(s, id, AfterEscrow(r, heard, s.clock))
    ensures !EscrowLanded(s, r, answer) ==> !IsConfirmed(EscrowAnswer(s, r, answer))
  {
  }

  function AfterEscrowing(s: Sys, id: nat, r: R.Redemption, heard: Reply): Sys {
    Resume(s.(ledger := Escrow(s.ledger, r.Key(), r.amount).0, log := s.log + [Moved(Escrowing, r.Key(), r.amount)]), id,
           AfterEscrow(r, heard, s.clock))
  }

  lemma EscrowStep(s: Sys, id: nat, r: R.Redemption, answer: Answer, screen: PortResult<D.ScreenOutcome>)
    requires Inv(s) && id in s.calls && s.calls[id] == AskEscrow(r) && CallOk(s, AskEscrow(r))
    ensures Inv(StepPort(s, id, AskEscrow(r), answer, screen))
  {
    var heard := EscrowAnswer(s, r, answer);
    EscrowIs(s, id, r, answer, screen);
    if EscrowLanded(s, r, answer) {
      EscrowLands(s, id, r, heard);
    } else {
      UnescrowedCopyOk(s, r, heard, s.clock);
      QuietStep(s, id, AfterEscrow(r, heard, s.clock));
    }
  }

  lemma EscrowLandedCopyOk(s: Sys, r: R.Redemption, heard: Reply, s': Sys)
    requires CallOk(s, AskEscrow(r)) && Grows(s, s') && r.Key() in Moves(s'.log, Escrowing)
    ensures AfterEscrow(r, heard, s'.clock).Some? ==> CallOk(s', AfterEscrow(r, heard, s'.clock).value)
  {
    CallOkGrows(s, s', AskEscrow(r));
    EscrowedCopyOk(s', r, heard, s'.clock);
  }

  /** The stores with the escrow of call `id` landed. */
  function WithEscrow(s: Sys, r: R.Redemption): Sys {
    s.(ledger := Escrow(s.ledger, r.Key(), r.amount).0, log := s.log + [Moved(Escrowing, r.Key(), r.amount)])
  }

  lemma EscrowResumes(s: Sys, s': Sys, id: nat, r: R.Redemption, next: Option<Call>)
    requires Inv(s) && StoreInv(s') && Grows(s, s') && s'.calls == s.calls
    requires id in s.calls && s.calls[id] == AskEscrow(r)
    requires Moves(s'.log, Escrowing) == Moves(s.log, Escrowing)[r.Key() := r.amount]
    requires next.Some? ==> CallOk(s', next.value) && next.value.SaveEscrow?
    ensures Inv(Resume(s', id, next))
  {
    ResumeKeepsInv(s, s', id, next);
  }

  lemma EscrowIsNew(s: Sys, id: nat, r: R.Redemption)
    requires Inv(s) && id in s.calls && s.calls[id] == AskEscrow(r)
    ensures r.Key() !in Moves(s.log, Escrowing)
  {
  }

  lemma EscrowLands(s: Sys, id: nat, r: R.Redemption, heard: Reply)
    requires Inv(s) && id in s.calls && s.calls[id] == AskEscrow(r) && CallOk(s, AskEscrow(r))
    requires Escrow(s.ledger, r.Key(), r.amount).1.Ok?
    ensures Inv(AfterEscrowing(s, id, r, heard))
  {
    EscrowIsNew(s, id, r);
    EscrowKeeps(s, r);
    EscrowLandedCopyOk(s, r, heard, WithEscrow(s, r));
    EscrowResumes(s, WithEscrow(s, r), id, r, AfterEscrow(r, heard, s.clock));
  }

  lemma MovedIsThere(log: Log, e: Effect)
    requires e.Moved?
    ensures e.key in Moves(log + [e], e.kind)
  {
    MovesAppend(log, e);
  }

  /** Where a burn reply takes the call that asked. */
  function BurnHeard(r: R.Redemption, confirmed: bool): Option<Call> {
    if confirmed && r.Next(R.Confirm).Ok? then Some(SaveConfirm(r.Next(R.Confirm).value)) else None
  }

  function BurnAnswer(s: Sys, key: R.RedeemKey, answer: Answer): Reply {
    Hear(s.ledger, Burn(s.ledger, key), BurnedIn(s.ledger, key), answer).1
  }

  predicate BurnLanded(s: Sys, key: R.RedeemKey, answer: Answer) {
    Landed(Burn(s.ledger, key), answer)
  }

  function AfterBurn(s: Sys, id: nat, r: R.Redemption, confirmed: bool): Sys {
    var e := Moved(Burning, r.Key(), HeldAmount(s.ledger, r.Key()));
    Resume(s.(ledger := Burn(s.ledger, r.Key()).0, log := s.log + [e]), id, BurnHeard(r, confirmed))
  }

  lemma BurnIs(s: Sys, id: nat, r: R.Redemption, answer: Answer, screen: PortResult<D.ScreenOutcome>)
    ensures var confirmed := IsConfirmed(BurnAnswer(s, r.Key(), answer));
            StepPort(s, id, AskBurn(r), answer, screen)
            == if BurnLanded(s, r.Key(), answer) then AfterBurn(s, id, r, confirmed) else Resume(s, id, BurnHeard(r, confirmed))
    ensures !BurnLanded(s, r.Key(), answer) && IsConfirmed(BurnAnswer(s, r.Key(), answer)) ==> BurnedIn(s.ledger, r.Key())
  {
  }

  lemma ConfirmedCopyOk(s: Sys, r: R.Redemption, confirmed: bool)
    requires CallOk(s, AskBurn(r)) && (confirmed ==> r.Key() in Moves(s.log, Burning))
    ensures BurnHeard(r, confirmed).Some? ==> CallOk(s, BurnHeard(r, confirmed).value)
  {
  }

  lemma BurnStep(s: Sys, id: nat, r: R.Redemption, answer: Answer, screen: PortResult<D.ScreenOutcome>)
    requires Inv(s) && CallOk(s, AskBurn(r))
    ensures Inv(StepPort(s, id, AskBurn(r), answer, screen))
  {
    var confirmed := IsConfirmed(BurnAnswer(s, r.Key(), answer));
    BurnIs(s, id, r, answer, screen);
    if BurnLanded(s, r.Key(), answer) {
      BurnLands(s, id, r, confirmed);
    } else {
      BurnedInLog(s.ledger, s.log, r.Key());
      ConfirmedCopyOk(s, r, confirmed);
      QuietStep(s, id, BurnHeard(r, confirmed));
    }
  }

  lemma BurnedInLog(t: Treasury, log: Log, key: R.RedeemKey)
    requires EscrowsMatchLog(t, log)
    ensures BurnedIn(t, key) <==> key in Moves(log, Burning)
  {
  }

  lemma BurnLands(s: Sys, id: nat, r: R.Redemption, confirmed: bool)
    requires Inv(s) && CallOk(s, AskBurn(r)) && Burn(s.ledger, r.Key()).1.Ok?
    ensures Inv(AfterBurn(s, id, r, confirmed))
  {
    var e := Moved(Burning, r.Key(), HeldAmount(s.ledger, r.Key()));
    var s' := s.(ledger := Burn(s.ledger, r.Key()).0, log := s.log + [e]);
    BurnKeeps(s, r.Key());
    MovedIsThere(s.log, e);
    CallOkGrows(s, s', AskBurn(r));
    ConfirmedCopyOk(s', r, confirmed);
    ResumeKeepsInv(s, s', id, BurnHeard(r, confirmed));
  }

  predicate ReturnLanded(s: Sys, key: R.RedeemKey, answer: Answer) {
    Landed(Return(s.ledger, key), answer)
  }

  lemma ReturnIs(s: Sys, id: nat, r: R.Redemption, answer: Answer, screen: PortResult<D.ScreenOutcome>)
    ensures StepPort(s, id, AskReturn(r), answer, screen)
            == if ReturnLanded(s, r.Key(), answer)
               then AfterReturn(s, id, r, answer.Prompt?)
               else Resume(s, id, None)
  {
    assert Return(s.ledger, r.Key()).1.Ok? ==> IsConfirmed(Return(s.ledger, r.Key()).1);
  }

  lemma ReturnStep(s: Sys, id: nat, r: R.Redemption, answer: Answer, screen: PortResult<D.ScreenOutcome>)
    requires Inv(s) && CallOk(s, AskReturn(r))
    ensures Inv(StepPort(s, id, AskReturn(r), answer, screen))
  {
    ReturnIs(s, id, r, answer, screen);
    if ReturnLanded(s, r.Key(), answer) {
      ReturnLands(s, id, r, answer.Prompt?);
    } else {
      QuietStep(s, id, None);
    }
  }

  /** The return has landed; the call goes on to record it if it heard so. */
  function AfterReturn(s: Sys, id: nat, r: R.Redemption, heard: bool): Sys {
    var e := Moved(Returning, r.Key(), HeldAmount(s.ledger, r.Key()));
    Resume(s.(ledger := Return(s.ledger, r.Key()).0, log := s.log + [e]), id, if heard then Some(SaveReclaim(r)) else None)
  }

  lemma ReturnLands(s: Sys, id: nat, r: R.Redemption, heard: bool)
    requires Inv(s) && CallOk(s, AskReturn(r)) && Return(s.ledger, r.Key()).1.Ok?
    ensures Inv(AfterReturn(s, id, r, heard))
  {
    var e := Moved(Returning, r.Key(), HeldAmount(s.ledger, r.Key()));
    var s' := s.(ledger := Return(s.ledger, r.Key()).0, log := s.log + [e]);
    ReturnKeeps(s, r.Key());
    MovedIsThere(s.log, e);
    CallOkGrows(s, s', AskReturn(r));
    ResumeKeepsInv(s, s', id, if heard then Some(SaveReclaim(r)) else None);
  }

  lemma WireStep(s: Sys, id: nat, key: R.RedeemKey, amount: Thb, answer: Answer, screen: PortResult<D.ScreenOutcome>)
    requires Inv(s) && CallOk(s, SendWire(key, amount))
    ensures Inv(StepPort(s, id, SendWire(key, amount), answer, screen))
  {
    if Wired(s.sent, key) {
      QuietStep(s, id, None);
    } else {
      WireKeeps(s, key, amount);
      ResumeKeepsInv(s, s.(sent := s.sent + [Wire(key, amount)], log := s.log + [Moved(Wiring, key, amount)]), id, None);
    }
  }

  /** Where a screening answer takes the call that asked. */
  function Screened(d: D.Deposit, now: i64, screen: PortResult<D.ScreenOutcome>): Option<Call> {
    if screen.Ok? && d.Next(D.Screen(screen.value)).Ok? then Some(SaveScreen(d.Next(D.Screen(screen.value)).value, now))
    else None
  }

  lemma ScreenedOk(s: Sys, d: D.Deposit, now: i64, screen: PortResult<D.ScreenOutcome>)
    requires CallOk(s, AskScreen(d, now))
    ensures Screened(d, now, screen).Some? ==> CallOk(s, Screened(d, now, screen).value)
  {
  }

  lemma ScreenStep(s: Sys, id: nat, d: D.Deposit, now: i64, answer: Answer, screen: PortResult<D.ScreenOutcome>)
    requires Inv(s) && CallOk(s, AskScreen(d, now))
    ensures Inv(StepPort(s, id, AskScreen(d, now), answer, screen))
  {
    ScreenedOk(s, d, now, screen);
    QuietStep(s, id, Screened(d, now, screen));
  }

  /** Reading the reserve touches nothing. */
  lemma SnapshotStep(s: Sys, id: nat, c: Call, answer: Answer, screen: PortResult<D.ScreenOutcome>)
    requires Inv(s) && CallOk(s, c) && (c.ReadReserve? || c.ReadSnapshot?)
    ensures Inv(StepPort(s, id, c, answer, screen))
  {
    QuietStep(s, id, if c.ReadReserve? then Some(ReadEncumbered(c.d, c.now, s.ledger.reserve))
                     else Some(ReadBacking(c.tally, s.ledger.reserve)));
  }

  lemma ReportsDoNotMatter(s: Sys, reports: seq<Report>)
    requires StoreInv(s)
    ensures StoreInv(s.(reports := reports)) && Grows(s, s.(reports := reports))
  {
  }

  lemma RecordStep(s: Sys, id: nat, report: Report, answer: Answer, screen: PortResult<D.ScreenOutcome>)
    requires Inv(s)
    ensures Inv(StepPort(s, id, RecordReport(report), answer, screen))
  {
    RecordIs(s, id, report, answer, screen);
    ReportsDoNotMatter(s, s.reports + [report]);
    ResumeKeepsInv(s, s.(reports := s.reports + [report]), id, None);
  }

  lemma RecordIs(s: Sys, id: nat, report: Report, answer: Answer, screen: PortResult<D.ScreenOutcome>)
    ensures StepPort(s, id, RecordReport(report), answer, screen) == Resume(s.(reports := s.reports + [report]), id, None)
  {
  }

  lemma TokenStep(s: Sys, id: nat, c: Call, answer: Answer, screen: PortResult<D.ScreenOutcome>)
    requires Inv(s) && id in s.calls && s.calls[id] == c && CallOk(s, c)
    requires c.AskMint? || c.AskEscrow? || c.AskBurn? || c.AskReturn? || c.SendWire?
    ensures Inv(StepPort(s, id, c, answer, screen))
  {
    match c
    case AskMint(d) => MintStep(s, id, d, answer, screen);
    case AskEscrow(r) => EscrowStep(s, id, r, answer, screen);
    case AskBurn(r) => BurnStep(s, id, r, answer, screen);
    case AskReturn(r) => ReturnStep(s, id, r, answer, screen);
    case SendWire(key, amount) => WireStep(s, id, key, amount, answer, screen);
  }

  lemma SideStep(s: Sys, id: nat, c: Call, answer: Answer, screen: PortResult<D.ScreenOutcome>)
    requires Inv(s) && CallOk(s, c) && (c.AskScreen? || c.ReadReserve? || c.ReadSnapshot? || c.RecordReport?)
    ensures Inv(StepPort(s, id, c, answer, screen))
  {
    if c.AskScreen? {
      ScreenStep(s, id, c.d, c.now, answer, screen);
    } else if c.RecordReport? {
      RecordStep(s, id, c.report, answer, screen);
    } else {
      SnapshotStep(s, id, c, answer, screen);
    }
  }

  lemma PortStep(s: Sys, id: nat, c: Call, answer: Answer, screen: PortResult<D.ScreenOutcome>)
    requires Inv(s) && id in s.calls && s.calls[id] == c && CallOk(s, c) && Asks(c).None?
    ensures Inv(StepPort(s, id, c, answer, screen))
  {
    if c.AskScreen? || c.ReadReserve? || c.ReadSnapshot? || c.RecordReport? {
      SideStep(s, id, c, answer, screen);
    } else {
      TokenStep(s, id, c, answer, screen);
    }
  }

  // ---- Every event ------------------------------------------------------------------------

  lemma StartKeeps(s: Sys, id: nat, entry: Entry)
    requires Inv(s)
    ensures Inv(Elsewhere(s, Start(id, entry)))
  {
    if id !in s.calls && Begin(entry, s.clock).Some? {
      QuietStep(s, id, Begin(entry, s.clock));
    }
  }

  lemma ServiceClockKeeps(s: Sys, to: i64)
    requires Inv(s)
    ensures Inv(s.(clock := to))
  {
    var s' := s.(clock := to);
    forall i | i in s'.calls
      ensures CallOk(s', s'.calls[i])
    {
      CallOkGrows(s, s', s.calls[i]);
    }
  }

  lemma LedgerSideKeeps(s: Sys, call: L.LedgerCall)
    requires Inv(s) && Housekeeping(call)
    ensures Inv(s.(ledger := Perform(s.ledger, call).0))
  {
    HousekeepingKeeps(s, call);
    var s' := s.(ledger := Perform(s.ledger, call).0);
    forall i | i in s'.calls
      ensures CallOk(s', s'.calls[i])
    {
      CallOkGrows(s, s', s.calls[i]);
    }
  }

  lemma HappenKeepsInv(s: Sys, e: Event)
    requires Inv(s)
    ensures Inv(Happen(s, e))
  {
    match e
    case Start(id, entry) => StartKeeps(s, id, entry);
    case Advance(id, answer, screen) =>
      if id in s.calls {
        assert CallOk(s, s.calls[id]);
        if AsksStore(s, e) {
          StoreStep(s, id, s.calls[id]);
        } else {
          PortStep(s, id, s.calls[id], answer, screen);
        }
      }
    case Crash(id) => QuietStep(s, id, None);
    case ServiceClock(to) => ServiceClockKeeps(s, to);
    case LedgerSide(call) => if Housekeeping(call) { LedgerSideKeeps(s, call); }
  }

  lemma NewSysInv(reserve: Thb, ttlSecs: i64, now: i64, delta: i64)
    ensures Inv(NewSys(reserve, ttlSecs, now, delta))
  {
    NewTreasuryConserved(reserve, ttlSecs, now);
  }

  lemma {:induction false} RunKeepsInv(s: Sys, events: seq<Event>)
    requires Inv(s)
    ensures Inv(Run(s, events))
    decreases |events|
  {
    if events != [] {
      HappenKeepsInv(s, events[0]);
      RunKeepsInv(Happen(s, events[0]), events[1..]);
    }
  }

  /** Every state that any interleaving of calls, crashes and lost answers can reach. */
  ghost predicate Reachable(s: Sys) {
    exists reserve, ttlSecs, now, delta, events :: s == Run(NewSys(reserve, ttlSecs, now, delta), events)
  }

  lemma ReachableInv(s: Sys)
    requires Reachable(s)
    ensures Inv(s)
  {
    var reserve, ttlSecs, now, delta, events :| s == Run(NewSys(reserve, ttlSecs, now, delta), events);
    NewSysInv(reserve, ttlSecs, now, delta);
    RunKeepsInv(NewSys(reserve, ttlSecs, now, delta), events);
  }
}
