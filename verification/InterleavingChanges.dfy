/** What one event changes: at most one row, and at most one effect. */
module InterleavingChanges {
  import opened Prelude
  import opened RepoPort
  import opened Adapters
  import D = Deposits
  import R = Redemptions
  import opened Interleaving
  import opened InterleavingInvariant
  import opened InterleavingSteps
  import L = Ledger

  /** The effect that lands with `e`. */
  function EffectOf(s: Sys, e: Event): Option<Effect> {
    if !e.Advance? || e.id !in s.calls then None
    else match s.calls[e.id]
      case AskMint(d) =>
        if MintLanded(s, d, e.answer) then Some(Minted(d.Nullifier(), d.beneficiaryWallet, d.amount)) else None
      case AskEscrow(r) => if EscrowLanded(s, r, e.answer) then Some(Moved(Escrowing, r.Key(), r.amount)) else None
      case AskBurn(r) =>
        if BurnLanded(s, r.Key(), e.answer) then Some(Moved(Burning, r.Key(), HeldAmount(s.ledger, r.Key()))) else None
      case AskReturn(r) =>
        if ReturnLanded(s, r.Key(), e.answer) then Some(Moved(Returning, r.Key(), HeldAmount(s.ledger, r.Key()))) else None
      case SendWire(key, amount) => if Wired(s.sent, key) then None else Some(Moved(Wiring, key, amount))
      case _ => None
  }

  /** The repository call made by `e`, if it makes one. */
  function RepoCallOf(s: Sys, e: Event): Option<RepoCall> {
    if e.Advance? && e.id in s.calls then Asks(s.calls[e.id]) else None
  }

  /** The deposit row that `e` writes. */
  function WrittenDeposit(s: Sys, e: Event): Option<D.Deposit> {
    match RepoCallOf(s, e)
    case Some(InsertD(d)) => if d.Nullifier() in s.deposits then None else Some(d)
    case Some(UpdateD(d)) => if d.Nullifier() in s.deposits then Some(d) else None
    case _ => None
  }

  function WrittenRedemption(s: Sys, e: Event): Option<R.Redemption> {
    match RepoCallOf(s, e)
    case Some(InsertR(r)) => if r.Key() in s.redemptions then None else Some(r)
    case Some(UpdateR(r)) => if r.Key() in s.redemptions then Some(r) else None
    case _ => None
  }

  lemma PortLogIs(s: Sys, id: nat, c: Call, answer: Answer, screen: PortResult<D.ScreenOutcome>)
    requires id in s.calls && s.calls[id] == c
    ensures var after := StepPort(s, id, c, answer, screen);
            after.log == match EffectOf(s, Advance(id, answer, screen)) case Some(x) => s.log + [x] case None => s.log
    ensures RowsOf(StepPort(s, id, c, answer, screen)) == RowsOf(s)
  {
  }

  /** The history gains that effect and nothing else. */
  lemma LogIs(s: Sys, e: Event)
    ensures Happen(s, e).log == match EffectOf(s, e) case Some(x) => s.log + [x] case None => s.log
  {
    if AsksStore(s, e) {
      assert EffectOf(s, e).None?;
    } else if e.Advance? && e.id in s.calls {
      PortLogIs(s, e.id, s.calls[e.id], e.answer, e.screen);
    }
  }

  lemma ElsewhereKeepsRows(s: Sys, e: Event)
    ensures RowsOf(Elsewhere(s, e)) == RowsOf(s)
  {
    if e.Advance? && e.id in s.calls {
      PortLogIs(s, e.id, s.calls[e.id], e.answer, e.screen);
    }
  }

  /** The stores gain or replace those rows and nothing else. */
  lemma RowsAre(s: Sys, e: Event)
    ensures Happen(s, e).deposits
         == match WrittenDeposit(s, e) case Some(d) => s.deposits[d.Nullifier() := d] case None => s.deposits
    ensures Happen(s, e).redemptions
         == match WrittenRedemption(s, e) case Some(r) => s.redemptions[r.Key() := r] case None => s.redemptions
  {
    if !AsksStore(s, e) {
      ElsewhereKeepsRows(s, e);
    }
  }

  /** What is written over a row is a copy of it. */
  lemma WritesAreCopies(s: Sys, e: Event)
    requires Inv(s)
    ensures WrittenDeposit(s, e).Some? && WrittenDeposit(s, e).value.Nullifier() in s.deposits ==>
              DepositCopy(s, WrittenDeposit(s, e).value) && DepositBacked(s.log, WrittenDeposit(s, e).value)
    ensures WrittenRedemption(s, e).Some? && WrittenRedemption(s, e).value.Key() in s.redemptions ==>
              RedemptionCopy(s, WrittenRedemption(s, e).value) && RedemptionBacked(s.log, WrittenRedemption(s, e).value)
  {
    if e.Advance? && e.id in s.calls {
      assert CallOk(s, s.calls[e.id]);
    }
  }

  /** No row is lost, and only states and stamps change. */
  lemma HappenGrowsRows(s: Sys, e: Event)
    requires Inv(s)
    ensures RowsGrow(s, Happen(s, e))
  {
    RowsAre(s, e);
    WritesAreCopies(s, e);
  }

  lemma {:induction false} RunGrowsRows(s: Sys, events: seq<Event>)
    requires Inv(s)
    ensures RowsGrow(s, Run(s, events)) && Inv(Run(s, events))
    decreases |events|
  {
    if events != [] {
      var next := Happen(s, events[0]);
      HappenGrowsRows(s, events[0]);
      HappenKeepsInv(s, events[0]);
      RunGrowsRows(next, events[1..]);
      GrowthComposes(s, next, Run(s, events));
    }
  }

  lemma GrowthComposes(s: Sys, t: Sys, u: Sys)
    requires RowsGrow(s, t) && RowsGrow(t, u)
    ensures RowsGrow(s, u)
  {
    forall h | h in s.deposits
      ensures h in u.deposits && D.SameDeposit(u.deposits[h], s.deposits[h])
    {
      assert D.SameDeposit(t.deposits[h], s.deposits[h]) && D.SameDeposit(u.deposits[h], t.deposits[h]);
    }
    forall k | k in s.redemptions
      ensures k in u.redemptions && R.SameRedemption(u.redemptions[k], s.redemptions[k])
    {
      assert R.SameRedemption(t.redemptions[k], s.redemptions[k]) && R.SameRedemption(u.redemptions[k], t.redemptions[k]);
    }
  }

  // ---- The calls ---------------------------------------------------------------------------

  /** Only the advanced call moves. */
  lemma OthersStay(s: Sys, e: Event, id: nat)
    requires id in Happen(s, e).calls && !(e.Advance? && e.id == id) && !(e.Start? && e.id == id)
    ensures id in s.calls && Happen(s, e).calls[id] == s.calls[id]
  {
    if e.Advance? && e.id in s.calls {
      PortOthers(s, e.id, s.calls[e.id], e.answer, e.screen, id);
    }
  }

  lemma PortOthers(s: Sys, id: nat, c: Call, answer: Answer, screen: PortResult<D.ScreenOutcome>, other: nat)
    requires id != other
    ensures other in StepPort(s, id, c, answer, screen).calls <==> other in s.calls
    ensures other in s.calls ==> StepPort(s, id, c, answer, screen).calls[other] == s.calls[other]
  {
    if c.AskMint? || c.AskEscrow? {
      TokenOthers(s, id, c, answer, screen, other);
    }
  }

  lemma TokenOthers(s: Sys, id: nat, c: Call, answer: Answer, screen: PortResult<D.ScreenOutcome>, other: nat)
    requires id != other && (c.AskMint? || c.AskEscrow?)
    ensures other in StepPort(s, id, c, answer, screen).calls <==> other in s.calls
    ensures other in s.calls ==> StepPort(s, id, c, answer, screen).calls[other] == s.calls[other]
  {
  }

  /** The ledger's own activity is what its calls do, and touches nothing else. */
  lemma LedgerMovesOnItsOwn(s: Sys, call: L.LedgerCall)
    ensures call.SetNow? || call.SetParams? || call.SetEncumbered? || call.CallFundInventory? || call.CallFundGrx? || call.CallAttest? ==>
              Happen(s, LedgerSide(call)) == s.(ledger := L.Perform(s.ledger, call).0)
    ensures call.CallIssue? || call.CallEscrow? || call.CallBurn? || call.CallReturn? ==> Happen(s, LedgerSide(call)) == s
  {
  }
}
