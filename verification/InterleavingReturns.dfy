/** Tokens that are returned and wired: what an overlap or a lost reply does to the barrier, and exactly when. */
module InterleavingReturns {
  import opened Prelude
  import opened Money
  import opened Adapters
  import D = Deposits
  import R = Redemptions
  import opened L = Ledger
  import opened Interleaving
  import opened InterleavingInvariant
  import opened InterleavingSteps
  import opened InterleavingTicks
  import opened InterleavingPhases

  /** `s` after the return of `key` has landed. */
  function Returned(s: Sys, key: R.RedeemKey): Sys {
    s.(ledger := Return(s.ledger, key).0, log := s.log + [Moved(Returning, key, HeldAmount(s.ledger, key))])
  }

  /** An escrowed redemption that service and ledger would both let its holder reclaim now. */
  predicate Reclaimable(s: Sys, key: R.RedeemKey) {
    && RowIs(s, key, R.Escrowed) && s.redemptions[key].Key() == key
    && s.redemptions[key].Next(R.Reclaim(s.clock)).Ok? && Return(s.ledger, key).1.Ok?
  }

  // ---- A reclaim on its own ---------------------------------------------------------------

  lemma FindReclaimTick(s: Sys, id: nat, key: R.RedeemKey)
    requires Reclaimable(s, key)
    ensures Tick(At(s, id, FindReclaim(key)), id) == At(s, id, AskReturn(s.redemptions[key].(state := R.Reclaimed)))
  {
    var next := AskReturn(s.redemptions[key].(state := R.Reclaimed));
    assert s.calls[id := FindReclaim(key)][id := next] == s.calls[id := next];
  }

  lemma ReturnTick(s: Sys, id: nat, row: R.Redemption)
    requires Return(s.ledger, row.Key()).1.Ok?
    ensures Tick(At(s, id, AskReturn(row)), id) == At(Returned(s, row.Key()), id, SaveReclaim(row))
  {
    assert s.calls[id := AskReturn(row)][id := SaveReclaim(row)] == s.calls[id := SaveReclaim(row)];
  }

  /** The return lands and its reply is lost: the call is over. */
  lemma LostReturnTick(s: Sys, id: nat, row: R.Redemption)
    requires Return(s.ledger, row.Key()).1.Ok? && id !in s.calls
    ensures Happen(At(s, id, AskReturn(row)), Advance(id, Lost(true), Ok(D.Pass))) == Returned(s, row.Key())
  {
    assert s.calls[id := AskReturn(row)] - {id} == s.calls;
  }

  lemma SaveReclaimTick(s: Sys, id: nat, row: R.Redemption)
    requires row.Key() in s.redemptions && id !in s.calls
    ensures Tick(At(s, id, SaveReclaim(row)), id) == s.(redemptions := s.redemptions[row.Key() := row])
  {
    assert s.calls[id := SaveReclaim(row)] - {id} == s.calls;
  }

  lemma ReclaimToReturn(s: Sys, key: R.RedeemKey, b: nat)
    requires Reachable(s) && b !in s.calls && Reclaimable(s, key)
    ensures Reachable(At(s, b, AskReturn(s.redemptions[key].(state := R.Reclaimed))))
  {
    ReachableNext(s, Start(b, EnterReclaim(key)));
    ReachableTick(At(s, b, FindReclaim(key)), b);
    FindReclaimTick(s, b, key);
  }

  /** `s` after a complete reclaim of `key`. */
  function Reclaimed(s: Sys, key: R.RedeemKey): Sys
    requires key in s.redemptions
  {
    Returned(s, key).(redemptions := s.redemptions[key := s.redemptions[key].(state := R.Reclaimed)])
  }

  lemma ReclaimAlone(s: Sys, key: R.RedeemKey, b: nat)
    requires Reachable(s) && b !in s.calls && Reclaimable(s, key)
    ensures Reachable(Reclaimed(s, key))
  {
    var row := s.redemptions[key].(state := R.Reclaimed);
    ReclaimToReturn(s, key, b);
    ReachableTick(At(s, b, AskReturn(row)), b);
    ReturnTick(s, b, row);
    ReachableTick(At(Returned(s, key), b, SaveReclaim(row)), b);
    SaveReclaimTick(Returned(s, key), b, row);
  }

  // ---- A payout on its own ----------------------------------------------------------------

  /** `s` after the wire for `key` has been enqueued. */
  function WiredFor(s: Sys, key: R.RedeemKey, amount: Thb): Sys {
    s.(sent := s.sent + [Wire(key, amount)], log := s.log + [Moved(Wiring, key, amount)])
  }

  lemma SendTick(s: Sys, id: nat, key: R.RedeemKey, amount: Thb)
    requires id !in s.calls && !Wired(s.sent, key)
    ensures Tick(At(s, id, SendWire(key, amount)), id) == WiredFor(s, key, amount)
  {
    assert s.calls[id := SendWire(key, amount)] - {id} == s.calls;
  }

  /** A `process_payout` call from start to end, with nothing else happening. */
  ghost function Paid(s: Sys, key: R.RedeemKey, b: nat): Sys {
    Tick(Tick(Tick(Happen(s, Start(b, EnterPayout(key))), b), b), b)
  }

  lemma PaidReachable(s: Sys, key: R.RedeemKey, b: nat)
    requires Reachable(s)
    ensures Reachable(Paid(s, key, b))
  {
    var s1 := Happen(s, Start(b, EnterPayout(key)));
    ReachableNext(s, Start(b, EnterPayout(key)));
    ReachableTick(s1, b);
    ReachableTick(Tick(s1, b), b);
    ReachableTick(Tick(Tick(s1, b), b), b);
  }

  lemma AcceptedPayout(s: Sys, key: R.RedeemKey, b: nat)
    requires b !in s.calls && RowIs(s, key, R.Escrowed) && s.redemptions[key].Key() == key && !Wired(s.sent, key)
    ensures Paid(s, key, b)
         == WiredFor(s, key, s.redemptions[key].amount).(redemptions := s.redemptions[key := s.redemptions[key].(state := R.PayoutQueued)])
  {
    var queued := s.redemptions[key].(state := R.PayoutQueued);
    assert Happen(s, Start(b, EnterPayout(key))) == At(s, b, FindPayout(key));
    FindPayoutTick(s, b, key);
    SavePayoutTick(s, b, queued);
    SendTick(s.(redemptions := s.redemptions[key := queued]), b, key, queued.amount);
  }

  lemma RefusedPayoutTick(s: Sys, id: nat, key: R.RedeemKey)
    requires id !in s.calls && !RowIs(s, key, R.Escrowed)
    ensures Tick(At(s, id, FindPayout(key)), id) == s
  {
    assert s.calls[id := FindPayout(key)] - {id} == s.calls;
  }

  lemma RefusedPayout(s: Sys, key: R.RedeemKey, b: nat)
    requires b !in s.calls && !RowIs(s, key, R.Escrowed)
    ensures Paid(s, key, b) == s
  {
    assert Happen(s, Start(b, EnterPayout(key))) == At(s, b, FindPayout(key));
    RefusedPayoutTick(s, b, key);
    IdleTick(s, b);
  }

  // ---- Returned and wired -----------------------------------------------------------------

  lemma WiredInLog(s: Sys, key: R.RedeemKey)
    requires StoreInv(s)
    ensures Wired(s.sent, key) <==> key in Moves(s.log, Wiring)
  {
    if Wired(s.sent, key) {
      var i :| 0 <= i < |s.sent| && s.sent[i].key == key;
    }
  }

  /** What a payout needs of an `Escrowed` row: its own key, and no wire yet. */
  lemma EscrowedIsUnwired(s: Sys, key: R.RedeemKey)
    requires Reachable(s) && RowIs(s, key, R.Escrowed)
    ensures s.redemptions[key].Key() == key && !Wired(s.sent, key) && key !in Moves(s.log, Wiring)
  {
    ReachableInv(s);
    EveryKeyIsPhased(s, key);
    WiredInLog(s, key);
  }

  /** Which wires a payout adds: one for the key of an `Escrowed` row, and none otherwise. */
  lemma PaidMoves(s: Sys, key: R.RedeemKey, b: nat)
    requires Reachable(s) && b !in s.calls
    ensures key in Moves(Paid(s, key, b).log, Wiring) <==> key in Moves(s.log, Wiring) || RowIs(s, key, R.Escrowed)
    ensures Moves(Paid(s, key, b).log, Returning) == Moves(s.log, Returning)
  {
    if RowIs(s, key, R.Escrowed) {
      EscrowedIsUnwired(s, key);
      AcceptedPayout(s, key, b);
      MovesAppend(s.log, Moved(Wiring, key, s.redemptions[key].amount));
    } else {
      RefusedPayout(s, key, b);
    }
  }

  /**
   * A payout that runs on its own, on a prompt ledger, wires tokens that have been returned exactly when
   * the row says `Escrowed` and the return has landed.
   */
  lemma PayoutWiresReturnedExactly(s: Sys, key: R.RedeemKey, b: nat)
    requires Reachable(s) && b !in s.calls
    ensures Reachable(Paid(s, key, b))
    ensures && key !in Moves(s.log, Wiring) && key in Moves(Paid(s, key, b).log, Wiring)
            && key in Moves(Paid(s, key, b).log, Returning)
       <==> RowIs(s, key, R.Escrowed) && key in Moves(s.log, Returning)
  {
    PaidReachable(s, key, b);
    PaidMoves(s, key, b);
    if RowIs(s, key, R.Escrowed) {
      EscrowedIsUnwired(s, key);
    }
  }

  /** The log ends with the return and then the wire; the escrow is gone, and the row says `PayoutQueued`. */
  predicate ReturnedThenWired(s: Sys, t: Sys, key: R.RedeemKey) {
    && key in s.redemptions && RowIs(t, key, R.PayoutQueued) && key !in t.ledger.escrows
    && t.log == s.log + [Moved(Returning, key, HeldAmount(s.ledger, key)), Moved(Wiring, key, s.redemptions[key].amount)]
    && t.sent == s.sent + [Wire(key, s.redemptions[key].amount)]
  }

  /** A payout that has read its row goes on to the wire, whatever the row says by now. */
  lemma SaveAndSend(s: Sys, a: nat, queued: R.Redemption)
    requires Reachable(At(s, a, SavePayout(queued))) && a !in s.calls
    requires queued.Key() in s.redemptions && !Wired(s.sent, queued.Key())
    ensures Reachable(WiredFor(s, queued.Key(), queued.amount).(redemptions := s.redemptions[queued.Key() := queued]))
  {
    var saved := s.(redemptions := s.redemptions[queued.Key() := queued]);
    ReachableTick(At(s, a, SavePayout(queued)), a);
    SavePayoutTick(s, a, queued);
    ReachableTick(At(saved, a, SendWire(queued.Key(), queued.amount)), a);
    SendTick(saved, a, queued.Key(), queued.amount);
  }

  /** A payout that read its row before a complete reclaim saves over `Reclaimed`, and sends the wire. */
  lemma WiredAfterReturn(s: Sys, key: R.RedeemKey, a: nat, b: nat) returns (t: Sys)
    requires Reachable(s) && a !in s.calls && b !in s.calls && a != b && Reclaimable(s, key)
    ensures Reachable(t) && ReturnedThenWired(s, t, key)
  {
    var queued := s.redemptions[key].(state := R.PayoutQueued);
    EscrowedIsUnwired(s, key);
    PayoutToSave(s, key, a);
    ReclaimAlone(At(s, a, SavePayout(queued)), key, b);
    var reclaimed := Reclaimed(s, key);
    assert Reclaimed(At(s, a, SavePayout(queued)), key) == At(reclaimed, a, SavePayout(queued));
    SaveAndSend(reclaimed, a, queued);
    t := WiredFor(reclaimed, key, queued.amount).(redemptions := reclaimed.redemptions[key := queued]);
    ReturnsThenWires(s, t, key);
  }

  lemma ReturnsThenWires(s: Sys, t: Sys, key: R.RedeemKey)
    requires key in s.redemptions && RowIs(t, key, R.PayoutQueued) && Return(s.ledger, key).1.Ok?
    requires t.ledger == Return(s.ledger, key).0 && t.sent == s.sent + [Wire(key, s.redemptions[key].amount)]
    requires t.log == s.log + [Moved(Returning, key, HeldAmount(s.ledger, key))] + [Moved(Wiring, key, s.redemptions[key].amount)]
    ensures ReturnedThenWired(s, t, key)
  {
  }

  /** A reclaim whose reply is lost, and then a payout: the same, with nothing overlapping. */
  lemma LostReturnThenWired(s: Sys, key: R.RedeemKey, b: nat) returns (t: Sys)
    requires Reachable(s) && b !in s.calls && Reclaimable(s, key)
    ensures Reachable(t) && ReturnedThenWired(s, t, key)
  {
    var row := s.redemptions[key].(state := R.Reclaimed);
    EscrowedIsUnwired(s, key);
    ReclaimToReturn(s, key, b);
    ReachableNext(At(s, b, AskReturn(row)), Advance(b, Lost(true), Ok(D.Pass)));
    LostReturnTick(s, b, row);
    PaidReachable(Returned(s, key), key, b);
    AcceptedPayout(Returned(s, key), key, b);
    t := Paid(Returned(s, key), key, b);
    ReturnsThenWires(s, t, key);
  }
}
