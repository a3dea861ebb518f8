/** Runs of single calls, and what two overlapping ones can do to each other's records. */
module InterleavingTicks {
  import opened Prelude
  import opened Money
  import opened BankRefs
  import D = Deposits
  import R = Redemptions
  import opened L = Ledger
  import opened Interleaving
  import opened InterleavingInvariant
  import opened InterleavingSteps
  import opened InterleavingTheorems
  import G = InterleavingGaps
  import I = Issuance

  // ---- Runs, one prompt step at a time----------------------------------------------------

  lemma ReachableNext(s: Sys, e: Event)
    requires Reachable(s)
    ensures Reachable(Happen(s, e))
  {
    var reserve, ttlSecs, now, delta, events :| s == Run(NewSys(reserve, ttlSecs, now, delta), events);
    G.RunAppend(NewSys(reserve, ttlSecs, now, delta), events, e);
    assert Happen(s, e) == Run(NewSys(reserve, ttlSecs, now, delta), events + [e]);
  }

  lemma ReachableStart(reserve: Thb, ttlSecs: i64, now: i64, delta: i64)
    ensures Reachable(NewSys(reserve, ttlSecs, now, delta))
  {
    assert NewSys(reserve, ttlSecs, now, delta) == Run(NewSys(reserve, ttlSecs, now, delta), []);
  }

  /** One prompt step of call `id`. */
  ghost function Tick(s: Sys, id: nat): Sys {
    Happen(s, Advance(id, Prompt, Ok(D.Pass)))
  }

  lemma ReachableTick(s: Sys, id: nat)
    requires Reachable(s)
    ensures Reachable(Tick(s, id))
  {
    ReachableNext(s, Advance(id, Prompt, Ok(D.Pass)));
  }

  /** `s` with call `id` at `c`. */
  function At(s: Sys, id: nat, c: Call): Sys {
    s.(calls := s.calls[id := c])
  }

  lemma SaveTick(s: Sys, id: nat, row: R.Redemption)
    requires row.Key() in s.redemptions
    ensures Tick(At(s, id, SaveConfirm(row)), id)
         == s.(redemptions := s.redemptions[row.Key() := row], calls := s.calls - {id})
  {
    assert s.calls[id := SaveConfirm(row)] - {id} == s.calls - {id};
  }

  /** `s` after a burn of `key` has landed. */
  function Burned(s: Sys, key: R.RedeemKey): Sys {
    s.(ledger := Burn(s.ledger, key).0, log := s.log + [Moved(Burning, key, HeldAmount(s.ledger, key))])
  }

  lemma BurnTick(s: Sys, id: nat, row: R.Redemption)
    requires row.state.IsPending() && Burn(s.ledger, row.Key()).1.Ok?
    ensures Tick(At(s, id, AskBurn(row)), id) == At(Burned(s, row.Key()), id, SaveConfirm(row.(state := R.Confirmed)))
  {
    assert s.calls[id := AskBurn(row)][id := SaveConfirm(row.(state := R.Confirmed))]
        == s.calls[id := SaveConfirm(row.(state := R.Confirmed))];
  }

  lemma FindConfirmTick(s: Sys, id: nat, key: R.RedeemKey)
    requires key in s.redemptions
    ensures Tick(At(s, id, FindConfirm(key)), id) == At(s, id, AskBurn(s.redemptions[key]))
  {
    assert s.calls[id := FindConfirm(key)][id := AskBurn(s.redemptions[key])] == s.calls[id := AskBurn(s.redemptions[key])];
  }

  lemma FindPayoutTick(s: Sys, id: nat, key: R.RedeemKey)
    requires key in s.redemptions && s.redemptions[key].state.Escrowed?
    ensures Tick(At(s, id, FindPayout(key)), id)
         == At(s, id, SavePayout(s.redemptions[key].(state := R.PayoutQueued)))
  {
    var next := SavePayout(s.redemptions[key].(state := R.PayoutQueued));
    assert s.calls[id := FindPayout(key)][id := next] == s.calls[id := next];
  }

  lemma SavePayoutTick(s: Sys, id: nat, row: R.Redemption)
    requires row.Key() in s.redemptions
    ensures Tick(At(s, id, SavePayout(row)), id)
         == At(s.(redemptions := s.redemptions[row.Key() := row]), id, SendWire(row.Key(), row.amount))
  {
    var next := SendWire(row.Key(), row.amount);
    assert s.calls[id := SavePayout(row)][id := next] == s.calls[id := next];
  }

  /** A `confirm` call from start to end, with a prompt ledger and nothing else happening. */
  ghost function Confirming(s: Sys, key: R.RedeemKey, b: nat): Sys {
    Tick(Tick(Tick(Happen(s, Start(b, EnterConfirm(key))), b), b), b)
  }

  lemma RefusedBurnTick(s: Sys, id: nat, row: R.Redemption)
    requires !row.state.IsPending() && Burn(s.ledger, row.Key()).1.Ok?
    ensures Tick(At(s, id, AskBurn(row)), id) == Burned(s, row.Key()).(calls := s.calls - {id})
  {
    assert s.calls[id := AskBurn(row)] - {id} == s.calls - {id};
  }

  lemma IdleTick(s: Sys, id: nat)
    requires id !in s.calls
    ensures Tick(s, id) == s
  {
  }

  lemma StartConfirm(s: Sys, key: R.RedeemKey, b: nat)
    requires b !in s.calls && key in s.redemptions
    ensures Tick(Happen(s, Start(b, EnterConfirm(key))), b) == At(s, b, AskBurn(s.redemptions[key]))
  {
    assert Happen(s, Start(b, EnterConfirm(key))) == At(s, b, FindConfirm(key));
    FindConfirmTick(s, b, key);
  }

  lemma RefusedConfirm(s: Sys, key: R.RedeemKey, b: nat)
    requires b !in s.calls && key in s.redemptions && s.redemptions[key].Key() == key
    requires !s.redemptions[key].state.IsPending() && Burn(s.ledger, key).1.Ok?
    ensures Confirming(s, key, b) == Burned(s, key)
  {
    StartConfirm(s, key, b);
    RefusedBurnTick(s, b, s.redemptions[key]);
    assert s.calls - {b} == s.calls;
    IdleTick(Burned(s, key), b);
  }

  lemma AcceptedConfirm(s: Sys, key: R.RedeemKey, b: nat)
    requires b !in s.calls && key in s.redemptions && s.redemptions[key].Key() == key
    requires s.redemptions[key].state.IsPending() && Burn(s.ledger, key).1.Ok?
    ensures Confirming(s, key, b)
         == Burned(s, key).(redemptions := s.redemptions[key := s.redemptions[key].(state := R.Confirmed)])
  {
    StartConfirm(s, key, b);
    BurnTick(s, b, s.redemptions[key]);
    SaveTick(Burned(s, key), b, s.redemptions[key].(state := R.Confirmed));
    assert Burned(s, key).calls - {b} == s.calls;
  }

  /**
   * The service burns before it consults the row. When the ledger holds a live escrow, the burn happens
   * in any case, and it goes unrecorded exactly when the row is not pending: an escrow whose reply was
   * lost, so that the row still says `Requested`, is burned by a `confirm` that then fails.
   */
  lemma ConfirmRecordsExactly(s: Sys, key: R.RedeemKey, b: nat)
    requires Reachable(s) && b !in s.calls && s.ledger.LiveEscrow(key)
    ensures key in s.redemptions && Reachable(Confirming(s, key, b))
    ensures key in Moves(Confirming(s, key, b).log, Burning)
    ensures key in UnrecordedBurns(Confirming(s, key, b)) <==> !s.redemptions[key].state.IsPending()
    ensures key in UnrecordedBurns(Confirming(s, key, b)) ==>
              s.redemptions[key].state.Requested? || s.redemptions[key].state.Failed?
  {
    LiveEscrowRow(s, key);
    MovedIsThere(s.log, Moved(Burning, key, HeldAmount(s.ledger, key)));
    ConfirmingReachable(s, key, b);
    if s.redemptions[key].state.IsPending() {
      AcceptedConfirm(s, key, b);
    } else {
      RefusedConfirm(s, key, b);
    }
  }

  lemma ConfirmingReachable(s: Sys, key: R.RedeemKey, b: nat)
    requires Reachable(s)
    ensures Reachable(Confirming(s, key, b))
  {
    var s1 := Happen(s, Start(b, EnterConfirm(key)));
    ReachableNext(s, Start(b, EnterConfirm(key)));
    ReachableTick(s1, b);
    ReachableTick(Tick(s1, b), b);
    ReachableTick(Tick(Tick(s1, b), b), b);
  }

  /** Behind a live escrow stands a row that is neither confirmed nor reclaimed. */
  lemma LiveEscrowRow(s: Sys, key: R.RedeemKey)
    requires Reachable(s) && s.ledger.LiveEscrow(key)
    ensures key in s.redemptions && s.redemptions[key].Key() == key && Burn(s.ledger, key).1.Ok?
    ensures !s.redemptions[key].state.Confirmed? && !s.redemptions[key].state.Reclaimed?
  {
    ReachableInv(s);
    BurnConserves(s.ledger, key);
    assert key in Moves(s.log, Escrowing);
    assert RedemptionBacked(s.log, s.redemptions[key]);
  }

  /** A `confirm` of a pending row that runs alone burns once and records it. */
  lemma ConfirmAlone(s: Sys, key: R.RedeemKey, b: nat) returns (t: Sys)
    requires Reachable(s) && b !in s.calls && key in s.redemptions && s.redemptions[key].state.IsPending()
    requires s.redemptions[key].Key() == key && Burn(s.ledger, key).1.Ok?
    ensures Reachable(t) && t.calls == s.calls && t.deposits == s.deposits
    ensures t.redemptions == s.redemptions[key := s.redemptions[key].(state := R.Confirmed)]
    ensures t.log == s.log + [Moved(Burning, key, HeldAmount(s.ledger, key))]
  {
    ConfirmingReachable(s, key, b);
    AcceptedConfirm(s, key, b);
    t := Confirming(s, key, b);
  }

  /**
   * From any reachable state with an escrowed redemption, a payout that read its row before a
   * complete `confirm` writes `PayoutQueued` over `Confirmed`: the burn is no longer recorded.
   */
  lemma StalePayoutHidesABurn(s: Sys, key: R.RedeemKey, a: nat, b: nat) returns (t: Sys)
    requires Reachable(s) && a !in s.calls && b !in s.calls && a != b
    requires key in s.redemptions && s.redemptions[key].state.Escrowed? && s.ledger.LiveEscrow(key)
    ensures Reachable(t)
    ensures key in t.redemptions && t.redemptions[key].state.PayoutQueued? && key in UnrecordedBurns(t)
  {
    LiveEscrowRow(s, key);
    var queued := s.redemptions[key].(state := R.PayoutQueued);
    PayoutToSave(s, key, a);
    var s1 := ConfirmAlone(At(s, a, SavePayout(queued)), key, b);
    ReachableTick(s1, a);
    t := Tick(s1, a);
    StalePayoutSave(s1, a, queued);
    BurnNowUnrecorded(t, s.log, Moved(Burning, key, HeldAmount(s.ledger, key)));
  }

  /** A payout up to the point where it saves. */
  lemma PayoutToSave(s: Sys, key: R.RedeemKey, a: nat)
    requires Reachable(s) && a !in s.calls && key in s.redemptions && s.redemptions[key].state.Escrowed?
    ensures Reachable(At(s, a, SavePayout(s.redemptions[key].(state := R.PayoutQueued))))
  {
    ReachableNext(s, Start(a, EnterPayout(key)));
    ReachableTick(At(s, a, FindPayout(key)), a);
    FindPayoutTick(s, a, key);
  }

  lemma StalePayoutSave(s: Sys, id: nat, r: R.Redemption)
    requires id in s.calls && s.calls[id] == SavePayout(r) && r.Key() in s.redemptions
    ensures Tick(s, id).redemptions == s.redemptions[r.Key() := r] && Tick(s, id).log == s.log
  {
    assert At(s, id, SavePayout(r)) == s by { assert s.calls[id := SavePayout(r)] == s.calls; }
    SavePayoutTick(s, id, r);
  }

  lemma BurnNowUnrecorded(t: Sys, log: Log, e: Effect)
    requires e.Moved? && e.kind == Burning && t.log == log + [e]
    requires e.key in t.redemptions && !t.redemptions[e.key].state.Confirmed?
    ensures e.key in UnrecordedBurns(t)
  {
    MovesAppend(log, e);
  }

  lemma FindHeldTick(s: Sys, id: nat, h: Digest)
    requires h in s.deposits && s.deposits[h].state.Screened?
    ensures Tick(At(s, id, FindHeld(h)), id) == At(s, id, ReadReserve(s.deposits[h], s.clock))
  {
    var next := ReadReserve(s.deposits[h], s.clock);
    assert s.calls[id := FindHeld(h)][id := next] == s.calls[id := next];
  }

  /** Whether the ceiling check with the reserve seen now lets `d` through. */
  ghost predicate GatePasses(s: Sys, d: D.Deposit) {
    var r := I.EffectiveReserve(I.OnRamp(s.ledger, s.deposits));
    r.Ok? && r.value.CheckIssuance(d.amount, s.clock).Ok?
  }

  /** Reading the reserve and the encumbrance back to back. */
  lemma GateTicks(s: Sys, id: nat, d: D.Deposit)
    requires GatePasses(s, d) && d.state.Screened?
    ensures Tick(Tick(At(s, id, ReadReserve(d, s.clock)), id), id) == At(s, id, SaveAttested(d.(state := D.Attested)))
  {
    var read := ReadEncumbered(d, s.clock, s.ledger.reserve);
    var save := SaveAttested(d.(state := D.Attested));
    assert s.calls[id := ReadReserve(d, s.clock)][id := read] == s.calls[id := read];
    assert Tick(At(s, id, ReadReserve(d, s.clock)), id) == At(s, id, read);
    assert s.calls[id := read][id := save] == s.calls[id := save];
  }

  lemma SaveAttestedTick(s: Sys, id: nat, d: D.Deposit)
    requires d.Nullifier() in s.deposits
    ensures Tick(At(s, id, SaveAttested(d)), id) == At(s.(deposits := s.deposits[d.Nullifier() := d]), id, AskMint(d))
  {
    assert s.calls[id := SaveAttested(d)][id := AskMint(d)] == s.calls[id := AskMint(d)];
  }

  /** `s` after a mint for `d` has landed. */
  function MintedFor(s: Sys, d: D.Deposit): Sys {
    s.(ledger := Issue(s.ledger, d.beneficiaryWallet, d.amount, d.Nullifier()).0,
       log := s.log + [Minted(d.Nullifier(), d.beneficiaryWallet, d.amount)])
  }

  lemma MintTicks(s: Sys, id: nat, d: D.Deposit)
    requires d.state.Attested? && d.Nullifier() in s.deposits
    requires Issue(s.ledger, d.beneficiaryWallet, d.amount, d.Nullifier()).1.Ok?
    ensures Tick(Tick(At(s, id, AskMint(d)), id), id)
         == MintedFor(s, d).(deposits := s.deposits[d.Nullifier() := d.(state := D.Issued)], calls := s.calls - {id})
  {
    var save := SaveIssued(d.(state := D.Issued));
    assert s.calls[id := AskMint(d)][id := save] == s.calls[id := save];
    assert Tick(At(s, id, AskMint(d)), id) == At(MintedFor(s, d), id, save);
    assert s.calls[id := save] - {id} == s.calls - {id};
  }

  /** A retry up to the point where it saves that it passed the gate. */
  lemma RetryToSave(s: Sys, h: Digest, b: nat)
    requires Reachable(s) && b !in s.calls && h in s.deposits && s.deposits[h].Nullifier() == h
    requires s.deposits[h].state.Screened? && GatePasses(s, s.deposits[h])
    ensures Reachable(At(s, b, SaveAttested(s.deposits[h].(state := D.Attested))))
  {
    var d := s.deposits[h];
    ReachableNext(s, Start(b, EnterRetry(d.bankRef)));
    ReachableTick(At(s, b, FindHeld(h)), b);
    FindHeldTick(s, b, h);
    ReachableTick(At(s, b, ReadReserve(d, s.clock)), b);
    ReachableTick(Tick(At(s, b, ReadReserve(d, s.clock)), b), b);
    GateTicks(s, b, d);
  }

  /** And on, to the point where it asks for the mint. */
  lemma RetryToMint(s: Sys, h: Digest, b: nat)
    requires Reachable(s) && b !in s.calls && h in s.deposits && s.deposits[h].Nullifier() == h
    requires s.deposits[h].state.Screened? && GatePasses(s, s.deposits[h])
    ensures var attested := s.deposits[h].(state := D.Attested);
            Reachable(At(s.(deposits := s.deposits[h := attested]), b, AskMint(attested)))
  {
    var attested := s.deposits[h].(state := D.Attested);
    RetryToSave(s, h, b);
    ReachableTick(At(s, b, SaveAttested(attested)), b);
    SaveAttestedTick(s, b, attested);
  }

  /** A retry that runs alone, once the gate and the ledger admit it. */
  lemma RetryAlone(s: Sys, h: Digest, b: nat) returns (t: Sys)
    requires Reachable(s) && b !in s.calls && h in s.deposits && s.deposits[h].Nullifier() == h
    requires s.deposits[h].state.Screened? && GatePasses(s, s.deposits[h])
    requires Issue(s.ledger, s.deposits[h].beneficiaryWallet, s.deposits[h].amount, h).1.Ok?
    ensures Reachable(t)
    ensures t == MintedFor(s, s.deposits[h]).(deposits := s.deposits[h := s.deposits[h].(state := D.Issued)])
  {
    var d := s.deposits[h];
    var attested := d.(state := D.Attested);
    RetryToMint(s, h, b);
    var s1 := s.(deposits := s.deposits[h := attested]);
    var minting := At(s1, b, AskMint(attested));
    ReachableTick(minting, b);
    ReachableTick(Tick(minting, b), b);
    MintTicks(s1, b, attested);
    t := Tick(Tick(minting, b), b);
    assert s1.deposits[h := d.(state := D.Issued)] == s.deposits[h := d.(state := D.Issued)];
    assert s1.calls - {b} == s.calls;
  }

  /**
   * From any reachable state with a held deposit that passes the gate, a retry that has passed it but
   * not yet saved, while another retry completes, writes `Attested` over `Issued`: the mint is no longer
   * recorded, with an honest ledger and no crash.
   */
  lemma StaleRetryHidesAMint(s: Sys, h: Digest, a: nat, b: nat) returns (t: Sys)
    requires Reachable(s) && a !in s.calls && b !in s.calls && a != b
    requires h in s.deposits && s.deposits[h].state.Screened? && GatePasses(s, s.deposits[h])
    requires Issue(s.ledger, s.deposits[h].beneficiaryWallet, s.deposits[h].amount, h).1.Ok?
    ensures Reachable(t)
    ensures h in t.deposits && t.deposits[h].state.Attested? && h in UnrecordedMints(t)
  {
    var d := s.deposits[h];
    var attested := d.(state := D.Attested);
    assert d.Nullifier() == h by { ReachableInv(s); }
    RetryToSave(s, h, a);
    var s1 := RetryAlone(At(s, a, SaveAttested(attested)), h, b);
    ReachableTick(s1, a);
    t := Tick(s1, a);
    StaleSave(s1, a, attested);
    NowUnrecorded(t, s.log, Minted(h, d.beneficiaryWallet, d.amount));
  }

  lemma NowUnrecorded(t: Sys, log: Log, e: Effect)
    requires e.Minted? && t.log == log + [e] && e.h in t.deposits && !t.deposits[e.h].state.Issued?
    ensures e.h in UnrecordedMints(t)
  {
    MintsAppend(log, e);
  }

  lemma StaleSave(s: Sys, id: nat, d: D.Deposit)
    requires id in s.calls && s.calls[id] == SaveAttested(d) && d.Nullifier() in s.deposits
    ensures Tick(s, id).deposits == s.deposits[d.Nullifier() := d] && Tick(s, id).log == s.log
  {
    assert At(s, id, SaveAttested(d)) == s by { assert s.calls[id := SaveAttested(d)] == s.calls; }
    SaveAttestedTick(s, id, d);
  }
}
