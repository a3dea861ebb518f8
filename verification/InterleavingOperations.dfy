/** Operation by operation: what a call that runs on its own does is what the sequential model says. */
module InterleavingOperations {
  import opened Prelude
  import opened Money
  import opened Reserve
  import opened BankRefs
  import opened Repositories
  import opened RepoPort
  import opened Adapters
  import D = Deposits
  import R = Redemptions
  import opened L = Ledger
  import opened Interleaving
  import opened InterleavingAlone
  import I = Issuance
  import O = OffRamps

  function OnRampOf(s: Sys): I.OnRamp { I.OnRamp(s.ledger, s.deposits) }

  function OffRampOf(s: Sys): O.OffRamp { O.OffRamp(s.ledger, s.redemptions, s.sent) }

  /** `t` is `s` with ledger and deposits as in `o`; only the history may have grown besides. */
  predicate OnRampDone(s: Sys, t: Sys, o: I.OnRamp) {
    t == s.(ledger := o.ledger, deposits := o.rows, log := t.log)
  }

  predicate OffRampDone(s: Sys, t: Sys, o: O.OffRamp) {
    t == s.(ledger := o.ledger, redemptions := o.rows, sent := o.sent, log := t.log)
  }

  /** The call is over after at most `n` steps from `c`, and the system is then `t`. */
  ghost predicate Ends(s: Sys, id: nat, c: Call, screen: PortResult<D.ScreenOutcome>, n: nat, t: Sys) {
    Whole(s, id, c, screen, n) == (t, None)
  }

  lemma LastStep(s: Sys, id: nat, c: Call, screen: PortResult<D.ScreenOutcome>, n: nat, t: Sys)
    requires n > 0 && OneStep(s, id, c, screen) == (t, None)
    ensures Ends(s, id, c, screen, n, t)
  {
  }

  lemma StepThen(s: Sys, id: nat, c: Call, screen: PortResult<D.ScreenOutcome>, n: nat, s': Sys, next: Call, t: Sys)
    requires n > 0 && OneStep(s, id, c, screen) == (s', Some(next)) && Ends(s', id, next, screen, n - 1, t)
    ensures Ends(s, id, c, screen, n, t)
  {
  }

  /** A call that ends has then done all its steps. */
  lemma Started(s: Sys, id: nat, entry: Entry, c: Call, screen: PortResult<D.ScreenOutcome>, n: nat, t: Sys)
    requires id !in s.calls && Begin(entry, s.clock) == Some(c) && Ends(s, id, c, screen, n, t)
    ensures t == Steps(Happen(s, Start(id, entry)), id, screen, n)
  {
    WholeIs(s, id, c, screen, n);
    assert Happen(s, Start(id, entry)) == With(s, id, Some(c));
  }

  // ---- The on-ramp ------------------------------------------------------------------------

  lemma SaveDepositOne(s: Sys, id: nat, c: Call, d: D.Deposit, screen: PortResult<D.ScreenOutcome>)
    requires Asks(c) == Some(UpdateD(d)) && d.Nullifier() in s.deposits
    ensures OneStep(s, id, c, screen)
         == (s.(deposits := s.deposits[d.Nullifier() := d]), Told(c, Done(Ok(Unit)), s.clock, s.delta))
  {
  }

  lemma MintOne(s: Sys, id: nat, d: D.Deposit, screen: PortResult<D.ScreenOutcome>)
    requires id !in s.calls && d.state.Attested?
    ensures var (t, r) := Issue(s.ledger, d.beneficiaryWallet, d.amount, d.Nullifier());
            OneStep(s, id, AskMint(d), screen)
            == if r.Ok?
               then (s.(ledger := t, log := s.log + [Minted(d.Nullifier(), d.beneficiaryWallet, d.amount)]),
                     Some(SaveIssued(d.(state := D.Issued))))
               else (s, None)
  {
    CallsOver(s.calls, id, AskMint(d), Some(SaveIssued(d.(state := D.Issued))));
  }

  /** The ledger after a mint for `d`, and the row after what it answered. */
  function Mint(s: Sys, d: D.Deposit): I.OnRamp {
    var (t, r) := Issue(s.ledger, d.beneficiaryWallet, d.amount, d.Nullifier());
    if r.Ok? then I.OnRamp(t, s.deposits[d.Nullifier() := d.(state := D.Issued)]) else OnRampOf(s)
  }

  lemma MintEnds(s: Sys, id: nat, d: D.Deposit, screen: PortResult<D.ScreenOutcome>, n: nat) returns (t: Sys)
    requires id !in s.calls && d.state.Attested? && d.Nullifier() in s.deposits && n >= 2
    ensures Ends(s, id, AskMint(d), screen, n, t) && OnRampDone(s, t, Mint(s, d))
  {
    MintOne(s, id, d, screen);
    var next := OneStep(s, id, AskMint(d), screen);
    if next.1.Some? {
      var issued := d.(state := D.Issued);
      SaveDepositOne(next.0, id, SaveIssued(issued), issued, screen);
      t := next.0.(deposits := s.deposits[d.Nullifier() := issued]);
      LastStep(next.0, id, SaveIssued(issued), screen, n - 1, t);
      StepThen(s, id, AskMint(d), screen, n, next.0, SaveIssued(issued), t);
    } else {
      t := s;
      LastStep(s, id, AskMint(d), screen, n, t);
    }
  }

  lemma ReadReserveOne(s: Sys, id: nat, d: D.Deposit, screen: PortResult<D.ScreenOutcome>)
    requires id !in s.calls
    ensures OneStep(s, id, ReadReserve(d, s.clock), screen) == (s, Some(ReadEncumbered(d, s.clock, s.ledger.reserve)))
  {
    CallsOver(s.calls, id, ReadReserve(d, s.clock), Some(ReadEncumbered(d, s.clock, s.ledger.reserve)));
  }

  /** Whether the service's ceiling lets `d` through. */
  ghost predicate Through(s: Sys, d: D.Deposit) {
    I.EffectiveReserve(OnRampOf(s)).Ok? && I.EffectiveReserve(OnRampOf(s)).value.CheckIssuance(d.amount, s.clock).Ok?
  }

  lemma ReadEncumberedOne(s: Sys, id: nat, d: D.Deposit, screen: PortResult<D.ScreenOutcome>)
    requires d.state.Screened?
    ensures OneStep(s, id, ReadEncumbered(d, s.clock, s.ledger.reserve), screen)
         == (s, if Through(s, d) then Some(SaveAttested(d.(state := D.Attested))) else None)
  {
  }

  /** From the ceiling on: the calls of steps 4 and 5. */
  lemma GateEnds(s: Sys, id: nat, d: D.Deposit, screen: PortResult<D.ScreenOutcome>, n: nat) returns (t: Sys)
    requires id !in s.calls && d.state.Screened? && d.Nullifier() in s.deposits && n >= 5
    ensures Ends(s, id, ReadReserve(d, s.clock), screen, n, t) && OnRampDone(s, t, I.TryIssue(OnRampOf(s), d, s.clock).0)
  {
    var reading := ReadEncumbered(d, s.clock, s.ledger.reserve);
    ReadReserveOne(s, id, d, screen);
    ReadEncumberedOne(s, id, d, screen);
    if Through(s, d) {
      t := AttestedEnds(s, id, d, screen, n - 2);
      StepThen(s, id, reading, screen, n - 1, s, SaveAttested(d.(state := D.Attested)), t);
    } else {
      t := s;
      LastStep(s, id, reading, screen, n - 1, t);
    }
    StepThen(s, id, ReadReserve(d, s.clock), screen, n, s, reading, t);
  }

  lemma AttestedEnds(s: Sys, id: nat, d: D.Deposit, screen: PortResult<D.ScreenOutcome>, n: nat) returns (t: Sys)
    requires id !in s.calls && d.state.Screened? && d.Nullifier() in s.deposits && Through(s, d) && n >= 3
    ensures Ends(s, id, SaveAttested(d.(state := D.Attested)), screen, n, t)
    ensures OnRampDone(s, t, I.TryIssue(OnRampOf(s), d, s.clock).0)
  {
    var attested := d.(state := D.Attested);
    var s1 := s.(deposits := s.deposits[d.Nullifier() := attested]);
    SaveDepositOne(s, id, SaveAttested(attested), attested, screen);
    t := MintEnds(s1, id, attested, screen, n - 1);
    StepThen(s, id, SaveAttested(attested), screen, n, s1, AskMint(attested), t);
  }

  lemma ScreenOne(s: Sys, id: nat, d: D.Deposit, screen: PortResult<D.ScreenOutcome>)
    requires id !in s.calls && d.state.Observed?
    ensures OneStep(s, id, AskScreen(d, s.clock), screen)
         == (s, match screen
                case Ok(outcome) => Some(SaveScreen(d.(state := if outcome.Pass? then D.Screened else D.Encumbered), s.clock))
                case Err(_) => None)
  {
    CallsOver(s.calls, id, AskScreen(d, s.clock), Standing(StepPort(s, id, AskScreen(d, s.clock), Prompt, screen), id));
  }

  /** From the screen on. */
  lemma ScreenEnds(s: Sys, id: nat, d: D.Deposit, screen: PortResult<D.ScreenOutcome>, n: nat) returns (t: Sys)
    requires id !in s.calls && d.state.Observed? && d.Nullifier() in s.deposits && n >= 7
    ensures Ends(s, id, AskScreen(d, s.clock), screen, n, t)
    ensures match screen
            case Err(_) => t == s
            case Ok(Fail) => t == s.(deposits := s.deposits[d.Nullifier() := d.(state := D.Encumbered)])
            case Ok(Pass) =>
              var screened := d.(state := D.Screened);
              OnRampDone(s, t, I.TryIssue(I.OnRamp(s.ledger, s.deposits[d.Nullifier() := screened]), screened, s.clock).0)
  {
    ScreenOne(s, id, d, screen);
    match screen
    case Err(_) =>
      t := s;
      LastStep(s, id, AskScreen(d, s.clock), screen, n, t);
    case Ok(outcome) =>
      var screened := d.(state := if outcome.Pass? then D.Screened else D.Encumbered);
      var s1 := s.(deposits := s.deposits[d.Nullifier() := screened]);
      SaveDepositOne(s, id, SaveScreen(screened, s.clock), screened, screen);
      if outcome.Pass? {
        t := GateEnds(s1, id, screened, screen, n - 2);
        StepThen(s, id, SaveScreen(screened, s.clock), screen, n - 1, s1, ReadReserve(screened, s.clock), t);
      } else {
        t := s1;
        LastStep(s, id, SaveScreen(screened, s.clock), screen, n - 1, t);
      }
      StepThen(s, id, AskScreen(d, s.clock), screen, n, s, SaveScreen(screened, s.clock), t);
  }

  lemma InsertDepositOne(s: Sys, id: nat, d: D.Deposit, screen: PortResult<D.ScreenOutcome>)
    ensures OneStep(s, id, InsertDeposit(d, s.clock), screen)
         == if d.Nullifier() in s.deposits then (s, Some(AnswerReplay(d.Nullifier())))
            else (s.(deposits := s.deposits[d.Nullifier() := d]), Some(AskScreen(d, s.clock)))
  {
  }

  /** The webhook. */
  lemma WebhookAlone(s: Sys, id: nat, bankRef: BankRef, amount: Thb, beneficiary: string, wallet: string,
                     screen: PortResult<D.ScreenOutcome>) returns (t: Sys)
    requires id !in s.calls
    ensures t == Steps(Happen(s, Start(id, EnterDeposit(bankRef, amount, beneficiary, wallet))), id, screen, 8)
    ensures OnRampDone(s, t, I.HandleDeposit(OnRampOf(s), bankRef, amount, beneficiary, wallet, screen, s.clock).0)
  {
    var observed := D.ObserveDeposit(bankRef, amount, beneficiary, wallet, s.clock);
    if observed.Err? {
      IdleSteps(s, id, screen, 8);
      t := s;
    } else {
      t := ObservedEnds(s, id, observed.value, screen);
      Started(s, id, EnterDeposit(bankRef, amount, beneficiary, wallet), InsertDeposit(observed.value, s.clock), screen, 8, t);
      DepositHandled(s, t, bankRef, amount, beneficiary, wallet, screen);
    }
  }

  /** What the webhook's calls make of an observed deposit. */
  ghost predicate Handled(s: Sys, t: Sys, d: D.Deposit, screen: PortResult<D.ScreenOutcome>) {
    if d.Nullifier() in s.deposits then t == s
    else match screen
      case Err(_) => t == s.(deposits := s.deposits[d.Nullifier() := d])
      case Ok(Fail) => t == s.(deposits := s.deposits[d.Nullifier() := d.(state := D.Encumbered)])
      case Ok(Pass) =>
        var screened := d.(state := D.Screened);
        OnRampDone(s, t, I.TryIssue(I.OnRamp(s.ledger, s.deposits[d.Nullifier() := screened]), screened, s.clock).0)
  }

  lemma ObservedEnds(s: Sys, id: nat, d: D.Deposit, screen: PortResult<D.ScreenOutcome>) returns (t: Sys)
    requires id !in s.calls && d.state.Observed?
    ensures Ends(s, id, InsertDeposit(d, s.clock), screen, 8, t) && Handled(s, t, d, screen)
  {
    InsertDepositOne(s, id, d, screen);
    if d.Nullifier() in s.deposits {
      t := s;
      LastStep(s, id, AnswerReplay(d.Nullifier()), screen, 7, t);
      StepThen(s, id, InsertDeposit(d, s.clock), screen, 8, s, AnswerReplay(d.Nullifier()), t);
    } else {
      var s1 := s.(deposits := s.deposits[d.Nullifier() := d]);
      t := ScreenEnds(s1, id, d, screen, 7);
      StepThen(s, id, InsertDeposit(d, s.clock), screen, 8, s1, AskScreen(d, s.clock), t);
      PutTwice(s.deposits, d, D.Screened);
      PutTwice(s.deposits, d, D.Encumbered);
    }
  }

  lemma PutTwice(rows: DepositRows, d: D.Deposit, state: D.DepositState)
    ensures rows[d.Nullifier() := d][d.Nullifier() := d.(state := state)] == rows[d.Nullifier() := d.(state := state)]
  {
  }

  lemma DepositHandled(s: Sys, t: Sys, bankRef: BankRef, amount: Thb, beneficiary: string, wallet: string,
                       screen: PortResult<D.ScreenOutcome>)
    requires var r := D.ObserveDeposit(bankRef, amount, beneficiary, wallet, s.clock); r.Ok? && Handled(s, t, r.value, screen)
    ensures OnRampDone(s, t, I.HandleDeposit(OnRampOf(s), bankRef, amount, beneficiary, wallet, screen, s.clock).0)
  {
  }

  /** The single retry. */
  lemma RetryAlone(s: Sys, id: nat, bankRef: BankRef, screen: PortResult<D.ScreenOutcome>) returns (t: Sys)
    requires id !in s.calls && DepositsKeyed(s.deposits)
    ensures t == Steps(Happen(s, Start(id, EnterRetry(bankRef))), id, screen, 6)
    ensures OnRampDone(s, t, I.RetryHeld(OnRampOf(s), bankRef, s.clock).0)
  {
    t := RetryEnds(s, id, bankRef, screen);
    Started(s, id, EnterRetry(bankRef), FindHeld(bankRef.Hash()), screen, 6, t);
  }

  lemma FindHeldOne(s: Sys, id: nat, h: Digest, screen: PortResult<D.ScreenOutcome>)
    ensures OneStep(s, id, FindHeld(h), screen)
         == (s, if h in s.deposits && s.deposits[h].state.Screened? then Some(ReadReserve(s.deposits[h], s.clock)) else None)
  {
  }

  lemma RetryEnds(s: Sys, id: nat, bankRef: BankRef, screen: PortResult<D.ScreenOutcome>) returns (t: Sys)
    requires id !in s.calls && DepositsKeyed(s.deposits)
    ensures Ends(s, id, FindHeld(bankRef.Hash()), screen, 6, t) && OnRampDone(s, t, I.RetryHeld(OnRampOf(s), bankRef, s.clock).0)
  {
    var h := bankRef.Hash();
    FindHeldOne(s, id, h, screen);
    if h in s.deposits && s.deposits[h].state.Screened? {
      t := GateEnds(s, id, s.deposits[h], screen, 5);
      StepThen(s, id, FindHeld(h), screen, 6, s, ReadReserve(s.deposits[h], s.clock), t);
    } else {
      t := s;
      LastStep(s, id, FindHeld(h), screen, 6, t);
    }
  }

  // ---- The off-ramp -----------------------------------------------------------------------

  lemma SaveRedemptionOne(s: Sys, id: nat, c: Call, r: R.Redemption, screen: PortResult<D.ScreenOutcome>)
    requires Asks(c) == Some(UpdateR(r)) && r.Key() in s.redemptions
    ensures OneStep(s, id, c, screen)
         == (s.(redemptions := s.redemptions[r.Key() := r]), Told(c, Done(Ok(Unit)), s.clock, s.delta))
  {
  }

  lemma EscrowOne(s: Sys, id: nat, r: R.Redemption, screen: PortResult<D.ScreenOutcome>)
    requires id !in s.calls && r.state.Requested?
    ensures var (t, reply) := Escrow(s.ledger, r.Key(), r.amount);
            OneStep(s, id, AskEscrow(r), screen)
            == if reply.Ok?
               then (s.(ledger := t, log := s.log + [Moved(Escrowing, r.Key(), r.amount)]),
                     Some(SaveEscrow(r.(state := R.Escrowed, escrowedAt := Some(s.clock)))))
               else (s, None)
  {
    CallsOver(s.calls, id, AskEscrow(r), Some(SaveEscrow(r.(state := R.Escrowed, escrowedAt := Some(s.clock)))));
  }

  /** What a request leaves of ledger and row. */
  function EscrowOf(s: Sys, r: R.Redemption): O.OffRamp {
    var (t, reply) := Escrow(s.ledger, r.Key(), r.amount);
    O.OffRamp(t, s.redemptions[r.Key() := if reply.Ok? then r.(state := R.Escrowed, escrowedAt := Some(s.clock)) else r], s.sent)
  }

  lemma EscrowEnds(s: Sys, id: nat, r: R.Redemption, screen: PortResult<D.ScreenOutcome>, n: nat) returns (t: Sys)
    requires id !in s.calls && r.state.Requested? && r.Key() in s.redemptions && s.redemptions[r.Key()] == r && n >= 2
    ensures Ends(s, id, AskEscrow(r), screen, n, t) && OffRampDone(s, t, EscrowOf(s, r))
  {
    EscrowOne(s, id, r, screen);
    var next := OneStep(s, id, AskEscrow(r), screen);
    if next.1.Some? {
      var escrowed := r.(state := R.Escrowed, escrowedAt := Some(s.clock));
      SaveRedemptionOne(next.0, id, SaveEscrow(escrowed), escrowed, screen);
      t := next.0.(redemptions := s.redemptions[r.Key() := escrowed]);
      LastStep(next.0, id, SaveEscrow(escrowed), screen, n - 1, t);
      StepThen(s, id, AskEscrow(r), screen, n, next.0, SaveEscrow(escrowed), t);
    } else {
      t := s;
      LastStep(s, id, AskEscrow(r), screen, n, t);
      assert s.redemptions[r.Key() := r] == s.redemptions;
    }
  }

  lemma InsertRedemptionOne(s: Sys, id: nat, r: R.Redemption, screen: PortResult<D.ScreenOutcome>)
    ensures OneStep(s, id, InsertRedemption(r), screen)
         == if r.Key() in s.redemptions then (s, None)
            else (s.(redemptions := s.redemptions[r.Key() := r]), Some(AskEscrow(r)))
  {
  }

  /** The request. */
  lemma RequestAlone(s: Sys, id: nat, user: string, amount: Thb, screen: PortResult<D.ScreenOutcome>) returns (t: Sys)
    requires id !in s.calls
    ensures t == Steps(Happen(s, Start(id, EnterRequest(user, amount))), id, screen, 4)
    ensures OffRampDone(s, t, O.Request(OffRampOf(s), user, amount, s.delta, s.clock).0)
  {
    t := RequestEnds(s, id, user, amount, screen);
    Started(s, id, EnterRequest(user, amount), ReadNextSeq(user, amount, s.clock), screen, 4, t);
  }

  lemma NextSeqOne(s: Sys, id: nat, user: string, amount: Thb, screen: PortResult<D.ScreenOutcome>)
    ensures var r := R.RequestRedemption(user, Successor(MaxSeq(s.redemptions, user)), amount, s.delta, s.clock);
            OneStep(s, id, ReadNextSeq(user, amount, s.clock), screen)
            == (s, if r.Ok? then Some(InsertRedemption(r.value)) else None)
  {
  }

  lemma RequestEnds(s: Sys, id: nat, user: string, amount: Thb, screen: PortResult<D.ScreenOutcome>) returns (t: Sys)
    requires id !in s.calls
    ensures Ends(s, id, ReadNextSeq(user, amount, s.clock), screen, 4, t)
    ensures OffRampDone(s, t, O.Request(OffRampOf(s), user, amount, s.delta, s.clock).0)
  {
    var c := ReadNextSeq(user, amount, s.clock);
    var request := R.RequestRedemption(user, Successor(MaxSeq(s.redemptions, user)), amount, s.delta, s.clock);
    NextSeqOne(s, id, user, amount, screen);
    if request.Err? {
      t := s;
      LastStep(s, id, c, screen, 4, t);
    } else {
      t := RequestedEnds(s, id, request.value, screen);
      StepThen(s, id, c, screen, 4, s, InsertRedemption(request.value), t);
      RequestDone(s, t, user, amount);
    }
  }

  ghost predicate Requested(s: Sys, t: Sys, r: R.Redemption) {
    if r.Key() in s.redemptions then t == s
    else OffRampDone(s, t, EscrowOf(s.(redemptions := s.redemptions[r.Key() := r]), r))
  }

  lemma RequestedEnds(s: Sys, id: nat, r: R.Redemption, screen: PortResult<D.ScreenOutcome>) returns (t: Sys)
    requires id !in s.calls && r.state.Requested?
    ensures Ends(s, id, InsertRedemption(r), screen, 3, t) && Requested(s, t, r)
  {
    InsertRedemptionOne(s, id, r, screen);
    if r.Key() in s.redemptions {
      t := s;
      LastStep(s, id, InsertRedemption(r), screen, 3, t);
    } else {
      var s1 := s.(redemptions := s.redemptions[r.Key() := r]);
      t := EscrowEnds(s1, id, r, screen, 2);
      StepThen(s, id, InsertRedemption(r), screen, 3, s1, AskEscrow(r), t);
    }
  }

  lemma RequestDone(s: Sys, t: Sys, user: string, amount: Thb)
    requires var r := R.RequestRedemption(user, Successor(MaxSeq(s.redemptions, user)), amount, s.delta, s.clock);
             r.Ok? && Requested(s, t, r.value)
    ensures OffRampDone(s, t, O.Request(OffRampOf(s), user, amount, s.delta, s.clock).0)
  {
  }

  lemma SendOne(s: Sys, id: nat, key: R.RedeemKey, amount: Thb, screen: PortResult<D.ScreenOutcome>)
    requires id !in s.calls
    ensures OneStep(s, id, SendWire(key, amount), screen)
         == (s.(sent := Enqueue(s.sent, Wire(key, amount)),
                log := if Wired(s.sent, key) then s.log else s.log + [Moved(Wiring, key, amount)]), None)
  {
    CallsOver(s.calls, id, SendWire(key, amount), None);
  }

  /** The payout. */
  lemma PayoutAlone(s: Sys, id: nat, key: R.RedeemKey, screen: PortResult<D.ScreenOutcome>) returns (t: Sys)
    requires id !in s.calls && RedemptionsKeyed(s.redemptions)
    ensures t == Steps(Happen(s, Start(id, EnterPayout(key))), id, screen, 3)
    ensures OffRampDone(s, t, O.ProcessPayout(OffRampOf(s), key).0)
  {
    t := PayoutEnds(s, id, key, screen);
    Started(s, id, EnterPayout(key), FindPayout(key), screen, 3, t);
  }

  lemma FindPayoutOne(s: Sys, id: nat, key: R.RedeemKey, screen: PortResult<D.ScreenOutcome>)
    ensures OneStep(s, id, FindPayout(key), screen)
         == (s, if key in s.redemptions && s.redemptions[key].state.Escrowed?
                then Some(SavePayout(s.redemptions[key].(state := R.PayoutQueued))) else None)
  {
  }

  lemma PayoutEnds(s: Sys, id: nat, key: R.RedeemKey, screen: PortResult<D.ScreenOutcome>) returns (t: Sys)
    requires id !in s.calls && RedemptionsKeyed(s.redemptions)
    ensures Ends(s, id, FindPayout(key), screen, 3, t) && OffRampDone(s, t, O.ProcessPayout(OffRampOf(s), key).0)
  {
    FindPayoutOne(s, id, key, screen);
    if key in s.redemptions && s.redemptions[key].state.Escrowed? {
      var queued := s.redemptions[key].(state := R.PayoutQueued);
      t := PaidEnds(s, id, queued, screen);
      StepThen(s, id, FindPayout(key), screen, 3, s, SavePayout(queued), t);
    } else {
      t := s;
      LastStep(s, id, FindPayout(key), screen, 3, t);
    }
  }

  lemma PaidEnds(s: Sys, id: nat, queued: R.Redemption, screen: PortResult<D.ScreenOutcome>) returns (t: Sys)
    requires id !in s.calls && queued.Key() in s.redemptions
    ensures Ends(s, id, SavePayout(queued), screen, 2, t)
    ensures OffRampDone(s, t, O.OffRamp(s.ledger, s.redemptions[queued.Key() := queued],
                                        Enqueue(s.sent, Wire(queued.Key(), queued.amount))))
  {
    var s1 := s.(redemptions := s.redemptions[queued.Key() := queued]);
    var send := SendWire(queued.Key(), queued.amount);
    SaveRedemptionOne(s, id, SavePayout(queued), queued, screen);
    SendOne(s1, id, queued.Key(), queued.amount, screen);
    t := OneStep(s1, id, send, screen).0;
    LastStep(s1, id, send, screen, 1, t);
    StepThen(s, id, SavePayout(queued), screen, 2, s1, send, t);
  }

  lemma BurnOne(s: Sys, id: nat, r: R.Redemption, screen: PortResult<D.ScreenOutcome>)
    requires id !in s.calls
    ensures var (t, reply) := Burn(s.ledger, r.Key());
            OneStep(s, id, AskBurn(r), screen)
            == if reply.Ok?
               then (s.(ledger := t, log := s.log + [Moved(Burning, r.Key(), HeldAmount(s.ledger, r.Key()))]),
                     if r.state.IsPending() then Some(SaveConfirm(r.(state := R.Confirmed))) else None)
               else (s, None)
  {
    CallsOver(s.calls, id, AskBurn(r), Some(SaveConfirm(r.(state := R.Confirmed))));
  }

  /** The confirm: the burn first, whatever the row says. */
  lemma ConfirmAlone(s: Sys, id: nat, key: R.RedeemKey, screen: PortResult<D.ScreenOutcome>) returns (t: Sys)
    requires id !in s.calls && RedemptionsKeyed(s.redemptions)
    ensures t == Steps(Happen(s, Start(id, EnterConfirm(key))), id, screen, 3)
    ensures OffRampDone(s, t, O.ConfirmRedemption(OffRampOf(s), key).0)
  {
    t := ConfirmEnds(s, id, key, screen);
    Started(s, id, EnterConfirm(key), FindConfirm(key), screen, 3, t);
  }

  lemma ConfirmEnds(s: Sys, id: nat, key: R.RedeemKey, screen: PortResult<D.ScreenOutcome>) returns (t: Sys)
    requires id !in s.calls && RedemptionsKeyed(s.redemptions)
    ensures Ends(s, id, FindConfirm(key), screen, 3, t) && OffRampDone(s, t, O.ConfirmRedemption(OffRampOf(s), key).0)
  {
    if key in s.redemptions {
      t := BurnEnds(s, id, s.redemptions[key], screen);
      StepThen(s, id, FindConfirm(key), screen, 3, s, AskBurn(s.redemptions[key]), t);
    } else {
      t := s;
      LastStep(s, id, FindConfirm(key), screen, 3, t);
    }
  }

  lemma BurnEnds(s: Sys, id: nat, r: R.Redemption, screen: PortResult<D.ScreenOutcome>) returns (t: Sys)
    requires id !in s.calls && r.Key() in s.redemptions && s.redemptions[r.Key()] == r
    ensures Ends(s, id, AskBurn(r), screen, 2, t) && OffRampDone(s, t, O.ConfirmRedemption(OffRampOf(s), r.Key()).0)
  {
    BurnOne(s, id, r, screen);
    var next := OneStep(s, id, AskBurn(r), screen);
    if next.1.Some? {
      var confirmed := r.(state := R.Confirmed);
      SaveRedemptionOne(next.0, id, SaveConfirm(confirmed), confirmed, screen);
      t := next.0.(redemptions := s.redemptions[r.Key() := confirmed]);
      LastStep(next.0, id, SaveConfirm(confirmed), screen, 1, t);
      StepThen(s, id, AskBurn(r), screen, 2, next.0, SaveConfirm(confirmed), t);
    } else {
      t := next.0;
      LastStep(s, id, AskBurn(r), screen, 2, t);
    }
  }

  lemma ReturnOne(s: Sys, id: nat, r: R.Redemption, screen: PortResult<D.ScreenOutcome>)
    requires id !in s.calls
    ensures var (t, reply) := Return(s.ledger, r.Key());
            OneStep(s, id, AskReturn(r), screen)
            == if reply.Ok?
               then (s.(ledger := t, log := s.log + [Moved(Returning, r.Key(), HeldAmount(s.ledger, r.Key()))]), Some(SaveReclaim(r)))
               else (s, None)
  {
    CallsOver(s.calls, id, AskReturn(r), Some(SaveReclaim(r)));
  }

  /** The reclaim: the row first, then the ledger. */
  lemma ReclaimAlone(s: Sys, id: nat, key: R.RedeemKey, screen: PortResult<D.ScreenOutcome>) returns (t: Sys)
    requires id !in s.calls && RedemptionsKeyed(s.redemptions)
    ensures t == Steps(Happen(s, Start(id, EnterReclaim(key))), id, screen, 3)
    ensures OffRampDone(s, t, O.ReclaimRedemption(OffRampOf(s), key, s.clock).0)
  {
    t := ReclaimEnds(s, id, key, screen);
    Started(s, id, EnterReclaim(key), FindReclaim(key), screen, 3, t);
  }

  lemma FindReclaimOne(s: Sys, id: nat, key: R.RedeemKey, screen: PortResult<D.ScreenOutcome>)
    ensures OneStep(s, id, FindReclaim(key), screen)
         == (s, if key in s.redemptions && s.redemptions[key].Next(R.Reclaim(s.clock)).Ok?
                then Some(AskReturn(s.redemptions[key].Next(R.Reclaim(s.clock)).value)) else None)
  {
  }

  lemma ReclaimEnds(s: Sys, id: nat, key: R.RedeemKey, screen: PortResult<D.ScreenOutcome>) returns (t: Sys)
    requires id !in s.calls && RedemptionsKeyed(s.redemptions)
    ensures Ends(s, id, FindReclaim(key), screen, 3, t) && OffRampDone(s, t, O.ReclaimRedemption(OffRampOf(s), key, s.clock).0)
  {
    FindReclaimOne(s, id, key, screen);
    if key in s.redemptions && s.redemptions[key].Next(R.Reclaim(s.clock)).Ok? {
      var reclaimed := s.redemptions[key].Next(R.Reclaim(s.clock)).value;
      t := ReturnEnds(s, id, reclaimed, screen);
      StepThen(s, id, FindReclaim(key), screen, 3, s, AskReturn(reclaimed), t);
      ReclaimDone(s, t, key);
    } else {
      t := s;
      LastStep(s, id, FindReclaim(key), screen, 3, t);
    }
  }

  lemma ReclaimDone(s: Sys, t: Sys, key: R.RedeemKey)
    requires RedemptionsKeyed(s.redemptions) && key in s.redemptions && s.redemptions[key].Next(R.Reclaim(s.clock)).Ok?
    requires OffRampDone(s, t, ReturnOf(s, s.redemptions[key].Next(R.Reclaim(s.clock)).value))
    ensures OffRampDone(s, t, O.ReclaimRedemption(OffRampOf(s), key, s.clock).0)
  {
  }

  /** The calls that only list or count ask once for that, and are then over. */
  lemma ListingsAlone(s: Sys, id: nat, entry: Entry, screen: PortResult<D.ScreenOutcome>)
    requires id !in s.calls && (entry.EnterRetryAll? || entry.EnterSweep? || entry.EnterQueueLen?)
    ensures var started := Happen(s, Start(id, entry));
            && id in started.calls && Steps(started, id, screen, 1) == s
            && Asks(started.calls[id])
               == Some(if entry.EnterRetryAll? then Held else if entry.EnterSweep? then Due(s.clock) else PendingCount)
  {
    var c := Begin(entry, s.clock).value;
    LastStep(s, id, c, screen, 1, s);
    Started(s, id, entry, c, screen, 1, s);
  }

  /** What a return leaves of ledger and row. */
  function ReturnOf(s: Sys, r: R.Redemption): O.OffRamp {
    var (t, reply) := Return(s.ledger, r.Key());
    if reply.Ok? then O.OffRamp(t, s.redemptions[r.Key() := r], s.sent) else OffRampOf(s)
  }

  lemma ReturnEnds(s: Sys, id: nat, r: R.Redemption, screen: PortResult<D.ScreenOutcome>) returns (t: Sys)
    requires id !in s.calls && r.Key() in s.redemptions
    ensures Ends(s, id, AskReturn(r), screen, 2, t) && OffRampDone(s, t, ReturnOf(s, r))
  {
    ReturnOne(s, id, r, screen);
    var next := OneStep(s, id, AskReturn(r), screen);
    if next.1.Some? {
      SaveRedemptionOne(next.0, id, SaveReclaim(r), r, screen);
      t := next.0.(redemptions := s.redemptions[r.Key() := r]);
      LastStep(next.0, id, SaveReclaim(r), screen, 1, t);
      StepThen(s, id, AskReturn(r), screen, 2, next.0, SaveReclaim(r), t);
    } else {
      t := s;
      LastStep(s, id, AskReturn(r), screen, 2, t);
    }
  }
}
