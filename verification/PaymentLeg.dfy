/**
 * Sequential runs of the whole payment leg: each service call completes before the next one starts,
 * and the service clock and the ledger clock move together.
 */
module PaymentLeg {
  import opened Prelude
  import opened Sums
  import opened Money
  import opened Reserve
  import opened BankRefs
  import opened Repositories
  import opened Reconciliation
  import D = Deposits
  import R = Redemptions
  import L = Ledger
  import I = Issuance
  import O = OffRamps
  import S = ReserveServices
  import Exchange
  import Adapters

  datatype World = World(
    ledger: L.Treasury,
    deposits: DepositRows,
    redemptions: RedemptionRows,
    sent: seq<Adapters.Wire>,
    history: seq<Report>,
    now: i64,
    delta: i64
  ) {
    function OnRamp(): I.OnRamp { I.OnRamp(ledger, deposits) }

    function OffRamp(): O.OffRamp { O.OffRamp(ledger, redemptions, sent) }

    function WithOnRamp(s: I.OnRamp): World { this.(ledger := s.ledger, deposits := s.rows) }

    function WithOffRamp(s: O.OffRamp): World { this.(ledger := s.ledger, redemptions := s.rows, sent := s.sent) }
  }

  datatype Op =
    | Webhook(raw: string, amount: Thb, beneficiary: string, wallet: string, screen: PortResult<D.ScreenOutcome>)
    | Retry(raw: string)
    | RetryAll(held: seq<D.Deposit>)
    | Request(user: string, amount: Thb)
    | Payout(key: R.RedeemKey)
    | Confirm(key: R.RedeemKey)
    | Reclaim(key: R.RedeemKey)
    | Attest(reserve: Thb)
    | RunReconciliation
    | FundInventory(user: string, amount: Thb)
    | FundGrx(atoms: Money.Grx)
    | SetParams(params: Exchange.ExchangeParams)
    | Warp(to: i64)

  function NewWorld(reserve: Thb, ttlSecs: i64, now: i64, delta: i64): World {
    World(L.NewTreasury(reserve, ttlSecs, now), map[], map[], [], [], now, delta)
  }

  ghost function Apply(w: World, op: Op): World {
    match op
    case Webhook(raw, amount, beneficiary, wallet, screen) =>
      (match NewBankRef(raw)
       case Err(_) => w
       case Ok(bankRef) =>
         w.WithOnRamp(I.HandleDeposit(w.OnRamp(), bankRef, amount, beneficiary, wallet, screen, w.now).0))
    case Retry(raw) =>
      (match NewBankRef(raw)
       case Err(_) => w
       case Ok(bankRef) => w.WithOnRamp(I.RetryHeld(w.OnRamp(), bankRef, w.now).0))
    case RetryAll(held) => w.WithOnRamp(I.RetryEach(w.OnRamp(), held, w.now).0)
    case Request(user, amount) => w.WithOffRamp(O.Request(w.OffRamp(), user, amount, w.delta, w.now).0)
    case Payout(key) => w.WithOffRamp(O.ProcessPayout(w.OffRamp(), key).0)
    case Confirm(key) => w.WithOffRamp(O.ConfirmRedemption(w.OffRamp(), key).0)
    case Reclaim(key) => w.WithOffRamp(O.ReclaimRedemption(w.OffRamp(), key, w.now).0)
    case Attest(reserve) => w.WithOnRamp(S.AttestReserve(w.OnRamp(), reserve).0)
    case RunReconciliation =>
      var r := S.RunReconcile(w.OnRamp(), w.redemptions, w.now);
      if r.Ok? then w.(history := w.history + [r.value]) else w
    case FundInventory(user, amount) => w.(ledger := L.FundInventory(w.ledger, user, amount).0)
    case FundGrx(atoms) => w.(ledger := L.FundGrxInventory(w.ledger, atoms).0)
    case SetParams(params) => w.(ledger := w.ledger.(params := params))
    case Warp(to) => w.(now := to, ledger := w.ledger.(now := to))
  }

  ghost function Run(w: World, ops: seq<Op>): World
    decreases |ops|
  {
    if ops == [] then w else Run(Apply(w, ops[0]), ops[1..])
  }

  // ---- What every sequential state satisfies ----------------------------------------------

  /** Rows and nullifiers agree; nothing rests in `Attested`; the chain's encumbrance lags behind the rows. */
  ghost predicate OnRampAgrees(t: L.Treasury, rows: DepositRows) {
    && DepositsKeyed(rows)
    && (forall h :: h in rows ==> rows[h].amount > 0 && !rows[h].state.Attested? && !rows[h].state.Disputed?)
    && (forall h :: h in t.nullifiers <==> h in rows && rows[h].state.Issued?)
    && t.reserve.encumbered <= Sum(EncumberedAmounts(rows))
  }

  /** What the ledger holds for a redemption row in each state. */
  predicate RowAgrees(t: L.Treasury, row: R.Redemption) {
    var k := row.Key();
    match row.state
    case Escrowed | PayoutQueued =>
      && k in t.escrows && row.escrowedAt.Some?
      && t.escrows[k] == L.EscrowRecord(row.amount, row.escrowedAt.value, false)
    case Confirmed =>
      && k in t.escrows && row.escrowedAt.Some?
      && t.escrows[k] == L.EscrowRecord(row.amount, row.escrowedAt.value, true)
    case Reclaimed => k !in t.escrows && row.escrowedAt.Some?
    case Requested | Failed => k !in t.escrows
  }

  predicate OffRampAgrees(t: L.Treasury, rows: RedemptionRows, delta: i64) {
    && RedemptionsKeyed(rows)
    && (forall k :: k in t.escrows ==> k in rows)
    && (forall k :: k in rows ==> RowAgrees(t, rows[k]) && rows[k].amount > 0 && rows[k].deltaSecs == delta)
  }

  /** One wire per queued payout, for the redemption's amount. */
  predicate WiresAgree(sent: seq<Adapters.Wire>, rows: RedemptionRows) {
    && (forall i, j :: 0 <= i < j < |sent| ==> sent[i].key != sent[j].key)
    && (forall i :: 0 <= i < |sent| ==>
          && sent[i].key in rows
          && sent[i].amount == rows[sent[i].key].amount
          && rows[sent[i].key].state in {R.PayoutQueued, R.Confirmed, R.Reclaimed})
    && (forall k :: k in rows && rows[k].state.PayoutQueued? ==> Adapters.Wired(sent, k))
  }

  /** The F2 identity, exactly and without overflow. */
  ghost predicate SupplyAgrees(t: L.Treasury, deposits: DepositRows, redemptions: RedemptionRows) {
    t.reserve.supply + Sum(ConfirmedAmounts(redemptions)) == Sum(IssuedAmounts(deposits))
  }

  ghost predicate Good(w: World) {
    && w.now == w.ledger.now
    && L.Conserved(w.ledger)
    && OnRampAgrees(w.ledger, w.deposits)
    && OffRampAgrees(w.ledger, w.redemptions, w.delta)
    && WiresAgree(w.sent, w.redemptions)
    && SupplyAgrees(w.ledger, w.deposits, w.redemptions)
  }

  // ---- The on-ramp ------------------------------------------------------------------------

  /** How storing one row changes the filtered amounts. */
  lemma PutDepositAmounts(rows: DepositRows, d: D.Deposit)
    ensures var h := d.Nullifier();
            && EncumberedAmounts(I.Put(rows, d))
               == (if d.IsEncumbering() then EncumberedAmounts(rows)[h := d.amount] else EncumberedAmounts(rows) - {h})
            && IssuedAmounts(I.Put(rows, d))
               == (if d.state.Issued? then IssuedAmounts(rows)[h := d.amount] else IssuedAmounts(rows) - {h})
  {
  }

  /** Whether the service's own gate lets `d` through to the mint. */
  ghost predicate ServiceAdmits(s: I.OnRamp, d: D.Deposit, now: i64) {
    && I.EffectiveReserve(s).Ok?
    && I.EffectiveReserve(s).value.CheckIssuance(d.amount, now).Ok?
  }

  /** `after` is `before` with one mint of `amount` under `h`. */
  predicate Minted(before: L.Treasury, after: L.Treasury, h: Digest, amount: Thb) {
    && after.reserve.attestation == before.reserve.attestation
    && after.reserve.encumbered == before.reserve.encumbered
    && after.reserve.supply == before.reserve.supply + amount
    && after.nullifiers == before.nullifiers + {h}
    && after.escrows == before.escrows && after.now == before.now
  }

  /**
   * Whatever the service's ceiling admits, the ledger admits: the nullifier is fresh, and the chain's
   * encumbrance never exceeds the total the service checked against.
   */
  lemma LedgerAdmitsWhatTheServiceAdmits(w: World, h: Digest)
    requires Good(w) && h in w.deposits && w.deposits[h].state.Screened?
    requires ServiceAdmits(w.OnRamp(), w.deposits[h], w.now)
    ensures var d := w.deposits[h];
            var (t, reply) := L.Issue(w.ledger, d.beneficiaryWallet, d.amount, h);
            reply == Ok(ConfirmOutcome.Confirmed) && L.Conserved(t) && Minted(w.ledger, t, h, d.amount)
  {
    var d := w.deposits[h];
    var state := I.EffectiveReserve(w.OnRamp()).value;
    CheckIssuanceMonotone(state, w.ledger.reserve, d.amount, w.now);
    CheckIssuanceExactly(state, d.amount, w.now);
    L.IssueConserves(w.ledger, d.beneficiaryWallet, d.amount, h);
  }

  lemma IssuedRowSums(rows: DepositRows, h: Digest)
    requires h in rows && rows[h].Nullifier() == h && rows[h].state.Screened?
    ensures var after := rows[h := rows[h].(state := D.Issued)];
            && EncumberedAmounts(after) == EncumberedAmounts(rows)
            && Sum(IssuedAmounts(after)) == Sum(IssuedAmounts(rows)) + rows[h].amount
  {
    var issued := rows[h].(state := D.Issued);
    PutDepositAmounts(rows, issued);
    assert EncumberedAmounts(rows) - {h} == EncumberedAmounts(rows);
    SumInsert(IssuedAmounts(rows), h, issued.amount);
  }

  lemma SameEscrowsAgree(t: L.Treasury, t': L.Treasury, rows: RedemptionRows, delta: i64)
    requires OffRampAgrees(t, rows, delta) && t'.escrows == t.escrows
    ensures OffRampAgrees(t', rows, delta)
  {
    forall k | k in rows
      ensures RowAgrees(t', rows[k])
    {
      assert RowAgrees(t, rows[k]);
    }
  }

  lemma IssuedRowAgrees(t: L.Treasury, t': L.Treasury, rows: DepositRows, h: Digest)
    requires OnRampAgrees(t, rows) && h in rows && rows[h].state.Screened? && rows[h].Nullifier() == h
    requires Minted(t, t', h, rows[h].amount)
    ensures OnRampAgrees(t', rows[h := rows[h].(state := D.Issued)])
  {
    IssuedRowSums(rows, h);
  }

  lemma IssuedRowKeepsGood(w: World, h: Digest, t: L.Treasury)
    requires Good(w) && h in w.deposits && w.deposits[h].state.Screened?
    requires Minted(w.ledger, t, h, w.deposits[h].amount) && L.Conserved(t)
    ensures Good(w.(ledger := t, deposits := w.deposits[h := w.deposits[h].(state := D.Issued)]))
  {
    assert w.deposits[h].Nullifier() == h;
    IssuedRowSums(w.deposits, h);
    IssuedRowAgrees(w.ledger, t, w.deposits, h);
    SameEscrowsAgree(w.ledger, t, w.redemptions, w.delta);
  }

  /** `amount` went to `wallet` and to nobody else. */
  ghost predicate Credited(before: L.Treasury, after: L.Treasury, wallet: string, amount: Thb) {
    forall user :: after.BalanceOf(user) == before.BalanceOf(user) + (if user == wallet then amount else 0)
  }

  /** The outcome of issuing a screened deposit: all of it, to the beneficiary's wallet, or nothing. */
  lemma TryIssueAllOrNothing(w: World, h: Digest)
    requires Good(w) && h in w.deposits && w.deposits[h].state.Screened?
    ensures var d := w.deposits[h];
            var (s, r) := I.TryIssue(w.OnRamp(), d, w.now);
            if ServiceAdmits(w.OnRamp(), d, w.now) then
              && r == Ok(I.OutcomeIssued(d.amount))
              && s.rows == w.deposits[h := d.(state := D.Issued)]
              && L.Conserved(s.ledger) && Minted(w.ledger, s.ledger, h, d.amount)
              && Credited(w.ledger, s.ledger, d.beneficiaryWallet, d.amount)
            else
              s == w.OnRamp() && !I.Released(r)
  {
    var d := w.deposits[h];
    assert d.Nullifier() == h;
    if ServiceAdmits(w.OnRamp(), d, w.now) {
      LedgerAdmitsWhatTheServiceAdmits(w, h);
      assert w.deposits[h := d.(state := D.Attested)][h := d.(state := D.Issued)] == w.deposits[h := d.(state := D.Issued)];
    }
  }

  lemma TryIssueKeepsGood(w: World, h: Digest)
    requires Good(w) && h in w.deposits && w.deposits[h].state.Screened?
    ensures Good(w.WithOnRamp(I.TryIssue(w.OnRamp(), w.deposits[h], w.now).0))
  {
    TryIssueAllOrNothing(w, h);
    if ServiceAdmits(w.OnRamp(), w.deposits[h], w.now) {
      IssuedRowKeepsGood(w, h, I.TryIssue(w.OnRamp(), w.deposits[h], w.now).0.ledger);
    }
  }

  /** Recording a fresh deposit in a state before issuance keeps every agreement. */
  lemma FreshRowKeepsGood(w: World, d: D.Deposit)
    requires Good(w) && d.Nullifier() !in w.deposits && d.amount > 0
    requires d.state in {D.Observed, D.Screened, D.Encumbered}
    ensures Good(w.(deposits := I.Put(w.deposits, d)))
  {
    var h := d.Nullifier();
    PutDepositAmounts(w.deposits, d);
    assert IssuedAmounts(w.deposits) - {h} == IssuedAmounts(w.deposits);
    assert EncumberedAmounts(w.deposits) - {h} == EncumberedAmounts(w.deposits);
    if d.IsEncumbering() {
      SumInsert(EncumberedAmounts(w.deposits), h, d.amount);
    }
  }

  lemma HandleDepositKeepsGood(w: World, bankRef: BankRef, amount: Thb, beneficiary: string, wallet: string,
                               screen: PortResult<D.ScreenOutcome>)
    requires Good(w)
    ensures Good(w.WithOnRamp(I.HandleDeposit(w.OnRamp(), bankRef, amount, beneficiary, wallet, screen, w.now).0))
  {
    var observation := D.ObserveDeposit(bankRef, amount, beneficiary, wallet, w.now);
    if observation.Ok? && observation.value.Nullifier() !in w.deposits {
      var observed := observation.value;
      match screen
      case Err(_) => FreshRowKeepsGood(w, observed);
      case Ok(Fail) => FreshRowKeepsGood(w, observed.(state := D.Encumbered));
      case Ok(Pass) =>
        var screened := observed.(state := D.Screened);
        FreshRowKeepsGood(w, screened);
        TryIssueKeepsGood(w.(deposits := I.Put(w.deposits, screened)), screened.Nullifier());
    }
  }

  lemma RetryKeepsGood(w: World, bankRef: BankRef)
    requires Good(w)
    ensures Good(w.WithOnRamp(I.RetryHeld(w.OnRamp(), bankRef, w.now).0))
  {
    var h := bankRef.Hash();
    if h in w.deposits && w.deposits[h].state.Screened? {
      TryIssueKeepsGood(w, h);
    }
  }

  lemma {:induction false} RetryEachKeepsGood(w: World, held: seq<D.Deposit>)
    requires Good(w)
    ensures Good(w.WithOnRamp(I.RetryEach(w.OnRamp(), held, w.now).0))
    decreases |held|
  {
    if held != [] {
      var before := held[..|held| - 1];
      RetryEachKeepsGood(w, before);
      var w1 := w.WithOnRamp(I.RetryEach(w.OnRamp(), before, w.now).0);
      RetryKeepsGood(w1, held[|held| - 1].bankRef);
      assert w1.WithOnRamp(I.RetryHeld(w1.OnRamp(), held[|held| - 1].bankRef, w1.now).0)
          == w.WithOnRamp(I.RetryEach(w.OnRamp(), held, w.now).0);
    }
  }

  // ---- The off-ramp -----------------------------------------------------------------------

  lemma PutRedemptionAmounts(rows: RedemptionRows, r: R.Redemption)
    ensures ConfirmedAmounts(O.Put(rows, r))
         == (if r.state.Confirmed? then ConfirmedAmounts(rows)[r.Key() := r.amount]
             else ConfirmedAmounts(rows) - {r.Key()})
  {
  }

  /** Storing an unconfirmed row over an unconfirmed one leaves the confirmed total alone. */
  lemma PutUnconfirmed(rows: RedemptionRows, r: R.Redemption)
    requires !r.state.Confirmed? && (r.Key() in rows ==> !rows[r.Key()].state.Confirmed?)
    ensures ConfirmedAmounts(O.Put(rows, r)) == ConfirmedAmounts(rows)
  {
    PutRedemptionAmounts(rows, r);
  }

  /** `t` differs from the ledger of `w` at most in the escrow under `key`, in balances and in supply. */
  ghost predicate OnlyEscrowMoved(w: World, t: L.Treasury, key: R.RedeemKey) {
    && t.nullifiers == w.ledger.nullifiers && t.now == w.ledger.now
    && t.reserve.encumbered == w.ledger.reserve.encumbered
    && (forall k :: k != key ==> (k in t.escrows <==> k in w.ledger.escrows))
    && (forall k :: k != key && k in t.escrows ==> t.escrows[k] == w.ledger.escrows[k])
  }

  /** Any such move that agrees on the changed row keeps the whole correspondence. */
  lemma MoveKeepsOffRamp(w: World, t: L.Treasury, row: R.Redemption)
    requires OffRampAgrees(w.ledger, w.redemptions, w.delta)
    requires OnlyEscrowMoved(w, t, row.Key())
    requires RowAgrees(t, row) && row.amount > 0 && row.deltaSecs == w.delta
    ensures OffRampAgrees(t, O.Put(w.redemptions, row), w.delta)
  {
    var rows := O.Put(w.redemptions, row);
    forall k | k in rows
      ensures rows[k].Key() == k && RowAgrees(t, rows[k]) && rows[k].amount > 0 && rows[k].deltaSecs == w.delta
    {
      if k != row.Key() {
        assert RowAgrees(w.ledger, w.redemptions[k]);
      }
    }
  }

  /** One redemption moves on: its row, its escrow and possibly its wire change together. */
  lemma MoveKeepsGood(w: World, t: L.Treasury, row: R.Redemption, sent: seq<Adapters.Wire>)
    requires Good(w) && L.Conserved(t) && OnlyEscrowMoved(w, t, row.Key())
    requires RowAgrees(t, row) && row.amount > 0 && row.deltaSecs == w.delta
    requires WiresAgree(sent, O.Put(w.redemptions, row))
    requires t.reserve.supply + Sum(ConfirmedAmounts(O.Put(w.redemptions, row)))
          == w.ledger.reserve.supply + Sum(ConfirmedAmounts(w.redemptions))
    ensures Good(w.WithOffRamp(O.OffRamp(t, O.Put(w.redemptions, row), sent)))
  {
    MoveKeepsOffRamp(w, t, row);
  }

  /** The row a fresh request leaves behind: escrowed, or still requested if the escrow was refused. */
  function RequestedRow(t: L.Treasury, requested: R.Redemption, now: i64): R.Redemption {
    var reply := L.Escrow(t, requested.Key(), requested.amount).1;
    if reply.Ok? then requested.(state := R.Escrowed, escrowedAt := Some(now)) else requested
  }

  lemma RequestExactly(s: O.OffRamp, user: string, amount: Thb, delta: i64, now: i64)
    ensures var request := R.RequestRedemption(user, Successor(MaxSeq(s.rows, user)), amount, delta, now);
            var after :=
              if request.Err? || request.value.Key() in s.rows then s
              else O.OffRamp(L.Escrow(s.ledger, request.value.Key(), amount).0,
                             O.Put(s.rows, RequestedRow(s.ledger, request.value, now)), s.sent);
            O.Request(s, user, amount, delta, now).0 == after
  {
    var request := R.RequestRedemption(user, Successor(MaxSeq(s.rows, user)), amount, delta, now);
    if request.Ok? {
      var row := RequestedRow(s.ledger, request.value, now);
      assert O.Put(O.Put(s.rows, request.value), row) == O.Put(s.rows, row);
    }
  }

  /** An accepted request is escrowed in full, or is recorded as requested with nothing moved. */
  lemma RequestAllOrNothing(w: World, user: string, amount: Thb)
    requires Good(w) && amount > 0
    requires R.RedeemKey(user, Successor(MaxSeq(w.redemptions, user))) !in w.redemptions
    ensures var key := R.RedeemKey(user, Successor(MaxSeq(w.redemptions, user)));
            var row := R.Redemption(user, key.seqNo, amount, R.Requested, w.now, None, w.delta);
            var (s, r) := O.Request(w.OffRamp(), user, amount, w.delta, w.now);
            if amount <= w.ledger.BalanceOf(user) then
              && r == Ok(O.OutcomeEscrowed(key))
              && s.rows == w.redemptions[key := row.(state := R.Escrowed, escrowedAt := Some(w.now))]
              && s.ledger.LiveEscrow(key) && s.ledger.reserve == w.ledger.reserve
              && (forall u :: s.ledger.BalanceOf(u) == w.ledger.BalanceOf(u) - (if u == user then amount else 0))
            else
              r == Err(Domain(Underflow)) && s == O.OffRamp(w.ledger, w.redemptions[key := row], w.sent)
  {
    RequestExactly(w.OffRamp(), user, amount, w.delta, w.now);
    assert R.RedeemKey(user, Successor(MaxSeq(w.redemptions, user))) !in w.ledger.escrows;
  }

  lemma RequestKeepsGood(w: World, user: string, amount: Thb)
    requires Good(w)
    ensures Good(w.WithOffRamp(O.Request(w.OffRamp(), user, amount, w.delta, w.now).0))
  {
    RequestExactly(w.OffRamp(), user, amount, w.delta, w.now);
    var request := R.RequestRedemption(user, Successor(MaxSeq(w.redemptions, user)), amount, w.delta, w.now);
    if request.Ok? && request.value.Key() !in w.redemptions {
      EscrowKeepsGood(w, request.value);
    }
  }

  lemma EscrowKeepsGood(w: World, requested: R.Redemption)
    requires Good(w) && requested.state.Requested? && requested.Key() !in w.redemptions
    requires requested.amount > 0 && requested.deltaSecs == w.delta
    ensures Good(w.WithOffRamp(O.OffRamp(L.Escrow(w.ledger, requested.Key(), requested.amount).0,
                                         O.Put(w.redemptions, RequestedRow(w.ledger, requested, w.now)), w.sent)))
  {
    var key := requested.Key();
    var row := RequestedRow(w.ledger, requested, w.now);
    L.EscrowConserves(w.ledger, key, requested.amount);
    PutUnconfirmed(w.redemptions, row);
    WiresUnmoved(w.sent, w.redemptions, row);
    MoveKeepsGood(w, L.Escrow(w.ledger, key, requested.amount).0, row, w.sent);
  }

  /** A row that is not yet queued may be stored without touching the wires. */
  lemma WiresUnmoved(sent: seq<Adapters.Wire>, rows: RedemptionRows, row: R.Redemption)
    requires WiresAgree(sent, rows) && row.Key() !in rows && !row.state.PayoutQueued?
    ensures WiresAgree(sent, O.Put(rows, row))
  {
  }

  /** Closing a pending row keeps its wire, if there is one. */
  lemma WiresOfClosed(sent: seq<Adapters.Wire>, rows: RedemptionRows, row: R.Redemption)
    requires WiresAgree(sent, rows) && row.Key() in rows && row.amount == rows[row.Key()].amount
    requires row.state in {R.Confirmed, R.Reclaimed}
    ensures WiresAgree(sent, O.Put(rows, row))
  {
  }

  /** In sequence, a wire is enqueued exactly by the payout that leaves `Escrowed`, so it is always new. */
  lemma PayoutKeepsGood(w: World, key: R.RedeemKey)
    requires Good(w)
    ensures Good(w.WithOffRamp(O.ProcessPayout(w.OffRamp(), key).0))
    ensures O.ProcessPayout(w.OffRamp(), key).1.Ok? <==> key in w.redemptions && w.redemptions[key].state.Escrowed?
    ensures O.ProcessPayout(w.OffRamp(), key).1.Err? ==> O.ProcessPayout(w.OffRamp(), key).0 == w.OffRamp()
    ensures O.ProcessPayout(w.OffRamp(), key).1.Ok? ==>
              O.ProcessPayout(w.OffRamp(), key).0.sent == w.sent + [Adapters.Wire(key, w.redemptions[key].amount)]
  {
    if key in w.redemptions && w.redemptions[key].state.Escrowed? {
      var row := w.redemptions[key];
      var queued := row.(state := R.PayoutQueued);
      assert RowAgrees(w.ledger, row) && row.Key() == key;
      assert !Adapters.Wired(w.sent, key);
      PutUnconfirmed(w.redemptions, queued);
      WiresExtended(w.sent, w.redemptions, queued);
      MoveKeepsGood(w, w.ledger, queued, w.sent + [Adapters.Wire(key, row.amount)]);
    }
  }

  lemma WiresExtended(sent: seq<Adapters.Wire>, rows: RedemptionRows, queued: R.Redemption)
    requires WiresAgree(sent, rows) && queued.state.PayoutQueued? && !Adapters.Wired(sent, queued.Key())
    ensures WiresAgree(sent + [Adapters.Wire(queued.Key(), queued.amount)], O.Put(rows, queued))
  {
    var after := sent + [Adapters.Wire(queued.Key(), queued.amount)];
    var rows' := O.Put(rows, queued);
    forall k | k in rows' && rows'[k].state.PayoutQueued?
      ensures Adapters.Wired(after, k)
    {
      if k == queued.Key() {
        assert after[|sent|].key == k;
      } else {
        var i :| 0 <= i < |sent| && sent[i].key == k;
        assert after[i].key == k;
      }
    }
  }

  predicate Pending(w: World, key: R.RedeemKey) {
    key in w.redemptions && w.redemptions[key].state.IsPending()
  }

  /** `confirm` succeeds exactly on pending redemptions, and never burns without recording it. */
  lemma ConfirmExactly(w: World, key: R.RedeemKey)
    requires Good(w)
    ensures var (s, r) := O.ConfirmRedemption(w.OffRamp(), key);
            if Pending(w, key) then
              && r == Ok(Unit)
              && s == O.OffRamp(L.Burn(w.ledger, key).0, O.Put(w.redemptions, w.redemptions[key].(state := R.Confirmed)), w.sent)
              && s.ledger.reserve.supply == w.ledger.reserve.supply - w.redemptions[key].amount
            else
              r.Err? && s == w.OffRamp()
  {
    L.BurnConserves(w.ledger, key);
    if key in w.redemptions {
      assert RowAgrees(w.ledger, w.redemptions[key]) && w.redemptions[key].Key() == key;
    }
  }

  lemma ConfirmKeepsGood(w: World, key: R.RedeemKey)
    requires Good(w)
    ensures Good(w.WithOffRamp(O.ConfirmRedemption(w.OffRamp(), key).0))
  {
    ConfirmExactly(w, key);
    if Pending(w, key) {
      var row := w.redemptions[key];
      var confirmed := row.(state := R.Confirmed);
      assert RowAgrees(w.ledger, row) && row.Key() == key;
      L.BurnConserves(w.ledger, key);
      PutRedemptionAmounts(w.redemptions, confirmed);
      SumInsert(ConfirmedAmounts(w.redemptions), key, row.amount);
      WiresOfClosed(w.sent, w.redemptions, confirmed);
      MoveKeepsGood(w, L.Burn(w.ledger, key).0, confirmed, w.sent);
    }
  }

  /** Old enough for both timelocks: the service's, stored on the row, and the ledger's fixed day. */
  predicate PastBothTimelocks(w: World, key: R.RedeemKey) {
    && key in w.redemptions && w.redemptions[key].IsReclaimable(w.now)
    && w.redemptions[key].EscrowAge(w.now).value >= L.SIMULATED_DELTA_SECS
  }

  /** `reclaim` succeeds exactly past both timelocks; the holder is made whole and the supply does not move. */
  lemma ReclaimExactly(w: World, key: R.RedeemKey)
    requires Good(w)
    ensures var (s, r) := O.ReclaimRedemption(w.OffRamp(), key, w.now);
            if PastBothTimelocks(w, key) then
              && r == Ok(Unit)
              && s == O.OffRamp(L.Return(w.ledger, key).0, O.Put(w.redemptions, w.redemptions[key].(state := R.Reclaimed)), w.sent)
              && s.ledger.BalanceOf(key.user) == w.ledger.BalanceOf(key.user) + w.redemptions[key].amount
              && (forall user :: user != key.user ==> s.ledger.BalanceOf(user) == w.ledger.BalanceOf(user))
              && s.ledger.reserve == w.ledger.reserve && s.ledger.inventory == w.ledger.inventory
            else
              r.Err? && s == w.OffRamp()
  {
    L.ReturnConserves(w.ledger, key);
    if key in w.redemptions {
      assert RowAgrees(w.ledger, w.redemptions[key]) && w.redemptions[key].Key() == key;
      R.ReclaimExactly(w.redemptions[key], w.now);
    }
  }

  lemma ReclaimKeepsGood(w: World, key: R.RedeemKey)
    requires Good(w)
    ensures Good(w.WithOffRamp(O.ReclaimRedemption(w.OffRamp(), key, w.now).0))
  {
    ReclaimExactly(w, key);
    if PastBothTimelocks(w, key) {
      var row := w.redemptions[key];
      var reclaimed := row.(state := R.Reclaimed);
      assert RowAgrees(w.ledger, row) && row.Key() == key;
      L.ReturnConserves(w.ledger, key);
      PutUnconfirmed(w.redemptions, reclaimed);
      WiresOfClosed(w.sent, w.redemptions, reclaimed);
      MoveKeepsGood(w, L.Return(w.ledger, key).0, reclaimed, w.sent);
    }
  }

  // ---- Attestation and helpers ------------------------------------------------------------

  lemma AttestKeepsGood(w: World, reserve: Thb)
    requires Good(w)
    ensures Good(w.WithOnRamp(S.AttestReserve(w.OnRamp(), reserve).0))
  {
    if CheckedTotal(EncumberedAmounts(w.deposits)).Ok? {
      var t := S.AttestReserve(w.OnRamp(), reserve).0.ledger;
      assert t.escrows == w.ledger.escrows;
    }
  }

  lemma OnRampOpKeepsGood(w: World, op: Op)
    requires Good(w) && (op.Webhook? || op.Retry? || op.RetryAll? || op.Attest?)
    ensures Good(Apply(w, op))
  {
    match op
    case Webhook(raw, amount, beneficiary, wallet, screen) =>
      if NewBankRef(raw).Ok? {
        HandleDepositKeepsGood(w, NewBankRef(raw).value, amount, beneficiary, wallet, screen);
      }
    case Retry(raw) =>
      if NewBankRef(raw).Ok? {
        RetryKeepsGood(w, NewBankRef(raw).value);
      }
    case RetryAll(held) => RetryEachKeepsGood(w, held);
    case Attest(reserve) => AttestKeepsGood(w, reserve);
  }

  lemma OffRampOpKeepsGood(w: World, op: Op)
    requires Good(w) && (op.Request? || op.Payout? || op.Confirm? || op.Reclaim?)
    ensures Good(Apply(w, op))
  {
    match op
    case Request(user, amount) => RequestKeepsGood(w, user, amount);
    case Payout(key) => PayoutKeepsGood(w, key);
    case Confirm(key) => ConfirmKeepsGood(w, key);
    case Reclaim(key) => ReclaimKeepsGood(w, key);
  }

  /** Nothing the rows are compared with has changed. */
  lemma SideEffectsKeepGood(w: World, t: L.Treasury, now: i64)
    requires Good(w) && L.Conserved(t) && t.now == now
    requires t.escrows == w.ledger.escrows && t.nullifiers == w.ledger.nullifiers && t.reserve == w.ledger.reserve
    ensures Good(w.(ledger := t, now := now))
  {
    SameEscrowsAgree(w.ledger, t, w.redemptions, w.delta);
  }

  lemma HelperOpKeepsGood(w: World, op: Op)
    requires Good(w) && (op.RunReconciliation? || op.FundInventory? || op.FundGrx? || op.SetParams? || op.Warp?)
    ensures Good(Apply(w, op))
  {
    match op
    case RunReconciliation =>
    case FundInventory(user, amount) =>
      L.FundInventoryConserves(w.ledger, user, amount);
      SideEffectsKeepGood(w, L.FundInventory(w.ledger, user, amount).0, w.now);
    case FundGrx(atoms) => SideEffectsKeepGood(w, L.FundGrxInventory(w.ledger, atoms).0, w.now);
    case SetParams(params) => SideEffectsKeepGood(w, w.ledger.(params := params), w.now);
    case Warp(to) => SideEffectsKeepGood(w, w.ledger.(now := to), to);
  }

  lemma ApplyKeepsGood(w: World, op: Op)
    requires Good(w)
    ensures Good(Apply(w, op))
  {
    match op
    case Webhook(_, _, _, _, _) => OnRampOpKeepsGood(w, op);
    case Retry(_) => OnRampOpKeepsGood(w, op);
    case RetryAll(_) => OnRampOpKeepsGood(w, op);
    case Attest(_) => OnRampOpKeepsGood(w, op);
    case Request(_, _) => OffRampOpKeepsGood(w, op);
    case Payout(_) => OffRampOpKeepsGood(w, op);
    case Confirm(_) => OffRampOpKeepsGood(w, op);
    case Reclaim(_) => OffRampOpKeepsGood(w, op);
    case _ => HelperOpKeepsGood(w, op);
  }

  lemma NewWorldGood(reserve: Thb, ttlSecs: i64, now: i64, delta: i64)
    ensures Good(NewWorld(reserve, ttlSecs, now, delta))
  {
    var w := NewWorld(reserve, ttlSecs, now, delta);
    L.NewTreasuryConserved(reserve, ttlSecs, now);
    assert EncumberedAmounts(w.deposits) == map[] && IssuedAmounts(w.deposits) == map[];
    assert ConfirmedAmounts(w.redemptions) == map[];
  }

  lemma {:induction false} RunKeepsGood(w: World, ops: seq<Op>)
    requires Good(w)
    ensures Good(Run(w, ops))
    decreases |ops|
  {
    if ops != [] {
      ApplyKeepsGood(w, ops[0]);
      RunKeepsGood(Apply(w, ops[0]), ops[1..]);
    }
  }

  /** Every sequential run from a new deployment ends with records and ledger in exact agreement. */
  lemma EveryRunIsGood(reserve: Thb, ttlSecs: i64, start: i64, delta: i64, ops: seq<Op>)
    ensures Good(Run(NewWorld(reserve, ttlSecs, start, delta), ops))
  {
    NewWorldGood(reserve, ttlSecs, start, delta);
    RunKeepsGood(NewWorld(reserve, ttlSecs, start, delta), ops);
  }
}
