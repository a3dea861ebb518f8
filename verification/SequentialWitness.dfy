/** Concrete sequential runs: a redemption swept too early, and one both wired and returned. */
module SequentialWitness {
  import opened Prelude
  import opened Reserve
  import opened BankRefs
  import opened Repositories
  import opened PaymentLeg
  import opened SequentialTheorems
  import D = Deposits
  import R = Redemptions
  import I = Issuance
  import O = OffRamps

  const KEY: R.RedeemKey := R.RedeemKey("w", 1)

  /** A reserve of 100 and a service delta of one second. */
  function Start(): World { NewWorld(100, 10, 0, 1) }

  /** One unit for wallet "w". */
  const WEBHOOK: Op := Webhook("A", 1, "u", "w", Ok(D.Pass))

  /** The row of that webhook once screened. */
  function OneUnit(): D.Deposit {
    D.Deposit(BankRef("A"), 1, "u", "w", D.Screened, 0)
  }

  predicate Untouched(w: World) {
    w.deposits == map[] && w.redemptions == map[] && w.sent == [] && w.now == 0 && w.delta == 1
    && w.ledger.reserve == ReserveState(Attestation(100, 0, 10), 0, 0) && w.ledger.balances == map[]
  }

  /** `w` with `d` as its only deposit. */
  function Only(w: World, d: D.Deposit): World {
    w.(deposits := map[d.Nullifier() := d])
  }

  lemma OnlyRowKeepsGood(w: World, d: D.Deposit)
    requires Good(w) && w.deposits == map[] && d.state.Screened? && d.amount > 0
    ensures Good(Only(w, d))
  {
    FreshRowKeepsGood(w, d);
    assert I.Put(w.deposits, d) == map[d.Nullifier() := d];
  }

  lemma CeilingAdmits(s: I.OnRamp, d: D.Deposit, now: i64)
    requires (forall h :: h in s.rows ==> s.rows[h].state.Screened?) && d.amount == 1
    requires s.ledger.reserve == ReserveState(Attestation(100, 0, 10), 0, 0) && now == 0
    ensures ServiceAdmits(s, d, now)
  {
    assert EncumberedAmounts(s.rows) == map[];
    CheckIssuanceExactly(I.EffectiveReserve(s).value, 1, now);
  }

  lemma WebhookIs(w: World)
    requires Untouched(w)
    ensures Apply(w, WEBHOOK) == Only(w, OneUnit()).WithOnRamp(I.TryIssue(Only(w, OneUnit()).OnRamp(), OneUnit(), w.now).0)
  {
    assert TrimStart("A") == "A" && TrimEnd("A") == "A" && AsciiUppercase("A") == "A";
    assert TrimStart("w") == "w" && TrimEnd("w") == "w";
    assert D.ObserveDeposit(BankRef("A"), 1, "u", "w", 0) == Ok(OneUnit().(state := D.Observed));
    assert I.Put(map[], OneUnit()) == map[OneUnit().Nullifier() := OneUnit()];
  }

  /** Wallet "w" holds one unit, and no redemption has been asked for. */
  predicate OneUnitOut(w: World) {
    w.redemptions == map[] && w.sent == [] && w.now == 0 && w.delta == 1 && w.ledger.BalanceOf("w") == 1
  }

  /** Issuing the only deposit of `w`. */
  lemma Issued(w: World, h: Digest, d: D.Deposit)
    requires Good(w) && h in w.deposits && w.deposits[h] == d && d.state.Screened? && ServiceAdmits(w.OnRamp(), d, w.now)
    requires d.amount == 1 && d.beneficiaryWallet == "w" && w.ledger.BalanceOf("w") == 0
    requires w.redemptions == map[] && w.sent == [] && w.now == 0 && w.delta == 1
    ensures var t := w.WithOnRamp(I.TryIssue(w.OnRamp(), d, w.now).0);
            Good(t) && OneUnitOut(t)
  {
    TryIssueAllOrNothing(w, h);
    TryIssueKeepsGood(w, h);
  }

  lemma OnlyIssued(w: World, d: D.Deposit)
    requires Good(w) && Untouched(w) && d.state.Screened? && d.amount == 1 && d.beneficiaryWallet == "w"
    ensures var t := Only(w, d).WithOnRamp(I.TryIssue(Only(w, d).OnRamp(), d, w.now).0);
            Good(t) && OneUnitOut(t)
  {
    OnlyRowKeepsGood(w, d);
    CeilingAdmits(Only(w, d).OnRamp(), d, w.now);
    Issued(Only(w, d), d.Nullifier(), d);
  }

  lemma UnitIssued(w: World)
    requires Good(w) && Untouched(w)
    ensures Good(Apply(w, WEBHOOK)) && OneUnitOut(Apply(w, WEBHOOK))
  {
    WebhookIs(w);
    OnlyIssued(w, OneUnit());
  }

  lemma AfterWebhook() returns (w: World)
    ensures w == Apply(Start(), WEBHOOK) && Good(w) && OneUnitOut(w)
  {
    var start := Start();
    NewWorldGood(100, 10, 0, 1);
    UnitIssued(start);
    w := Apply(start, WEBHOOK);
  }

  /** That unit has been asked back, and its escrow confirmed at time 0. */
  predicate OneEscrowed(w: World) {
    w.sent == [] && w.now == 0 && w.redemptions == map[KEY := R.Redemption("w", 1, 1, R.Escrowed, 0, Some(0), 1)]
  }

  lemma Requested(w: World)
    requires Good(w) && OneUnitOut(w)
    ensures Good(Apply(w, Request("w", 1))) && OneEscrowed(Apply(w, Request("w", 1)))
  {
    assert MaxSeq(w.redemptions, "w").None?;
    RequestAllOrNothing(w, "w", 1);
    RequestKeepsGood(w, "w", 1);
  }

  lemma TwoStepsThen(w: World, a: Op, b: Op, c: Op)
    ensures Run(w, [a, b, c]) == Apply(Apply(Apply(w, a), b), c)
  {
    assert [a, b, c][1..] == [b, c] && [b, c][1..] == [c] && [c][1..] == [];
    assert Run(w, [a, b, c]) == Run(Apply(w, a), [b, c]) == Run(Apply(Apply(w, a), b), [c]);
    assert Run(Apply(Apply(w, a), b), [c]) == Run(Apply(Apply(Apply(w, a), b), c), []);
  }

  lemma Warped(w: World, to: i64)
    requires Good(w)
    ensures var t := Apply(w, Warp(to)); Good(t) && t.redemptions == w.redemptions && t.sent == w.sent && t.now == to
  {
    HelperOpKeepsGood(w, Warp(to));
  }

  /** At time 1 the sweep lists it, and the ledger refuses. */
  lemma Early(w: World)
    requires Good(w) && w.now == 1 && w.redemptions == map[KEY := R.Redemption("w", 1, 1, R.Escrowed, 0, Some(0), 1)]
    ensures KEY in ReclaimableRows(w.redemptions, w.now)
    ensures O.ReclaimRedemption(w.OffRamp(), KEY, w.now) == (w.OffRamp(), Err(Rejected))
  {
    ShortDeltaListsTooEarly(w, KEY);
  }

  /** From a new world: webhook, request, one second; the sweep lists what the ledger refuses for a day. */
  lemma SweptTooEarly() returns (w: World)
    ensures w == Run(Start(), [WEBHOOK, Request("w", 1), Warp(1)])
    ensures KEY in ReclaimableRows(w.redemptions, w.now)
    ensures O.ReclaimRedemption(w.OffRamp(), KEY, w.now) == (w.OffRamp(), Err(Rejected))
  {
    TwoStepsThen(Start(), WEBHOOK, Request("w", 1), Warp(1));
    w := AfterWebhook();
    Requested(w);
    w := Apply(w, Request("w", 1));
    Warped(w, 1);
    w := Apply(w, Warp(1));
    Early(w);
  }

  /** Its payout is queued. */
  predicate OneQueued(w: World) {
    && w.sent == [Adapters.Wire(KEY, 1)] && w.now == 0
    && w.redemptions == map[KEY := R.Redemption("w", 1, 1, R.PayoutQueued, 0, Some(0), 1)]
  }

  lemma PayoutQueues(w: World)
    requires OneEscrowed(w)
    ensures OneQueued(Apply(w, Payout(KEY)))
  {
    assert w.redemptions[KEY := w.redemptions[KEY].(state := R.PayoutQueued)]
        == map[KEY := w.redemptions[KEY].(state := R.PayoutQueued)];
  }

  lemma PayoutIsGood(w: World)
    requires Good(w)
    ensures Good(Apply(w, Payout(KEY)))
  {
    PayoutKeepsGood(w, KEY);
  }

  lemma PastADay(w: World)
    requires w.now == 86_400 && w.redemptions == map[KEY := R.Redemption("w", 1, 1, R.PayoutQueued, 0, Some(0), 1)]
    ensures PastBothTimelocks(w, KEY)
  {
  }

  /** The holder takes the tokens back, and the wire stays. */
  lemma Returned(w: World)
    requires Good(w) && PastBothTimelocks(w, KEY) && w.redemptions[KEY].state.PayoutQueued?
    ensures WireStays(w)
  {
    WireOutlivesReclaim(w, KEY);
    ReclaimExactly(w, KEY);
  }

  /** `reclaim` of `KEY` succeeds, returns its amount, and leaves the queue with its wire as it is. */
  ghost predicate WireStays(w: World) {
    && KEY in w.redemptions
    && var (s, r) := O.ReclaimRedemption(w.OffRamp(), KEY, w.now);
       && r == Ok(Unit) && s.sent == w.sent && Adapters.Wired(s.sent, KEY)
       && KEY in s.rows && s.rows[KEY].state == R.Reclaimed
       && s.ledger.BalanceOf("w") == w.ledger.BalanceOf("w") + w.redemptions[KEY].amount
  }

  /** From a new world: webhook, request, payout, one day; the redemption is both wired and returned. */
  lemma WiredAndReturned() returns (w: World)
    ensures w == Apply(Run(Start(), [WEBHOOK, Request("w", 1), Payout(KEY)]), Warp(86_400))
    ensures w.sent == [Adapters.Wire(KEY, 1)] && WireStays(w)
  {
    TwoStepsThen(Start(), WEBHOOK, Request("w", 1), Payout(KEY));
    w := AfterWebhook();
    Requested(w);
    w := Apply(w, Request("w", 1));
    PayoutQueues(w);
    PayoutIsGood(w);
    w := Apply(w, Payout(KEY));
    Warped(w, 86_400);
    w := Apply(w, Warp(86_400));
    PastADay(w);
    Returned(w);
  }
}
