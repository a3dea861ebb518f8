/** Inventory exchange: two truncating quotes with basis-point fees against a finite inventory (F6). */
module Exchange {
  import opened Prelude
  import opened Money

  datatype Inventory = Inventory(thbc: Thb, grx: Grx)

  datatype ExchangeParams = ExchangeParams(grxPerThbcRate: u64, feeBps: u16, paused: bool) {
    function Validate(): CoreResult<Unit> {
      if paused then Err(Paused)
      else if grxPerThbcRate == 0 then Err(RateNotSet)
      else if feeBps > BPS_SCALE then Err(InvalidFeeBps(feeBps))
      else Ok(Unit)
    }
  }

  datatype ExchangeQuote = ExchangeQuote(grxIn: Grx, thbcOut: Thb, fee: Thb, inventoryAfter: Inventory)

  datatype ReverseQuote = ReverseQuote(thbcIn: Thb, grxOut: Grx, fee: Grx, inventoryAfter: Inventory)

  /** The user pays GRX; the platform pays THBC out of inventory. */
  function QuoteGrxForThbc(grxIn: Grx, params: ExchangeParams, inventory: Inventory): CoreResult<ExchangeQuote> {
    if grxIn == 0 then Err(ZeroAmount)
    else
      var _ :- params.Validate();
      var gross :- MulDiv(grxIn, params.grxPerThbcRate, GRX_ATOMS_PER_WHOLE);
      var fee :- FeeBps(gross, params.feeBps);
      var net := SaturatingSub(gross, fee);
      if net == 0 then Err(ZeroAmount)
      else if net > inventory.thbc then Err(InsufficientInventory(net, inventory.thbc, "THBC"))
      else
        var thbcAfter :- CheckedSub(inventory.thbc, net);
        var grxAfter :- CheckedAdd(inventory.grx, grxIn);
        Ok(ExchangeQuote(grxIn, net, fee, Inventory(thbcAfter, grxAfter)))
  }

  /** The user pays THBC into inventory; the platform pays GRX from the vault. */
  function QuoteThbcForGrx(thbcIn: Thb, params: ExchangeParams, inventory: Inventory): CoreResult<ReverseQuote> {
    if thbcIn == 0 then Err(ZeroAmount)
    else
      var _ :- params.Validate();
      var gross :- MulDiv(thbcIn, GRX_ATOMS_PER_WHOLE, params.grxPerThbcRate);
      var fee :- MulDiv(gross, params.feeBps, BPS_SCALE);
      var net := SaturatingSub(gross, fee);
      if net == 0 then Err(ZeroAmount)
      else if net > inventory.grx then Err(InsufficientInventory(net, inventory.grx, "GRX"))
      else
        var thbcAfter :- CheckedAdd(inventory.thbc, thbcIn);
        var grxAfter :- CheckedSub(inventory.grx, net);
        Ok(ReverseQuote(thbcIn, net, fee, Inventory(thbcAfter, grxAfter)))
  }

  // ---- Division facts ---------------------------------------------------------------------

  lemma FloorBounds(p: nat, d: int)
    requires d > 0
    ensures 0 <= p / d && d * (p / d) <= p < d * (p / d) + d
  {
  }

  /** A fee of at most 100% never exceeds what it is taken from. */
  lemma FeeWithinGross(x: nat, bps: nat)
    requires bps <= BPS_SCALE
    ensures 0 <= x * bps / BPS_SCALE <= x
  {
    assert 0 <= x * bps <= x * BPS_SCALE;
    FloorBounds(x * bps, BPS_SCALE);
  }

  // ---- One trade --------------------------------------------------------------------------

  /** Inventory valued at `rate` THBC minor units per whole GRX, scaled by 10^9 to stay integral. */
  function Value(inv: Inventory, rate: u64): int {
    rate * inv.grx + GRX_ATOMS_PER_WHOLE * inv.thbc
  }

  /** A buy keeps its fee and less than one minor unit of truncation dust in the inventory. */
  lemma BuyGain(grxIn: Grx, params: ExchangeParams, inv: Inventory)
    requires QuoteGrxForThbc(grxIn, params, inv).Ok?
    ensures var q := QuoteGrxForThbc(grxIn, params, inv).value;
            var gain := Value(q.inventoryAfter, params.grxPerThbcRate) - Value(inv, params.grxPerThbcRate);
            && GRX_ATOMS_PER_WHOLE * q.fee <= gain < GRX_ATOMS_PER_WHOLE * q.fee + GRX_ATOMS_PER_WHOLE
            && q.inventoryAfter.thbc + q.thbcOut == inv.thbc
            && q.inventoryAfter.grx == inv.grx + grxIn
            && q.thbcOut > 0
  {
    var q := QuoteGrxForThbc(grxIn, params, inv).value;
    var rate := params.grxPerThbcRate;
    var gross := grxIn * rate / GRX_ATOMS_PER_WHOLE;
    FloorBounds(grxIn * rate, GRX_ATOMS_PER_WHOLE);
    FeeWithinGross(gross, params.feeBps);
    assert q.fee == gross * params.feeBps / BPS_SCALE && q.thbcOut == gross - q.fee;
    assert rate * (inv.grx + grxIn) == rate * inv.grx + grxIn * rate;
  }

  /** A sell keeps its fee and less than one atom of truncation dust, both valued at the rate. */
  lemma SellGain(thbcIn: Thb, params: ExchangeParams, inv: Inventory)
    requires QuoteThbcForGrx(thbcIn, params, inv).Ok?
    ensures var q := QuoteThbcForGrx(thbcIn, params, inv).value;
            var rate := params.grxPerThbcRate;
            var gain := Value(q.inventoryAfter, rate) - Value(inv, rate);
            && rate * q.fee <= gain < rate * q.fee + rate
            && q.inventoryAfter.thbc == inv.thbc + thbcIn
            && q.inventoryAfter.grx + q.grxOut == inv.grx
            && q.grxOut > 0
  {
    var q := QuoteThbcForGrx(thbcIn, params, inv).value;
    var rate := params.grxPerThbcRate;
    var gross := thbcIn * GRX_ATOMS_PER_WHOLE / rate;
    FloorBounds(thbcIn * GRX_ATOMS_PER_WHOLE, rate);
    FeeWithinGross(gross, params.feeBps);
    assert q.fee == gross * params.feeBps / BPS_SCALE && q.grxOut == gross - q.fee;
    assert rate * (inv.grx - q.grxOut) == rate * inv.grx - rate * gross + rate * q.fee by {
      assert inv.grx - q.grxOut == inv.grx - gross + q.fee;
      Distribute(rate, inv.grx, gross, q.fee);
    }
  }

  lemma Distribute(r: int, a: int, b: int, c: int)
    ensures r * (a - b + c) == r * a - r * b + r * c
  {
  }

  // ---- Sequences of trades ----------------------------------------------------------------

  datatype Trade = Buy(grxIn: Grx, params: ExchangeParams) | Sell(thbcIn: Thb, params: ExchangeParams)

  function Trades(inv: Inventory, trades: seq<Trade>): Inventory
    decreases |trades|
  {
    if trades == [] then inv else Trades(Execute(inv, trades[0]), trades[1..])
  }

  /** A refused quote moves nothing. */
  function Execute(inv: Inventory, trade: Trade): Inventory {
    match trade
    case Buy(grxIn, params) =>
      var q := QuoteGrxForThbc(grxIn, params, inv);
      if q.Ok? then q.value.inventoryAfter else inv
    case Sell(thbcIn, params) =>
      var q := QuoteThbcForGrx(thbcIn, params, inv);
      if q.Ok? then q.value.inventoryAfter else inv
  }

  /** The fee of one trade in value terms; zero when refused. */
  function FeeValue(inv: Inventory, trade: Trade): int {
    match trade
    case Buy(grxIn, params) =>
      var q := QuoteGrxForThbc(grxIn, params, inv);
      if q.Ok? then GRX_ATOMS_PER_WHOLE * q.value.fee else 0
    case Sell(thbcIn, params) =>
      var q := QuoteThbcForGrx(thbcIn, params, inv);
      if q.Ok? then trade.params.grxPerThbcRate * q.value.fee else 0
  }

  function TotalFees(inv: Inventory, trades: seq<Trade>): int
    decreases |trades|
  {
    if trades == [] then 0 else FeeValue(inv, trades[0]) + TotalFees(Execute(inv, trades[0]), trades[1..])
  }

  /** The truncation dust a trade can leave behind at most. */
  function DustBound(trades: seq<Trade>, rate: u64): int {
    if trades == [] then 0
    else (if trades[0].Buy? then GRX_ATOMS_PER_WHOLE else rate) + DustBound(trades[1..], rate)
  }

  lemma ExecuteGain(inv: Inventory, trade: Trade)
    ensures var rate := trade.params.grxPerThbcRate;
            var gain := Value(Execute(inv, trade), rate) - Value(inv, rate);
            0 <= FeeValue(inv, trade) <= gain
              <= FeeValue(inv, trade) + (if trade.Buy? then GRX_ATOMS_PER_WHOLE else rate)
  {
    match trade
    case Buy(grxIn, params) =>
      if QuoteGrxForThbc(grxIn, params, inv).Ok? {
        BuyGain(grxIn, params, inv);
      }
    case Sell(thbcIn, params) =>
      if QuoteThbcForGrx(thbcIn, params, inv).Ok? {
        SellGain(thbcIn, params, inv);
        var fee := QuoteThbcForGrx(thbcIn, params, inv).value.fee;
        assert params.grxPerThbcRate * fee >= 0;
      }
  }

  /**
   * Over any sequence of buys and sells at one rate, with any fees and any refusals, the platform's
   * inventory gains at least the fees and at most the fees and the dust.
   */
  lemma {:induction false} TradesGainFees(inv: Inventory, trades: seq<Trade>, rate: u64)
    requires forall t :: t in trades ==> t.params.grxPerThbcRate == rate
    ensures var gain := Value(Trades(inv, trades), rate) - Value(inv, rate);
            0 <= TotalFees(inv, trades) <= gain <= TotalFees(inv, trades) + DustBound(trades, rate)
    decreases |trades|
  {
    if trades != [] {
      ExecuteGain(inv, trades[0]);
      TradesGainFees(Execute(inv, trades[0]), trades[1..], rate);
    }
  }

  /**
   * No sequence of trades profits the user: whoever ends with no less GRX than they started with
   * ends with no more THBC, and the other way round.
   */
  lemma NoTradingProfit(inv: Inventory, trades: seq<Trade>, rate: u64)
    requires rate > 0
    requires forall t :: t in trades ==> t.params.grxPerThbcRate == rate
    ensures var end := Trades(inv, trades);
            && (end.grx <= inv.grx ==> end.thbc >= inv.thbc)
            && (end.thbc <= inv.thbc ==> end.grx >= inv.grx)
  {
    TradesGainFees(inv, trades, rate);
    NoLossNoProfit(inv, Trades(inv, trades), rate);
  }

  lemma NoLossNoProfit(before: Inventory, after: Inventory, rate: u64)
    requires rate > 0 && Value(before, rate) <= Value(after, rate)
    ensures after.grx <= before.grx ==> after.thbc >= before.thbc
    ensures after.thbc <= before.thbc ==> after.grx >= before.grx
  {
    MulMonotone(rate, after.grx, before.grx);
    MulMonotone(rate, before.grx, after.grx);
  }

  lemma MulMonotone(r: nat, a: nat, b: nat)
    requires r > 0
    ensures a <= b ==> r * a <= r * b
    ensures a < b ==> r * a < r * b
  {
    if a < b {
      assert r * b == r * a + r * (b - a);
    }
  }

  // ---- Splitting a purchase ---------------------------------------------------------------

  function Gross(grx: nat, rate: nat): int { grx * rate / GRX_ATOMS_PER_WHOLE }

  function Net(gross: int, bps: nat): int { gross - gross * bps / BPS_SCALE }

  /** The THBC paid for `grx` atoms, whatever the inventory. */
  function NetPrice(grx: nat, rate: nat, bps: nat): int { Net(Gross(grx, rate), bps) }

  /** A buy is accepted exactly under these bounds, and then pays the net price. */
  lemma BuyAcceptedExactly(grxIn: Grx, params: ExchangeParams, inv: Inventory)
    ensures var price := NetPrice(grxIn, params.grxPerThbcRate, params.feeBps);
            var q := QuoteGrxForThbc(grxIn, params, inv);
            && (q.Ok? <==>
                  && !params.paused && params.grxPerThbcRate > 0 && params.feeBps <= 10_000
                  && Gross(grxIn, params.grxPerThbcRate) <= U64_MAX
                  && 0 < price <= inv.thbc
                  && inv.grx + grxIn <= U64_MAX)
            && (q.Ok? ==> q.value.thbcOut == price)
  {
    var rate := params.grxPerThbcRate;
    MulDivExactly(grxIn, rate, GRX_ATOMS_PER_WHOLE);
    var gross := Gross(grxIn, rate);
    if grxIn == 0 {
      assert gross == 0;
    } else if params.Validate().Ok? && gross <= U64_MAX {
      MulDivExactly(gross, params.feeBps, BPS_SCALE);
      FeeWithinGross(gross, params.feeBps);
    }
  }

  /** The GRX atoms that `thbc` is worth at the rate, truncated. */
  function GrossAtoms(thbc: nat, rate: nat): nat
    requires rate > 0
  {
    FloorBounds(thbc * GRX_ATOMS_PER_WHOLE, rate);
    thbc * GRX_ATOMS_PER_WHOLE / rate
  }

  /** Whether a sell is accepted at a positive rate, and what it then pays, given its gross worth. */
  ghost predicate SellIs(q: CoreResult<ReverseQuote>, thbcIn: Thb, gross: nat, params: ExchangeParams, inv: Inventory) {
    && (q.Ok? <==>
          && !params.paused && params.feeBps <= 10_000
          && gross <= U64_MAX
          && 0 < Net(gross, params.feeBps) <= inv.grx
          && inv.thbc + thbcIn <= U64_MAX)
    && (q.Ok? ==> q.value.grxOut == Net(gross, params.feeBps))
  }

  lemma SellAtRate(thbcIn: Thb, params: ExchangeParams, inv: Inventory)
    requires params.grxPerThbcRate > 0
    ensures SellIs(QuoteThbcForGrx(thbcIn, params, inv), thbcIn, GrossAtoms(thbcIn, params.grxPerThbcRate), params, inv)
  {
    var gross := GrossAtoms(thbcIn, params.grxPerThbcRate);
    MulDivExactly(thbcIn, GRX_ATOMS_PER_WHOLE, params.grxPerThbcRate);
    FloorBounds(thbcIn * GRX_ATOMS_PER_WHOLE, params.grxPerThbcRate);
    assert MulDiv(thbcIn, GRX_ATOMS_PER_WHOLE, params.grxPerThbcRate) == if gross <= U64_MAX then Ok(gross) else Err(MathOverflow);
    if thbcIn != 0 && params.Validate().Ok? && gross <= U64_MAX {
      MulDivExactly(gross, params.feeBps, BPS_SCALE);
      FeeWithinGross(gross, params.feeBps);
    } else if thbcIn == 0 {
      assert gross == 0;
    }
  }

  /** A sell, alike: the THBC at the rate, truncated, less its fee. */
  lemma SellAcceptedExactly(thbcIn: Thb, params: ExchangeParams, inv: Inventory)
    ensures params.grxPerThbcRate == 0 ==> QuoteThbcForGrx(thbcIn, params, inv).Err?
    ensures params.grxPerThbcRate > 0 ==>
              SellIs(QuoteThbcForGrx(thbcIn, params, inv), thbcIn, GrossAtoms(thbcIn, params.grxPerThbcRate), params, inv)
  {
    if params.grxPerThbcRate > 0 {
      SellAtRate(thbcIn, params, inv);
    }
  }

  /** The 128-bit intermediate never overflows; only the 64-bit result can. */
  lemma MulDivExactly(a: u64, b: u64, divisor: int)
    requires divisor > 0
    ensures MulDiv(a, b, divisor) == if a * b / divisor <= U64_MAX then Ok(a * b / divisor) else Err(MathOverflow)
  {
    ProductBound(a, b, U64_MAX);
  }

  lemma ProductBound(a: nat, b: nat, m: nat)
    requires a <= m && b <= m
    ensures 0 <= a * b <= m * m
  {
    assert a * b <= a * m <= m * m;
  }

  /** The net of a gross amount is a ceiling, so it is monotone and loses at most one unit per split. */
  lemma NetIsCeiling(x: nat, bps: nat)
    requires bps <= BPS_SCALE
    ensures var n := Net(x, bps);
            BPS_SCALE * (n - 1) < x * (BPS_SCALE - bps) <= BPS_SCALE * n && 0 <= n <= x
  {
    FloorBounds(x * bps, BPS_SCALE);
    FeeWithinGross(x, bps);
    assert x * (BPS_SCALE - bps) == BPS_SCALE * x - x * bps;
  }

  /** Scaling by a rate of at most `m` keeps the order, and stretches no distance beyond `m`. */
  lemma ScaledDistance(x: nat, y: nat, rate: nat, m: nat)
    requires x <= y && rate <= m
    ensures x * rate <= y * rate <= x * rate + (y - x) * m
  {
    assert y * rate == x * rate + (y - x) * rate;
    assert 0 <= (y - x) * rate <= (y - x) * m;
  }

  lemma NetMonotone(x: nat, y: nat, bps: nat)
    requires x <= y && bps <= BPS_SCALE
    ensures Net(x, bps) <= Net(y, bps) <= Net(x, bps) + (y - x)
  {
    NetIsCeiling(x, bps);
    NetIsCeiling(y, bps);
    ScaledDistance(x, y, BPS_SCALE - bps, BPS_SCALE);
  }

  /** Paying more GRX never buys less THBC. */
  lemma NetPriceMonotone(g: nat, h: nat, rate: nat, bps: nat)
    requires g <= h && bps <= BPS_SCALE
    ensures 0 <= NetPrice(g, rate, bps) <= NetPrice(h, rate, bps)
  {
    FloorBounds(g * rate, GRX_ATOMS_PER_WHOLE);
    FloorBounds(h * rate, GRX_ATOMS_PER_WHOLE);
    assert g * rate <= h * rate;
    NetIsCeiling(Gross(g, rate), bps);
    NetMonotone(Gross(g, rate), Gross(h, rate), bps);
  }

  lemma SplitInTwo(g: nat, h: nat, rate: nat, bps: nat)
    requires bps <= BPS_SCALE
    ensures var apart := NetPrice(g, rate, bps) + NetPrice(h, rate, bps);
            NetPrice(g + h, rate, bps) - 1 <= apart <= NetPrice(g + h, rate, bps) + 1
  {
    var x, y, z := Gross(g, rate), Gross(h, rate), Gross(g + h, rate);
    FloorBounds(g * rate, GRX_ATOMS_PER_WHOLE);
    FloorBounds(h * rate, GRX_ATOMS_PER_WHOLE);
    FloorBounds((g + h) * rate, GRX_ATOMS_PER_WHOLE);
    assert (g + h) * rate == g * rate + h * rate;
    assert x + y <= z <= x + y + 1;
    NetIsCeiling(x, bps);
    NetIsCeiling(y, bps);
    NetIsCeiling(x + y, bps);
    assert (x + y) * (BPS_SCALE - bps) == x * (BPS_SCALE - bps) + y * (BPS_SCALE - bps);
    NetMonotone(x + y, z, bps);
  }

  function Total(parts: seq<Grx>): nat {
    if parts == [] then 0 else parts[0] + Total(parts[1..])
  }

  function PaidApart(parts: seq<Grx>, rate: nat, bps: nat): int {
    if parts == [] then 0 else NetPrice(parts[0], rate, bps) + PaidApart(parts[1..], rate, bps)
  }

  /** Cutting one purchase into k pieces moves the price by at most k - 1 minor units, either way. */
  lemma {:induction false} SplittingBound(parts: seq<Grx>, rate: nat, bps: nat)
    requires parts != [] && bps <= BPS_SCALE
    ensures var whole := NetPrice(Total(parts), rate, bps);
            whole - (|parts| - 1) <= PaidApart(parts, rate, bps) <= whole + (|parts| - 1)
  {
    if |parts| == 1 {
      assert parts[1..] == [];
    } else {
      SplitInTwo(parts[0], Total(parts[1..]), rate, bps);
      SplittingBound(parts[1..], rate, bps);
    }
  }

  /** Every purchase is accepted in turn. */
  predicate AllAccepted(inv: Inventory, parts: seq<Grx>, params: ExchangeParams)
    decreases |parts|
  {
    parts == [] ||
    (QuoteGrxForThbc(parts[0], params, inv).Ok?
     && AllAccepted(Execute(inv, Buy(parts[0], params)), parts[1..], params))
  }

  function Purchases(parts: seq<Grx>, params: ExchangeParams): seq<Trade> {
    seq(|parts|, i requires 0 <= i < |parts| => Buy(parts[i], params))
  }

  /** Accepted purchases chained through the inventory pay out the sum of their prices. */
  lemma {:induction false} PurchasesPayPrices(inv: Inventory, parts: seq<Grx>, params: ExchangeParams)
    requires AllAccepted(inv, parts, params)
    ensures inv.thbc - Trades(inv, Purchases(parts, params)).thbc == PaidApart(parts, params.grxPerThbcRate, params.feeBps)
    decreases |parts|
  {
    if parts != [] {
      BuyAcceptedExactly(parts[0], params, inv);
      BuyGain(parts[0], params, inv);
      assert Purchases(parts, params)[1..] == Purchases(parts[1..], params);
      PurchasesPayPrices(Execute(inv, Buy(parts[0], params)), parts[1..], params);
    }
  }

  /** So k accepted purchases pay at most k - 1 units more, or less, than one purchase of the whole would. */
  lemma SplitPurchase(inv: Inventory, parts: seq<Grx>, params: ExchangeParams)
    requires parts != [] && AllAccepted(inv, parts, params)
    ensures var paid := inv.thbc - Trades(inv, Purchases(parts, params)).thbc;
            var whole := NetPrice(Total(parts), params.grxPerThbcRate, params.feeBps);
            whole - (|parts| - 1) <= paid <= whole + (|parts| - 1)
  {
    BuyAcceptedExactly(parts[0], params, inv);
    PurchasesPayPrices(inv, parts, params);
    SplittingBound(parts, params.grxPerThbcRate, params.feeBps);
  }

  /** The bound is reached: at one minor unit per atom and a 50% fee, two single atoms pay two units apart and one together. */
  lemma SplittingBoundTight()
    ensures var rate, bps := 1_000_000_000, 5_000;
            PaidApart([1, 1], rate, bps) == NetPrice(Total([1, 1]), rate, bps) + 1
  {
    assert Total([1, 1]) == 2 by { assert [1, 1][1..] == [1]; assert Total([1]) == 1; }
    assert PaidApart([1], 1_000_000_000, 5_000) == NetPrice(1, 1_000_000_000, 5_000);
  }

  // ---- Refusals ---------------------------------------------------------------------------

  /** Why a treasury does not quote at all, whatever it is asked. */
  ghost predicate Closed(params: ExchangeParams, why: CoreError) {
    if params.paused then why == Paused
    else if params.grxPerThbcRate == 0 then why == RateNotSet
    else params.feeBps > 10_000 && why == InvalidFeeBps(params.feeBps)
  }

  lemma ClosedQuotesNothing(amount: u64, params: ExchangeParams, inv: Inventory, why: CoreError)
    requires Closed(params, why)
    ensures QuoteGrxForThbc(amount, params, inv) == Err(if amount == 0 then ZeroAmount else why)
    ensures QuoteThbcForGrx(amount, params, inv) == Err(if amount == 0 then ZeroAmount else why)
  {
  }

  /** A paused exchange does not trade: the inventory stays where it is, whatever is tried. */
  lemma {:induction false} PausedTradesNothing(inv: Inventory, trades: seq<Trade>)
    requires forall t :: t in trades ==> t.params.paused
    ensures Trades(inv, trades) == inv
    decreases |trades|
  {
    if trades != [] {
      var t := trades[0];
      ClosedQuotesNothing(if t.Buy? then t.grxIn else t.thbcIn, t.params, inv, Paused);
      PausedTradesNothing(inv, trades[1..]);
    }
  }

  /** The refusal that an inventory too small for the price gives, with both figures. */
  predicate SaysShort(e: CoreError, needed: int, available: u64, asset: string) {
    e.InsufficientInventory? && e.needed == needed && e.available == available && e.asset == asset
  }

  /** What is paid out, what is kept as the fee, and what the inventory holds afterwards, in figures. */
  predicate Says(out: u64, fee: u64, after: Inventory, price: int, gross: int, thbc: int, grx: int) {
    out == price && fee == gross - price && after.thbc == thbc && after.grx == grx
  }

  /** What an open exchange answers to a buy: the price, the fee and both sides of the inventory, or what stands in the way. */
  lemma BuyAnswers(grxIn: Grx, params: ExchangeParams, inv: Inventory)
    requires grxIn > 0 && params.Validate().Ok?
    ensures var gross, price := Gross(grxIn, params.grxPerThbcRate), NetPrice(grxIn, params.grxPerThbcRate, params.feeBps);
            var q := QuoteGrxForThbc(grxIn, params, inv);
            if gross > U64_MAX then q == Err(MathOverflow)
            else if price == 0 then q == Err(ZeroAmount)
            else if price > inv.thbc then q.Err? && SaysShort(q.error, price, inv.thbc, "THBC")
            else if inv.grx + grxIn > U64_MAX then q == Err(MathOverflow)
            else q.Ok? && q.value.grxIn == grxIn
                 && Says(q.value.thbcOut, q.value.fee, q.value.inventoryAfter, price, gross, inv.thbc - price, inv.grx + grxIn)
  {
    MulDivExactly(grxIn, params.grxPerThbcRate, GRX_ATOMS_PER_WHOLE);
    var gross := Gross(grxIn, params.grxPerThbcRate);
    if gross <= U64_MAX {
      MulDivExactly(gross, params.feeBps, BPS_SCALE);
      FeeWithinGross(gross, params.feeBps);
    }
  }

  /** The same for a sell. */
  lemma SellAnswers(thbcIn: Thb, params: ExchangeParams, inv: Inventory)
    requires thbcIn > 0 && params.Validate().Ok?
    ensures var gross := GrossAtoms(thbcIn, params.grxPerThbcRate);
            var price := Net(gross, params.feeBps);
            var q := QuoteThbcForGrx(thbcIn, params, inv);
            if gross > U64_MAX then q == Err(MathOverflow)
            else if price == 0 then q == Err(ZeroAmount)
            else if price > inv.grx then q.Err? && SaysShort(q.error, price, inv.grx, "GRX")
            else if inv.thbc + thbcIn > U64_MAX then q == Err(MathOverflow)
            else q.Ok? && q.value.thbcIn == thbcIn
                 && Says(q.value.grxOut, q.value.fee, q.value.inventoryAfter, price, gross, inv.thbc + thbcIn, inv.grx - price)
  {
    var gross := GrossAtoms(thbcIn, params.grxPerThbcRate);
    MulDivExactly(thbcIn, GRX_ATOMS_PER_WHOLE, params.grxPerThbcRate);
    if gross <= U64_MAX {
      MulDivExactly(gross, params.feeBps, BPS_SCALE);
      FeeWithinGross(gross, params.feeBps);
    }
  }

  /** The scales, in figures: a whole GRX is 10^9 atoms, and fees are counted in ten-thousandths. */
  lemma QuoteInFigures()
    ensures QuoteGrxForThbc(3_000_000_000, ExchangeParams(4_000_000, 25, false), Inventory(1_000_000_000, 0))
         == Ok(ExchangeQuote(3_000_000_000, 11_970_000, 30_000, Inventory(988_030_000, 3_000_000_000)))
    ensures QuoteThbcForGrx(8_000_000, ExchangeParams(4_000_000, 25, false), Inventory(0, 2_000_000_000))
         == Ok(ReverseQuote(8_000_000, 1_995_000_000, 5_000_000, Inventory(8_000_000, 5_000_000)))
  {
  }
}
