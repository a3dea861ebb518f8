/**
 * The Postgres repositories as tables: string-typed states, signed columns, partial-column updates,
 * re-normalised reads, CHECK constraints and SQL filters. Each statement is one atomic operation.
 */
module Postgres {
  import opened Prelude
  import opened Sums
  import opened Money
  import opened BankRefs
  import opened Repositories
  import D = Deposits
  import R = Redemptions
  import opened Reconciliation

  // ---- Column conversions -----------------------------------------------------------------

  function ToI64(amount: Thb): PortResult<i64> {
    if amount <= I64_MAX then Ok(amount) else Err(Rejected)
  }

  function FromI64(v: i64): PortResult<Thb> {
    if v >= 0 then Ok(v) else Err(Rejected)
  }

  function ParseDepositState(s: string): PortResult<D.DepositState> {
    if s == "observed" then Ok(D.Observed)
    else if s == "screened" then Ok(D.Screened)
    else if s == "attested" then Ok(D.Attested)
    else if s == "issued" then Ok(D.Issued)
    else if s == "encumbered" then Ok(D.Encumbered)
    else if s == "disputed" then Ok(D.Disputed)
    else Err(Rejected)
  }

  function ParseRedemptionState(s: string): PortResult<R.RedemptionState> {
    if s == "requested" then Ok(R.Requested)
    else if s == "escrowed" then Ok(R.Escrowed)
    else if s == "payout_queued" then Ok(R.PayoutQueued)
    else if s == "confirmed" then Ok(R.Confirmed)
    else if s == "reclaimed" then Ok(R.Reclaimed)
    else if s == "failed" then Ok(R.Failed)
    else Err(Rejected)
  }

  function ParseSeverity(s: string): PortResult<Severity> {
    if s == "ok" then Ok(Healthy)
    else if s == "drift" then Ok(Severity.Drift)
    else if s == "insolvent" then Ok(Insolvent)
    else Err(Rejected)
  }

  // ---- Tables -----------------------------------------------------------------------------

  datatype DepositColumns = DepositColumns(bankRef: string, amountMinor: i64, beneficiary: string,
                                           beneficiaryWallet: string, state: string, observedAt: i64)

  datatype SeqKey = SeqKey(userId: string, seqNo: i64)

  datatype RedemptionColumns = RedemptionColumns(amountMinor: i64, state: string, requestedAt: i64,
                                                 escrowedAt: Option<i64>, deltaSecs: i64)

  /** Primary keys: the digest in hex, and (user_id, seq). */
  datatype Tables = Tables(deposits: map<string, DepositColumns>, redemptions: map<SeqKey, RedemptionColumns>,
                           runs: seq<RunColumns>)

  /** One row of `reconciliation_runs`; the table is append-only and numbers its rows itself. */
  datatype RunColumns = RunColumns(checkedAt: i64, severity: string, drift: i64, expectedSupply: i64,
                                   ledgerSupply: i64, freeBacking: i64, shortfall: i64)

  predicate DepositCheck(c: DepositColumns) {
    c.amountMinor > 0 && ParseDepositState(c.state).Ok?
  }

  /** The last conjunct is F4 as a table constraint. */
  predicate RedemptionCheck(k: SeqKey, c: RedemptionColumns) {
    && k.seqNo > 0 && c.amountMinor > 0 && c.deltaSecs > 0 && ParseRedemptionState(c.state).Ok?
    && (c.state in ["requested", "failed"] || c.escrowedAt.Some?)
  }

  /** A `TEXT` value holds any character but U+0000; a parameter that has one fails its statement. */
  predicate TextOk(s: string) {
    '\0' !in s
  }

  // ---- Statements -------------------------------------------------------------------------

  function InsertDeposit(t: Tables, d: D.Deposit): (Tables, PortResult<Unit>) {
    match ToI64(d.amount)
    case Err(e) => (t, Err(e))
    case Ok(amount) =>
      var key := ToHex(d.Nullifier());
      var columns := DepositColumns(d.bankRef.text, amount, d.beneficiary, d.beneficiaryWallet, d.state.AsStr(), d.observedAt);
      if !(TextOk(d.bankRef.text) && TextOk(d.beneficiary) && TextOk(d.beneficiaryWallet)) then (t, Err(Transient))
      else if !DepositCheck(columns) then (t, Err(Transient))
      else if key in t.deposits then (t, Err(Conflict))
      else (t.(deposits := t.deposits[key := columns]), Ok(Unit))
  }

  function DecodeDeposit(c: DepositColumns): PortResult<D.Deposit> {
    var bankRef :- Port(NewBankRef(c.bankRef));
    var amount :- FromI64(c.amountMinor);
    var state :- ParseDepositState(c.state);
    Ok(D.Deposit(bankRef, amount, c.beneficiary, c.beneficiaryWallet, state, c.observedAt))
  }

  function FindDeposit(t: Tables, h: Digest): PortResult<Option<D.Deposit>> {
    if ToHex(h) !in t.deposits then Ok(None)
    else
      var d :- DecodeDeposit(t.deposits[ToHex(h)]);
      Ok(Some(d))
  }

  /** Sets the amount and the state only. */
  function UpdateDeposit(t: Tables, d: D.Deposit): (Tables, PortResult<Unit>) {
    match ToI64(d.amount)
    case Err(e) => (t, Err(e))
    case Ok(amount) =>
      var key := ToHex(d.Nullifier());
      if key !in t.deposits then (t, Err(NotFound))
      else
        var columns := t.deposits[key].(amountMinor := amount, state := d.state.AsStr());
        if !DepositCheck(columns) then (t, Err(Transient))
        else (t.(deposits := t.deposits[key := columns]), Ok(Unit))
  }

  /** What the CHECK constraints guarantee of every stored row. */
  predicate ChecksHold(t: Tables) {
    && (forall x :: x in t.deposits ==> DepositCheck(t.deposits[x]))
    && (forall q :: q in t.redemptions ==> RedemptionCheck(q, t.redemptions[q]))
  }

  /** `amount_minor` of the deposits whose state is one of `states`. */
  function DepositAmounts(t: Tables, states: seq<string>): map<string, nat>
    requires ChecksHold(t)
  {
    map x | x in t.deposits && t.deposits[x].state in states :: t.deposits[x].amountMinor
  }

  function RedemptionAmounts(t: Tables, states: seq<string>): map<SeqKey, nat>
    requires ChecksHold(t)
  {
    map q | q in t.redemptions && t.redemptions[q].state in states :: t.redemptions[q].amountMinor
  }

  function InsertRedemption(t: Tables, r: R.Redemption): (Tables, PortResult<Unit>) {
    if r.seqNo > I64_MAX then (t, Err(Rejected))
    else match ToI64(r.amount)
      case Err(e) => (t, Err(e))
      case Ok(amount) =>
        var key := SeqKey(r.user, r.seqNo);
        var columns := RedemptionColumns(amount, r.state.AsStr(), r.requestedAt, r.escrowedAt, r.deltaSecs);
        if !TextOk(r.user) || !RedemptionCheck(key, columns) then (t, Err(Transient))
        else if key in t.redemptions then (t, Err(Conflict))
        else (t.(redemptions := t.redemptions[key := columns]), Ok(Unit))
  }

  function DecodeRedemption(k: SeqKey, c: RedemptionColumns): PortResult<R.Redemption> {
    if k.seqNo < 0 then Err(Rejected)
    else
      var amount :- FromI64(c.amountMinor);
      var state :- ParseRedemptionState(c.state);
      Ok(R.Redemption(k.userId, k.seqNo, amount, state, c.requestedAt, c.escrowedAt, c.deltaSecs))
  }

  function FindRedemption(t: Tables, key: R.RedeemKey): PortResult<Option<R.Redemption>> {
    if key.seqNo > I64_MAX then Err(NotFound)
    else if !TextOk(key.user) then Err(Transient)
    else if SeqKey(key.user, key.seqNo) !in t.redemptions then Ok(None)
    else
      var r :- DecodeRedemption(SeqKey(key.user, key.seqNo), t.redemptions[SeqKey(key.user, key.seqNo)]);
      Ok(Some(r))
  }

  /** Sets the state and the escrow stamp only. */
  function UpdateRedemption(t: Tables, r: R.Redemption): (Tables, PortResult<Unit>) {
    if r.seqNo > I64_MAX then (t, Err(NotFound))
    else if !TextOk(r.user) then (t, Err(Transient))
    else
      var key := SeqKey(r.user, r.seqNo);
      if key !in t.redemptions then (t, Err(NotFound))
      else
        var columns := t.redemptions[key].(state := r.state.AsStr(), escrowedAt := r.escrowedAt);
        if !RedemptionCheck(key, columns) then (t, Err(Transient))
        else (t.(redemptions := t.redemptions[key := columns]), Ok(Unit))
  }

  /** `MAX(seq)` for one user; NULL when there is no row. */
  ghost function GreatestSeq(keys: set<SeqKey>, user: string): (m: Option<i64>)
    ensures m.Some? ==> SeqKey(user, m.value) in keys
    ensures forall q: i64 :: SeqKey(user, q) in keys ==> m.Some? && q <= m.value
    decreases |keys|
  {
    if keys == {} then None
    else
      var k :| k in keys;
      assert |keys - {k}| < |keys|;
      var rest := GreatestSeq(keys - {k}, user);
      assert forall q: i64 :: SeqKey(user, q) in keys ==> SeqKey(user, q) in keys - {k} || SeqKey(user, q) == k;
      if k.userId != user then rest
      else if rest.None? || rest.value < k.seqNo then Some(k.seqNo)
      else rest
  }

  /** `COALESCE(.., 0)`. */
  function Coalesce(m: Option<i64>): i64 {
    if m.Some? then m.value else 0
  }

  /** `u64::try_from(max).unwrap_or(0) + 1`. */
  function NextSeqFrom(max: i64): u64 {
    (if max >= 0 then max else 0) + 1
  }

  /** `SUM(..)::BIGINT` read back as an amount; a sum outside `BIGINT` is a database error. */
  ghost function SumColumn<K>(amounts: map<K, nat>): PortResult<Thb> {
    if Sum(amounts) <= I64_MAX then Ok(Sum(amounts)) else Err(Transient)
  }

  /** The sweep's WHERE clause. */
  predicate DueColumns(c: RedemptionColumns, now: i64) {
    c.state in ["escrowed", "payout_queued"] && c.escrowedAt.Some? && now - c.escrowedAt.value >= c.deltaSecs
  }

  /** No stamped row makes `$1 - escrowed_at` leave BIGINT, which would fail the whole query. */
  predicate AgesFit(t: Tables, now: i64) {
    forall q :: q in t.redemptions && t.redemptions[q].escrowedAt.Some? ==>
      I64_MIN <= now - t.redemptions[q].escrowedAt.value <= I64_MAX
  }

  /** Rows decoded one by one; the first that does not decode fails the query. */
  ghost function CollectDeposits(columns: map<string, DepositColumns>): PortResult<set<D.Deposit>> {
    if exists x :: x in columns && DecodeDeposit(columns[x]).Err? then Err(Rejected)
    else Ok(set x | x in columns :: DecodeDeposit(columns[x]).value)
  }

  ghost function CollectRedemptions(columns: map<SeqKey, RedemptionColumns>): PortResult<set<R.Redemption>> {
    if exists q :: q in columns && DecodeRedemption(q, columns[q]).Err? then Err(Rejected)
    else Ok(set q | q in columns :: DecodeRedemption(q, columns[q]).value)
  }

  function HeldColumns(t: Tables): map<string, DepositColumns> {
    map x | x in t.deposits && t.deposits[x].state == "screened" :: t.deposits[x]
  }

  function DueRows(t: Tables, now: i64): map<SeqKey, RedemptionColumns> {
    map q | q in t.redemptions && DueColumns(t.redemptions[q], now) :: t.redemptions[q]
  }

  function PendingColumns(t: Tables): map<SeqKey, RedemptionColumns> {
    map q | q in t.redemptions && t.redemptions[q].state in ["escrowed", "payout_queued"] :: t.redemptions[q]
  }

  /** The drift is converted first; any figure outside BIGINT refuses the report. */
  function RecordRun(t: Tables, r: Report): (Tables, PortResult<Unit>) {
    if !(I64_MIN <= r.drift <= I64_MAX) then (t, Err(Rejected))
    else match RunOf(r)
      case Err(e) => (t, Err(e))
      case Ok(columns) => (t.(runs := t.runs + [columns]), Ok(Unit))
  }

  function RunOf(r: Report): PortResult<RunColumns>
    requires I64_MIN <= r.drift <= I64_MAX
  {
    var expected :- ToI64(r.expectedSupply);
    var ledger :- ToI64(r.ledgerSupply);
    var free :- ToI64(r.freeBacking);
    var shortfall :- ToI64(r.shortfall);
    Ok(RunColumns(r.checkedAt, r.severity.AsStr(), r.drift, expected, ledger, free, shortfall))
  }

  function DecodeRun(c: RunColumns): PortResult<Report> {
    var severity :- ParseSeverity(c.severity);
    var expected :- FromI64(c.expectedSupply);
    var ledger :- FromI64(c.ledgerSupply);
    var free :- FromI64(c.freeBacking);
    var shortfall :- FromI64(c.shortfall);
    Ok(Report(severity, c.drift, expected, ledger, free, shortfall, c.checkedAt))
  }

  /** `COUNT(*) .. WHERE severity <> 'ok'`. */
  function UnhealthyRuns(runs: seq<RunColumns>): nat {
    if runs == [] then 0
    else UnhealthyRuns(runs[..|runs| - 1]) + (if runs[|runs| - 1].severity == "ok" then 0 else 1)
  }

  // ---- Representation ---------------------------------------------------------------------

  /** Rows that the table can hold: amounts in BIGINT range, a normalised reference, and proper text. */
  predicate DepositFits(d: D.Deposit) {
    && 0 < d.amount <= I64_MAX && d.bankRef.IsNormal()
    && TextOk(d.bankRef.text) && TextOk(d.beneficiary) && TextOk(d.beneficiaryWallet)
  }

  predicate RedemptionFits(r: R.Redemption) {
    0 < r.amount <= I64_MAX && 0 < r.seqNo <= I64_MAX && r.deltaSecs > 0 && r.EscrowStamped() && TextOk(r.user)
  }

  function EncodeDeposit(d: D.Deposit): DepositColumns
    requires DepositFits(d)
  {
    DepositColumns(d.bankRef.text, d.amount, d.beneficiary, d.beneficiaryWallet, d.state.AsStr(), d.observedAt)
  }

  function EncodeRedemption(r: R.Redemption): RedemptionColumns
    requires RedemptionFits(r)
  {
    RedemptionColumns(r.amount, r.state.AsStr(), r.requestedAt, r.escrowedAt, r.deltaSecs)
  }

  function KeyOf(k: R.RedeemKey): SeqKey
    requires k.seqNo <= I64_MAX
  {
    SeqKey(k.user, k.seqNo)
  }

  /** Reports that the history table can hold. */
  predicate ReportFits(r: Report) {
    && I64_MIN <= r.drift <= I64_MAX && r.expectedSupply <= I64_MAX && r.ledgerSupply <= I64_MAX
    && r.freeBacking <= I64_MAX && r.shortfall <= I64_MAX
  }

  /** The history table holds exactly the reports, in the order they were recorded. */
  predicate RunsRepresented(runs: seq<RunColumns>, reports: seq<Report>) {
    && |runs| == |reports|
    && forall i :: 0 <= i < |runs| ==> ReportFits(reports[i]) && DecodeRun(runs[i]) == Ok(reports[i])
                                       && runs[i].severity == reports[i].severity.AsStr()
  }

  /** The deposits table holds exactly the rows of the map. */
  ghost predicate DepositsRepresented(table: map<string, DepositColumns>, rows: DepositRows) {
    && DepositsKeyed(rows)
    && (forall h :: h in rows ==>
          DepositFits(rows[h]) && ToHex(h) in table && table[ToHex(h)] == EncodeDeposit(rows[h]))
    && (forall x :: x in table ==> exists h: Digest :: h in rows && ToHex(h) == x)
  }

  /** The redemptions table holds exactly the rows of the map. */
  ghost predicate RedemptionsRepresented(table: map<SeqKey, RedemptionColumns>, rows: RedemptionRows) {
    && RedemptionsKeyed(rows)
    && (forall k :: k in rows ==>
          RedemptionFits(rows[k]) && KeyOf(k) in table && table[KeyOf(k)] == EncodeRedemption(rows[k]))
    && (forall q :: q in table ==> q.seqNo > 0 && R.RedeemKey(q.userId, q.seqNo) in rows)
  }

  ghost predicate Represents(t: Tables, deposits: DepositRows, redemptions: RedemptionRows) {
    DepositsRepresented(t.deposits, deposits) && RedemptionsRepresented(t.redemptions, redemptions)
  }

  lemma DepositStateRoundTrip(s: D.DepositState)
    ensures ParseDepositState(s.AsStr()) == Ok(s)
  {
    match s
    case Observed =>
    case Screened =>
    case Attested =>
    case Issued =>
    case Encumbered =>
    case Disputed =>
  }

  lemma RedemptionStateRoundTrip(s: R.RedemptionState)
    ensures ParseRedemptionState(s.AsStr()) == Ok(s)
    ensures s.AsStr() in ["requested", "failed"] <==> s.Requested? || s.Failed?
    ensures s.AsStr() in ["escrowed", "payout_queued"] <==> s.IsPending()
  {
    match s
    case Requested =>
    case Escrowed =>
    case PayoutQueued =>
    case Confirmed =>
    case Reclaimed =>
    case Failed =>
  }

  /** A stored row reads back as the row that was written. */
  lemma DepositRoundTrip(d: D.Deposit)
    requires DepositFits(d)
    ensures DecodeDeposit(EncodeDeposit(d)) == Ok(d) && DepositCheck(EncodeDeposit(d))
  {
    DepositStateRoundTrip(d.state);
    assert NewBankRef(d.bankRef.text) == Ok(d.bankRef);
  }

  lemma RedemptionRoundTrip(r: R.Redemption)
    requires RedemptionFits(r)
    ensures DecodeRedemption(KeyOf(r.Key()), EncodeRedemption(r)) == Ok(r)
    ensures RedemptionCheck(KeyOf(r.Key()), EncodeRedemption(r))
  {
    RedemptionStateRoundTrip(r.state);
  }

  /** Every row that the tables are given to hold satisfies the CHECK constraints. */
  lemma RepresentedRowsCheck(t: Tables, deposits: DepositRows, redemptions: RedemptionRows)
    requires Represents(t, deposits, redemptions)
    ensures ChecksHold(t)
  {
    forall x | x in t.deposits
      ensures DepositCheck(t.deposits[x])
    {
      var h: Digest :| h in deposits && ToHex(h) == x;
      DepositRoundTrip(deposits[h]);
    }
    forall q | q in t.redemptions
      ensures RedemptionCheck(q, t.redemptions[q])
    {
      var k := R.RedeemKey(q.userId, q.seqNo);
      assert KeyOf(k) == q && redemptions[k].Key() == k;
      RedemptionRoundTrip(redemptions[k]);
    }
  }

  // ---- The statements against the maps ----------------------------------------------------

  lemma HexInjective(g: Digest, h: Digest)
    requires ToHex(g) == ToHex(h)
    ensures g == h
  {
    ToHexInjective(g, h);
  }

  lemma PutRowsRepresented(table: map<string, DepositColumns>, rows: DepositRows, d: D.Deposit, g: Digest)
    requires DepositsRepresented(table, rows) && DepositFits(d) && (g in rows || g == d.Nullifier())
    ensures var h := d.Nullifier();
            var table', rows' := table[ToHex(h) := EncodeDeposit(d)], rows[h := d];
            DepositFits(rows'[g]) && ToHex(g) in table' && table'[ToHex(g)] == EncodeDeposit(rows'[g])
  {
    if g != d.Nullifier() && ToHex(g) == ToHex(d.Nullifier()) {
      HexInjective(g, d.Nullifier());
    }
  }

  lemma PutDepositRepresents(table: map<string, DepositColumns>, rows: DepositRows, d: D.Deposit)
    requires DepositsRepresented(table, rows) && DepositFits(d)
    ensures DepositsRepresented(table[ToHex(d.Nullifier()) := EncodeDeposit(d)], rows[d.Nullifier() := d])
  {
    var h := d.Nullifier();
    var table', rows' := table[ToHex(h) := EncodeDeposit(d)], rows[h := d];
    forall g | g in rows'
      ensures DepositFits(rows'[g]) && ToHex(g) in table' && table'[ToHex(g)] == EncodeDeposit(rows'[g])
    {
      PutRowsRepresented(table, rows, d, g);
    }
    forall x | x in table'
      ensures exists g: Digest :: g in rows' && ToHex(g) == x
    {
      if x == ToHex(h) {
        assert h in rows';
      } else {
        var g: Digest :| g in rows && ToHex(g) == x;
        assert g in rows';
      }
    }
  }

  /** A key is taken in the table exactly when it is taken in the map. */
  lemma DepositKeysAgree(table: map<string, DepositColumns>, rows: DepositRows, h: Digest)
    requires DepositsRepresented(table, rows)
    ensures ToHex(h) in table <==> h in rows
  {
    if ToHex(h) in table {
      var g: Digest :| g in rows && ToHex(g) == ToHex(h);
      HexInjective(g, h);
    }
  }

  lemma PutRedemptionRepresents(table: map<SeqKey, RedemptionColumns>, rows: RedemptionRows, r: R.Redemption)
    requires RedemptionsRepresented(table, rows) && RedemptionFits(r)
    ensures RedemptionsRepresented(table[KeyOf(r.Key()) := EncodeRedemption(r)], rows[r.Key() := r])
  {
  }

  // ---- Aggregates over different keys -----------------------------------------------------

  /** Renaming the keys does not change a sum or a count. */
  lemma {:induction false} SumRekey<J(!new), K(!new)>(m: map<J, nat>, n: map<K, nat>, f: J -> K)
    requires forall i, j :: i in m && j in m && f(i) == f(j) ==> i == j
    requires forall j :: j in m ==> f(j) in n && n[f(j)] == m[j]
    requires forall k :: k in n ==> exists j :: j in m && f(j) == k
    ensures Sum(m) == Sum(n) && |m| == |n|
    decreases |m|
  {
    if m == map[] {
      assert n == map[];
    } else {
      var j :| j in m;
      CardMinus(m, j);
      CardMinus(n, f(j));
      SumRemove(m, j);
      SumRemove(n, f(j));
      forall k | k in n - {f(j)}
        ensures exists i :: i in m - {j} && f(i) == k
      {
        var i :| i in m && f(i) == k;
        assert i in m - {j};
      }
      SumRekey(m - {j}, n - {f(j)}, f);
    }
  }

  // ---- The history ------------------------------------------------------------------------

  /**
   * A report is recorded exactly when all its figures are in BIGINT range, and then reads back as itself;
   * refused, it leaves the table alone. The in-memory history takes any report.
   */
  lemma ReportStoredExactly(t: Tables, r: Report)
    ensures RecordRun(t, r).1.Ok? <==> ReportFits(r)
    ensures RecordRun(t, r).1.Ok? ==>
              && |RecordRun(t, r).0.runs| == |t.runs| + 1 && RecordRun(t, r).0.runs[..|t.runs|] == t.runs
              && DecodeRun(RecordRun(t, r).0.runs[|t.runs|]) == Ok(r)
    ensures RecordRun(t, r).1.Err? ==> RecordRun(t, r).0 == t
    ensures RecordRun(t, r).0.deposits == t.deposits && RecordRun(t, r).0.redemptions == t.redemptions
  {
    SeverityRoundTrip(r.severity);
  }

  lemma SeverityRoundTrip(s: Severity)
    ensures ParseSeverity(s.AsStr()) == Ok(s)
    ensures s.AsStr() == "ok" <==> s.Healthy?
  {
    match s
    case Healthy =>
    case Drift =>
    case Insolvent =>
  }

  lemma RecordRepresents(t: Tables, reports: seq<Report>, r: Report)
    requires RunsRepresented(t.runs, reports) && ReportFits(r)
    ensures RunsRepresented(RecordRun(t, r).0.runs, reports + [r])
  {
    ReportStoredExactly(t, r);
  }

  /** The count of unhealthy runs is the in-memory one. */
  lemma {:induction false} UnhealthyAgrees(runs: seq<RunColumns>, reports: seq<Report>)
    requires RunsRepresented(runs, reports)
    ensures UnhealthyRuns(runs) == Unhealthy(reports)
    decreases |runs|
  {
    if runs != [] {
      SeverityRoundTrip(reports[|reports| - 1].severity);
      UnhealthyAgrees(runs[..|runs| - 1], reports[..|reports| - 1]);
    }
  }
}
