/** Statement by statement, the tables give the services the answers of the in-memory maps. */
module PostgresAnswers {
  import opened Prelude
  import opened Sums
  import opened Money
  import opened BankRefs
  import opened Repositories
  import opened RepoPort
  import opened Postgres
  import D = Deposits
  import R = Redemptions

  /** Every statement leaves the CHECK constraints satisfied, whatever it is given. */
  ghost function InPostgres(t: Tables, call: RepoCall): (r: (Tables, RepoAnswer))
    requires ChecksHold(t)
    ensures ChecksHold(r.0)
  {
    match call
    case InsertD(d) => var (after, r) := InsertDeposit(t, d); (after, Done(r))
    case FindD(h) => (t, FoundDeposit(FindDeposit(t, h)))
    case UpdateD(d) => var (after, r) := UpdateDeposit(t, d); (after, Done(r))
    case TotalEncumbered => (t, Total(SumColumn(DepositAmounts(t, ["encumbered", "disputed"]))))
    case TotalIssued => (t, Total(SumColumn(DepositAmounts(t, ["issued"]))))
    case Held => (t, SomeDeposits(CollectDeposits(HeldColumns(t))))
    case InsertR(r) => var (after, done) := InsertRedemption(t, r); (after, Done(done))
    case FindR(key) => (t, FoundRedemption(OrNotFound(FindRedemption(t, key))))
    case UpdateR(r) => var (after, done) := UpdateRedemption(t, r); (after, Done(done))
    case NextSeq(user) => (t, Number(if TextOk(user) then Ok(NextSeqFrom(Coalesce(GreatestSeq(t.redemptions.Keys, user)))) else Err(Transient)))
    case Due(now) => (t, SomeRedemptions(if AgesFit(t, now) then CollectRedemptions(DueRows(t, now)) else Err(Transient)))
    case TotalRedeemed => (t, Total(SumColumn(RedemptionAmounts(t, ["confirmed"]))))
    case PendingCount => (t, Number(Ok(SaturateU32(|PendingColumns(t)|))))
  }

  /**
   * What a call must satisfy: inserted rows fit the columns, an update changes only the columns that
   * the statement sets, and sums, sequence numbers and ages stay in BIGINT.
   */
  ghost predicate InRange(rows: Rows, call: RepoCall) {
    match call
    case InsertD(d) => DepositFits(d)
    case UpdateD(d) => d.Nullifier() in rows.deposits && D.SameDeposit(d, rows.deposits[d.Nullifier()])
    case TotalEncumbered => Sum(EncumberedAmounts(rows.deposits)) <= I64_MAX
    case TotalIssued => Sum(IssuedAmounts(rows.deposits)) <= I64_MAX
    case InsertR(r) => RedemptionFits(r)
    case UpdateR(r) =>
      r.Key() in rows.redemptions && R.SameRedemption(r, rows.redemptions[r.Key()]) && r.EscrowStamped()
    case FindR(key) => TextOk(key.user)
    case NextSeq(user) => TextOk(user)
    case TotalRedeemed => Sum(ConfirmedAmounts(rows.redemptions)) <= I64_MAX
    case Due(now) =>
      forall k :: k in rows.redemptions && rows.redemptions[k].escrowedAt.Some? ==>
        I64_MIN <= now - rows.redemptions[k].escrowedAt.value <= I64_MAX
    case _ => true
  }

  ghost predicate Holds(t: Tables, rows: Rows) {
    Represents(t, rows.deposits, rows.redemptions)
  }

  // ---- Writes -----------------------------------------------------------------------------

  lemma InsertDepositAgrees(t: Tables, rows: Rows, d: D.Deposit)
    requires Holds(t, rows) && DepositFits(d)
    ensures InsertDeposit(t, d).1 == InsertRow(rows.deposits, d.Nullifier(), d).1
    ensures Holds(InsertDeposit(t, d).0, rows.(deposits := InsertRow(rows.deposits, d.Nullifier(), d).0))
  {
    DepositRoundTrip(d);
    DepositKeysAgree(t.deposits, rows.deposits, d.Nullifier());
    PutDepositRepresents(t.deposits, rows.deposits, d);
  }

  /** Setting amount and state alone is the same as replacing the row. */
  lemma UpdateDepositAgrees(t: Tables, rows: Rows, d: D.Deposit)
    requires Holds(t, rows) && d.Nullifier() in rows.deposits && D.SameDeposit(d, rows.deposits[d.Nullifier()])
    ensures UpdateDeposit(t, d).1 == Ok(Unit)
    ensures Holds(UpdateDeposit(t, d).0, rows.(deposits := rows.deposits[d.Nullifier() := d]))
  {
    DepositRoundTrip(d);
    PutDepositRepresents(t.deposits, rows.deposits, d);
    assert t.deposits[ToHex(d.Nullifier())].(amountMinor := d.amount, state := d.state.AsStr()) == EncodeDeposit(d);
  }

  lemma InsertRedemptionAgrees(t: Tables, rows: Rows, r: R.Redemption)
    requires Holds(t, rows) && RedemptionFits(r)
    ensures InsertRedemption(t, r).1 == InsertRow(rows.redemptions, r.Key(), r).1
    ensures Holds(InsertRedemption(t, r).0, rows.(redemptions := InsertRow(rows.redemptions, r.Key(), r).0))
  {
    RedemptionRoundTrip(r);
    PutRedemptionRepresents(t.redemptions, rows.redemptions, r);
  }

  /** Setting state and stamp alone is the same as replacing the row, and the CHECK admits it. */
  lemma UpdateRedemptionAgrees(t: Tables, rows: Rows, r: R.Redemption)
    requires Holds(t, rows) && r.Key() in rows.redemptions
    requires R.SameRedemption(r, rows.redemptions[r.Key()]) && r.EscrowStamped()
    ensures UpdateRedemption(t, r).1 == Ok(Unit)
    ensures Holds(UpdateRedemption(t, r).0, rows.(redemptions := rows.redemptions[r.Key() := r]))
  {
    RedemptionRoundTrip(r);
    PutRedemptionRepresents(t.redemptions, rows.redemptions, r);
    assert t.redemptions[KeyOf(r.Key())].(state := r.state.AsStr(), escrowedAt := r.escrowedAt) == EncodeRedemption(r);
  }

  // ---- Reads ------------------------------------------------------------------------------

  lemma FindDepositAgrees(t: Tables, rows: Rows, h: Digest)
    requires Holds(t, rows)
    ensures FindDeposit(t, h) == Ok(FindRow(rows.deposits, h))
  {
    DepositKeysAgree(t.deposits, rows.deposits, h);
    if h in rows.deposits {
      DepositRoundTrip(rows.deposits[h]);
    }
  }

  lemma FindRedemptionAgrees(t: Tables, rows: Rows, key: R.RedeemKey)
    requires Holds(t, rows) && TextOk(key.user)
    ensures OrNotFound(FindRedemption(t, key)) == OrNotFound(Ok(FindRow(rows.redemptions, key)))
  {
    if key in rows.redemptions {
      RedemptionRoundTrip(rows.redemptions[key]);
    }
  }

  /** `MAX(seq) + 1` over the table. */
  lemma NextSeqAgrees(t: Tables, rows: Rows, user: string)
    requires Holds(t, rows)
    ensures NextSeqFrom(Coalesce(GreatestSeq(t.redemptions.Keys, user))) == Successor(MaxSeq(rows.redemptions, user))
  {
    var m, n := MaxSeq(rows.redemptions, user), GreatestSeq(t.redemptions.Keys, user);
    if m.Some? {
      assert KeyOf(R.RedeemKey(user, m.value)) in t.redemptions.Keys;
    }
    if n.Some? {
      assert R.RedeemKey(user, n.value) in rows.redemptions;
    }
  }

  /** The filter on the state column is the filter on the parsed state. */
  lemma DepositSumsAgree(t: Tables, rows: Rows, states: seq<string>, amounts: map<Digest, Thb>)
    requires Holds(t, rows) && ChecksHold(t)
    requires forall h :: h in amounts <==> h in rows.deposits && rows.deposits[h].state.AsStr() in states
    requires forall h :: h in amounts ==> amounts[h] == rows.deposits[h].amount
    ensures Sum(DepositAmounts(t, states)) == Sum(amounts)
  {
    var column := DepositAmounts(t, states);
    forall g, h | g in amounts && h in amounts && ToHex(g) == ToHex(h)
      ensures g == h
    {
      HexInjective(g, h);
    }
    forall x | x in column
      ensures exists h :: h in amounts && ToHex(h) == x
    {
      var h: Digest :| h in rows.deposits && ToHex(h) == x;
      assert h in amounts;
    }
    SumRekey<Digest, string>(amounts, column, (h: Digest) => ToHex(h));
  }

  /** The same for redemptions, whose keys map straight across. */
  lemma RedemptionSumsAgree(t: Tables, rows: Rows, states: seq<string>, amounts: map<R.RedeemKey, Thb>)
    requires Holds(t, rows) && ChecksHold(t)
    requires forall k :: k in amounts <==> k in rows.redemptions && rows.redemptions[k].state.AsStr() in states
    requires forall k :: k in amounts ==> amounts[k] == rows.redemptions[k].amount
    ensures Sum(RedemptionAmounts(t, states)) == Sum(amounts) && |RedemptionAmounts(t, states)| == |amounts|
  {
    var column := RedemptionAmounts(t, states);
    forall q | q in column
      ensures exists k :: k in amounts && SeqKeyOf(k) == q
    {
      assert R.RedeemKey(q.userId, q.seqNo) in amounts;
    }
    SumRekey<R.RedeemKey, SeqKey>(amounts, column, SeqKeyOf);
  }

  /** `KeyOf` made total; the keys of rows that fit are in range. */
  function SeqKeyOf(k: R.RedeemKey): SeqKey {
    SeqKey(k.user, if k.seqNo <= I64_MAX then k.seqNo else -1)
  }

  lemma PendingCountAgrees(t: Tables, rows: Rows)
    requires Holds(t, rows) && ChecksHold(t)
    ensures |PendingColumns(t)| == |PendingRows(rows.redemptions)|
  {
    var pending := PendingRows(rows.redemptions);
    var amounts: map<R.RedeemKey, Thb> := map k | k in pending :: pending[k].amount;
    forall k | k in rows.redemptions
      ensures k in pending <==> rows.redemptions[k].state.AsStr() in ["escrowed", "payout_queued"]
    {
      RedemptionStateRoundTrip(rows.redemptions[k].state);
    }
    RedemptionSumsAgree(t, rows, ["escrowed", "payout_queued"], amounts);
    assert amounts.Keys == pending.Keys;
    assert RedemptionAmounts(t, ["escrowed", "payout_queued"]).Keys == PendingColumns(t).Keys;
  }

  /** A row of the table is a row of the map, under its digest. */
  lemma RowBehind(t: Tables, rows: Rows, x: string) returns (h: Digest)
    requires Holds(t, rows) && x in t.deposits
    ensures h in rows.deposits && ToHex(h) == x && DecodeDeposit(t.deposits[x]) == Ok(rows.deposits[h])
    ensures t.deposits[x].state == rows.deposits[h].state.AsStr()
  {
    h :| h in rows.deposits && ToHex(h) == x;
    DepositRoundTrip(rows.deposits[h]);
  }

  lemma HeldColumnsAgree(t: Tables, rows: Rows, x: string)
    requires Holds(t, rows) && x in HeldColumns(t)
    ensures DecodeDeposit(t.deposits[x]).Ok?
    ensures DecodeDeposit(t.deposits[x]).value in InState(rows.deposits, D.Screened).Values
  {
    var h := RowBehind(t, rows, x);
    DepositStateStrings(rows.deposits[h].state);
    assert InState(rows.deposits, D.Screened)[h] == rows.deposits[h];
  }

  lemma HeldRowsAgree(t: Tables, rows: Rows, h: Digest)
    requires Holds(t, rows) && h in InState(rows.deposits, D.Screened)
    ensures ToHex(h) in HeldColumns(t) && DecodeDeposit(t.deposits[ToHex(h)]) == Ok(rows.deposits[h])
  {
    DepositRoundTrip(rows.deposits[h]);
  }

  /** Held deposits: every row decodes, and the list is the set of screened rows. */
  lemma HeldAgrees(t: Tables, rows: Rows)
    requires Holds(t, rows)
    ensures CollectDeposits(HeldColumns(t)) == Ok(InState(rows.deposits, D.Screened).Values)
  {
    var columns, held := HeldColumns(t), InState(rows.deposits, D.Screened).Values;
    forall x | x in columns
      ensures DecodeDeposit(columns[x]).Ok? && DecodeDeposit(columns[x]).value in held
    {
      HeldColumnsAgree(t, rows, x);
    }
    forall d | d in held
      ensures exists x :: x in columns && DecodeDeposit(columns[x]).value == d
    {
      var h: Digest :| h in InState(rows.deposits, D.Screened) && rows.deposits[h] == d;
      HeldRowsAgree(t, rows, h);
      assert ToHex(h) in columns;
    }
    assert (set x | x in columns :: DecodeDeposit(columns[x]).value) == held;
  }

  /** In range, plain subtraction lists what saturating subtraction lists. */
  lemma DueRowAgrees(r: R.Redemption, now: i64)
    requires RedemptionFits(r)
    requires r.escrowedAt.Some? ==> I64_MIN <= now - r.escrowedAt.value <= I64_MAX
    ensures DueColumns(EncodeRedemption(r), now) <==> r.IsReclaimable(now)
  {
    RedemptionStateRoundTrip(r.state);
  }

  lemma DueAgrees(t: Tables, rows: Rows, now: i64)
    requires Holds(t, rows) && InRange(rows, Due(now))
    ensures AgesFit(t, now)
    ensures CollectRedemptions(DueRows(t, now)) == Ok(ReclaimableRows(rows.redemptions, now).Values)
  {
    var columns, due := DueRows(t, now), ReclaimableRows(rows.redemptions, now);
    forall q | q in t.redemptions
      ensures R.RedeemKey(q.userId, q.seqNo) in rows.redemptions
      ensures DecodeRedemption(q, t.redemptions[q]) == Ok(rows.redemptions[R.RedeemKey(q.userId, q.seqNo)])
      ensures q in columns <==> R.RedeemKey(q.userId, q.seqNo) in due
      ensures t.redemptions[q].escrowedAt == rows.redemptions[R.RedeemKey(q.userId, q.seqNo)].escrowedAt
    {
      var k := R.RedeemKey(q.userId, q.seqNo);
      assert KeyOf(k) == q;
      RedemptionRoundTrip(rows.redemptions[k]);
      DueRowAgrees(rows.redemptions[k], now);
    }
    forall r | r in due.Values
      ensures exists q :: q in columns && DecodeRedemption(q, columns[q]).value == r
    {
      var k :| k in due && due[k] == r;
      assert KeyOf(k) in t.redemptions;
      assert KeyOf(k) in columns;
    }
    assert (set q | q in columns :: DecodeRedemption(q, columns[q]).value) == due.Values;
  }

  // ---- The refinement ---------------------------------------------------------------------

  lemma DepositStateStrings(s: D.DepositState)
    ensures s.AsStr() in ["encumbered", "disputed"] <==> s.Encumbered? || s.Disputed?
    ensures s.AsStr() in ["issued"] <==> s.Issued?
    ensures s.AsStr() == "screened" <==> s.Screened?
  {
    DepositStateRoundTrip(s);
  }

  lemma EncumberedAgrees(t: Tables, rows: Rows)
    requires Holds(t, rows) && ChecksHold(t)
    ensures Sum(DepositAmounts(t, ["encumbered", "disputed"])) == Sum(EncumberedAmounts(rows.deposits))
  {
    forall h | h in rows.deposits
      ensures h in EncumberedAmounts(rows.deposits) <==> rows.deposits[h].state.AsStr() in ["encumbered", "disputed"]
    {
      DepositStateStrings(rows.deposits[h].state);
    }
    DepositSumsAgree(t, rows, ["encumbered", "disputed"], EncumberedAmounts(rows.deposits));
  }

  lemma IssuedAgrees(t: Tables, rows: Rows)
    requires Holds(t, rows) && ChecksHold(t)
    ensures Sum(DepositAmounts(t, ["issued"])) == Sum(IssuedAmounts(rows.deposits))
  {
    forall h | h in rows.deposits
      ensures h in IssuedAmounts(rows.deposits) <==> rows.deposits[h].state.AsStr() in ["issued"]
    {
      DepositStateStrings(rows.deposits[h].state);
    }
    DepositSumsAgree(t, rows, ["issued"], IssuedAmounts(rows.deposits));
  }

  lemma RedeemedAgrees(t: Tables, rows: Rows)
    requires Holds(t, rows) && ChecksHold(t)
    ensures Sum(RedemptionAmounts(t, ["confirmed"])) == Sum(ConfirmedAmounts(rows.redemptions))
  {
    forall k | k in rows.redemptions
      ensures k in ConfirmedAmounts(rows.redemptions) <==> rows.redemptions[k].state.AsStr() in ["confirmed"]
    {
      RedemptionStateStrings(rows.redemptions[k].state);
    }
    RedemptionSumsAgree(t, rows, ["confirmed"], ConfirmedAmounts(rows.redemptions));
  }

  lemma RedemptionStateStrings(s: R.RedemptionState)
    ensures s.AsStr() in ["confirmed"] <==> s.Confirmed?
  {
    RedemptionStateRoundTrip(s);
  }

  lemma WritesAgree(t: Tables, rows: Rows, call: RepoCall)
    requires Holds(t, rows) && ChecksHold(t) && InRange(rows, call)
    requires call.InsertD? || call.UpdateD? || call.InsertR? || call.UpdateR?
    ensures InPostgres(t, call).1 == InMemory(rows, call).1
    ensures Holds(InPostgres(t, call).0, InMemory(rows, call).0)
  {
    match call
    case InsertD(d) => InsertDepositAgrees(t, rows, d);
    case UpdateD(d) => UpdateDepositAgrees(t, rows, d);
    case InsertR(r) => InsertRedemptionAgrees(t, rows, r);
    case UpdateR(r) => UpdateRedemptionAgrees(t, rows, r);
  }

  /**
   * One statement: the tables give the answer of the maps and go on representing them, under the
   * CHECK constraints, the `escrowed_at` one among them.
   */
  lemma PostgresAnswersAsMemory(t: Tables, rows: Rows, call: RepoCall)
    requires Holds(t, rows) && ChecksHold(t) && InRange(rows, call)
    ensures InPostgres(t, call).1 == InMemory(rows, call).1
    ensures Holds(InPostgres(t, call).0, InMemory(rows, call).0)
  {
    match call
    case FindD(h) => FindDepositAgrees(t, rows, h);
    case TotalEncumbered => EncumberedAgrees(t, rows);
    case TotalIssued => IssuedAgrees(t, rows);
    case Held => HeldAgrees(t, rows);
    case FindR(key) => FindRedemptionAgrees(t, rows, key);
    case NextSeq(user) => NextSeqAgrees(t, rows, user);
    case Due(now) => DueAgrees(t, rows, now);
    case TotalRedeemed => RedeemedAgrees(t, rows);
    case PendingCount => PendingCountAgrees(t, rows);
    case _ => WritesAgree(t, rows, call);
  }

  // ---- What fits, exactly -----------------------------------------------------------------

  /**
   * A new deposit is stored and reads back as itself exactly when its amount is in (0, 2^63), its
   * reference is normalised and its text has no U+0000; the in-memory map stores any row whatever.
   */
  lemma DepositStoredExactly(t: Tables, d: D.Deposit)
    requires ToHex(d.Nullifier()) !in t.deposits
    ensures var (after, r) := InsertDeposit(t, d);
            (r.Ok? && FindDeposit(after, d.Nullifier()) == Ok(Some(d))) <==> DepositFits(d)
  {
    if 0 < d.amount <= I64_MAX {
      DepositStateRoundTrip(d.state);
      if !d.bankRef.IsNormal() && d.bankRef.text != "" {
        NormaliseIdempotent(d.bankRef.text);
      }
    }
  }

  /** The same for a redemption: the exact condition is what the columns and their CHECKs admit. */
  lemma RedemptionStoredExactly(t: Tables, r: R.Redemption)
    requires r.seqNo <= I64_MAX ==> SeqKey(r.user, r.seqNo) !in t.redemptions
    ensures var (after, done) := InsertRedemption(t, r);
            (done.Ok? && FindRedemption(after, r.Key()) == Ok(Some(r))) <==> RedemptionFits(r)
  {
    RedemptionStateRoundTrip(r.state);
  }
}
