/** The in-memory repositories: whole-row maps with uniqueness, filters and checked folds. */
module Repositories {
  import opened Prelude
  import opened Sums
  import opened Money
  import opened BankRefs
  import D = Deposits
  import R = Redemptions
  import opened Reconciliation

  type DepositRows = map<Digest, D.Deposit>
  type RedemptionRows = map<R.RedeemKey, R.Redemption>

  // ---- What the stored rows amount to -----------------------------------------------------

  function InState(rows: DepositRows, s: D.DepositState): DepositRows {
    map h | h in rows && rows[h].state == s :: rows[h]
  }

  function EncumberedAmounts(rows: DepositRows): map<Digest, Thb> {
    map h | h in rows && rows[h].IsEncumbering() :: rows[h].amount
  }

  function IssuedAmounts(rows: DepositRows): map<Digest, Thb> {
    map h | h in rows && rows[h].state.Issued? :: rows[h].amount
  }

  function ConfirmedAmounts(rows: RedemptionRows): map<R.RedeemKey, Thb> {
    map k | k in rows && rows[k].state.Confirmed? :: rows[k].amount
  }

  function SupplyReductions(rows: RedemptionRows): map<R.RedeemKey, Thb> {
    map k | k in rows :: rows[k].SupplyReduction()
  }

  function PendingRows(rows: RedemptionRows): RedemptionRows {
    map k | k in rows && rows[k].state.IsPending() :: rows[k]
  }

  function ReclaimableRows(rows: RedemptionRows, now: i64): RedemptionRows {
    map k | k in rows && rows[k].IsReclaimable(now) :: rows[k]
  }

  /** A checked fold: the exact sum, or overflow. */
  ghost function CheckedTotal<K>(amounts: map<K, Thb>): PortResult<Thb> {
    if Sum(amounts) > U64_MAX then Err(Domain(MathOverflow)) else Ok(Sum(amounts))
  }

  lemma {:induction false} SumZeros<K>(m: map<K, nat>)
    requires forall k :: k in m ==> m[k] == 0
    ensures Sum(m) == 0
    decreases |m|
  {
    if m != map[] {
      var k :| k in m;
      SumRemove(m, k);
      CardMinus(m, k);
      SumZeros(m - {k});
    }
  }

  /** Folding `supply_reduction` over every row is summing the confirmed ones. */
  lemma ReductionsAreConfirmed(rows: RedemptionRows)
    ensures Sum(SupplyReductions(rows)) == Sum(ConfirmedAmounts(rows))
  {
    var rest: map<R.RedeemKey, nat> := SupplyReductions(rows) - ConfirmedAmounts(rows).Keys;
    SumZeros(rest);
    SumSplit(ConfirmedAmounts(rows), rest);
    assert ConfirmedAmounts(rows) + rest == SupplyReductions(rows);
  }

  /** Which deposits each filter selects, by state. */
  lemma DepositsSelected(rows: DepositRows, h: Digest)
    ensures forall s :: h in InState(rows, s) <==> h in rows && rows[h].state == s
    ensures h in EncumberedAmounts(rows) <==> h in rows && rows[h].state in {D.Encumbered, D.Disputed}
    ensures h in IssuedAmounts(rows) <==> h in rows && rows[h].state == D.Issued
    ensures forall s :: h in InState(rows, s) ==> InState(rows, s)[h] == rows[h]
    ensures h in EncumberedAmounts(rows) ==> EncumberedAmounts(rows)[h] == rows[h].amount
    ensures h in IssuedAmounts(rows) ==> IssuedAmounts(rows)[h] == rows[h].amount
  {
  }

  /** Which redemptions each filter selects, by state and age. */
  lemma RedemptionsSelected(rows: RedemptionRows, k: R.RedeemKey, now: i64)
    ensures k in ConfirmedAmounts(rows) <==> k in rows && rows[k].state == R.Confirmed
    ensures k in PendingRows(rows) <==> k in rows && rows[k].state in {R.Escrowed, R.PayoutQueued}
    ensures k in ReclaimableRows(rows, now) <==> k in PendingRows(rows) && rows[k].escrowedAt.Some? && R.OldEnough(rows[k], now)
    ensures k in ConfirmedAmounts(rows) ==> ConfirmedAmounts(rows)[k] == rows[k].amount
    ensures k in PendingRows(rows) ==> PendingRows(rows)[k] == rows[k]
    ensures k in ReclaimableRows(rows, now) ==> ReclaimableRows(rows, now)[k] == rows[k]
  {
    if k in rows {
      R.ListedExactly(rows[k], now);
    }
  }

  /** Taking one row out takes it out of the pending ones, if it is pending. */
  lemma PendingMinus(rows: RedemptionRows, k: R.RedeemKey)
    requires k in rows
    ensures |PendingRows(rows)| == |PendingRows(rows - {k})| + (if rows[k].state.IsPending() then 1 else 0)
  {
    if rows[k].state.IsPending() {
      CardMinus(PendingRows(rows), k);
      assert PendingRows(rows - {k}) == PendingRows(rows) - {k};
    } else {
      assert PendingRows(rows - {k}) == PendingRows(rows);
    }
  }

  // ---- Row operations ---------------------------------------------------------------------

  function InsertRow<K, V>(rows: map<K, V>, key: K, row: V): (map<K, V>, PortResult<Unit>) {
    if key in rows then (rows, Err(Conflict)) else (rows[key := row], Ok(Unit))
  }

  function UpdateRow<K, V>(rows: map<K, V>, key: K, row: V): (map<K, V>, PortResult<Unit>) {
    if key !in rows then (rows, Err(NotFound)) else (rows[key := row], Ok(Unit))
  }

  function FindRow<K, V>(rows: map<K, V>, key: K): Option<V> {
    if key in rows then Some(rows[key]) else None
  }

  // ---- Sequence numbers -------------------------------------------------------------------

  /** The greatest sequence number recorded for `user`. */
  ghost function MaxSeq(rows: RedemptionRows, user: string): (m: Option<u64>)
    ensures m.Some? ==> R.RedeemKey(user, m.value) in rows
    ensures forall q: u64 :: R.RedeemKey(user, q) in rows ==> m.Some? && q <= m.value
    decreases |rows|
  {
    if rows == map[] then None
    else
      var k :| k in rows;
      assert |rows - {k}| < |rows| by { CardMinus(rows, k); }
      var rest := MaxSeq(rows - {k}, user);
      assert forall q: u64 :: R.RedeemKey(user, q) in rows ==> R.RedeemKey(user, q) in rows - {k} || R.RedeemKey(user, q) == k;
      if k.user != user then rest
      else if rest.None? || rest.value < k.seqNo then Some(k.seqNo)
      else rest
  }

  /** `max + 1`, wrapping as release arithmetic does. */
  function Successor(m: Option<u64>): u64 {
    match m
    case None => 1
    case Some(q) => (q + 1) % (U64_MAX + 1)
  }

  /** The next number is one more than the last, from one; after the greatest comes zero. */
  lemma SuccessorExactly(q: u64)
    ensures Successor(None) == 1 && Successor(Some(U64_MAX)) == 0
    ensures q < U64_MAX ==> Successor(Some(q)) as int == q + 1
  {
  }

  // ---- Enumerations -----------------------------------------------------------------------

  /** `list` holds each row of `m` once, at the position of its key in `order`. */
  ghost predicate EnumeratesBy<K, V>(list: seq<V>, order: seq<K>, m: map<K, V>) {
    && |order| == |list| == |m|
    && (forall i, j :: 0 <= i < j < |order| ==> order[i] != order[j])
    && (forall i :: 0 <= i < |order| ==> order[i] in m && m[order[i]] == list[i])
    && (forall k :: k in m ==> k in order)
  }

  ghost predicate Enumerates<K(!new), V>(list: seq<V>, m: map<K, V>) {
    exists order: seq<K> :: EnumeratesBy(list, order, m)
  }

  method CollectRows<K(==), V>(m: map<K, V>) returns (list: seq<V>, ghost order: seq<K>)
    ensures EnumeratesBy(list, order, m)
  {
    list, order := [], [];
    var left := m;
    while left != map[]
      invariant left.Keys <= m.Keys && forall k :: k in left ==> left[k] == m[k]
      invariant |order| == |list| && |order| + |left| == |m|
      invariant forall i, j :: 0 <= i < j < |order| ==> order[i] != order[j]
      invariant forall i :: 0 <= i < |order| ==> order[i] in m && order[i] !in left && m[order[i]] == list[i]
      invariant forall k :: k in m ==> k in left || k in order
      decreases |left|
    {
      var k :| k in left;
      CardMinus(left, k);
      list, order := list + [left[k]], order + [k];
      left := left - {k};
    }
  }

  /** `try_fold` with checked addition, in whatever order the entries come. */
  method TryTotal<K(==)>(amounts: map<K, Thb>) returns (r: PortResult<Thb>)
    ensures r == CheckedTotal(amounts)
  {
    var left: map<K, Thb> := amounts;
    var acc: Thb := 0;
    while left != map[]
      invariant acc + Sum(left) == Sum(amounts)
      decreases |left|
    {
      var k :| k in left;
      SumRemove(left, k);
      CardMinus(left, k);
      var next := CheckedAdd(acc, left[k]);
      if next.Err? {
        return Err(Domain(MathOverflow));
      }
      acc := next.value;
      left := left - {k};
    }
    r := Ok(acc);
  }

  // ---- The stores -------------------------------------------------------------------------

  /** Every row sits under its own digest. */
  predicate DepositsKeyed(rows: DepositRows) {
    forall h :: h in rows ==> rows[h].Nullifier() == h
  }

  /** Every row sits under its own user and sequence number. */
  predicate RedemptionsKeyed(rows: RedemptionRows) {
    forall k :: k in rows ==> rows[k].Key() == k
  }

  class InMemoryDepositRepo {
    var rows: DepositRows

    predicate Valid()
      reads this
    {
      DepositsKeyed(rows)
    }

    constructor ()
      ensures Valid() && rows == map[]
    {
      rows := map[];
    }

    method Insert(deposit: D.Deposit) returns (r: PortResult<Unit>)
      requires Valid()
      modifies this
      ensures Valid() && (rows, r) == InsertRow(old(rows), deposit.Nullifier(), deposit)
    {
      var key := deposit.Nullifier();
      if key in rows {
        return Err(Conflict);
      }
      rows := rows[key := deposit];
      r := Ok(Unit);
    }

    method Find(nullifier: Digest) returns (found: Option<D.Deposit>)
      ensures found == FindRow(rows, nullifier)
    {
      found := if nullifier in rows then Some(rows[nullifier]) else None;
    }

    method Update(deposit: D.Deposit) returns (r: PortResult<Unit>)
      requires Valid()
      modifies this
      ensures Valid() && (rows, r) == UpdateRow(old(rows), deposit.Nullifier(), deposit)
    {
      var key := deposit.Nullifier();
      if key !in rows {
        return Err(NotFound);
      }
      rows := rows[key := deposit];
      r := Ok(Unit);
    }

    method TotalEncumbered() returns (r: PortResult<Thb>)
      ensures r == CheckedTotal(EncumberedAmounts(rows))
    {
      r := TryTotal(EncumberedAmounts(rows));
    }

    method Held() returns (list: seq<D.Deposit>, ghost order: seq<Digest>)
      ensures EnumeratesBy(list, order, InState(rows, D.Screened))
      ensures Enumerates(list, InState(rows, D.Screened))
    {
      list, order := CollectRows(InState(rows, D.Screened));
    }

    method TotalIssued() returns (r: PortResult<Thb>)
      ensures r == CheckedTotal(IssuedAmounts(rows))
    {
      r := TryTotal(IssuedAmounts(rows));
    }
  }

  class InMemoryRedemptionRepo {
    var rows: RedemptionRows

    predicate Valid()
      reads this
    {
      RedemptionsKeyed(rows)
    }

    constructor ()
      ensures Valid() && rows == map[]
    {
      rows := map[];
    }

    method Insert(redemption: R.Redemption) returns (r: PortResult<Unit>)
      requires Valid()
      modifies this
      ensures Valid() && (rows, r) == InsertRow(old(rows), redemption.Key(), redemption)
    {
      var key := redemption.Key();
      if key in rows {
        return Err(Conflict);
      }
      rows := rows[key := redemption];
      r := Ok(Unit);
    }

    method Find(user: string, seqNo: u64) returns (found: Option<R.Redemption>)
      ensures found == FindRow(rows, R.RedeemKey(user, seqNo))
    {
      var key := R.RedeemKey(user, seqNo);
      found := if key in rows then Some(rows[key]) else None;
    }

    method Update(redemption: R.Redemption) returns (r: PortResult<Unit>)
      requires Valid()
      modifies this
      ensures Valid() && (rows, r) == UpdateRow(old(rows), redemption.Key(), redemption)
    {
      var key := redemption.Key();
      if key !in rows {
        return Err(NotFound);
      }
      rows := rows[key := redemption];
      r := Ok(Unit);
    }

    method NextSeq(user: string) returns (next: u64)
      ensures next == Successor(MaxSeq(rows, user))
    {
      var left, best: Option<u64> := rows.Keys, None;
      while left != {}
        invariant left <= rows.Keys
        invariant best.Some? ==> R.RedeemKey(user, best.value) in rows
        invariant forall q: u64 :: R.RedeemKey(user, q) in rows.Keys - left ==> best.Some? && q <= best.value
        decreases |left|
      {
        var k :| k in left;
        left := left - {k};
        if k.user == user && (best.None? || best.value < k.seqNo) {
          best := Some(k.seqNo);
        }
      }
      assert best == MaxSeq(rows, user);
      next := Successor(best);
    }

    method Reclaimable(now: i64) returns (list: seq<R.Redemption>, ghost order: seq<R.RedeemKey>)
      ensures EnumeratesBy(list, order, ReclaimableRows(rows, now))
      ensures Enumerates(list, ReclaimableRows(rows, now))
    {
      list, order := CollectRows(ReclaimableRows(rows, now));
    }

    method TotalRedeemed() returns (r: PortResult<Thb>)
      ensures r == CheckedTotal(ConfirmedAmounts(rows))
    {
      ReductionsAreConfirmed(rows);
      r := TryTotal(SupplyReductions(rows));
    }

    method PendingCount() returns (n: u32)
      ensures n == SaturateU32(|PendingRows(rows)|)
    {
      var left, count := rows, 0;
      while left != map[]
        invariant count + |PendingRows(left)| == |PendingRows(rows)|
        decreases |left|
      {
        var k :| k in left;
        PendingMinus(left, k);
        CardMinus(left, k);
        if left[k].state.IsPending() {
          count := count + 1;
        }
        left := left - {k};
      }
      assert |PendingRows(left)| == 0;
      n := SaturateU32(count);
    }
  }

  /** How many recorded runs were not healthy. */
  function Unhealthy(runs: seq<Report>): nat {
    if runs == [] then 0
    else Unhealthy(runs[..|runs| - 1]) + (if runs[|runs| - 1].severity.Healthy? then 0 else 1)
  }

  /** The reports of all runs, oldest first; nothing ever leaves the list. */
  class InMemoryReconciliationRepo {
    var runs: seq<Report>

    constructor ()
      ensures runs == []
    {
      runs := [];
    }

    method Record(report: Report)
      modifies this
      ensures runs == old(runs) + [report]
    {
      runs := runs + [report];
    }

    /** Newest first. */
    method Recent(limit: u32) returns (list: seq<Report>)
      ensures |list| == if limit <= |runs| then limit else |runs|
      ensures forall i :: 0 <= i < |list| ==> list[i] == runs[|runs| - 1 - i]
    {
      list := [];
      while |list| < limit && |list| < |runs|
        invariant |list| <= limit && |list| <= |runs|
        invariant forall i :: 0 <= i < |list| ==> list[i] == runs[|runs| - 1 - i]
        decreases |runs| - |list|
      {
        list := list + [runs[|runs| - 1 - |list|]];
      }
    }

    method UnhealthyCount() returns (n: nat)
      ensures n == Unhealthy(runs)
    {
      n := 0;
      for i := 0 to |runs|
        invariant n == Unhealthy(runs[..i])
      {
        assert runs[..i + 1][..i] == runs[..i];
        if !runs[i].severity.Healthy? {
          n := n + 1;
        }
      }
      assert runs[..|runs|] == runs;
    }
  }
}
