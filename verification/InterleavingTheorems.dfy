/** What holds in every interleaved run: the supply identity, effects at most once, the wires, the numbers. */
module InterleavingTheorems {
  import opened Prelude
  import opened Sums
  import opened Money
  import opened BankRefs
  import opened Repositories
  import opened Adapters
  import R = Redemptions
  import opened L = Ledger
  import opened Interleaving
  import opened InterleavingInvariant
  import opened InterleavingSteps

  // ---- F2: where drift can come from ------------------------------------------------------

  /** Mints whose row does not say `Issued`. */
  function UnrecordedMints(s: Sys): map<Digest, Thb> {
    map h | h in Mints(s.log) && !(h in s.deposits && s.deposits[h].state.Issued?) :: Mints(s.log)[h]
  }

  /** Those of `burned` whose row does not say `Confirmed`. */
  function NotConfirmed(rows: RedemptionRows, burned: map<R.RedeemKey, Thb>): map<R.RedeemKey, Thb> {
    map k | k in burned && !(k in rows && rows[k].state.Confirmed?) :: burned[k]
  }

  /** Burns whose row does not say `Confirmed`. */
  function UnrecordedBurns(s: Sys): map<R.RedeemKey, Thb> {
    NotConfirmed(s.redemptions, Moves(s.log, Burning))
  }

  /**
   * In every reachable state the ledger and the records differ by exactly the effects whose rows do
   * not record them: unrecorded mints on one side, unrecorded burns on the other, and nothing else.
   */
  lemma SupplyGap(s: Sys)
    requires Reachable(s)
    ensures s.ledger.reserve.supply - (Sum(IssuedAmounts(s.deposits)) - Sum(ConfirmedAmounts(s.redemptions)))
         == Sum(UnrecordedMints(s)) - Sum(UnrecordedBurns(s))
  {
    ReachableInv(s);
    MintsSplit(s);
    ConfirmedWereBurned(s.redemptions, s.ledger, s.log);
    BurnsSplit(s.redemptions, Moves(s.log, Burning));
  }

  lemma MintsSplit(s: Sys)
    requires DepositRowsMatchLog(s.deposits, s.log)
    ensures Sum(Mints(s.log)) == Sum(IssuedAmounts(s.deposits)) + Sum(UnrecordedMints(s))
  {
    var issued, unrecorded := IssuedAmounts(s.deposits), UnrecordedMints(s);
    forall h | h in issued
      ensures h in Mints(s.log) && Mints(s.log)[h] == issued[h]
    {
      assert DepositBacked(s.log, s.deposits[h]);
    }
    SumSplit(issued, unrecorded);
    assert issued + unrecorded == Mints(s.log);
  }

  /** A row that says `Confirmed` was burned for its amount. */
  lemma ConfirmedWereBurned(rows: RedemptionRows, t: Treasury, log: Log)
    requires RedemptionRowsMatchLog(rows, log) && EscrowsMatchLog(t, log)
    ensures forall k :: k in ConfirmedAmounts(rows) ==>
              k in Moves(log, Burning) && Moves(log, Burning)[k] == ConfirmedAmounts(rows)[k]
  {
    forall k | k in ConfirmedAmounts(rows)
      ensures k in Moves(log, Burning) && Moves(log, Burning)[k] == ConfirmedAmounts(rows)[k]
    {
      assert RedemptionBacked(log, rows[k]) && rows[k].Key() == k;
    }
  }

  lemma BurnsSplit(rows: RedemptionRows, burned: map<R.RedeemKey, Thb>)
    requires forall k :: k in ConfirmedAmounts(rows) ==> k in burned && burned[k] == ConfirmedAmounts(rows)[k]
    ensures Sum(burned) == Sum(ConfirmedAmounts(rows)) + Sum(NotConfirmed(rows, burned))
  {
    SumSplit(ConfirmedAmounts(rows), NotConfirmed(rows, burned));
    assert ConfirmedAmounts(rows) + NotConfirmed(rows, burned) == burned;
  }

  /** A row that says `Issued` was minted for its amount; `Confirmed`, burned; `Reclaimed`, returned; and each was escrowed before. */
  lemma RecordsAreTrue(s: Sys)
    requires Reachable(s)
    ensures forall h :: h in s.deposits && s.deposits[h].state.Issued? ==>
              exists i, w :: 0 <= i < |s.log| && s.log[i] == Minted(h, w, s.deposits[h].amount)
    ensures forall k :: k in s.redemptions && s.redemptions[k].state.Confirmed? ==>
              Moved(Burning, k, s.redemptions[k].amount) in s.log
    ensures forall k :: k in s.redemptions && s.redemptions[k].state.Reclaimed? ==>
              Moved(Returning, k, s.redemptions[k].amount) in s.log
    ensures forall k :: k in s.redemptions && !s.redemptions[k].state.Requested? && !s.redemptions[k].state.Failed? ==>
              Moved(Escrowing, k, s.redemptions[k].amount) in s.log
  {
    ReachableInv(s);
    TalliesAreTheLog(s.log);
    forall h | h in s.deposits && s.deposits[h].state.Issued?
      ensures exists i, w :: 0 <= i < |s.log| && s.log[i] == Minted(h, w, s.deposits[h].amount)
    {
      assert h in Mints(s.log) && Mints(s.log)[h] == s.deposits[h].amount by {
        assert DepositBacked(s.log, s.deposits[h]);
      }
      var w :| Minted(h, w, s.deposits[h].amount) in s.log;
      var i :| 0 <= i < |s.log| && s.log[i] == Minted(h, w, s.deposits[h].amount);
    }
    forall k | k in s.redemptions
      ensures RedemptionBacked(s.log, s.redemptions[k]) && s.redemptions[k].Key() == k
    {
    }
  }

  // ---- At most once -----------------------------------------------------------------------

  /**
   * Over any run: each deposit is minted at most once; each redemption is escrowed at most once, and
   * then burned at most once or returned at most once, never both, and wired at most once, always
   * after the escrow and for its amount.
   */
  lemma EffectsAtMostOnce(s: Sys)
    requires Reachable(s)
    ensures forall i, j :: 0 <= i < j < |s.log| ==> !Clash(s.log[i], s.log[j])
    ensures forall j :: 0 <= j < |s.log| && s.log[j].Moved? ==>
              && s.log[j].key in s.redemptions && s.log[j].amount == s.redemptions[s.log[j].key].amount
              && (s.log[j].kind == Escrowing || Moved(Escrowing, s.log[j].key, s.log[j].amount) in s.log[..j])
    ensures forall j :: 0 <= j < |s.log| && s.log[j].Minted? ==>
              s.log[j].h in s.deposits
  {
    ReachableInv(s);
    TalliesAreTheLog(s.log);
    forall j | 0 <= j < |s.log| && s.log[j].Moved?
      ensures s.log[j].key in s.redemptions && s.log[j].amount == s.redemptions[s.log[j].key].amount
    {
      MoveIsForItsRow(s, j);
    }
  }

  lemma MoveIsForItsRow(s: Sys, j: nat)
    requires StoreInv(s) && j < |s.log| && s.log[j].Moved?
    ensures s.log[j].key in s.redemptions && s.log[j].amount == s.redemptions[s.log[j].key].amount
  {
    TalliesAreTheLog(s.log);
    var e := s.log[j];
    assert e in s.log && e.key in Moves(s.log, Escrowing);
    EscrowOfMove(s.log, j, Moved(Escrowing, e.key, Moves(s.log, Escrowing)[e.key]));
  }

  lemma OneEscrow(log: Log, a: Effect, b: Effect)
    requires LogInv(log) && a in log && b in log
    requires a.Moved? && b.Moved? && a.kind == b.kind == Escrowing && a.key == b.key
    ensures a == b
  {
    var i :| 0 <= i < |log| && log[i] == a;
    var j :| 0 <= j < |log| && log[j] == b;
  }

  lemma EscrowOfMove(log: Log, j: nat, held: Effect)
    requires LogInv(log) && j < |log| && log[j].Moved? && held in log
    requires held.Moved? && held.kind == Escrowing && held.key == log[j].key
    ensures held.amount == log[j].amount
  {
    var own := Moved(Escrowing, log[j].key, log[j].amount);
    if log[j].kind != Escrowing {
      assert own in log[..j];
    }
    OneEscrow(log, own, held);
  }

  // ---- F4: the barrier --------------------------------------------------------------------

  /** Every wire in the queue is the only one for its redemption, for its amount, and its escrow landed before it. */
  lemma WireFollowsEscrow(s: Sys, i: nat) returns (escrowed: nat, wired: nat)
    requires Reachable(s) && i < |s.sent|
    ensures escrowed < wired < |s.log|
    ensures s.log[escrowed] == Moved(Escrowing, s.sent[i].key, s.sent[i].amount)
    ensures s.log[wired] == Moved(Wiring, s.sent[i].key, s.sent[i].amount)
    ensures s.sent[i].key in s.redemptions && s.redemptions[s.sent[i].key].amount == s.sent[i].amount
    ensures forall j :: 0 <= j < |s.sent| && j != i ==> s.sent[j].key != s.sent[i].key
  {
    ReachableInv(s);
    escrowed, wired := WireInLog(s.sent, s.log, i);
  }

  lemma WireInLog(sent: seq<Wire>, log: Log, i: nat) returns (escrowed: nat, wired: nat)
    requires LogInv(log) && WiresMatchLog(sent, log) && i < |sent|
    ensures escrowed < wired < |log|
    ensures log[escrowed] == Moved(Escrowing, sent[i].key, sent[i].amount)
    ensures log[wired] == Moved(Wiring, sent[i].key, sent[i].amount)
    ensures sent[i].key in Moves(log, Escrowing) && Moves(log, Escrowing)[sent[i].key] == sent[i].amount
  {
    TalliesAreTheLog(log);
    var wire := sent[i];
    wired :| 0 <= wired < |log| && log[wired] == Moved(Wiring, wire.key, wire.amount);
    var before := log[..wired];
    assert Moved(Escrowing, wire.key, wire.amount) in before;
    escrowed :| 0 <= escrowed < |before| && before[escrowed] == Moved(Escrowing, wire.key, wire.amount);
  }

  // ---- Sequence numbers -------------------------------------------------------------------

  lemma {:induction false} SeqsDownward(rows: RedemptionRows, user: string, q: u64, p: u64)
    requires SeqsClosed(rows) && R.RedeemKey(user, q) in rows && 1 <= p <= q
    ensures R.RedeemKey(user, p) in rows
    decreases q - p
  {
    if p < q {
      SeqsDownward(rows, user, q, p + 1);
    }
  }

  /**
   * However requests overlap, the numbers recorded for a user are exactly 1..n. The one exception is
   * arithmetic: after all 2^64 - 1 of them the next number wraps to zero, which may then be used too.
   */
  lemma SeqNumbersContiguous(s: Sys, user: string) returns (n: u64)
    requires Reachable(s)
    ensures forall q: u64 :: q >= 1 ==> (R.RedeemKey(user, q) in s.redemptions <==> q <= n)
    ensures R.RedeemKey(user, 0) in s.redemptions ==> n == U64_MAX
  {
    ReachableInv(s);
    var top := MaxSeq(s.redemptions, user);
    n := if top.Some? then top.value else 0;
    forall q: u64 | q >= 1
      ensures R.RedeemKey(user, q) in s.redemptions <==> q <= n
    {
      if q <= n {
        SeqsDownward(s.redemptions, user, n, q);
      }
    }
    if R.RedeemKey(user, 0) in s.redemptions {
      assert SeqReady(s.redemptions, R.RedeemKey(user, 0));
    }
  }

  /** Hence a request that does not overlap another never conflicts, short of exhausting the numbers. */
  lemma NextSeqIsNew(rows: RedemptionRows, user: string)
    requires R.RedeemKey(user, Successor(MaxSeq(rows, user))) in rows
    ensures R.RedeemKey(user, U64_MAX) in rows
  {
    var top := MaxSeq(rows, user);
    assert top.Some? && Successor(top) <= top.value;
    assert top.value == U64_MAX;
  }
}
