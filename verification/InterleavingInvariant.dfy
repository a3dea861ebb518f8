/** What every interleaved state satisfies, and that every event keeps it. */
module InterleavingInvariant {
  import opened Prelude
  import opened Sums
  import opened Repositories
  import opened Adapters
  import D = Deposits
  import R = Redemptions
  import opened L = Ledger
  import opened Interleaving

  // ---- Ledger, log and wires --------------------------------------------------------------

  /** The escrow records are exactly what the log leaves behind. */
  predicate EscrowsMatchLog(t: Treasury, log: Log) {
    var held, burned, returned := Moves(log, Escrowing), Moves(log, Burning), Moves(log, Returning);
    && burned.Keys <= held.Keys && returned.Keys <= held.Keys && burned.Keys !! returned.Keys
    && (forall k :: k in burned ==> burned[k] == held[k])
    && (forall k :: k in returned ==> returned[k] == held[k])
    && t.escrows.Keys == held.Keys - returned.Keys
    && (forall k :: k in t.escrows ==> t.escrows[k].amount == held[k] && (t.escrows[k].burned <==> k in burned))
  }

  ghost predicate LedgerMatchesLog(t: Treasury, log: Log) {
    && Conserved(t)
    && t.nullifiers == Mints(log).Keys
    && t.reserve.supply + Sum(Moves(log, Burning)) == Sum(Mints(log))
    && EscrowsMatchLog(t, log)
  }

  /** The queue holds one wire per wiring effect, each after its escrow and for its amount. */
  predicate WiresMatchLog(sent: seq<Wire>, log: Log) {
    var wired, held := Moves(log, Wiring), Moves(log, Escrowing);
    && wired.Keys <= held.Keys && (forall k :: k in wired ==> wired[k] == held[k])
    && (forall i, j :: 0 <= i < j < |sent| ==> sent[i].key != sent[j].key)
    && (forall i :: 0 <= i < |sent| ==> sent[i].key in wired && wired[sent[i].key] == sent[i].amount)
    && (forall k :: k in wired ==> Wired(sent, k))
  }

  // ---- Rows -------------------------------------------------------------------------------

  /** A recorded issuance really was minted. */
  predicate DepositBacked(log: Log, d: D.Deposit) {
    d.state.Issued? ==> d.Nullifier() in Mints(log)
  }

  predicate DepositRowsMatchLog(rows: DepositRows, log: Log) {
    && DepositsKeyed(rows)
    && (forall h :: h in rows ==> DepositBacked(log, rows[h]))
    && (forall h :: h in Mints(log) ==> h in rows && rows[h].amount == Mints(log)[h])
  }

  /** Whatever a row claims about its tokens really happened to them. */
  predicate RedemptionBacked(log: Log, r: R.Redemption) {
    && r.EscrowStamped()
    && (!r.state.Requested? && !r.state.Failed? ==> r.Key() in Moves(log, Escrowing))
    && (r.state.Confirmed? ==> r.Key() in Moves(log, Burning))
    && (r.state.Reclaimed? ==> r.Key() in Moves(log, Returning))
  }

  predicate RedemptionRowsMatchLog(rows: RedemptionRows, log: Log) {
    && RedemptionsKeyed(rows)
    && (forall k :: k in rows ==> RedemptionBacked(log, rows[k]))
    && (forall k :: k in Moves(log, Escrowing) ==> k in rows && rows[k].amount == Moves(log, Escrowing)[k])
  }

  /** A sequence number may be used once its predecessor is; zero only after the last one wraps. */
  predicate SeqReady(rows: RedemptionRows, k: R.RedeemKey) {
    && (k.seqNo == 0 ==> R.RedeemKey(k.user, U64_MAX) in rows)
    && (k.seqNo > 1 ==> R.RedeemKey(k.user, k.seqNo - 1) in rows)
  }

  predicate SeqsClosed(rows: RedemptionRows) {
    forall k :: k in rows ==> SeqReady(rows, k)
  }

  ghost predicate StoreInv(s: Sys) {
    && LogInv(s.log)
    && LedgerMatchesLog(s.ledger, s.log)
    && WiresMatchLog(s.sent, s.log)
    && DepositRowsMatchLog(s.deposits, s.log)
    && RedemptionRowsMatchLog(s.redemptions, s.log)
    && SeqsClosed(s.redemptions)
  }

  // ---- Calls ------------------------------------------------------------------------------

  /** A stale copy: every column but the state is the stored one. */
  predicate DepositCopy(s: Sys, d: D.Deposit) {
    d.Nullifier() in s.deposits && D.SameDeposit(d, s.deposits[d.Nullifier()])
  }

  predicate RedemptionCopy(s: Sys, r: R.Redemption) {
    r.Key() in s.redemptions && R.SameRedemption(r, s.redemptions[r.Key()])
  }

  /** What each local copy may rely on, however stale it is. */
  predicate CallOk(s: Sys, c: Call) {
    match c
    case InsertDeposit(d, _) => d.state.Observed?
    case AskScreen(d, _) => DepositCopy(s, d) && d.state.Observed?
    case SaveScreen(d, _) => DepositCopy(s, d) && (d.state.Screened? || d.state.Encumbered?)
    case ReadReserve(d, _) => DepositCopy(s, d) && d.state.Screened?
    case ReadEncumbered(d, _, _) => DepositCopy(s, d) && d.state.Screened?
    case SaveAttested(d) => DepositCopy(s, d) && d.state.Attested?
    case AskMint(d) => DepositCopy(s, d) && d.state.Attested?
    case SaveIssued(d) => DepositCopy(s, d) && d.state.Issued? && DepositBacked(s.log, d)
    case InsertRedemption(r) => r.state.Requested? && r.escrowedAt.None? && SeqReady(s.redemptions, r.Key())
    case AskEscrow(r) => RedemptionCopy(s, r) && r.state.Requested? && r.EscrowStamped()
    case SaveEscrow(r) =>
      RedemptionCopy(s, r) && RedemptionBacked(s.log, r) && (r.state.Requested? || r.state.Escrowed? || r.state.Failed?)
    case SavePayout(r) => RedemptionCopy(s, r) && RedemptionBacked(s.log, r) && r.state.PayoutQueued?
    case SendWire(key, amount) => key in Moves(s.log, Escrowing) && Moves(s.log, Escrowing)[key] == amount
    case AskBurn(r) => RedemptionCopy(s, r) && RedemptionBacked(s.log, r)
    case SaveConfirm(r) => RedemptionCopy(s, r) && RedemptionBacked(s.log, r) && r.state.Confirmed?
    case AskReturn(r) =>
      RedemptionCopy(s, r) && r.state.Reclaimed? && r.escrowedAt.Some? && r.Key() in Moves(s.log, Escrowing)
    case SaveReclaim(r) => RedemptionCopy(s, r) && RedemptionBacked(s.log, r) && r.state.Reclaimed?
    case _ => true
  }

  /** Only the call that inserted a redemption asks for its escrow, and it asks once. */
  predicate EscrowsAskedOnce(s: Sys) {
    && (forall i :: i in s.calls && s.calls[i].AskEscrow? ==> s.calls[i].r.Key() !in Moves(s.log, Escrowing))
    && (forall i, j :: i in s.calls && j in s.calls && i != j && s.calls[i].AskEscrow? && s.calls[j].AskEscrow? ==>
          s.calls[i].r.Key() != s.calls[j].r.Key())
  }

  ghost predicate Inv(s: Sys) {
    && StoreInv(s)
    && (forall i :: i in s.calls ==> CallOk(s, s.calls[i]))
    && EscrowsAskedOnce(s)
  }

  // ---- Growth: what copies rely on is never taken back ------------------------------------

  predicate LogGrows(log: Log, log': Log) {
    && (forall h :: h in Mints(log) ==> h in Mints(log'))
    && (forall kind, k :: k in Moves(log, kind) ==> k in Moves(log', kind) && Moves(log', kind)[k] == Moves(log, kind)[k])
  }

  predicate RowsGrow(s: Sys, s': Sys) {
    && (forall h :: h in s.deposits ==> h in s'.deposits && D.SameDeposit(s'.deposits[h], s.deposits[h]))
    && (forall k :: k in s.redemptions ==> k in s'.redemptions && R.SameRedemption(s'.redemptions[k], s.redemptions[k]))
  }

  predicate Grows(s: Sys, s': Sys) {
    LogGrows(s.log, s'.log) && RowsGrow(s, s')
  }

  lemma CallOkGrows(s: Sys, s': Sys, c: Call)
    requires Grows(s, s') && CallOk(s, c)
    ensures CallOk(s', c)
  {
  }

  /** Call `id` moves on to `next`: the copies of every call stay sound. */
  lemma ResumeKeepsCalls(s: Sys, s': Sys, id: nat, next: Option<Call>)
    requires (forall i :: i in s.calls ==> CallOk(s, s.calls[i])) && Grows(s, s') && s'.calls == s.calls
    requires next.Some? ==> CallOk(s', next.value)
    ensures var t := Resume(s', id, next); forall i :: i in t.calls ==> CallOk(t, t.calls[i])
  {
    var t := Resume(s', id, next);
    forall i | i in t.calls
      ensures CallOk(t, t.calls[i])
    {
      if i != id {
        CallOkGrows(s, s', s.calls[i]);
      }
      CallOkGrows(s', t, t.calls[i]);
    }
  }

  /** The only key newly escrowed, if any, is the one call `id` was asking for. */
  predicate EscrowedBy(s: Sys, log': Log, id: nat) {
    forall k :: k in Moves(log', Escrowing) && k !in Moves(s.log, Escrowing) ==>
      id in s.calls && s.calls[id].AskEscrow? && s.calls[id].r.Key() == k
  }

  lemma ResumeKeepsAsking(s: Sys, s': Sys, id: nat, next: Option<Call>)
    requires EscrowsAskedOnce(s) && s'.calls == s.calls && EscrowedBy(s, s'.log, id)
    requires forall i :: i in s.calls && s.calls[i].AskEscrow? ==> s.calls[i].r.Key() in s.redemptions
    requires next.Some? && next.value.AskEscrow? ==>
               next.value.r.Key() !in s.redemptions && next.value.r.Key() !in Moves(s'.log, Escrowing)
    ensures EscrowsAskedOnce(Resume(s', id, next))
  {
  }

  /** A step on the stores, after which call `id` moves on to `next`. */
  lemma ResumeKeepsInv(s: Sys, s': Sys, id: nat, next: Option<Call>)
    requires Inv(s) && StoreInv(s') && Grows(s, s') && s'.calls == s.calls && EscrowedBy(s, s'.log, id)
    requires next.Some? ==> CallOk(s', next.value)
    requires next.Some? && next.value.AskEscrow? ==>
               next.value.r.Key() !in s.redemptions && next.value.r.Key() !in Moves(s'.log, Escrowing)
    ensures Inv(Resume(s', id, next))
  {
    ResumeKeepsCalls(s, s', id, next);
    forall i | i in s.calls && s.calls[i].AskEscrow?
      ensures s.calls[i].r.Key() in s.redemptions
    {
      assert CallOk(s, s.calls[i]);
    }
    ResumeKeepsAsking(s, s', id, next);
  }
}
