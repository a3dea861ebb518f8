/** In every interleaved run, each mint is for a recorded deposit: its amount, to its own wallet. */
module InterleavingWallets {
  import opened Repositories
  import D = Deposits
  import opened Interleaving
  import opened InterleavingInvariant
  import opened InterleavingSteps
  import opened InterleavingChanges

  /** The effect, if a mint, is for the row under its nullifier. */
  predicate MintFitsRow(rows: DepositRows, e: Effect) {
    e.Minted? ==> e.h in rows && rows[e.h].beneficiaryWallet == e.wallet && rows[e.h].amount == e.amount
  }

  predicate MintsFitRows(rows: DepositRows, log: Log) {
    forall i :: 0 <= i < |log| ==> MintFitsRow(rows, log[i])
  }

  /** Rows may be added and change state; the history may gain one fitting effect. */
  predicate Extends(rows: DepositRows, log: Log, rows': DepositRows, log': Log) {
    && (forall h :: h in rows ==> h in rows' && D.SameDeposit(rows'[h], rows[h]))
    && (log' == log || (|log'| == |log| + 1 && log'[..|log|] == log && MintFitsRow(rows', log'[|log|])))
  }

  lemma ExtendingKeepsFit(rows: DepositRows, log: Log, rows': DepositRows, log': Log)
    requires MintsFitRows(rows, log) && Extends(rows, log, rows', log')
    ensures MintsFitRows(rows', log')
  {
    forall i | 0 <= i < |log'|
      ensures MintFitsRow(rows', log'[i])
    {
      if i < |log| {
        assert log'[i] == log[i] && MintFitsRow(rows, log[i]);
      }
    }
  }

  lemma HappenExtends(s: Sys, e: Event)
    requires Inv(s)
    ensures Extends(s.deposits, s.log, Happen(s, e).deposits, Happen(s, e).log)
  {
    HappenGrowsRows(s, e);
    LogIs(s, e);
    if EffectOf(s, e).Some? {
      assert CallOk(s, s.calls[e.id]);
      assert MintFitsRow(s.deposits, EffectOf(s, e).value);
    }
  }

  lemma {:induction false} RunKeepsFit(s: Sys, events: seq<Event>)
    requires Inv(s) && MintsFitRows(s.deposits, s.log)
    ensures MintsFitRows(Run(s, events).deposits, Run(s, events).log)
    decreases |events|
  {
    if events != [] {
      var next := Happen(s, events[0]);
      HappenExtends(s, events[0]);
      ExtendingKeepsFit(s.deposits, s.log, next.deposits, next.log);
      HappenKeepsInv(s, events[0]);
      RunKeepsFit(next, events[1..]);
    }
  }

  /** Whatever overlaps or dies, every mint paid a recorded deposit's own wallet its recorded amount. */
  lemma MintsPayTheirDeposits(s: Sys)
    requires Reachable(s)
    ensures MintsFitRows(s.deposits, s.log)
  {
    var reserve, ttlSecs, now, delta, events :| s == Run(NewSys(reserve, ttlSecs, now, delta), events);
    NewSysInv(reserve, ttlSecs, now, delta);
    RunKeepsFit(NewSys(reserve, ttlSecs, now, delta), events);
  }
}
