/**
 * The in-place treasury. `Issue`, `FundInventory` and `ReclaimRedemption` write a field before their
 * last checked operation; conservation, which is part of `Valid`, makes the late failure impossible,
 * so every call is atomic: it does what the `Ledger` transition does, or changes nothing.
 */
module SimulatedLedgers {
  import opened Prelude
  import opened Sums
  import opened Money
  import opened Reserve
  import opened Exchange
  import opened BankRefs
  import opened Redemptions
  import L = Ledger

  class SimulatedLedger {
    var reserve: ReserveState
    var inventory: Inventory
    var params: ExchangeParams
    var nullifiers: set<Digest>
    var escrows: map<RedeemKey, L.EscrowRecord>
    var balances: map<string, Thb>
    var now: i64

    function State(): L.Treasury
      reads this
    {
      L.Treasury(reserve, inventory, params, nullifiers, escrows, balances, now)
    }

    ghost predicate Valid()
      reads this
    {
      L.Conserved(State())
    }

    constructor (attested: Thb, ttlSecs: i64, now: i64)
      ensures Valid() && State() == L.NewTreasury(attested, ttlSecs, now)
    {
      reserve := ReserveState(Attestation(attested, now, ttlSecs), 0, 0);
      inventory := Inventory(0, 0);
      params := ExchangeParams(4_000_000, 25, false);
      nullifiers, escrows, balances := {}, map[], map[];
      this.now := now;
      new;
      L.NewTreasuryConserved(attested, ttlSecs, now);
    }

    method SetNow(now: i64)
      requires Valid()
      modifies this`now
      ensures Valid() && State() == old(State()).(now := now)
    {
      this.now := now;
    }

    method SetParams(params: ExchangeParams)
      requires Valid()
      modifies this`params
      ensures Valid() && State() == old(State()).(params := params)
    {
      this.params := params;
    }

    method SetEncumbered(amount: Thb)
      requires Valid()
      modifies this`reserve
      ensures Valid() && State() == L.Perform(old(State()), L.SetEncumbered(amount)).0
    {
      reserve := reserve.(encumbered := amount);
    }

    method FundInventory(fromUser: string, amount: Thb) returns (r: PortResult<Unit>)
      requires Valid()
      modifies this
      ensures Valid() && (State(), r) == L.FundInventory(old(State()), fromUser, amount)
      ensures r.Err? ==> State() == old(State())
    {
      ghost var before := State();
      L.FundInventoryConserves(before, fromUser, amount);
      var bal := if fromUser in balances then balances[fromUser] else 0;
      var remaining := CheckedSub(bal, amount);
      if remaining.Err? {
        return Err(Domain(Underflow));
      }
      balances := balances[fromUser := remaining.value];
      var total := CheckedAdd(inventory.thbc, amount);
      if total.Err? {
        return Err(Domain(MathOverflow));
      }
      inventory := inventory.(thbc := total.value);
      return Ok(Unit);
    }

    method FundGrxInventory(amount: Grx) returns (r: PortResult<Unit>)
      requires Valid()
      modifies this`inventory
      ensures Valid() && (State(), r) == L.FundGrxInventory(old(State()), amount)
      ensures r.Err? ==> State() == old(State())
    {
      var total := CheckedAdd(inventory.grx, amount);
      if total.Err? {
        return Err(Domain(MathOverflow));
      }
      inventory := inventory.(grx := total.value);
      return Ok(Unit);
    }

    /** The queue length counts unburned escrows and saturates at the top of `u32`. */
    method Snapshot() returns (s: L.Snapshot)
      ensures s == L.TakeSnapshot(State())
    {
      var left, pending := escrows, 0;
      while left != map[]
        invariant pending + |L.LiveAmounts(left)| == |L.LiveAmounts(escrows)|
        decreases |left|
      {
        var k :| k in left;
        L.LiveMinus(left, k);
        CardMinus(left, k);
        if !left[k].burned {
          pending := pending + 1;
        }
        left := left - {k};
      }
      assert |L.LiveAmounts(left)| == 0;
      s := L.Snapshot(reserve, inventory, params, Some(SaturateU32(pending)));
    }

    method Issue(beneficiary: string, amount: Thb, nullifier: Digest) returns (r: L.Reply)
      requires Valid()
      modifies this
      ensures Valid() && (State(), r) == L.Issue(old(State()), beneficiary, amount, nullifier)
      ensures r.Err? ==> State() == old(State())
    {
      L.IssueConserves(State(), beneficiary, amount, nullifier);
      if nullifier in nullifiers {
        return Err(Rejected);
      }
      nullifiers := nullifiers + {nullifier};

      var check := reserve.CheckIssuance(amount, now);
      if check.Err? {
        nullifiers := nullifiers - {nullifier};
        return Err(Domain(check.error));
      }

      reserve := reserve.(supply := check.value);
      var entry := if beneficiary in balances then balances[beneficiary] else 0;
      balances := balances[beneficiary := entry];
      var credited := CheckedAdd(entry, amount);
      if credited.Err? {
        return Err(Domain(MathOverflow));
      }
      balances := balances[beneficiary := credited.value];
      assert balances == old(balances)[beneficiary := credited.value];
      return Ok(ConfirmOutcome.Confirmed);
    }

    method EscrowRedemption(redemption: Redemption) returns (r: L.Reply)
      requires Valid()
      modifies this
      ensures Valid() && (State(), r) == L.Escrow(old(State()), redemption.Key(), redemption.amount)
      ensures r.Err? ==> State() == old(State())
    {
      L.EscrowConserves(State(), redemption.Key(), redemption.amount);
      var key := redemption.Key();
      if key in escrows {
        return Err(Conflict);
      }
      var bal := if redemption.user in balances then balances[redemption.user] else 0;
      var remaining := CheckedSub(bal, redemption.amount);
      if remaining.Err? {
        return Err(Domain(Underflow));
      }
      balances := balances[redemption.user := remaining.value];
      escrows := escrows[key := L.EscrowRecord(redemption.amount, now, false)];
      return Ok(ConfirmOutcome.Confirmed);
    }

    method ConfirmRedemption(user: string, seqNo: u64) returns (r: L.Reply)
      requires Valid()
      modifies this
      ensures Valid() && (State(), r) == L.Burn(old(State()), RedeemKey(user, seqNo))
      ensures r.Err? ==> State() == old(State())
    {
      var key := RedeemKey(user, seqNo);
      L.BurnConserves(State(), key);
      if key !in escrows {
        return Err(NotFound);
      }
      var record := escrows[key];
      if record.burned {
        return Err(Rejected);
      }
      var supply := CheckedSub(reserve.supply, record.amount);
      if supply.Err? {
        return Err(Domain(Underflow));
      }
      reserve := reserve.(supply := supply.value);
      escrows := escrows[key := record.(burned := true)];
      return Ok(ConfirmOutcome.Confirmed);
    }

    method ReclaimRedemption(user: string, seqNo: u64) returns (r: L.Reply)
      requires Valid()
      modifies this
      ensures Valid() && (State(), r) == L.Return(old(State()), RedeemKey(user, seqNo))
      ensures r.Err? ==> State() == old(State())
    {
      var key := RedeemKey(user, seqNo);
      L.ReturnConserves(State(), key);
      if key !in escrows {
        return Err(NotFound);
      }
      var record := escrows[key];
      if record.burned {
        return Err(Rejected);
      }
      var elapsed := SaturatingSubI64(now, record.escrowedAt);
      if elapsed < L.SIMULATED_DELTA_SECS {
        return Err(Rejected);
      }
      var entry := if user in balances then balances[user] else 0;
      balances := balances[user := entry];
      var credited := CheckedAdd(entry, record.amount);
      if credited.Err? {
        return Err(Domain(MathOverflow));
      }
      balances := balances[user := credited.value];
      assert balances == old(balances)[user := credited.value];
      escrows := escrows - {key};
      return Ok(ConfirmOutcome.Confirmed);
    }

    method UpdateAttestation(attested: Thb, encumbered: Thb) returns (r: L.Reply)
      requires Valid()
      modifies this`reserve
      ensures Valid() && (State(), r) == L.Attest(old(State()), attested, encumbered)
      ensures r.Ok?
    {
      reserve := reserve.(attestation := reserve.attestation.(reserve := attested));
      reserve := reserve.(encumbered := encumbered);
      reserve := reserve.(attestation := reserve.attestation.(ts := now));
      return Ok(ConfirmOutcome.Confirmed);
    }
  }
}
