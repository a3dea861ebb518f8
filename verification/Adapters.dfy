/** Small ports with no infrastructure behind them: a movable clock, a payout recorder, a screen. */
module Adapters {
  import opened Prelude
  import opened Money
  import D = Deposits
  import R = Redemptions

  class FixedClock {
    var now: i64

    constructor (now: i64)
      ensures this.now == now
    {
      this.now := now;
    }

    method Set(now: i64)
      modifies this
      ensures this.now == now
    {
      this.now := now;
    }

    method Advance(secs: i64)
      modifies this
      ensures now == SaturatingAddI64(old(now), secs)
    {
      now := SaturatingAddI64(now, secs);
    }
  }

  /** One THB wire handed to the payout queue. */
  datatype Wire = Wire(key: R.RedeemKey, amount: Thb)

  predicate Wired(sent: seq<Wire>, key: R.RedeemKey) {
    exists i :: 0 <= i < |sent| && sent[i].key == key
  }

  /** Idempotent on the redemption's key. */
  function Enqueue(sent: seq<Wire>, wire: Wire): seq<Wire> {
    if Wired(sent, wire.key) then sent else sent + [wire]
  }

  /** A wire is sent once: under a known key nothing is added, whatever the amount; under a new one it comes last. */
  lemma EnqueueExactly(sent: seq<Wire>, wire: Wire, again: Wire)
    ensures (exists i :: 0 <= i < |sent| && sent[i].key == wire.key) ==> Enqueue(sent, wire) == sent
    ensures (forall i :: 0 <= i < |sent| ==> sent[i].key != wire.key) ==> Enqueue(sent, wire) == sent + [wire]
    ensures again.key == wire.key ==> Enqueue(Enqueue(sent, wire), again) == Enqueue(sent, wire)
  {
    var after := Enqueue(sent, wire);
    if !Wired(sent, wire.key) {
      assert after[|sent|].key == wire.key;
    }
  }

  class RecordingPayoutQueue {
    var sent: seq<Wire>

    constructor ()
      ensures sent == []
    {
      sent := [];
    }

    method EnqueueWire(user: string, seqNo: u64, amount: Thb) returns (r: PortResult<Unit>)
      modifies this
      ensures r == Ok(Unit) && sent == Enqueue(old(sent), Wire(R.RedeemKey(user, seqNo), amount))
    {
      for i := 0 to |sent|
        invariant sent == old(sent)
        invariant forall j :: 0 <= j < i ==> sent[j].key != R.RedeemKey(user, seqNo)
      {
        if sent[i].key == R.RedeemKey(user, seqNo) {
          return Ok(Unit);
        }
      }
      sent := sent + [Wire(R.RedeemKey(user, seqNo), amount)];
      r := Ok(Unit);
    }
  }

  /** Passes up to and including the ceiling. */
  function StubScreen(autoPassCeiling: Thb, amount: Thb): PortResult<D.ScreenOutcome> {
    Ok(if amount > autoPassCeiling then D.Fail else D.Pass)
  }

  /** The stub asks for no more than the amount: up to and including the ceiling it passes, above it fails. */
  lemma StubScreenExactly(ceiling: Thb, amount: Thb)
    ensures StubScreen(ceiling, amount) == Ok(D.Pass) <==> amount <= ceiling
    ensures StubScreen(ceiling, amount) == Ok(D.Fail) <==> amount > ceiling
  {
  }
}
