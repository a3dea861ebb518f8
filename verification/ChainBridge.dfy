/** The Chain Bridge adapter: idempotency keys, and what a reply, or its absence, lets a service believe. */
module ChainBridge {
  import opened Prelude
  import opened BankRefs
  import R = Redemptions
  import L = Ledger
  import I = Interleaving

  // ---- Idempotency keys -------------------------------------------------------------------

  const DIGITS: string := "0123456789"

  /** A number as `{}` prints it. */
  function Decimal(n: nat): string {
    if n < 10 then [DIGITS[n]] else Decimal(n / 10) + [DIGITS[n % 10]]
  }

  function IssueKey(nullifier: Digest): string {
    "issue:" + ToHex(nullifier)
  }

  function ConfirmKey(key: R.RedeemKey): string {
    "confirmredeem:" + key.user + ":" + Decimal(key.seqNo)
  }

  lemma {:induction false} DecimalIsDigits(n: nat)
    ensures |Decimal(n)| > 0 && forall i :: 0 <= i < |Decimal(n)| ==> Decimal(n)[i] in DIGITS
  {
    if n >= 10 {
      DecimalIsDigits(n / 10);
    }
  }

  lemma DigitInjective(i: nat, j: nat)
    requires i < 10 && j < 10 && DIGITS[i] == DIGITS[j]
    ensures i == j
  {
  }

  lemma {:induction false} DecimalInjective(m: nat, n: nat)
    requires Decimal(m) == Decimal(n)
    ensures m == n
  {
    DecimalIsDigits(m / 10);
    DecimalIsDigits(n / 10);
    if m < 10 || n < 10 {
      assert |Decimal(m)| == 1 && |Decimal(n)| == 1;
      DigitInjective(m, n);
    } else {
      assert Decimal(m)[..|Decimal(m)| - 1] == Decimal(m / 10) && Decimal(n)[..|Decimal(n)| - 1] == Decimal(n / 10);
      assert Decimal(m)[|Decimal(m)| - 1] == DIGITS[m % 10] && Decimal(n)[|Decimal(n)| - 1] == DIGITS[n % 10];
      DecimalInjective(m / 10, n / 10);
      DigitInjective(m % 10, n % 10);
    }
  }

  /** Splitting one string at two different colons leaves the later one inside the longer tail. */
  lemma ColonInTail(a: string, x: string, b: string, y: string)
    requires a + ":" + x == b + ":" + y && |a| < |b|
    ensures ':' in x
  {
    assert x[|b| - |a| - 1] == (a + ":" + x)[|b|];
  }

  /** The part after the last colon has no colon, so it can be split off again. */
  lemma LastColon(a: string, x: string, b: string, y: string)
    requires a + ":" + x == b + ":" + y
    requires ':' !in x && ':' !in y
    ensures a == b && x == y
  {
    if |a| < |b| {
      ColonInTail(a, x, b, y);
    } else if |b| < |a| {
      ColonInTail(b, y, a, x);
    } else {
      var s := a + ":" + x;
      assert a == s[..|a|] && b == s[..|b|];
      assert x == s[|a| + 1..] && y == s[|b| + 1..];
    }
  }

  /** One issuance key per nullifier. */
  lemma IssueKeyInjective(g: Digest, h: Digest)
    requires IssueKey(g) == IssueKey(h)
    ensures g == h
  {
    assert ToHex(g) == IssueKey(g)[6..] && ToHex(h) == IssueKey(h)[6..];
    ToHexInjective(g, h);
  }

  /** One confirmation key per redemption, whatever the user string holds, colons included. */
  lemma ConfirmKeyInjective(k: R.RedeemKey, l: R.RedeemKey)
    requires ConfirmKey(k) == ConfirmKey(l)
    ensures k == l
  {
    var x, y := Decimal(k.seqNo), Decimal(l.seqNo);
    assert ConfirmKey(k)[14..] == k.user + ":" + x && ConfirmKey(l)[14..] == l.user + ":" + y;
    DecimalIsDigits(k.seqNo);
    DecimalIsDigits(l.seqNo);
    LastColon(k.user, x, l.user, y);
    DecimalInjective(k.seqNo, l.seqNo);
  }

  /** The two families never meet. */
  lemma KeyFamiliesDisjoint(h: Digest, k: R.RedeemKey)
    ensures IssueKey(h) != ConfirmKey(k)
  {
    assert IssueKey(h)[0] == 'i' && ConfirmKey(k)[0] == 'c';
  }

  // ---- Replies ----------------------------------------------------------------------------

  /** The bridge's own word for what happened. */
  datatype IssueOutcome = BridgeConfirmed | Pending | BridgeFailed

  /** `map_issue_reply`, and its two twins. No reply is unknown, never failed. */
  function MapReply(reply: Option<IssueOutcome>): ConfirmOutcome {
    match reply
    case Some(BridgeConfirmed) => Confirmed
    case Some(Pending) => Submitted
    case Some(BridgeFailed) => ConfirmOutcome.Failed
    case None => Submitted
  }

  /**
   * The bridge only claims what happened: `Confirmed` if the effect landed, now or when the same key was
   * first sent (`known`), and `Failed` if it did not land now.
   */
  predicate Truthful(reply: Option<IssueOutcome>, landed: bool, known: bool) {
    && (reply == Some(BridgeConfirmed) ==> landed || known)
    && (reply == Some(BridgeFailed) ==> !landed)
  }

  /** What the treasury becomes and what the service hears. */
  function Bridged(before: L.Treasury, honest: (L.Treasury, L.Reply), landed: bool, reply: Option<IssueOutcome>)
    : (L.Treasury, L.Reply)
  {
    (if landed then honest.0 else before, Ok(MapReply(reply)))
  }

  /**
   * A truthful bridge behaves as one of the answers of the interleaved ledger, whether its reply
   * arrives, says `Pending`, replays a recorded `Confirmed`, or is lost.
   */
  lemma BridgeIsAnAnswer(before: L.Treasury, honest: (L.Treasury, L.Reply), landed: bool, known: bool,
                         reply: Option<IssueOutcome>)
    requires Truthful(reply, landed, known) && (landed ==> honest.1 == Ok(Confirmed))
    ensures exists answer: I.Answer ::
              && I.Hear(before, honest, known, answer) == Bridged(before, honest, landed, reply)
              && (I.Landed(honest, answer) <==> landed)
  {
    var answer :=
      if reply == Some(BridgeConfirmed) then (if landed then I.Prompt else I.Replayed)
      else if reply == Some(BridgeFailed) then I.Refused
      else I.Lost(landed);
    assert I.Hear(before, honest, known, answer) == Bridged(before, honest, landed, reply);
  }

  /**
   * And every answer is what such a bridge could give, except exactly the ledger's own refusal: a bridge
   * has no word for an error.
   */
  lemma AnswerIsABridge(before: L.Treasury, honest: (L.Treasury, L.Reply), known: bool, answer: I.Answer)
    requires honest.1 == Ok(Confirmed) || (honest.0 == before && honest.1.Err?)
    ensures (exists reply ::
               && Truthful(reply, I.Landed(honest, answer), known)
               && I.Hear(before, honest, known, answer) == Bridged(before, honest, I.Landed(honest, answer), reply))
       <==> !(answer.Prompt? && honest.1.Err?)
  {
    if !(answer.Prompt? && honest.1.Err?) {
      var reply :=
        match answer
        case Prompt => Some(BridgeConfirmed)
        case Lost(_) => None
        case Refused => Some(BridgeFailed)
        case Replayed => if known then Some(BridgeConfirmed) else None;
      assert I.Hear(before, honest, known, answer) == Bridged(before, honest, I.Landed(honest, answer), reply);
    }
  }

  // ---- What the keys say ------------------------------------------------------------------

  /** The number that a string of decimal digits denotes. */
  function ReadDecimal(s: string): int {
    if s == "" then 0 else 10 * ReadDecimal(s[..|s| - 1]) + (s[|s| - 1] as int - '0' as int)
  }

  /** A number is printed in base ten, with digits alone and without leading zeros. */
  lemma {:induction false} DecimalReads(n: nat)
    ensures ReadDecimal(Decimal(n)) == n
    ensures Decimal(n) != "" && (forall i :: 0 <= i < |Decimal(n)| ==> '0' <= Decimal(n)[i] <= '9')
    ensures n > 0 ==> Decimal(n)[0] != '0'
  {
    if n < 10 {
      assert Decimal(n)[..0] == "";
    } else {
      DecimalReads(n / 10);
      assert Decimal(n)[..|Decimal(n)| - 1] == Decimal(n / 10);
    }
  }

  /** The words around the figures. */
  lemma KeysSpelled(h: Digest, k: R.RedeemKey)
    ensures IssueKey(h)[..6] == "issue:" && IssueKey(h)[6..] == ToHex(h)
    ensures ConfirmKey(R.RedeemKey("a:b", 12)) == "confirmredeem:a:b:12"
    ensures ConfirmKey(k)[..14] == "confirmredeem:" && ConfirmKey(k)[14..] == k.user + ":" + Decimal(k.seqNo)
  {
    assert Decimal(12) == Decimal(1) + "2" && Decimal(1) == "1";
  }
}
