/** Bank references, their normal form, and the digest that seeds the deposit nullifier (F3). */
module BankRefs {
  import opened Prelude

  newtype byte = x: int | 0 <= x < 256

  /** The 32-byte digest `H(bank_ref)`. */
  type Digest = s: seq<byte> | |s| == 32 witness seq(32, _ => 0)

  /** SHA-256 over the reference text. Nothing is assumed about it beyond being a function. */
  const SHA256: string -> Digest

  /** Unicode `White_Space`, which is what `str::trim` strips. */
  predicate IsWhitespace(c: char) {
    || '\U{0009}' <= c <= '\U{000D}'
    || c in {'\U{0020}', '\U{0085}', '\U{00A0}', '\U{1680}'}
    || '\U{2000}' <= c <= '\U{200A}'
    || c in {'\U{2028}', '\U{2029}', '\U{202F}', '\U{205F}', '\U{3000}'}
  }

  function TrimStart(s: string): string {
    if s != "" && IsWhitespace(s[0]) then TrimStart(s[1..]) else s
  }

  function TrimEnd(s: string): string {
    if s != "" && IsWhitespace(s[|s| - 1]) then TrimEnd(s[..|s| - 1]) else s
  }

  function UpperChar(c: char): char {
    if 'a' <= c <= 'z' then c - 'a' + 'A' else c
  }

  function AsciiUppercase(s: string): string {
    seq(|s|, i requires 0 <= i < |s| => UpperChar(s[i]))
  }

  function Normalise(raw: string): string {
    AsciiUppercase(TrimEnd(TrimStart(raw)))
  }

  datatype BankRef = BankRef(text: string) {
    function Hash(): Digest { SHA256(text) }

    predicate IsNormal() {
      text != "" && Normalise(text) == text
    }
  }

  /** `BankRef::new`. */
  function NewBankRef(raw: string): CoreResult<BankRef> {
    if Normalise(raw) == "" then Err(EmptyBankRef) else Ok(BankRef(Normalise(raw)))
  }

  predicate Trimmed(s: string) {
    s == "" || (!IsWhitespace(s[0]) && !IsWhitespace(s[|s| - 1]))
  }

  lemma {:induction false} TrimEndKeepsHead(s: string)
    requires s != "" && !IsWhitespace(s[0])
    ensures TrimEnd(s) != "" && TrimEnd(s)[0] == s[0]
    ensures Trimmed(TrimEnd(s))
  {
    if IsWhitespace(s[|s| - 1]) {
      TrimEndKeepsHead(s[..|s| - 1]);
    }
  }

  lemma {:induction false} TrimStartHead(s: string)
    ensures TrimStart(s) == "" || !IsWhitespace(TrimStart(s)[0])
  {
    if s != "" && IsWhitespace(s[0]) {
      TrimStartHead(s[1..]);
    }
  }

  lemma NormaliseTrims(raw: string)
    ensures Trimmed(Normalise(raw))
    ensures AsciiUppercase(Normalise(raw)) == Normalise(raw)
  {
    TrimStartHead(raw);
    var s := TrimStart(raw);
    if s != "" {
      TrimEndKeepsHead(s);
    }
  }

  /** Normalising is idempotent, so a stored reference reads back as itself. */
  lemma NormaliseIdempotent(raw: string)
    ensures Normalise(Normalise(raw)) == Normalise(raw)
  {
    NormaliseTrims(raw);
    var n := Normalise(raw);
    assert TrimStart(n) == n && TrimEnd(n) == n;
  }

  /** A constructed reference is normal, and re-reading its text reproduces it. */
  lemma NewBankRefRoundTrip(raw: string)
    requires NewBankRef(raw).Ok?
    ensures NewBankRef(raw).value.IsNormal()
    ensures NewBankRef(NewBankRef(raw).value.text) == NewBankRef(raw)
  {
    NormaliseIdempotent(raw);
  }

  // ---- Lowercase hexadecimal --------------------------------------------------------------

  const HEX: string := "0123456789abcdef"

  function HexByte(b: byte): string {
    [HEX[b as int / 16], HEX[b as int % 16]]
  }

  function ToHex(bytes: seq<byte>): string {
    if bytes == [] then "" else ToHex(bytes[..|bytes| - 1]) + HexByte(bytes[|bytes| - 1])
  }

  lemma HexByteInjective(a: byte, b: byte)
    requires HexByte(a) == HexByte(b)
    ensures a == b
  {
    assert HexByte(a)[0] == HexByte(b)[0] && HexByte(a)[1] == HexByte(b)[1];
    HexDigitInjective(a as int / 16, b as int / 16);
    HexDigitInjective(a as int % 16, b as int % 16);
  }

  lemma HexDigitInjective(i: nat, j: nat)
    requires i < 16 && j < 16 && HEX[i] == HEX[j]
    ensures i == j
  {
  }

  lemma {:induction false} ToHexLength(bytes: seq<byte>)
    ensures |ToHex(bytes)| == 2 * |bytes|
  {
    if bytes != [] {
      ToHexLength(bytes[..|bytes| - 1]);
    }
  }

  /** All but the last two digits print all but the last byte, and those two print the last one. */
  lemma HexSlices(bytes: seq<byte>)
    requires bytes != []
    ensures |ToHex(bytes)| == 2 * |bytes|
    ensures ToHex(bytes)[..2 * (|bytes| - 1)] == ToHex(bytes[..|bytes| - 1])
    ensures ToHex(bytes)[2 * (|bytes| - 1)..] == HexByte(bytes[|bytes| - 1])
  {
    ToHexLength(bytes);
    ToHexLength(bytes[..|bytes| - 1]);
  }

  lemma SameButLast(a: seq<byte>, b: seq<byte>)
    requires a != [] && |a| == |b| && a[..|a| - 1] == b[..|b| - 1] && a[|a| - 1] == b[|b| - 1]
    ensures a == b
  {
    assert a == a[..|a| - 1] + [a[|a| - 1]];
    assert b == b[..|b| - 1] + [b[|b| - 1]];
  }

  /** The printed form determines the bytes. */
  lemma {:induction false} ToHexInjective(a: seq<byte>, b: seq<byte>)
    requires ToHex(a) == ToHex(b)
    ensures a == b
  {
    ToHexLength(a);
    ToHexLength(b);
    if a != [] {
      HexSlices(a);
      HexSlices(b);
      ToHexInjective(a[..|a| - 1], b[..|b| - 1]);
      HexByteInjective(a[|a| - 1], b[|b| - 1]);
      SameButLast(a, b);
    }
  }

  /** The value of a lower-case hexadecimal digit; no other character has one. */
  function DigitValue(c: char): Option<nat> {
    if '0' <= c <= '9' then Some((c - '0') as int)
    else if 'a' <= c <= 'f' then Some((c - 'a') as int + 10)
    else None
  }

  /** What two digits say, the high one first. */
  function PairValue(hi: char, lo: char): Option<nat> {
    if DigitValue(hi).Some? && DigitValue(lo).Some? then Some(16 * DigitValue(hi).value + DigitValue(lo).value) else None
  }

  lemma HexByteReads(b: byte)
    ensures |HexByte(b)| == 2 && PairValue(HexByte(b)[0], HexByte(b)[1]) == Some(b as int)
  {
    HexDigitReads(b as int / 16);
    HexDigitReads(b as int % 16);
  }

  lemma HexDigitReads(i: nat)
    requires i < 16
    ensures DigitValue(HEX[i]) == Some(i)
  {
  }

  /** Byte by byte, zero-padded and in lower case: the printed form reads back as the bytes. */
  lemma {:induction false} ToHexReads(bytes: seq<byte>, i: nat)
    requires i < |bytes|
    ensures |ToHex(bytes)| == 2 * |bytes|
    ensures PairValue(ToHex(bytes)[2 * i], ToHex(bytes)[2 * i + 1]) == Some(bytes[i] as int)
  {
    HexSlices(bytes);
    var last := |bytes| - 1;
    if i == last {
      HexByteReads(bytes[last]);
      assert ToHex(bytes)[2 * last..][0] == ToHex(bytes)[2 * last] && ToHex(bytes)[2 * last..][1] == ToHex(bytes)[2 * last + 1];
    } else {
      ToHexReads(bytes[..last], i);
      assert ToHex(bytes)[..2 * last][2 * i] == ToHex(bytes)[2 * i] && ToHex(bytes)[..2 * last][2 * i + 1] == ToHex(bytes)[2 * i + 1];
    }
  }
}
