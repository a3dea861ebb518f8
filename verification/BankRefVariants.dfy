/** Which raw references are one reference: exactly those that differ in surrounding whitespace and in ASCII case. */
module BankRefVariants {
  import opened Prelude
  import opened BankRefs

  const LOWER: string := "abcdefghijklmnopqrstuvwxyz"
  const UPPER: string := "ABCDEFGHIJKLMNOPQRSTUVWXYZ"

  /** The same character, or the two cases of one ASCII letter. */
  predicate SameLetter(c: char, d: char) {
    c == d || exists i :: 0 <= i < 26 && ((c == LOWER[i] && d == UPPER[i]) || (c == UPPER[i] && d == LOWER[i]))
  }

  predicate SameLetters(s: string, t: string) {
    |s| == |t| && forall i :: 0 <= i < |s| ==> SameLetter(s[i], t[i])
  }

  /** The twenty-five characters that are white space. */
  const WHITE: set<char> := {
    '\t', '\n', '\U{000B}', '\U{000C}', '\r', ' ', '\U{0085}', '\U{00A0}', '\U{1680}',
    '\U{2000}', '\U{2001}', '\U{2002}', '\U{2003}', '\U{2004}', '\U{2005}', '\U{2006}', '\U{2007}', '\U{2008}', '\U{2009}', '\U{200A}',
    '\U{2028}', '\U{2029}', '\U{202F}', '\U{205F}', '\U{3000}'
  }

  predicate White(s: string) {
    forall i :: 0 <= i < |s| ==> s[i] in WHITE
  }

  lemma WhitespaceExactly(c: char)
    ensures IsWhitespace(c) <==> c in WHITE
  {
  }

  // ---- One character ----------------------------------------------------------------------

  lemma LetterAt(i: nat)
    requires i < 26
    ensures LOWER[i] == 'a' + i as char && UPPER[i] == 'A' + i as char
  {
  }

  /** Two characters fold together exactly if they are the same letter. */
  lemma FoldExactly(c: char, d: char)
    ensures UpperChar(c) == UpperChar(d) <==> SameLetter(c, d)
  {
    forall i: nat | i < 26
      ensures UpperChar(LOWER[i]) == UPPER[i] && UpperChar(UPPER[i]) == UPPER[i]
    {
      LetterAt(i);
    }
    if UpperChar(c) == UpperChar(d) && c != d {
      var i := (UpperChar(c) - 'A') as int;
      LetterAt(i);
    }
  }

  /** A folded character is no lower-case letter, and is the letter it was. */
  lemma FoldedIsUpper(c: char)
    ensures UpperChar(c) !in LOWER && SameLetter(UpperChar(c), c)
    ensures c !in LOWER ==> UpperChar(c) == c
  {
    forall i: nat | i < 26
      ensures LOWER[i] != UpperChar(c)
    {
      LetterAt(i);
    }
    if 'a' <= c <= 'z' {
      LetterAt((c - 'a') as int);
      assert LOWER[(c - 'a') as int] == c;
    }
  }

  lemma FoldKeepsWhite(c: char)
    ensures IsWhitespace(UpperChar(c)) <==> IsWhitespace(c)
  {
  }

  lemma FoldsAlike(s: string, t: string)
    ensures AsciiUppercase(s) == AsciiUppercase(t) <==> SameLetters(s, t)
  {
    forall i | 0 <= i < |s| && i < |t|
      ensures AsciiUppercase(s)[i] == AsciiUppercase(t)[i] <==> SameLetter(s[i], t[i])
    {
      FoldExactly(s[i], t[i]);
    }
  }

  // ---- Trimming ---------------------------------------------------------------------------

  function Core(s: string): string {
    TrimEnd(TrimStart(s))
  }

  lemma {:induction false} StartOff(s: string) returns (p: string)
    ensures s == p + TrimStart(s) && White(p)
  {
    if s != "" && IsWhitespace(s[0]) {
      WhitespaceExactly(s[0]);
      var q := StartOff(s[1..]);
      p := [s[0]] + q;
    } else {
      p := "";
    }
  }

  lemma {:induction false} EndOff(s: string) returns (q: string)
    ensures s == TrimEnd(s) + q && White(q)
  {
    if s != "" && IsWhitespace(s[|s| - 1]) {
      WhitespaceExactly(s[|s| - 1]);
      var r := EndOff(s[..|s| - 1]);
      q := r + [s[|s| - 1]];
    } else {
      q := "";
    }
  }

  lemma {:induction false} StartIgnores(p: string, s: string)
    requires White(p)
    ensures TrimStart(p + s) == TrimStart(s)
  {
    if p == "" {
      assert p + s == s;
    } else {
      WhitespaceExactly(p[0]);
      assert (p + s)[1..] == p[1..] + s;
      StartIgnores(p[1..], s);
    }
  }

  lemma {:induction false} EndIgnores(s: string, q: string)
    requires White(q)
    ensures TrimEnd(s + q) == TrimEnd(s)
  {
    if q == "" {
      assert s + q == s;
    } else {
      var last := |q| - 1;
      WhitespaceExactly(q[last]);
      assert (s + q)[..|s + q| - 1] == s + q[..last];
      EndIgnores(s, q[..last]);
    }
  }

  /** Trimming the front commutes with appending, unless nothing but white space is there. */
  lemma {:induction false} StartThenMore(s: string, q: string)
    requires TrimStart(s) != ""
    ensures TrimStart(s + q) == TrimStart(s) + q
  {
    if IsWhitespace(s[0]) {
      assert (s + q)[1..] == s[1..] + q;
      StartThenMore(s[1..], q);
    }
  }

  lemma {:induction false} WhiteTrimsAway(s: string)
    requires White(s)
    ensures TrimStart(s) == "" && TrimEnd(s) == ""
  {
    StartIgnores(s, "");
    EndIgnores("", s);
    assert s + "" == s && "" + s == s;
  }

  /** Surrounding white space does not matter. */
  lemma CoreIgnores(p: string, s: string, q: string)
    requires White(p) && White(q)
    ensures Core(p + s + q) == Core(s)
  {
    assert p + s + q == p + (s + q);
    StartIgnores(p, s + q);
    if TrimStart(s) == "" {
      var off := StartOff(s);
      assert White(s + q);
      WhiteTrimsAway(s + q);
    } else {
      StartThenMore(s, q);
      EndIgnores(TrimStart(s), q);
    }
  }

  lemma {:induction false} FoldStart(s: string)
    ensures TrimStart(AsciiUppercase(s)) == AsciiUppercase(TrimStart(s))
  {
    if s != "" {
      FoldKeepsWhite(s[0]);
      assert AsciiUppercase(s)[1..] == AsciiUppercase(s[1..]);
      if IsWhitespace(s[0]) {
        FoldStart(s[1..]);
      }
    }
  }

  lemma {:induction false} FoldEnd(s: string)
    ensures TrimEnd(AsciiUppercase(s)) == AsciiUppercase(TrimEnd(s))
  {
    if s != "" {
      FoldKeepsWhite(s[|s| - 1]);
      assert AsciiUppercase(s)[..|s| - 1] == AsciiUppercase(s[..|s| - 1]);
      if IsWhitespace(s[|s| - 1]) {
        FoldEnd(s[..|s| - 1]);
      }
    }
  }

  lemma FoldCore(s: string)
    ensures Normalise(s) == Core(AsciiUppercase(s))
  {
    FoldStart(s);
    FoldEnd(TrimStart(s));
  }

  // ---- References -------------------------------------------------------------------------

  /** `a` and `b` split into the same letters between white space. */
  predicate Split(s: string, p: string, core: string, q: string) {
    s == p + core + q && White(p) && White(q)
  }

  ghost predicate DifferInSpaceAndCase(a: string, b: string) {
    exists p, s, q, p', s', q' :: Split(a, p, s, q) && Split(b, p', s', q') && SameLetters(s, s')
  }

  lemma SplitOff(s: string) returns (p: string, q: string)
    ensures Split(s, p, Core(s), q)
  {
    p := StartOff(s);
    q := EndOff(TrimStart(s));
    assert s == p + (Core(s) + q) == p + Core(s) + q;
  }

  lemma SplitNormalises(a: string, p: string, s: string, q: string)
    requires Split(a, p, s, q)
    ensures Normalise(a) == Core(AsciiUppercase(s))
  {
    CoreIgnores(p, s, q);
    FoldCore(s);
  }

  /** Two raw references are one reference exactly if they differ in surrounding white space and in ASCII case alone. */
  lemma VariantsExactly(a: string, b: string)
    ensures NewBankRef(a) == NewBankRef(b) <==> DifferInSpaceAndCase(a, b)
  {
    if NewBankRef(a) == NewBankRef(b) {
      var p, q := SplitOff(a);
      var p', q' := SplitOff(b);
      assert AsciiUppercase(Core(a)) == AsciiUppercase(Core(b));
      FoldsAlike(Core(a), Core(b));
      assert Split(a, p, Core(a), q) && Split(b, p', Core(b), q');
    }
    if DifferInSpaceAndCase(a, b) {
      var p, s, q, p', s', q' :| Split(a, p, s, q) && Split(b, p', s', q') && SameLetters(s, s');
      SplitNormalises(a, p, s, q);
      SplitNormalises(b, p', s', q');
      FoldsAlike(s, s');
    }
  }

  /** A reference is refused exactly if it is all white space. */
  lemma RefusedExactly(raw: string)
    ensures NewBankRef(raw) == Err(EmptyBankRef) <==> White(raw)
  {
    if White(raw) {
      WhiteTrimsAway(raw);
    } else {
      var p, q := SplitOff(raw);
      assert Core(raw) == "" ==> raw == p + q;
    }
  }

  /** Letter by letter: what a text keeps of the core it was made from. */
  predicate TextOf(text: string, core: string) {
    && SameLetters(text, core)
    && forall i :: 0 <= i < |text| ==> text[i] !in LOWER && (core[i] !in LOWER ==> text[i] == core[i])
  }

  lemma FoldedText(core: string)
    ensures TextOf(AsciiUppercase(core), core)
  {
    forall i | 0 <= i < |core|
      ensures AsciiUppercase(core)[i] !in LOWER && (core[i] !in LOWER ==> AsciiUppercase(core)[i] == core[i])
      ensures SameLetter(AsciiUppercase(core)[i], core[i])
    {
      FoldedIsUpper(core[i]);
    }
  }

  /**
   * The text of a reference is what stands between the white space, letter by letter and in order, with
   * no lower-case ASCII letter in it and no white space at its ends.
   */
  lemma ReferenceText(raw: string) returns (p: string, s: string, q: string)
    requires NewBankRef(raw).Ok?
    ensures Split(raw, p, s, q) && TextOf(NewBankRef(raw).value.text, s)
    ensures var text := NewBankRef(raw).value.text;
            text != "" && text[0] !in WHITE && text[|text| - 1] !in WHITE
  {
    p, q := SplitOff(raw);
    s := Core(raw);
    FoldedText(s);
    var text := Normalise(raw);
    NormaliseTrims(raw);
    WhitespaceExactly(text[0]);
    WhitespaceExactly(text[|text| - 1]);
  }

  /** The variants of one reference that a bank may send. */
  lemma RetryVariants()
    ensures NewBankRef("  scb-20260729-0001  ") == NewBankRef("SCB-20260729-0001") == Ok(BankRef("SCB-20260729-0001"))
    ensures NewBankRef("tx") == NewBankRef("\tTX\r\n") == Ok(BankRef("TX"))
    ensures NewBankRef(" \t\r\n") == Err(EmptyBankRef)
  {
    PaddedVariant();
    PlainVariant();
    ShortVariants();
    RefusedExactly(" \t\r\n");
  }

  lemma PaddedVariant()
    ensures NewBankRef("  scb-20260729-0001  ") == Ok(BankRef("SCB-20260729-0001"))
  {
    LongFold();
    Padding();
    Between("  ", "scb-20260729-0001", "  ", "  scb-20260729-0001  ", "SCB-20260729-0001");
  }

  lemma Padding()
    ensures "  scb-20260729-0001  " == "  " + "scb-20260729-0001" + "  "
  {
  }

  lemma PlainVariant()
    ensures NewBankRef("SCB-20260729-0001") == Ok(BankRef("SCB-20260729-0001"))
  {
    LongFold();
    var s := "SCB-20260729-0001";
    Between("", s, "", s, s);
  }

  lemma ShortVariants()
    ensures NewBankRef("tx") == NewBankRef("\tTX\r\n") == Ok(BankRef("TX"))
  {
    var s, t := "tx", "TX";
    assert AsciiUppercase(s) == t == AsciiUppercase(t);
    Between("", s, "", s, t);
    Between("\t", t, "\r\n", "\tTX\r\n", t);
  }

  lemma LongFold()
    ensures AsciiUppercase("scb-20260729-0001") == "SCB-20260729-0001" == AsciiUppercase("SCB-20260729-0001")
  {
    assert AsciiUppercase("scb") == "SCB" == AsciiUppercase("SCB");
    var rest := "-20260729-0001";
    assert forall c :: c in rest ==> UpperChar(c) == c;
    assert AsciiUppercase(rest) == rest;
    FoldConcat("scb", rest);
    FoldConcat("SCB", rest);
  }

  lemma FoldConcat(s: string, t: string)
    ensures AsciiUppercase(s + t) == AsciiUppercase(s) + AsciiUppercase(t)
  {
  }

  /** A core whose folding is known, between white space. */
  lemma Between(p: string, s: string, q: string, raw: string, folded: string)
    requires raw == p + s + q && White(p) && White(q) && s != "" && s[0] !in WHITE && s[|s| - 1] !in WHITE
    requires AsciiUppercase(s) == folded
    ensures NewBankRef(raw) == Ok(BankRef(folded))
  {
    SplitNormalises(raw, p, s, q);
    FoldKeepsWhite(s[0]);
    FoldKeepsWhite(s[|s| - 1]);
    WhitespaceExactly(s[0]);
    WhitespaceExactly(s[|s| - 1]);
    assert TrimStart(folded) == folded && TrimEnd(folded) == folded;
  }
}
