/** The two phone number contracts: lenient normalization and strict destinations. */
module Phone {
  import opened Options
  import opened Text

  function E164(digits: string): Option<string> {
    if 1 <= |digits| <= 15 then Some("+" + digits) else None
  }

  function Normalize(raw: string): Option<string> {
    var stripped := Strip(raw);
    if stripped == "" then None
    else
      var digits := Digits(stripped);
      if |digits| < 7 then None
      else if stripped[0] == '+' then E164(digits)
      else if digits[0] == '8' && |digits| == 11 then Some("+7" + digits[1..])
      else if digits[0] == '7' && |digits| == 11 then Some("+" + digits)
      else E164(digits)
  }

  datatype Destination = Destination(number: string, isInternal: bool)

  function ParseDestination(raw: string): Option<Destination> {
    var s := Strip(raw);
    if 12 <= |s| <= 16 && s[0] == '+' && AllDigits(s[1..]) then Some(Destination(s, false))
    else if 11 <= |s| <= 15 && s[0] == '8' && AllDigits(s[1..]) then Some(Destination("+7" + s[1..], false))
    else if |s| == 3 && AllDigits(s) then Some(Destination(s, false))
    else if |s| == 4 && AllDigits(s) then Some(Destination(s, true))
    else None
  }

  /** The numbers normalization produces: '+' and seven to fifteen digits. */
  predicate Canonical(n: string) {
    8 <= |n| <= 16 && n[0] == '+' && AllDigits(n[1..])
  }

  lemma NormalizedCanonical(raw: string)
    requires Normalize(raw).Some?
    ensures Canonical(Normalize(raw).value)
  {
    DigitsAreDigits(Strip(raw));
    var d := Digits(Strip(raw));
    assert ("+7" + d[1..])[1..] == "7" + d[1..];
    assert ("+" + d)[1..] == d;
  }

  lemma DigitsNotSpace(s: string)
    requires s != [] && AllDigits(s)
    ensures Trimmed(s) && Trimmed("+" + s)
  {
  }

  /** A canonical number normalizes to itself. */
  lemma CanonicalFixed(n: string)
    requires Canonical(n)
    ensures Normalize(n) == Some(n)
  {
    var d := n[1..];
    DigitsNotSpace(d);
    assert n == "+" + d;
    StripTrimmed(n);
    DigitsOfDigits(d);
    assert Digits(n) == d;
  }

  /** Normalizing is idempotent. */
  lemma NormalizeIdempotent(raw: string)
    requires Normalize(raw).Some?
    ensures Normalize(Normalize(raw).value) == Normalize(raw)
  {
    NormalizedCanonical(raw);
    CanonicalFixed(Normalize(raw).value);
  }

  /** Every long external destination is canonical, so looking it up finds what normalization
      stored; the short forms normalize to nothing, so they are never found. */
  lemma DestinationsNormalize(raw: string)
    requires ParseDestination(raw).Some?
    ensures var n := ParseDestination(raw).value.number;
            && (|n| > 4 ==> Canonical(n) && Normalize(n) == Some(n))
            && (|n| <= 4 ==> AllDigits(n) && Normalize(n) == None)
  {
    var s := Strip(raw);
    var n := ParseDestination(raw).value.number;
    if |n| > 4 {
      if s[0] == '8' {
        assert n[1..] == "7" + s[1..];
      }
      CanonicalFixed(n);
    } else {
      DigitsNotSpace(n);
      StripTrimmed(n);
      DigitsOfDigits(n);
    }
  }

  /** On a number starting with 8 the two contracts agree exactly at eleven digits. */
  lemma EightFormsAgree(raw: string)
    requires ParseDestination(raw).Some? && Strip(raw)[0] == '8' && |Strip(raw)| > 4
    ensures Normalize(raw) == Some(ParseDestination(raw).value.number) <==> |Strip(raw)| == 11
  {
    var s := Strip(raw);
    assert AllDigits(s) by { assert s == [s[0]] + s[1..]; }
    DigitsOfDigits(s);
    if |s| != 11 {
      assert ("+" + s)[1] == '8' && ("+7" + s[1..])[1] == '7';
    }
  }

  /** For one: with twelve digits the blacklist would look for another number than the one dialled. */
  lemma TwelveDigitsDisagree()
    ensures ParseDestination("812345678901") == Some(Destination("+712345678901", false))
    ensures Normalize("812345678901") != Some("+712345678901")
  {
    var raw := "812345678901";
    DigitsNotSpace(raw);
    StripTrimmed(raw);
    assert "+7" + raw[1..] == "+712345678901";
    EightFormsAgree(raw);
  }

  // -------------------------------------------------------------------------
  // Numbers as people write them
  // -------------------------------------------------------------------------

  /** The first thing written is a plus sign. */
  ghost predicate Plus(raw: string) {
    exists blanks, rest :: AllSpace(blanks) && raw == blanks + "+" + rest
  }

  lemma PlusStripped(blanks: string, rest: string)
    requires AllSpace(blanks)
    ensures var s := Strip(blanks + "+" + rest); s != [] && s[0] == '+'
  {
    assert blanks + "+" + rest == blanks + ("+" + rest);
    StripLeftPad(blanks, "+" + rest);
    assert "+" + rest == [] + ['+'] + rest;
    StripRightStops([], '+', rest);
    hide StripRight, IsSpace;
  }

  lemma PlusIsFirst(raw: string)
    ensures Plus(raw) <==> Strip(raw) != [] && Strip(raw)[0] == '+'
  {
    var a := SplitLeft(raw);
    StripRightLast(StripLeft(raw));
    forall blanks, rest | AllSpace(blanks) && raw == blanks + "+" + rest { PlusStripped(blanks, rest); }
    if Strip(raw) != [] && Strip(raw)[0] == '+' {
      hide StripLeft, StripRight;
      assert raw == a + "+" + StripLeft(raw)[1..];
    }
  }

  /** Only the digits of a number count, whatever is written between and around them, and whether a plus
      sign comes first. Seven to fifteen digits make a number; eleven that begin with 8 and have no plus
      sign are a national number of country 7; any others are taken as they are. */
  lemma NormalizeWritten(raw: string, d: string)
    requires Writes(raw, d)
    ensures |d| < 7 || |d| > 15 ==> Normalize(raw) == None
    ensures 7 <= |d| <= 15 && !(|d| == 11 && d[0] == '8' && !Plus(raw)) ==> Normalize(raw) == Some("+" + d)
    ensures |d| == 11 && d[0] == '8' && !Plus(raw) ==> Normalize(raw) == Some("+7" + d[1..])
  {
    WritesExactly(raw, d);
    DigitsOfStripped(raw);
    PlusIsFirst(raw);
    hide Plus, Writes, Strip;
    if Strip(raw) == "" { assert d == []; }
  }

  /** Brackets, blanks and dashes do not matter: "8 (926) 123-45-55" is +79261234555. */
  lemma NormalizeExample()
    ensures Normalize("8 (926) 123-45-55") == Some("+79261234555")
  {
    var raw, d := "8 (926) 123-45-55", "89261234555";
    ExampleDigits();
    WritesExactly(raw, d);
    PlusIsFirst(raw);
    StripTrimmed(raw);
    hide Writes, Digits, Strip, Normalize, Plus;
    NormalizeWritten(raw, d);
    assert "+7" + d[1..] == "+79261234555";
  }

  lemma ExampleDigits()
    ensures Digits("8 (926) 123-45-55") == "89261234555"
  {
    hide Digits;
    var t4 := "45" + ("-" + "55");
    var t3 := "123" + ("-" + t4);
    var t2 := "926" + (") " + t3);
    DigitsOfDigits("55");
    PartDigits("45", "-", "55");
    PartDigits("123", "-", t4);
    PartDigits("926", ") ", t3);
    PartDigits("8", " (", t2);
    assert "8 (926) 123-45-55" == "8" + (" (" + t2);
  }

  lemma PartDigits(part: string, gap: string, t: string)
    requires AllDigits(part) && NoDigits(gap)
    ensures Digits(part + (gap + t)) == part + Digits(t)
  {
    DigitsJoin(part, gap + t);
    DigitsOfDigits(part);
    DigitsBehind(gap, t);
  }

  lemma {:induction false} DigitsJoin(s: string, t: string)
    ensures Digits(s + t) == Digits(s) + Digits(t)
    decreases |s|
  {
    if s == [] {
      assert s + t == t;
    } else {
      assert (s + t)[1..] == s[1..] + t;
      DigitsJoin(s[1..], t);
    }
  }

  ghost predicate PlusForm(core: string) {
    exists d :: OnlyDigits(d) && 11 <= |d| <= 15 && core == "+" + d
  }

  ghost predicate EightForm(core: string, number: string) {
    exists d :: OnlyDigits(d) && 10 <= |d| <= 14 && core == "8" + d && number == "+7" + d
  }

  lemma FormsRead(core: string, number: string)
    ensures PlusForm(core) <==> 12 <= |core| <= 16 && core[0] == '+' && AllDigits(core[1..])
    ensures EightForm(core, number) <==>
              11 <= |core| <= 15 && core[0] == '8' && AllDigits(core[1..]) && number == "+7" + core[1..]
  {
    if core != [] {
      SameDigits(core[1..]);
      hide OnlyDigits, AllDigits;
      assert core == [core[0]] + core[1..];
      assert forall d: string :: "+" + d == core ==> d == core[1..];
      assert forall d: string :: "8" + d == core ==> d == core[1..];
    }
  }

  lemma SameDigits(s: string)
    ensures AllDigits(s) <==> OnlyDigits(s)
  {
  }

  /** A destination is one of four forms with nothing but blanks around it: a plus sign and eleven to
      fifteen digits, 8 and ten to fourteen digits, three digits, or four digits, the last being an
      internal number. Nothing else is accepted. */
  lemma DestinationForms(a: string, core: string, b: string, number: string, internal: bool)
    requires AllSpace(a) && AllSpace(b) && Trimmed(core)
    ensures ParseDestination(a + core + b) == Some(Destination(number, internal)) <==>
      || (PlusForm(core) && number == core && !internal)
      || (EightForm(core, number) && !internal)
      || (OnlyDigits(core) && |core| == 3 && number == core && !internal)
      || (OnlyDigits(core) && |core| == 4 && number == core && internal)
  {
    StripPad(a, core, b);
    StripTrimmed(core);
    SameDigits(core);
    FormsRead(core, number);
    hide Strip, OnlyDigits, AllDigits, Trimmed, AllSpace, PlusForm, EightForm;
  }
}
