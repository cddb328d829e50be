/** The string operations the program relies on: search, whitespace, digits. */
module Text {

  /** `part in text`. */
  predicate Contains(text: string, part: string) {
    part <= text || (text != [] && Contains(text[1..], part))
  }

  /** Position of the first `c`, or the length when there is none. */
  function IndexOf(s: string, c: char): (i: nat)
    ensures i <= |s|
    ensures i < |s| ==> s[i] == c
    ensures forall j :: 0 <= j < i ==> s[j] != c
  {
    if s == [] || s[0] == c then 0 else 1 + IndexOf(s[1..], c)
  }

  /** The characters `str.strip` and `str.isspace` treat as whitespace. */
  predicate IsSpace(c: char) {
    var n := c as int;
    || 0x09 <= n <= 0x0D || 0x1C <= n <= 0x20 || n == 0x85 || n == 0xA0 || n == 0x1680
    || 0x2000 <= n <= 0x200A || n == 0x2028 || n == 0x2029 || n == 0x202F || n == 0x205F || n == 0x3000
  }

  predicate AllSpace(s: string) {
    forall i :: 0 <= i < |s| ==> IsSpace(s[i])
  }

  function StripLeft(s: string): string {
    if s != [] && IsSpace(s[0]) then StripLeft(s[1..]) else s
  }

  function StripRight(s: string): string {
    if s != [] && IsSpace(s[|s| - 1]) then StripRight(s[..|s| - 1]) else s
  }

  function Strip(s: string): string {
    StripRight(StripLeft(s))
  }

  predicate Trimmed(s: string) {
    s == [] || (!IsSpace(s[0]) && !IsSpace(s[|s| - 1]))
  }

  lemma {:induction false} StripLeftPad(a: string, s: string)
    requires AllSpace(a)
    ensures StripLeft(a + s) == StripLeft(s)
    decreases |a|
  {
    if a == [] {
      assert a + s == s;
    } else {
      assert (a + s)[1..] == a[1..] + s;
      StripLeftPad(a[1..], s);
    }
  }

  lemma {:induction false} StripRightPad(s: string, b: string)
    requires AllSpace(b)
    ensures StripRight(s + b) == StripRight(s)
    decreases |b|
  {
    if b == [] {
      assert s + b == s;
    } else {
      assert (s + b)[..|s + b| - 1] == s + b[..|b| - 1];
      StripRightPad(s, b[..|b| - 1]);
    }
  }

  /** Stripping stops at a character that is not whitespace. */
  lemma {:induction false} StripLeftStops(a: string, c: char, b: string)
    requires !IsSpace(c)
    ensures StripLeft(a + [c] + b) == StripLeft(a) + [c] + b
    decreases |a|
  {
    if a == [] {
      assert a + [c] + b == [c] + b;
    } else {
      assert (a + [c] + b)[1..] == a[1..] + [c] + b;
      if IsSpace(a[0]) { StripLeftStops(a[1..], c, b); }
    }
  }

  lemma {:induction false} StripRightStops(a: string, c: char, b: string)
    requires !IsSpace(c)
    ensures StripRight(a + [c] + b) == a + [c] + StripRight(b)
    decreases |b|
  {
    if b == [] {
      assert a + [c] + b == a + [c];
    } else {
      var s := a + [c] + b;
      assert s[|s| - 1] == b[|b| - 1] && s[..|s| - 1] == a + [c] + b[..|b| - 1];
      if IsSpace(b[|b| - 1]) { StripRightStops(a, c, b[..|b| - 1]); }
    }
  }

  lemma {:induction false} StripLeftTwice(s: string)
    ensures StripLeft(StripLeft(s)) == StripLeft(s)
  {
    if s != [] && IsSpace(s[0]) { StripLeftTwice(s[1..]); }
  }

  lemma {:induction false} SplitLeft(s: string) returns (a: string)
    ensures AllSpace(a) && s == a + StripLeft(s)
  {
    hide IsSpace;
    if s != [] && IsSpace(s[0]) {
      var a' := SplitLeft(s[1..]);
      a := [s[0]] + a';
      assert s == [s[0]] + s[1..];
    } else {
      a := [];
    }
  }

  lemma {:induction false} SplitRight(s: string) returns (b: string)
    ensures AllSpace(b) && s == StripRight(s) + b
  {
    if s != [] && IsSpace(s[|s| - 1]) {
      var b' := SplitRight(s[..|s| - 1]);
      b := b' + [s[|s| - 1]];
      assert s == s[..|s| - 1] + [s[|s| - 1]];
    } else {
      b := [];
    }
  }

  lemma StripTrimmed(s: string)
    ensures Trimmed(s) ==> Strip(s) == s
  {
  }

  /** Whitespace around a string does not survive stripping, and nothing else is lost. */
  lemma StripPad(a: string, s: string, b: string)
    requires AllSpace(a) && AllSpace(b)
    ensures Strip(a + s + b) == Strip(s)
  {
    assert a + s + b == a + (s + b);
    StripLeftPad(a, s + b);
    if StripLeft(s) == [] {
      var x := SplitLeft(s);
      assert AllSpace(s);
      StripLeftPad(s, b);
      var y := SplitLeft(b);
      AllSpaceGone(b);
    } else {
      var x := SplitLeft(s);
      var r := StripLeft(s);
      StripLeftPad(x, r + b);
      assert s + b == x + (r + b);
      StripLeftHead(s);
      assert StripLeft(r + b) == r + b;
      StripRightPad(r, b);
    }
  }

  lemma {:induction false} AllSpaceGone(s: string)
    requires AllSpace(s)
    ensures StripLeft(s) == [] && StripRight(s) == []
  {
    StripLeftPad(s, []);
    StripRightPad([], s);
    assert s + [] == s && [] + s == s;
  }

  lemma {:induction false} StripLeftHead(s: string)
    ensures StripLeft(s) != [] ==> !IsSpace(StripLeft(s)[0])
  {
    if s != [] && IsSpace(s[0]) { StripLeftHead(s[1..]); }
  }

  lemma {:induction false} StripRightLast(s: string)
    ensures StripRight(s) != [] ==> !IsSpace(StripRight(s)[|StripRight(s)| - 1])
    ensures StripRight(s) <= s
  {
    if s != [] && IsSpace(s[|s| - 1]) { StripRightLast(s[..|s| - 1]); }
  }

  lemma StripIsTrimmed(s: string)
    ensures Trimmed(Strip(s))
  {
    StripLeftHead(s);
    StripRightLast(StripLeft(s));
  }

  /** The twenty-nine characters that stripping removes. */
  lemma StrippedCharacters(c: char)
    ensures Strip([c]) == [] <==>
              c in {'\t', '\n', '\U{0B}', '\U{0C}', '\r', '\U{1C}', '\U{1D}', '\U{1E}', '\U{1F}', ' ', '\U{85}',
                '\U{A0}', '\U{1680}', '\U{2000}', '\U{2001}', '\U{2002}', '\U{2003}', '\U{2004}', '\U{2005}',
                '\U{2006}', '\U{2007}', '\U{2008}', '\U{2009}', '\U{200A}', '\U{2028}', '\U{2029}', '\U{202F}',
                '\U{205F}', '\U{3000}'}
  {
    StripTrimmed([c]);
    if IsSpace(c) { AllSpaceGone([c]); }
    hide Strip;
  }

  predicate IsDigit(c: char) {
    '0' <= c <= '9'
  }

  /** The digits of a string, in order. */
  function Digits(s: string): string {
    if s == [] then []
    else if IsDigit(s[0]) then [s[0]] + Digits(s[1..])
    else Digits(s[1..])
  }

  predicate AllDigits(s: string) {
    forall i :: 0 <= i < |s| ==> IsDigit(s[i])
  }

  lemma {:induction false} DigitsAreDigits(s: string)
    ensures AllDigits(Digits(s))
  {
    if s != [] { DigitsAreDigits(s[1..]); }
  }

  lemma {:induction false} DigitsOfDigits(s: string)
    requires AllDigits(s)
    ensures Digits(s) == s
  {
    if s != [] {
      DigitsOfDigits(s[1..]);
      assert s == [s[0]] + s[1..];
    }
  }

  // -------------------------------------------------------------------------
  // What the operations mean
  // -------------------------------------------------------------------------

  lemma {:induction false} ContainedAt(a: string, part: string, b: string)
    ensures Contains(a + part + b, part)
    decreases |a|
  {
    if a == [] {
      assert a + part + b == part + b;
    } else {
      assert (a + part + b)[1..] == a[1..] + part + b;
      ContainedAt(a[1..], part, b);
    }
  }

  lemma {:induction false} ContainedWhere(text: string, part: string) returns (a: string, b: string)
    requires Contains(text, part)
    ensures text == a + part + b
  {
    if part <= text {
      a, b := [], text[|part|..];
    } else {
      a, b := ContainedWhere(text[1..], part);
      a := [text[0]] + a;
    }
  }

  /** One string contains another exactly when it is that string between two others. */
  lemma ContainsExactly(text: string, part: string)
    ensures Contains(text, part) <==> exists a, b :: text == a + part + b
  {
    if Contains(text, part) {
      var a, b := ContainedWhere(text, part);
    }
    forall a, b | text == a + part + b ensures Contains(text, part) {
      ContainedAt(a, part, b);
    }
  }

  /** Digits written one after another, each followed by characters that are no digits. */
  function Spread(digits: string, gaps: seq<string>): string
    requires |gaps| == |digits|
    decreases |digits|
  {
    if digits == [] then [] else [digits[0]] + gaps[0] + Spread(digits[1..], gaps[1..])
  }

  ghost predicate NoDigits(s: string) {
    forall i :: 0 <= i < |s| ==> !('0' <= s[i] <= '9')
  }

  ghost predicate OnlyDigits(s: string) {
    forall i :: 0 <= i < |s| ==> '0' <= s[i] <= '9'
  }

  lemma {:induction false} DigitsBehind(gap: string, s: string)
    requires NoDigits(gap)
    ensures Digits(gap + s) == Digits(s)
    decreases |gap|
  {
    if gap == [] {
      assert gap + s == s;
    } else {
      assert (gap + s)[1..] == gap[1..] + s;
      DigitsBehind(gap[1..], s);
    }
  }

  /** Whatever stands between them, the digits of a text are the digits that were written. */
  lemma {:induction false} DigitsOfSpread(head: string, digits: string, gaps: seq<string>)
    requires |gaps| == |digits| && OnlyDigits(digits) && NoDigits(head)
    requires forall i :: 0 <= i < |gaps| ==> NoDigits(gaps[i])
    ensures Digits(head + Spread(digits, gaps)) == digits
    decreases |digits|
  {
    DigitsBehind(head, Spread(digits, gaps));
    if digits != [] {
      var rest := gaps[0] + Spread(digits[1..], gaps[1..]);
      assert Spread(digits, gaps) == [digits[0]] + rest;
      DigitsOfSpread(gaps[0], digits[1..], gaps[1..]);
    }
  }

  /** The text writes these digits one after another, with anything else around and between them. */
  ghost predicate Writes(text: string, digits: string) {
    exists head, gaps :: WrittenWith(text, digits, head, gaps)
  }

  ghost predicate WrittenWith(text: string, digits: string, head: string, gaps: seq<string>) {
    && |gaps| == |digits| && OnlyDigits(digits) && NoDigits(head)
    && (forall i :: 0 <= i < |gaps| ==> NoDigits(gaps[i]))
    && text == head + Spread(digits, gaps)
  }

  lemma {:induction false} ReadOff(text: string) returns (digits: string, head: string, gaps: seq<string>)
    ensures WrittenWith(text, digits, head, gaps)
  {
    if text == [] {
      digits, head, gaps := [], [], [];
    } else {
      digits, head, gaps := ReadOff(text[1..]);
      if '0' <= text[0] <= '9' {
        assert text == [] + ([text[0]] + head + Spread(digits, gaps));
        digits, head, gaps := [text[0]] + digits, [], [head] + gaps;
        assert digits[1..] + [] == digits[1..] && gaps[1..] + [] == gaps[1..];
      } else {
        assert text == [text[0]] + head + Spread(digits, gaps);
        head := [text[0]] + head;
      }
    }
  }

  /** Every text writes exactly one string of digits. */
  lemma WritesExactly(text: string, digits: string)
    ensures Writes(text, digits) <==> Digits(text) == digits
  {
    forall head, gaps | WrittenWith(text, digits, head, gaps) ensures Digits(text) == digits {
      DigitsOfSpread(head, digits, gaps);
    }
    var ds, head, gaps := ReadOff(text);
    DigitsOfSpread(head, ds, gaps);
  }

  lemma {:induction false} DigitsInFront(s: string, gap: string)
    requires NoDigits(gap)
    ensures Digits(s + gap) == Digits(s)
    decreases |s|
  {
    if s == [] {
      DigitsBehind(gap, []);
      assert s + gap == gap && gap + [] == gap;
    } else {
      assert (s + gap)[1..] == s[1..] + gap;
      DigitsInFront(s[1..], gap);
    }
  }

  lemma SpaceNoDigits(s: string)
    requires AllSpace(s)
    ensures NoDigits(s)
  {
  }

  /** Stripping takes no digit away. */
  lemma DigitsOfStripped(s: string)
    ensures Digits(Strip(s)) == Digits(s)
  {
    var a := SplitLeft(s);
    var b := SplitRight(StripLeft(s));
    SpaceNoDigits(a);
    SpaceNoDigits(b);
    DigitsBehind(a, StripLeft(s));
    DigitsInFront(Strip(s), b);
  }

  // -------------------------------------------------------------------------
  // Decimal numbers
  // -------------------------------------------------------------------------

  function Decimal(n: nat): string {
    if n < 10 then ["0123456789"[n]] else Decimal(n / 10) + ["0123456789"[n % 10]]
  }

  function Signed(n: int): string {
    if n < 0 then "-" + Decimal(-n) else Decimal(n)
  }

  lemma DigitValue(d: nat)
    requires d < 10
    ensures IsDigit("0123456789"[d]) && ("0123456789"[d] - '0') as nat == d
  {
  }

  lemma {:induction false} DecimalDigits(n: nat)
    ensures AllDigits(Decimal(n)) && Decimal(n) != []
  {
    if n < 10 {
      DigitValue(n);
    } else {
      DecimalDigits(n / 10);
      DigitValue(n % 10);
    }
  }
}
