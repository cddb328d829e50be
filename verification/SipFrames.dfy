/** Printed SIP messages come back out of the byte stream exactly as they were put in. */
module SipFrames {
  import opened Options
  import opened SipFraming

  // -------------------------------------------------------------------------
  // How a sender writes a message
  // -------------------------------------------------------------------------

  const LOWER_NAME := "content-length:"
  const UPPER_NAME := "CONTENT-LENGTH:"

  /** The header name in any mixture of small and capital letters. */
  ghost predicate Spells(name: Bytes) {
    && |name| == 15
    && forall i :: 0 <= i < 15 ==>
         name[i] as int == LOWER_NAME[i] as int || name[i] as int == UPPER_NAME[i] as int
  }

  const DIGITS: Bytes := [48, 49, 50, 51, 52, 53, 54, 55, 56, 57]

  function DecimalBytes(n: nat): Bytes {
    if n < 10 then [DIGITS[n]] else DecimalBytes(n / 10) + [DIGITS[n % 10]]
  }

  /** A message whose head announces the length of its body, or one whose head does not and that has
      no body. */
  datatype Frame =
    | Announced(before: Bytes, name: Bytes, blanks: Bytes, behind: Bytes, body: Bytes)
    | Bare(head: Bytes)

  function Head(f: Frame): Bytes {
    match f
    case Announced(before, name, blanks, behind, body) =>
      before + (name + (blanks + (DecimalBytes(|body|) + behind)))
    case Bare(head) => head
  }

  function Body(f: Frame): Bytes {
    if f.Announced? then f.body else []
  }

  function Wire(f: Frame): Bytes {
    Head(f) + [13, 10, 13, 10] + Body(f)
  }

  ghost predicate BlankLineAt(head: Bytes, i: int) {
    0 <= i && i + 4 <= |head| && head[i..i + 4] == [13, 10, 13, 10]
  }

  ghost predicate NameFrom(b: Bytes, i: int) {
    0 <= i && i + 15 <= |b| && Spells(b[i..i + 15])
  }

  /** No blank line inside and no line break at the end. */
  ghost predicate OneHead(head: Bytes) {
    && (forall i :: !BlankLineAt(head, i))
    && (|head| >= 2 ==> head[|head| - 2..] != [13, 10])
  }

  ghost predicate Blanks(b: Bytes) {
    forall i :: 0 <= i < |b| ==> b[i] in {9, 10, 11, 12, 13, 32}
  }

  ghost predicate DigitAt(b: Bytes, m: int) {
    0 <= m < |b| && 48 <= b[m] <= 57
  }

  /** Behind the name at `i`, and blanks if any, stands a number. */
  ghost predicate AnnouncesAt(b: Bytes, i: int) {
    NameFrom(b, i) && exists m :: i + 15 <= m && DigitAt(b, m) && Blanks(b[i + 15..m])
  }

  ghost predicate Proper(f: Frame) {
    && OneHead(Head(f))
    && match f
       case Announced(before, name, blanks, behind, _) =>
         && (forall i :: 0 <= i < |before| ==> !AnnouncesAt(Head(f), i))
         && Spells(name) && Blanks(blanks)
         && (behind != [] ==> !(48 <= behind[0] <= 57))
       case Bare(head) => forall i :: !AnnouncesAt(head, i)
  }

  // -------------------------------------------------------------------------
  // Where the head ends
  // -------------------------------------------------------------------------

  lemma {:induction false} HeadEndsAt(head: Bytes, rest: Bytes)
    requires OneHead(head)
    ensures HeadEnd(head + [13, 10, 13, 10] + rest) == Some(|head|)
    decreases |head|
  {
    var b := head + [13, 10, 13, 10] + rest;
    if head == [] {
      assert b[..4] == CRLF2;
    } else {
      NotYet(head, rest);
      assert b[1..] == head[1..] + [13, 10, 13, 10] + rest;
      OneHeadTail(head);
      HeadEndsAt(head[1..], rest);
    }
  }

  lemma BlankLineShifts(head: Bytes, i: int)
    requires head != []
    ensures BlankLineAt(head[1..], i) ==> BlankLineAt(head, i + 1)
  {
    if BlankLineAt(head[1..], i) { assert head[1..][i..i + 4] == head[i + 1..i + 1 + 4]; }
  }

  lemma OneHeadTail(head: Bytes)
    requires OneHead(head) && head != []
    ensures OneHead(head[1..])
  {
    var t := head[1..];
    forall i ensures !BlankLineAt(t, i) {
      BlankLineShifts(head, i);
      assert !BlankLineAt(head, i + 1);
    }
    if |t| >= 2 { assert t[|t| - 2..] == head[|head| - 2..]; }
  }

  lemma NotYet(head: Bytes, rest: Bytes)
    requires OneHead(head) && head != []
    ensures (head + [13, 10, 13, 10] + rest)[..4] != CRLF2
  {
    var b := head + [13, 10, 13, 10] + rest;
    if |head| >= 4 {
      assert head[0..0 + 4] == b[..4];
      assert !BlankLineAt(head, 0);
    } else if |head| == 2 {
      assert head[|head| - 2..] == b[..4][..2];
    } else {
      assert b[..4][|head|] == 13;
    }
  }

  // -------------------------------------------------------------------------
  // How long the body is
  // -------------------------------------------------------------------------

  lemma SmallLetters(i: nat)
    requires i < 15
    ensures NAME[i] as int == LOWER_NAME[i] as int
    ensures NAME[i] as int == 45 || NAME[i] as int == 58 || 97 <= NAME[i] as int <= 122
  {
  }

  lemma CapitalLetters(i: nat)
    requires i < 15
    ensures UPPER_NAME[i] as int == LOWER_NAME[i] as int - if LOWER_NAME[i] in "-:" then 0 else 32
  {
  }

  lemma LowerIs(c: bv8)
    ensures Lower(c) as int == if 65 <= c as int <= 90 then c as int + 32 else c as int
  {
  }

  lemma LetterAgrees(c: bv8, i: nat)
    requires i < 15
    ensures Lower(c) == NAME[i] <==> c as int == LOWER_NAME[i] as int || c as int == UPPER_NAME[i] as int
  {
    SmallLetters(i);
    CapitalLetters(i);
    LowerIs(c);
    hide Lower, NAME, LOWER_NAME, UPPER_NAME;
  }

  lemma NamesAgree(b: Bytes)
    ensures NameAt(b) <==> NameFrom(b, 0)
  {
    hide Lower, LOWER_NAME, UPPER_NAME;
    assert |NAME| == 15;
    hide NAME;
    if |b| >= 15 {
      forall i | 0 <= i < 15 { LetterAgrees(b[i], i); }
      assert forall i :: 0 <= i < 15 ==> b[0..0 + 15][i] == b[i];
    }
  }

  lemma BlanksAgree(b: Bytes)
    ensures Blanks(b) <==> forall i :: 0 <= i < |b| ==> IsBlank(b[i])
  {
    assert forall c: bv8 :: c in {9, 10, 11, 12, 13, 32} <==> IsBlank(c);
  }

  /** Where the blanks at the front of `b` end. */
  lemma {:induction false} Skipped(b: Bytes) returns (m: nat)
    ensures m <= |b| && SkipBlanks(b) == b[m..]
    ensures forall i :: 0 <= i < m ==> IsBlank(b[i])
    ensures m < |b| ==> !IsBlank(b[m])
  {
    hide IsBlank;
    if b != [] && IsBlank(b[0]) {
      var k := Skipped(b[1..]);
      m := k + 1;
    } else {
      m := 0;
    }
  }

  predicate NumberBehind(b: Bytes) {
    var v := SkipBlanks(b);
    v != [] && IsDigit(v[0])
  }

  lemma DigitNotBlank(c: bv8)
    ensures IsDigit(c) <==> 48 <= c <= 57
    ensures IsDigit(c) ==> !IsBlank(c)
  {
  }

  lemma NumberStands(b: Bytes)
    ensures NumberBehind(b) <==> exists m :: DigitAt(b, m) && Blanks(b[..m])
  {
    var k := Skipped(b);
    assert forall c: bv8 :: IsDigit(c) <==> 48 <= c <= 57;
    if NumberBehind(b) {
      BlanksAgree(b[..k]);
      assert DigitAt(b, k);
    }
    forall m | DigitAt(b, m) && Blanks(b[..m]) ensures m == k {
      BlanksAgree(b[..m]);
      DigitNotBlank(b[m]);
      assert forall i :: 0 <= i < m ==> b[..m][i] == b[i];
    }
  }

  lemma AnnouncedHere(b: Bytes)
    ensures AnnouncesAt(b, 0) <==> NameAt(b) && NumberBehind(b[|NAME|..])
  {
    NamesAgree(b);
    assert |NAME| == 15;
    if |b| >= 15 {
      var rest := b[15..];
      NumberStands(rest);
      hide NAME, NumberBehind, Blanks, NameAt, Spells;
      if m :| 0 + 15 <= m && DigitAt(b, m) && Blanks(b[0 + 15..m]) {
        assert b[0 + 15..m] == rest[..m - 15];
        assert DigitAt(rest, m - 15) && Blanks(rest[..m - 15]);
      }
      if m :| DigitAt(rest, m) && Blanks(rest[..m]) {
        assert b[0 + 15..m + 15] == rest[..m];
        assert DigitAt(b, m + 15) && Blanks(b[0 + 15..m + 15]);
      }
    }
  }

  lemma AnnouncedShift(b: Bytes, i: int)
    requires b != [] && i >= 0
    ensures AnnouncesAt(b[1..], i) <==> AnnouncesAt(b, i + 1)
  {
    var t := b[1..];
    if i + 15 <= |t| { assert t[i..i + 15] == b[i + 1..i + 1 + 15]; }
    hide Spells, Blanks;
    forall m ensures i + 15 <= m && DigitAt(t, m) && Blanks(t[i + 15..m])
                     <==> i + 1 + 15 <= m + 1 && DigitAt(b, m + 1) && Blanks(b[i + 1 + 15..m + 1]) {
      if i + 15 <= m <= |t| { assert t[i + 15..m] == b[i + 1 + 15..m + 1]; }
    }
    if AnnouncesAt(b, i + 1) {
      var m :| i + 1 + 15 <= m && DigitAt(b, m) && Blanks(b[i + 1 + 15..m]);
      assert i + 15 <= m - 1 && DigitAt(t, m - 1);
    }
  }

  /** Without an announcement the body is empty. */
  lemma {:induction false} SilentIsZero(head: Bytes)
    requires forall i :: !AnnouncesAt(head, i)
    ensures ContentLength(head) == 0
    decreases |head|
  {
    if head != [] {
      AnnouncedHere(head);
      hide NameAt, AnnouncesAt;
      forall i ensures !AnnouncesAt(head[1..], i) {
        if i >= 0 { AnnouncedShift(head, i); } else { NowhereBefore(head[1..], i); }
      }
      SilentIsZero(head[1..]);
    }
  }

  lemma NowhereBefore(b: Bytes, i: int)
    requires i < 0
    ensures !AnnouncesAt(b, i)
  {
  }

  /** What stands before the first announcement does not matter. */
  lemma {:induction false} LengthBehind(before: Bytes, tail: Bytes)
    requires forall i :: 0 <= i < |before| ==> !AnnouncesAt(before + tail, i)
    ensures ContentLength(before + tail) == ContentLength(tail)
    decreases |before|
  {
    var b := before + tail;
    if before == [] {
      assert b == tail;
    } else {
      AnnouncedHere(b);
      hide NameAt, AnnouncesAt;
      assert b[1..] == before[1..] + tail;
      forall i | 0 <= i < |before[1..]| ensures !AnnouncesAt(before[1..] + tail, i) { AnnouncedShift(b, i); }
      LengthBehind(before[1..], tail);
    }
  }

  lemma DigitByte(d: nat)
    requires d < 10
    ensures IsDigit(DIGITS[d]) && (DIGITS[d] - 48) as nat == d && !IsBlank(DIGITS[d])
  {
  }

  lemma {:induction false} NumberReads(n: nat, rest: Bytes)
    ensures Number(DecimalBytes(n) + rest, 0) == Number(rest, n)
    ensures var d := DecimalBytes(n) + rest; d != [] && IsDigit(d[0]) && !IsBlank(d[0])
  {
    assert |DIGITS| == 10;
    hide IsDigit, IsBlank, DIGITS;
    if n < 10 {
      DigitByte(n);
      assert (DecimalBytes(n) + rest)[1..] == rest;
    } else {
      var last := [DIGITS[n % 10]];
      DigitByte(n % 10);
      assert DecimalBytes(n) + rest == DecimalBytes(n / 10) + (last + rest);
      NumberReads(n / 10, last + rest);
      assert (last + rest)[1..] == rest;
    }
  }

  lemma {:induction false} BlanksSkipped(blanks: Bytes, rest: Bytes)
    requires forall i :: 0 <= i < |blanks| ==> IsBlank(blanks[i])
    requires rest != [] && !IsBlank(rest[0])
    ensures SkipBlanks(blanks + rest) == rest
    decreases |blanks|
  {
    if blanks == [] {
      assert blanks + rest == rest;
    } else {
      assert (blanks + rest)[1..] == blanks[1..] + rest;
      BlanksSkipped(blanks[1..], rest);
    }
  }

  lemma SpelledLength(name: Bytes)
    requires Spells(name)
    ensures |name| == 15
  {
  }

  lemma LengthRead(name: Bytes, blanks: Bytes, n: nat, behind: Bytes)
    requires Spells(name) && forall i :: 0 <= i < |blanks| ==> IsBlank(blanks[i])
    requires behind != [] ==> !IsDigit(behind[0])
    ensures ContentLength(name + (blanks + (DecimalBytes(n) + behind))) == n
  {
    var number := DecimalBytes(n) + behind;
    var b := name + (blanks + number);
    SpelledLength(name);
    assert |NAME| == 15;
    assert b[0..0 + 15] == name && b[|NAME|..] == blanks + number;
    NamesAgree(b);
    NumberReads(n, behind);
    BlanksSkipped(blanks, number);
    hide Spells, NameAt, IsBlank, DecimalBytes, NAME;
  }

  // -------------------------------------------------------------------------
  // Round trip
  // -------------------------------------------------------------------------

  lemma AnnouncedBody(f: Frame)
    requires Proper(f)
    ensures ContentLength(Head(f)) == |Body(f)|
  {
    match f
    case Announced(before, name, blanks, behind, body) =>
      var rest := blanks + (DecimalBytes(|body|) + behind);
      LengthBehind(before, name + rest);
      BlanksAgree(blanks);
      LengthRead(name, blanks, |body|, behind);
    case Bare(head) => SilentIsZero(head);
  }

  /** A printed message in front of anything is the first message, whole. */
  lemma FirstOfWire(f: Frame, more: Bytes)
    requires Proper(f)
    ensures FirstMessage(Wire(f) + more) == Some(|Wire(f)|)
  {
    hide OneHead, HeadEnd, ContentLength, Head, Body, Proper;
    var head, body := Head(f), Body(f);
    ProperHead(f);
    Regrouped(head, body, more);
    HeadEndsAt(head, body + more);
    AnnouncedBody(f);
  }

  lemma ProperHead(f: Frame)
    requires Proper(f)
    ensures OneHead(Head(f))
  {
  }

  lemma Regrouped(head: Bytes, body: Bytes, more: Bytes)
    ensures var b := head + [13, 10, 13, 10] + body + more;
            b == head + [13, 10, 13, 10] + (body + more) && b[..|head|] == head
  {
  }

  function Wires(fs: seq<Frame>): seq<Bytes> {
    if fs == [] then [] else [Wire(fs[0])] + Wires(fs[1..])
  }

  /** Any messages printed one after another come out as they are, in order, and an unfinished rest
      stays behind. */
  lemma {:induction false} FramesRoundTrip(fs: seq<Frame>, left: Bytes)
    requires (forall f :: f in fs ==> Proper(f)) && FirstMessage(left).None?
    ensures Extract(Joined(Wires(fs)) + left) == (Wires(fs), left)
    decreases |fs|
  {
    hide FirstMessage, Wire, Proper;
    if fs == [] {
      assert Joined(Wires(fs)) + left == left;
    } else {
      var rest := Joined(Wires(fs[1..])) + left;
      var b := Joined(Wires(fs)) + left;
      JoinedFirst(Wire(fs[0]), Wires(fs[1..]), left);
      FirstOfWire(fs[0], rest);
      assert b == Wire(fs[0]) + rest;
      assert b[..|Wire(fs[0])|] == Wire(fs[0]) && b[|Wire(fs[0])|..] == rest;
      FramesRoundTrip(fs[1..], left);
    }
  }

  /** So do they when the bytes arrive in any chunks. */
  lemma FramesFromChunks(fs: seq<Frame>, chunks: seq<Bytes>)
    requires (forall f :: f in fs ==> Proper(f)) && Joined(chunks) == Joined(Wires(fs))
    ensures Fed([], chunks) == (Wires(fs), [])
  {
    hide Wires, Proper, Extract;
    ChunkIndependent([], chunks);
    FramesRoundTrip(fs, []);
    assert Joined(Wires(fs)) + [] == Joined(Wires(fs)) && [] + Joined(chunks) == Joined(chunks);
  }
}
