/** Lines as `str.splitlines` makes them: where they end, and what happens to them when text is
    joined or replaced. */
module TextLines {
  const NL: char := '\n'

  /** The characters that end a line for `str.splitlines`. */
  predicate IsBreak(c: char) {
    var n := c as int;
    0x0A <= n <= 0x0D || 0x1C <= n <= 0x1E || n == 0x85 || n == 0x2028 || n == 0x2029
  }

  predicate OneLine(s: string) {
    forall i :: 0 <= i < |s| ==> !IsBreak(s[i])
  }

  /** The text up to its first line break. */
  function Cut(s: string): (r: string)
    ensures r <= s && OneLine(r)
    ensures |r| < |s| ==> IsBreak(s[|r|])
  {
    if s == [] || IsBreak(s[0]) then [] else [s[0]] + Cut(s[1..])
  }

  /** The length of the line break at the front; a carriage return and a newline are one break. */
  function BreakLength(s: string): (n: nat)
    ensures n <= |s| && n <= 2
  {
    if s == [] || !IsBreak(s[0]) then 0
    else if s[0] == '\r' && |s| > 1 && s[1] == NL then 2
    else 1
  }

  /** The length of the first line, its break included. */
  function LineLength(s: string): (n: nat)
    ensures n <= |s| && (s != [] ==> n > 0)
  {
    |Cut(s)| + BreakLength(s[|Cut(s)|..])
  }

  /** `splitlines(keepends=True)`; without `keepends` it gives the `Cut` of each of these lines. */
  function Lines(text: string): seq<string>
    decreases |text|
  {
    if text == [] then [] else [text[..LineLength(text)]] + Lines(text[LineLength(text)..])
  }

  function Joined(lines: seq<string>): string {
    if lines == [] then [] else lines[0] + Joined(lines[1..])
  }

  /** The newline at the end of a line; any other line break does not count here. */
  function End(line: string): string {
    if line != [] && line[|line| - 1] == NL then [NL] else []
  }

  function Bare(line: string): string {
    if line != [] && line[|line| - 1] == NL then line[..|line| - 1] else line
  }

  /** One line: a break at its end, except that the last line may have none. */
  predicate LineShape(line: string, last: bool) {
    line != [] && LineLength(line) == |line| && (last || |Cut(line)| < |line|)
  }

  /** The two do not join: a carriage return is not followed by a newline. */
  predicate Apart(s: string, t: string) {
    s != [] && s[|s| - 1] == '\r' && t != [] ==> t[0] != NL
  }

  ghost predicate Shape(lines: seq<string>) {
    && (forall i :: 0 <= i < |lines| ==> LineShape(lines[i], i == |lines| - 1))
    && (forall i :: 0 <= i < |lines| - 1 ==> Apart(lines[i], lines[i + 1]))
  }

  lemma {:induction false} CutOneLine(a: string, b: string)
    requires OneLine(a)
    ensures Cut(a + b) == a + Cut(b)
    decreases |a|
  {
    if a == [] {
      assert a + b == b;
    } else {
      assert (a + b)[1..] == a[1..] + b;
      CutOneLine(a[1..], b);
    }
  }

  lemma CutWhole(a: string)
    ensures OneLine(a) <==> Cut(a) == a
  {
    if OneLine(a) {
      CutOneLine(a, []);
      assert a + [] == a;
    }
  }

  lemma {:induction false} CutStops(a: string, b: string)
    requires |Cut(a)| < |a|
    ensures Cut(a + b) == Cut(a)
    decreases |a|
  {
    if !IsBreak(a[0]) {
      assert (a + b)[1..] == a[1..] + b;
      CutStops(a[1..], b);
    }
  }

  /** A line with its break stays the first line whatever follows it. */
  lemma LinesCons(line: string, rest: string)
    requires LineShape(line, false) && Apart(line, rest)
    ensures Lines(line + rest) == [line] + Lines(rest)
  {
    var s, c := line + rest, |Cut(line)|;
    CutStops(line, rest);
    assert s[c..] == line[c..] + rest;
    assert line[c..][|line[c..]| - 1] == line[|line| - 1];
    assert BreakLength(line[c..] + rest) == BreakLength(line[c..]);
    hide Cut, BreakLength;
    assert LineLength(s) == |line|;
    assert s[..|line|] == line && s[|line|..] == rest;
  }

  lemma LinesOne(line: string)
    requires LineShape(line, true)
    ensures Lines(line) == [line]
  {
    assert line[..|line|] == line && line[|line|..] == [];
  }

  lemma ShapeTail(lines: seq<string>)
    requires Shape(lines) && lines != []
    ensures Shape(lines[1..])
    ensures LineShape(lines[0], |lines| == 1) && Apart(lines[0], Joined(lines[1..]))
  {
    hide LineShape, Apart;
    var rest := lines[1..];
    forall i | 0 <= i < |rest| ensures LineShape(rest[i], i == |rest| - 1) {
      assert rest[i] == lines[i + 1];
    }
    forall i | 0 <= i < |rest| - 1 ensures Apart(rest[i], rest[i + 1]) {
      assert rest[i] == lines[i + 1] && rest[i + 1] == lines[i + 2];
    }
    assert LineShape(lines[0], 0 == |lines| - 1);
    if rest == [] {
      ApartEmpty(lines[0]);
    } else {
      assert Apart(lines[0], lines[1]) && rest[0] == lines[1];
      assert LineShape(lines[1], 1 == |lines| - 1);
      ApartPrefix(lines[0], lines[1], Joined(rest[1..]));
    }
  }

  lemma ApartEmpty(s: string)
    ensures Apart(s, [])
  {
  }

  lemma ApartPrefix(s: string, t: string, more: string)
    requires Apart(s, t) && exists last :: LineShape(t, last)
    ensures Apart(s, t + more)
  {
  }

  lemma {:induction false} JoinedLines(lines: seq<string>)
    requires Shape(lines)
    ensures Lines(Joined(lines)) == lines
  {
    if lines != [] {
      ShapeTail(lines);
      JoinedLines(lines[1..]);
      hide Shape;
      if |lines| == 1 {
        assert lines[1..] == [];
        assert Joined(lines) == lines[0] + [] == lines[0];
        LinesOne(lines[0]);
      } else {
        LinesCons(lines[0], Joined(lines[1..]));
      }
    }
  }

  /** A break alone, and what is behind it. */
  lemma BreakFront(s: string)
    ensures var n := BreakLength(s);
            && BreakLength(s[..n]) == n && Cut(s[..n]) == [] && Apart(s[..n], s[n..])
            && (n == 0 ==> s == [] || !IsBreak(s[0]))
  {
  }

  lemma SliceParts(c: string, s: string, n: nat)
    requires n <= |s|
    ensures (c + s)[..|c| + n] == c + s[..n] && (c + s)[|c| + n..] == s[n..]
  {
  }

  lemma LengthOf(c: string, s: string)
    requires OneLine(c) && Cut(s) == []
    ensures Cut(c + s) == c && LineLength(c + s) == |c| + BreakLength(s)
  {
    CutOneLine(c, s);
    assert c + [] == c;
    SliceParts(c, s, 0);
    assert s[0..] == s;
    hide Cut, BreakLength, OneLine;
  }

  lemma ApartBehind(c: string, x: string, y: string)
    requires OneLine(c) && Apart(x, y)
    ensures Apart(c + x, y)
  {
    if x == [] {
      assert c + x == c;
      if c != [] { assert !IsBreak(c[|c| - 1]); }
    } else {
      assert (c + x)[|c + x| - 1] == x[|x| - 1];
    }
  }

  /** The first line of a text and what is behind it. */
  lemma FirstLine(text: string)
    requires text != []
    ensures var n := LineLength(text);
            && Cut(text[..n]) == Cut(text)
            && LineShape(text[..n], n == |text|) && Apart(text[..n], text[n..])
  {
    BehindCut(text);
    hide Cut, LineLength, LineShape, Apart, OneLine, IsBreak;
    FirstLineOf(Cut(text), text[|Cut(text)|..]);
  }

  lemma BehindCut(text: string)
    ensures var s := text[|Cut(text)|..];
            text == Cut(text) + s && OneLine(Cut(text)) && Cut(s) == []
  {
  }

  lemma FirstLineOf(c: string, s: string)
    requires OneLine(c) && Cut(s) == [] && c + s != []
    ensures var n := LineLength(c + s);
            && Cut((c + s)[..n]) == c
            && LineShape((c + s)[..n], n == |c + s|) && Apart((c + s)[..n], (c + s)[n..])
  {
    var b := BreakLength(s);
    BreakFront(s);
    LengthOf(c, s);
    LengthOf(c, s[..b]);
    SliceParts(c, s, b);
    ApartBehind(c, s[..b], s[b..]);
    assert b == 0 ==> s == [];
    var head := c + s[..b];
    assert |head| == |c| + b;
    assert head != [];
    hide Cut, BreakLength, LineLength, OneLine, Apart;
    assert LineShape(head, b == |s|);
  }

  lemma EmptyLines(text: string)
    ensures Lines(text) == [] <==> text == []
    ensures Shape([])
  {
  }

  lemma {:induction false} LinesJoin(text: string)
    ensures Joined(Lines(text)) == text && Shape(Lines(text))
    decreases |text|
  {
    if text != [] {
      hide LineLength, LineShape, Apart, Shape, Joined;
      var n := LineLength(text);
      FirstLine(text);
      EmptyLines(text[n..]);
      LinesJoin(text[n..]);
      ShapeCons(text[..n], Lines(text[n..]));
      JoinedCons(text[..n], Lines(text[n..]));
      HalvesJoin(text, n);
    } else {
      NoLines();
    }
  }

  lemma NoLines()
    ensures Joined([]) == [] && Shape([])
  {
  }

  lemma JoinedCons(head: string, rest: seq<string>)
    ensures Joined([head] + rest) == head + Joined(rest)
  {
    assert ([head] + rest)[1..] == rest;
  }

  lemma HalvesJoin(text: string, n: nat)
    requires n <= |text|
    ensures text[..n] + text[n..] == text
  {
  }

  lemma ShapeCons(head: string, rest: seq<string>)
    requires LineShape(head, rest == []) && Shape(rest) && Apart(head, Joined(rest))
    ensures Shape([head] + rest)
  {
    hide LineShape, Apart;
    var all := [head] + rest;
    forall i | 0 <= i < |all| ensures LineShape(all[i], i == |all| - 1) {
      if i > 0 { assert all[i] == rest[i - 1]; }
    }
    forall i | 0 <= i < |all| - 1 ensures Apart(all[i], all[i + 1]) {
      if i > 0 {
        assert all[i] == rest[i - 1] && all[i + 1] == rest[i];
      } else {
        assert LineShape(rest[0], 0 == |rest| - 1);
        ApartHead(head, rest[0], Joined(rest[1..]));
      }
    }
  }

  lemma ApartHead(s: string, t: string, more: string)
    requires Apart(s, t + more) && exists last :: LineShape(t, last)
    ensures Apart(s, t)
  {
    assert (t + more)[0] == t[0];
  }

  /** Complete lines, none of which joins with what follows it. */
  predicate Closed(lines: seq<string>, rest: string) {
    lines == []
    || (LineShape(lines[0], false) && Apart(lines[0], Joined(lines[1..]) + rest) && Closed(lines[1..], rest))
  }

  /** Lines already complete are not affected by what follows them. */
  lemma {:induction false} LinesAfter(lines: seq<string>, rest: string)
    requires Closed(lines, rest)
    ensures Lines(Joined(lines) + rest) == lines + Lines(rest)
  {
    hide LineShape, Lines, Apart;
    if lines == [] {
      assert [] + rest == rest && lines + Lines(rest) == Lines(rest);
    } else {
      var line, front := lines[0], lines[1..];
      LinesAfter(front, rest);
      LinesCons(line, Joined(front) + rest);
      Regroup(line, Joined(front), rest);
      JoinedFirst(lines);
      hide Closed, Joined;
      RegroupLines([line], front, Lines(rest));
    }
  }

  lemma JoinedFirst(lines: seq<string>)
    requires lines != []
    ensures Joined(lines) == lines[0] + Joined(lines[1..]) && lines == [lines[0]] + lines[1..]
  {
  }

  lemma RegroupLines(a: seq<string>, b: seq<string>, c: seq<string>)
    ensures a + b + c == a + (b + c)
  {
  }

  lemma {:induction false} FrontClosed(lines: seq<string>, f: nat, rest: string)
    requires Shape(lines) && f < |lines|
    requires rest != [] && rest[0] != NL
    ensures Closed(lines[..f], rest)
    decreases f
  {
    if f > 0 {
      var front := lines[1..][..f - 1];
      ShapeTail(lines);
      FrontClosed(lines[1..], f - 1, rest);
      JoinedPrefix(lines[1..], f - 1);
      MoreApart(lines[0], Joined(front), Joined(lines[1..]), rest);
      assert lines[..f][0] == lines[0] && lines[..f][1..] == front;
      hide LineShape, Apart, Shape, Joined;
    }
  }

  lemma MoreApart(s: string, t: string, whole: string, rest: string)
    requires Apart(s, whole) && t <= whole && rest != [] && rest[0] != NL
    ensures Apart(s, t + rest)
  {
    assert (t + rest)[0] == if t == [] then rest[0] else whole[0];
  }

  lemma {:induction false} JoinedPrefix(lines: seq<string>, f: nat)
    requires f <= |lines|
    ensures Joined(lines) == Joined(lines[..f]) + Joined(lines[f..])
    decreases f
  {
    if f == 0 {
      assert lines[..0] == [] && lines[0..] == lines;
    } else {
      JoinedPrefix(lines[1..], f - 1);
      assert lines[..f][1..] == lines[1..][..f - 1] && lines[1..][f - 1..] == lines[f..];
      Regroup(lines[0], Joined(lines[..f][1..]), Joined(lines[f..]));
    }
  }

  lemma Regroup(a: string, b: string, c: string)
    ensures a + b + c == a + (b + c)
  {
  }

  lemma JoinOneLine(a: string, b: string)
    requires OneLine(a) && OneLine(b)
    ensures OneLine(a + b)
  {
  }

  lemma {:induction false} ShapeDrop(lines: seq<string>, f: nat)
    requires Shape(lines) && f < |lines|
    ensures Shape(lines[f + 1..]) && Lines(Joined(lines[f + 1..])) == lines[f + 1..]
    ensures LineShape(lines[f], f == |lines| - 1) && Apart(lines[f], Joined(lines[f + 1..]))
    decreases f
  {
    ShapeTail(lines);
    if f == 0 {
      JoinedLines(lines[1..]);
    } else {
      ShapeDrop(lines[1..], f - 1);
      assert lines[1..][f..] == lines[f + 1..];
    }
  }

  lemma EatenLine(rest: seq<string>, line: string)
    requires rest != [] && Shape(rest) && OneLine(line)
    ensures Lines(line + Joined(rest)) == [line + rest[0]] + rest[1..]
  {
    ShapeTail(rest);
    var l := line + rest[0];
    GrownLine(line, rest[0], |rest| == 1);
    Regroup(line, rest[0], Joined(rest[1..]));
    assert l[|l| - 1] == rest[0][|rest[0]| - 1];
    assert Apart(l, Joined(rest[1..]));
    hide LineShape, Apart, Shape, Lines;
    if |rest| == 1 {
      assert Joined(rest[1..]) == [] && l + [] == l && [l] + rest[1..] == [l];
      LinesOne(l);
    } else {
      LinesCons(l, Joined(rest[1..]));
      JoinedLines(rest[1..]);
    }
  }

  lemma GrownLine(a: string, line: string, last: bool)
    requires OneLine(a) && LineShape(line, last)
    ensures LineShape(a + line, last)
  {
    CutOneLine(a, line);
    assert (a + line)[|a + Cut(line)|..] == line[|Cut(line)|..];
  }

  lemma JoinedUpdate(lines: seq<string>, f: nat, line: string)
    requires f < |lines|
    ensures Joined(lines[f := line]) == Joined(lines[..f]) + (line + Joined(lines[f + 1..]))
  {
    var all := lines[f := line];
    JoinedPrefix(all, f);
    assert all[..f] == lines[..f] && all[f..][1..] == lines[f + 1..];
  }

  lemma UpdateIs(lines: seq<string>, f: nat, line: string)
    requires f < |lines|
    ensures lines[f := line] == lines[..f] + ([line] + lines[f + 1..])
  {
  }

  lemma TailsOf(lines: seq<string>, f: nat, line: string)
    requires f + 1 < |lines|
    ensures lines[f + 1..][1..] == lines[f + 2..]
    ensures lines[..f] + ([line] + lines[f + 2..]) == lines[..f] + [line] + lines[f + 2..]
  {
  }

  lemma JoinedBehind(lines: seq<string>, f: nat)
    requires f + 1 < |lines|
    ensures Joined(lines[f + 1..]) == lines[f + 1] + Joined(lines[f + 2..])
  {
    assert lines[f + 1..][1..] == lines[f + 2..];
  }

  lemma SameFront(a: string, b: string, post: string)
    ensures a + post == b + post <==> a == b
  {
    if a + post == b + post {
      assert |a + post| == |b + post|;
      assert a == (a + post)[..|a|] && b == (b + post)[..|b|];
    }
  }

  /** The first line of a text that begins with a text of one line. */
  lemma FirstLineTail(h: string, rest: string) returns (tail: string)
    requires h != [] && OneLine(h)
    ensures h + rest != [] && (h + rest)[..LineLength(h + rest)] == h + tail && Cut(tail) == Cut(rest)
  {
    var first := (h + rest)[..LineLength(h + rest)];
    FirstLine(h + rest);
    CutOneLine(h, rest);
    tail := first[|h|..];
    assert first == h + tail;
    CutOneLine(h, tail);
    hide Cut, OneLine, LineLength;
    SameBehind(h, Cut(tail), Cut(rest));
  }

  lemma SameBehind(h: string, a: string, b: string)
    requires h + a == h + b
    ensures a == b
  {
    assert a == (h + a)[|h|..] && b == (h + b)[|h|..];
  }

  /** The ten characters that end a line. */
  lemma TenBreaks(a: string, c: char, b: string)
    requires OneLine(a)
    ensures Cut(a + [c] + b) == a
            <==> c in {'\n', '\r', '\U{0B}', '\U{0C}', '\U{1C}', '\U{1D}', '\U{1E}', '\U{85}', '\U{2028}', '\U{2029}'}
  {
    assert a + [c] + b == a + ([c] + b);
    CutOneLine(a, [c] + b);
    SameFront([], Cut([c] + b), []);
    assert Cut(a + ([c] + b)) == a <==> Cut([c] + b) == [];
  }
}
