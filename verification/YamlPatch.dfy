/** The line patch of a configuration file: one value is replaced, every other byte stays. */
module YamlPatch {
  import opened Options
  import opened Text
  import opened TextLines

  // -------------------------------------------------------------------------
  // Finding a field
  // -------------------------------------------------------------------------

  predicate Indented(line: string) {
    line != [] && (line[0] == ' ' || line[0] == '\t')
  }

  function Indent(line: string): (r: string)
    ensures AllSpace(r) && OneLine(r)
  {
    if Indented(line) then [line[0]] + Indent(line[1..]) else []
  }

  /** Whether the section is open after this line; every line that is not indented, a blank one
      included, opens or closes it. */
  predicate Inside(line: string, was: bool, section: string) {
    if Indented(line) then was else StripRight(line) == section + ":"
  }

  /** `^\s+key\s*:` for the writer; `^\s+key:` on an indented line, without its break, for the
      reader. */
  predicate Names(line: string, key: string, strict: bool) {
    var l := if strict then Cut(line) else line;
    var r := StripLeft(l);
    && (strict ==> Indented(line))
    && |r| < |l|
    && key <= r
    && var t := if strict then r[|key|..] else StripLeft(r[|key|..]);
       t != [] && t[0] == ':'
  }

  /** The first line of the section that names the key. */
  function Find(lines: seq<string>, was: bool, section: string, key: string, strict: bool): (r: Option<nat>)
    ensures r.Some? ==> r.value < |lines| && Names(lines[r.value], key, strict)
  {
    if lines == [] then None
    else
      var now := Inside(lines[0], was, section);
      if now && Names(lines[0], key, strict) then Some(0)
      else
        var r := Find(lines[1..], now, section, key, strict);
        if r.Some? then Some(r.value + 1) else None
  }

  /** Whether the section is open after line `j`. */
  predicate InsideAt(lines: seq<string>, was: bool, section: string, j: nat)
    requires j < |lines|
  {
    var now := Inside(lines[0], was, section);
    if j == 0 then now else InsideAt(lines[1..], now, section, j - 1)
  }

  // -------------------------------------------------------------------------
  // Reading and patching
  // -------------------------------------------------------------------------

  predicate Quoted(v: string) {
    |v| >= 2 && v[0] == '"' && v[|v| - 1] == '"'
  }

  function Unquoted(v: string): string {
    if Quoted(v) then v[1..|v| - 1] else v
  }

  function ValueOf(line: string, key: string): string
    requires Names(line, key, true)
  {
    Unquoted(Strip(StripLeft(Cut(line))[|key| + 1..]))
  }

  function Rewritten(line: string, key: string, val: string): string {
    Indent(line) + key + ": " + val + End(line)
  }

  function Literal(value: string, quote: bool): string {
    if quote then "\"" + value + "\"" else value
  }

  /** The value of a field, or the empty string. */
  function Read(text: string, section: string, key: string): string {
    var f := Find(Lines(text), false, section, key, true);
    if f.Some? then ValueOf(Lines(text)[f.value], key) else ""
  }

  function PatchedLines(lines: seq<string>, section: string, key: string, val: string): Option<seq<string>> {
    var f := Find(lines, false, section, key, false);
    if f.Some? then Some(lines[f.value := Rewritten(lines[f.value], key, val)]) else None
  }

  /** The patched text, or `None` for a missing section or key. */
  function Patch(text: string, section: string, key: string, value: string, quote: bool): Option<string> {
    var r := PatchedLines(Lines(text), section, key, Literal(value, quote));
    if r.Some? then Some(Joined(r.value)) else None
  }

  /** What is found from line `i` on. */
  function Ahead(lines: seq<string>, i: nat, was: bool, section: string, key: string, strict: bool): Option<nat>
    requires i <= |lines|
  {
    var r := Find(lines[i..], was, section, key, strict);
    if r.Some? then Some(i + r.value) else None
  }

  lemma AheadStep(lines: seq<string>, i: nat, was: bool, section: string, key: string, strict: bool)
    requires i < |lines|
    ensures var now := Inside(lines[i], was, section);
            Ahead(lines, i, was, section, key, strict)
            == if now && Names(lines[i], key, strict) then Some(i) else Ahead(lines, i + 1, now, section, key, strict)
  {
    hide Names;
    assert lines[i..][0] == lines[i] && lines[i..][1..] == lines[i + 1..];
  }

  lemma AheadEnds(lines: seq<string>, was: bool, section: string, key: string, strict: bool)
    ensures Ahead(lines, 0, was, section, key, strict) == Find(lines, was, section, key, strict)
    ensures Ahead(lines, |lines|, was, section, key, strict) == None
  {
    assert lines[0..] == lines && lines[|lines|..] == [];
  }

  method YamlField(text: string, section: string, key: string) returns (v: string)
    ensures v == Read(text, section, key)
  {
    hide Find, Ahead, Names, Indented, Cut, StripRight, Shape;
    var lines := Lines(text);
    LinesJoin(text);
    var inSection := false;
    AheadEnds(lines, inSection, section, key, true);
    for i := 0 to |lines|
      invariant Ahead(lines, i, inSection, section, key, true) == Find(lines, false, section, key, true)
    {
      var line := lines[i];
      WithoutBreak(lines, i);
      AheadStep(lines, i, inSection, section, key, true);
      if !Indented(Cut(line)) {
        inSection := StripRight(Cut(line)) == section + ":";
        OnlyIndented(line, key);
        continue;
      }
      if inSection && Names(line, key, true) {
        return ValueOf(line, key);
      }
    }
    AheadEnds(lines, inSection, section, key, true);
    return "";
  }

  /** What the reader sees of a line, which has lost its break. */
  lemma WithoutBreak(lines: seq<string>, i: nat)
    requires Shape(lines) && i < |lines|
    ensures Indented(Cut(lines[i])) == Indented(lines[i])
    ensures StripRight(Cut(lines[i])) == StripRight(lines[i])
  {
    var line := lines[i];
    assert LineShape(line, i == |lines| - 1);
    var c := Cut(line);
    assert line == c + line[|c|..];
    assert forall j :: 0 <= j < |line[|c|..]| ==> IsBreak(line[|c|..][j]);
    StripRightPad(c, line[|c|..]);
    if c == [] { assert IsBreak(line[0]); }
  }

  lemma OnlyIndented(line: string, key: string)
    requires !Indented(line)
    ensures !Names(line, key, true)
  {
  }

  method PatchYamlField(text: string, section: string, key: string, value: string, quote: bool)
    returns (r: Option<string>)
    ensures r == Patch(text, section, key, value, quote)
  {
    hide Find, Ahead, Names, Indented, Bare, StripRight, Rewritten, Joined, Lines;
    var val := if quote then "\"" + value + "\"" else value;
    var lines := Lines(text);
    var out: seq<string> := [];
    var inSection, replaced := false, false;
    ghost var f := Find(lines, false, section, key, false);
    AheadEnds(lines, inSection, section, key, false);
    for i := 0 to |lines|
      invariant !replaced ==> out == lines[..i] && Ahead(lines, i, inSection, section, key, false) == f
      invariant replaced ==> f.Some? && f.value < i
      invariant replaced ==> out == lines[f.value := Rewritten(lines[f.value], key, val)][..i]
    {
      var line := lines[i];
      AheadStep(lines, i, inSection, section, key, false);
      BareStrips(line);
      if !Indented(line) {
        inSection := StripRight(Bare(line)) == section + ":";
      }
      if inSection && !replaced && Names(line, key, false) {
        out := out + [Rewritten(line, key, val)];
        replaced := true;
        continue;
      }
      out := out + [line];
    }
    AheadEnds(lines, inSection, section, key, false);
    if !replaced {
      return None;
    }
    assert out == lines[f.value := Rewritten(lines[f.value], key, val)];
    return Some(Joined(out));
  }

  lemma BareStrips(line: string)
    ensures StripRight(Bare(line)) == StripRight(line)
  {
  }

  // -------------------------------------------------------------------------
  // Facts about one line
  // -------------------------------------------------------------------------

  /** A key has no whitespace and no colon. */
  predicate Plain(key: string) {
    key != [] && forall i :: 0 <= i < |key| ==> !IsSpace(key[i]) && key[i] != ':'
  }

  predicate SectionName(section: string) {
    section != [] ==> !IsSpace(section[0])
  }

  lemma {:induction false} IndentFacts(line: string, rest: string)
    requires rest != [] && !IsSpace(rest[0])
    ensures Indent(Indent(line) + rest) == Indent(line)
    ensures StripLeft(Indent(line) + rest) == rest
  {
    var t := Indent(line) + rest;
    if Indented(line) {
      IndentFacts(line[1..], rest);
      assert IsSpace(line[0]);
      assert t[0] == line[0] && t[1..] == Indent(line[1..]) + rest;
      hide IsSpace;
      assert Indent(t) == [line[0]] + Indent(t[1..]);
    } else {
      assert t == rest;
      assert !Indented(rest);
    }
  }

  /** How every rewritten line begins. */
  function Head(line: string, key: string): string {
    Indent(line) + (key + ": ")
  }

  lemma HeadOneLine(line: string, key: string)
    requires Plain(key)
    ensures OneLine(Head(line, key))
  {
    forall i | 0 <= i < |Head(line, key)| ensures !IsBreak(Head(line, key)[i]) {
      var n := |Indent(line)|;
      if i >= n { assert Head(line, key)[i] == (key + ": ")[i - n]; }
    }
  }

  lemma KeyColon(key: string, rest: string)
    ensures var w := key + ": " + rest;
            |w| > |key| && key <= w && w[|key|] == ':' && w[|key|..] == ": " + rest && w[|key| + 1..] == " " + rest
  {
    assert (key + ": ")[|key|] == ':';
  }

  /** A line that begins like a rewritten one, seen by the writer. */
  lemma BeginsLoose(line: string, key: string, rest: string)
    requires Plain(key) && Indented(line)
    ensures var l := Head(line, key) + rest;
            Indented(l) && Indent(l) == Indent(line) && StripLeft(l) == key + ": " + rest && Names(l, key, false)
  {
    var l, w := Head(line, key) + rest, key + ": " + rest;
    Regroup(Indent(line), key + ": ", rest);
    IndentFacts(line, w);
    assert Indent(line)[0] == line[0];
    assert w[|key|..] == ": " + rest;
    ColonEnds(": " + rest);
    hide IsSpace, StripLeft, Indent;
  }

  /** The same, seen by the reader. */
  lemma BeginsStrict(line: string, key: string, rest: string)
    requires Plain(key) && Indented(line)
    ensures var l := Head(line, key) + rest;
            && Names(l, key, true)
            && ValueOf(l, key) == Unquoted(Strip(Cut(rest)))
  {
    var l := Head(line, key) + rest;
    HeadOneLine(line, key);
    CutOneLine(Head(line, key), rest);
    BeginsLoose(line, key, Cut(rest));
    BeginsLoose(line, key, rest);
    KeyColon(key, Cut(rest));
    BlankGone(Cut(rest));
    hide Head, StripLeft, Cut, Strip, Indent, OneLine, Plain;
  }

  lemma BlankGone(s: string)
    ensures Strip(" " + s) == Strip(s)
  {
    assert " " + s + "" == " " + s;
    StripPad(" ", s, "");
  }

  lemma ColonEnds(tail: string)
    ensures tail != [] && tail[0] == ':' ==> StripLeft(tail) == tail
  {
  }

  lemma RewrittenBegins(line: string, key: string, val: string)
    ensures Rewritten(line, key, val) == Head(line, key) + (val + End(line))
  {
    hide Indent, End;
  }

  /** Whether a key read at the front of `r` ends after `n` characters. */
  predicate EndsAt(r: string, n: nat) {
    n < |r| && (r[n] == ':' || IsSpace(r[n]))
  }

  lemma NotLonger(r: string, key: string, other: string)
    requires key <= r && other <= r && EndsAt(r, |key|) && Plain(other)
    ensures |other| <= |key|
  {
    assert forall i {:trigger r[i]} :: 0 <= i < |other| ==> r[i] == other[i];
  }

  /** A text starts with one key only. */
  lemma OneKey(r: string, key: string, other: string)
    requires key <= r && other <= r && EndsAt(r, |key|) && EndsAt(r, |other|)
    requires Plain(key) && Plain(other)
    ensures key == other
  {
    NotLonger(r, key, other);
    NotLonger(r, other, key);
    assert key == r[..|key|] && other == r[..|other|];
  }

  lemma NamedEnds(line: string, key: string)
    requires Names(line, key, false)
    ensures key <= StripLeft(line) && EndsAt(StripLeft(line), |key|)
  {
  }

  /** What a line names is unique. */
  lemma NamedOnce(line: string, key: string, other: string, strict: bool)
    requires Plain(key) && Plain(other)
    requires Names(line, key, false) && Names(line, other, strict)
    ensures key == other
  {
    if strict { StrictIsLoose(line, other); }
    NamedEnds(line, key);
    NamedEnds(line, other);
    OneKey(StripLeft(line), key, other);
  }

  /** What the reader recognises, the writer recognises too. */
  lemma StrictIsLoose(line: string, key: string)
    requires Plain(key) && Names(line, key, true)
    ensures Names(line, key, false)
  {
    var b := Cut(line);
    var r, tail := StripLeft(b), line[|b|..];
    assert line == b + tail;
    var a := SplitLeft(b);
    assert r[0] == key[0];
    Regroup(a, r, tail);
    StripLeftPad(a, r + tail);
    assert StripLeft(line) == r + tail;
    assert (r + tail)[|key|..] == r[|key|..] + tail;
    ColonEnds(r[|key|..] + tail);
  }

  /** Only an indented line can be found. */
  lemma FoundIndented(line: string, was: bool, section: string, key: string)
    requires SectionName(section) && Inside(line, was, section) && Names(line, key, false)
    ensures Indented(line)
  {
    StripRightLast(line);
    assert !Indented(line) ==> section + ":" <= line;
    assert !IsSpace((section + ":")[0]);
  }

  // -------------------------------------------------------------------------
  // Facts about finding
  // -------------------------------------------------------------------------

  lemma {:induction false} FoundInside(lines: seq<string>, was: bool, section: string, key: string, strict: bool)
    requires Find(lines, was, section, key, strict).Some?
    ensures InsideAt(lines, was, section, Find(lines, was, section, key, strict).value)
  {
    hide Names, Inside;
    var now, rest := Inside(lines[0], was, section), lines[1..];
    if !(now && Names(lines[0], key, strict)) {
      FoundInside(rest, now, section, key, strict);
      var j := Find(rest, now, section, key, strict).value;
      assert Find(lines, was, section, key, strict) == Some(j + 1);
    }
  }

  /** No line of the section that names the key lies before the one found. */
  lemma {:induction false} FoundFirst(lines: seq<string>, was: bool, section: string, key: string, strict: bool, j: nat)
    requires j < |lines| && InsideAt(lines, was, section, j) && Names(lines[j], key, strict)
    ensures Find(lines, was, section, key, strict).Some? && Find(lines, was, section, key, strict).value <= j
  {
    if j > 0 { FoundFirst(lines[1..], Inside(lines[0], was, section), section, key, strict, j - 1); }
  }

  lemma {:induction false} FoundIsIndented(lines: seq<string>, was: bool, section: string, key: string)
    requires SectionName(section) && Find(lines, was, section, key, false).Some?
    ensures Indented(lines[Find(lines, was, section, key, false).value])
  {
    var now := Inside(lines[0], was, section);
    if now && Names(lines[0], key, false) {
      FoundIndented(lines[0], was, section, key);
    } else {
      FoundIsIndented(lines[1..], now, section, key);
    }
  }

  /** At most one section is open. */
  lemma {:induction false} OneSection(lines: seq<string>, was: bool, was': bool, s: string, s': string, j: nat)
    requires j < |lines| && s != s' && !(was && was')
    ensures !(InsideAt(lines, was, s, j) && InsideAt(lines, was', s', j))
  {
    var now, now' := Inside(lines[0], was, s), Inside(lines[0], was', s');
    assert s + ":" != s' + ":" by {
      assert (s + ":")[..|s|] == s && (s' + ":")[..|s'|] == s';
    }
    if j > 0 { OneSection(lines[1..], now, now', s, s', j - 1); }
  }

  lemma Updated(lines: seq<string>, j: nat, line: string)
    requires j < |lines|
    ensures j > 0 ==> lines[j := line][0] == lines[0] && lines[j := line][1..] == lines[1..][j - 1 := line]
    ensures j == 0 ==> lines[j := line][0] == line && lines[j := line][1..] == lines[1..]
  {
  }

  /** Changing a line that counts for nothing, before or after, leaves every find as it was. */
  lemma {:induction false} FindKept(lines: seq<string>, was: bool, section: string, key: string, strict: bool,
                                    j: nat, line: string)
    requires j < |lines| && Indented(lines[j]) && Indented(line)
    requires (InsideAt(lines, was, section, j) ==> !Names(lines[j], key, strict) && !Names(line, key, strict))
    ensures Find(lines[j := line], was, section, key, strict) == Find(lines, was, section, key, strict)
  {
    hide Names;
    Updated(lines, j, line);
    if j > 0 {
      FindKept(lines[1..], Inside(lines[0], was, section), section, key, strict, j - 1, line);
    }
  }

  /** A line put in the place of the found one is found there, by writer and reader, when it names
      the key too, whatever follows it. */
  lemma {:induction false} FindReplaced(lines: seq<string>, was: bool, section: string, key: string, strict: bool,
                                        tail: seq<string>)
    requires Plain(key) && Find(lines, was, section, key, false).Some?
    requires Indented(lines[Find(lines, was, section, key, false).value])
    requires tail != [] && Indented(tail[0]) && Names(tail[0], key, strict)
    ensures var f := Find(lines, was, section, key, false);
            Find(lines[..f.value] + tail, was, section, key, strict) == f
  {
    var now := Inside(lines[0], was, section);
    var f := Find(lines, was, section, key, false).value;
    if Names(lines[0], key, true) { StrictIsLoose(lines[0], key); }
    hide Names;
    var all := lines[..f] + tail;
    if f > 0 {
      assert all[0] == lines[0] && all[1..] == lines[1..][..f - 1] + tail;
      FindReplaced(lines[1..], now, section, key, strict, tail);
    } else {
      assert all == tail;
    }
  }

  // -------------------------------------------------------------------------
  // What a patch does to the lines
  // -------------------------------------------------------------------------

  /** The patch does not eat the line's break: it is a newline, or there is no line behind it. */
  predicate Keeps(lines: seq<string>, f: nat)
    requires f < |lines|
  {
    End(lines[f]) != [] || f == |lines| - 1
  }

  lemma FoundFacts(text: string, section: string, key: string)
    requires SectionName(section) && Find(Lines(text), false, section, key, false).Some?
    ensures var f := Find(Lines(text), false, section, key, false).value;
            Shape(Lines(text)) && Indented(Lines(text)[f])
  {
    LinesJoin(text);
    FoundIsIndented(Lines(text), false, section, key);
  }

  /** For any value at all: the lines before the found one stay; from there on the text is the
      rewritten line and what follows it. */
  lemma PatchedFrom(text: string, section: string, key: string, value: string, quote: bool)
    requires Plain(key) && SectionName(section)
    requires Find(Lines(text), false, section, key, false).Some?
    ensures var lines := Lines(text);
            var f := Find(lines, false, section, key, false).value;
            var r := Patch(text, section, key, value, quote);
            var now := Rewritten(lines[f], key, Literal(value, quote)) + Joined(lines[f + 1..]);
            && r == Some(Joined(lines[..f]) + now)
            && Lines(r.value) == lines[..f] + Lines(now)
            && now == Head(lines[f], key) + (Literal(value, quote) + (End(lines[f]) + Joined(lines[f + 1..])))
  {
    var lines, val := Lines(text), Literal(value, quote);
    var f := Find(lines, false, section, key, false).value;
    var line, post := Rewritten(lines[f], key, val), Joined(lines[f + 1..]);
    FoundFacts(text, section, key);
    JoinedUpdate(lines, f, line);
    RewrittenBegins(lines[f], key, val);
    BeginsLoose(lines[f], key, val + End(lines[f]));
    Regroup(Head(lines[f], key), val + End(lines[f]), post);
    Regroup(val, End(lines[f]), post);
    hide Rewritten, Lines, Shape, Find, Joined, Literal, Head, Names;
    assert (line + post)[0] == line[0];
    FrontClosed(lines, f, line + post);
    LinesAfter(lines[..f], line + post);
  }

  lemma LiteralOneLine(value: string, quote: bool)
    ensures OneLine(Literal(value, quote)) <==> OneLine(value)
  {
    if quote && OneLine(Literal(value, true)) {
      forall i | 0 <= i < |value| ensures !IsBreak(value[i]) {
        assert Literal(value, true)[i + 1] == value[i];
      }
    }
  }

  /** The shape of a rewritten line with a value of one line. */
  lemma RewrittenShape(line: string, key: string, val: string)
    requires Plain(key) && OneLine(val)
    ensures var l := Rewritten(line, key, val);
            && l != [] && End(l) == End(line)
            && Cut(l) == Head(line, key) + val
            && LineShape(l, true) && (End(line) != [] ==> LineShape(l, false))
            && (End(line) == [] ==> OneLine(l))
  {
    var h, e := Head(line, key), End(line);
    RewrittenBegins(line, key, val);
    HeadOneLine(line, key);
    Regroup(h, val, e);
    JoinOneLine(h, val);
    CutOneLine(h + val, e);
    hide Head, Rewritten;
    var l := h + val + e;
    assert l[|h + val|..] == e;
    assert h + val + [] == h + val;
    if e == [] { assert l == h + val && !IsBreak(l[|l| - 1]); }
  }

  /** A patch with a value of one line. It fails exactly when the writer finds no line. Otherwise
      it changes the found line and no other, and no line appears or goes, if and only if it keeps
      the break of that line; where it does not, the next line is joined to the rewritten one. */
  lemma PatchChangesOneLine(text: string, section: string, key: string, value: string, quote: bool)
    requires Plain(key) && SectionName(section) && OneLine(value)
    ensures var lines := Lines(text);
            var found := Find(lines, false, section, key, false);
            var r := Patch(text, section, key, value, quote);
            && r.Some? == found.Some?
            && (found.Some? ==>
                  var f := found.value;
                  var line := Rewritten(lines[f], key, Literal(value, quote));
                  && (Keeps(lines, f) ==> Lines(r.value) == lines[f := line])
                  && (!Keeps(lines, f) ==>
                        Lines(r.value) == lines[..f] + [line + lines[f + 1]] + lines[f + 2..]))
  {
    var lines := Lines(text);
    var found := Find(lines, false, section, key, false);
    if found.Some? {
      var f, val := found.value, Literal(value, quote);
      FoundFacts(text, section, key);
      PatchedFrom(text, section, key, value, quote);
      LiteralOneLine(value, quote);
      RewrittenShape(lines[f], key, val);
      hide Rewritten, Find, Literal, Head, LineShape, Shape, Lines, End, Joined, OneLine, Keeps, Patch;
      LinesFrom(lines, f, Rewritten(lines[f], key, val));
    }
  }

  lemma LinesFrom(lines: seq<string>, f: nat, line: string)
    requires Shape(lines) && f < |lines|
    requires LineShape(line, true) && End(line) == End(lines[f])
    requires if End(lines[f]) != [] then LineShape(line, false) else OneLine(line)
    ensures var now := line + Joined(lines[f + 1..]);
            && (Keeps(lines, f) ==> lines[..f] + Lines(now) == lines[f := line])
            && (!Keeps(lines, f) ==> lines[..f] + Lines(now) == lines[..f] + [line + lines[f + 1]] + lines[f + 2..])
  {
    ShapeDrop(lines, f);
    if Keeps(lines, f) {
      hide LineShape, Shape, Lines, Joined;
      KeptLine(lines, f, line);
      UpdateIs(lines, f, line);
    } else {
      hide LineShape, Shape, Lines, Joined;
      EatenLine(lines[f + 1..], line);
      TailsOf(lines, f, line + lines[f + 1]);
    }
  }

  /** The line count tells the two cases apart. */
  lemma LineCountKept(text: string, section: string, key: string, value: string, quote: bool)
    requires Plain(key) && SectionName(section) && OneLine(value)
    requires Patch(text, section, key, value, quote).Some?
    ensures |Lines(Patch(text, section, key, value, quote).value)| == |Lines(text)|
            <==> Keeps(Lines(text), Find(Lines(text), false, section, key, false).value)
  {
    PatchChangesOneLine(text, section, key, value, quote);
    hide Find, Lines, Rewritten, Literal;
  }

  lemma KeptLine(lines: seq<string>, f: nat, line: string)
    requires f < |lines| && Keeps(lines, f) && Lines(Joined(lines[f + 1..])) == lines[f + 1..]
    requires LineShape(line, true) && End(line) == End(lines[f]) && (End(line) != [] ==> LineShape(line, false))
    ensures Lines(line + Joined(lines[f + 1..])) == [line] + lines[f + 1..]
  {
    hide LineShape, Lines;
    if End(lines[f]) != [] {
      LinesCons(line, Joined(lines[f + 1..]));
    } else {
      assert Joined(lines[f + 1..]) == [] && line + [] == line;
      LinesOne(line);
    }
  }

  // -------------------------------------------------------------------------
  // Reading back
  // -------------------------------------------------------------------------

  /** The text that runs on into the patched line because its break was eaten. */
  function RunOn(lines: seq<string>, f: nat): string
    requires f < |lines|
  {
    if End(lines[f]) == [] then Cut(Joined(lines[f + 1..])) else []
  }

  /** For any value: the reader sees it up to the first break of what is then in the text. */
  lemma ReadsAs(text: string, section: string, key: string, value: string, quote: bool)
    requires Plain(key) && SectionName(section)
    requires Find(Lines(text), false, section, key, false).Some?
    ensures var lines := Lines(text);
            var f := Find(lines, false, section, key, false).value;
            var r := Patch(text, section, key, value, quote);
            && r.Some?
            && Read(r.value, section, key)
               == Unquoted(Strip(Cut(Literal(value, quote) + (End(lines[f]) + Joined(lines[f + 1..])))))
  {
    var lines, val := Lines(text), Literal(value, quote);
    var f := Find(lines, false, section, key, false).value;
    var rest := val + (End(lines[f]) + Joined(lines[f + 1..]));
    var now := Head(lines[f], key) + rest;
    PatchedFrom(text, section, key, value, quote);
    FoundFacts(text, section, key);
    FirstLineBegins(lines[f], key, rest);
    assert Lines(now)[0] == now[..LineLength(now)];
    hide Lines, Find, Literal, Head, End, Joined, Names, LineLength, Cut, Strip, Unquoted, Rewritten;
    FindReplaced(lines, false, section, key, true, Lines(now));
  }

  lemma FirstLineBegins(line: string, key: string, rest: string)
    requires Plain(key) && Indented(line)
    ensures var now := Head(line, key) + rest;
            var first := now[..LineLength(now)];
            && now != [] && Indented(first) && Names(first, key, true)
            && ValueOf(first, key) == Unquoted(Strip(Cut(rest)))
  {
    HeadOneLine(line, key);
    var tail := FirstLineTail(Head(line, key), rest);
    BeginsStrict(line, key, tail);
    BeginsLoose(line, key, tail);
    hide Head, Names, Cut, Strip, StripLeft, Unquoted, OneLine, Plain;
  }

  function InQuotes(v: string): string {
    "\"" + v + "\""
  }

  /** Reading a patched field gives the value back if and only if the value has no line break of any
      kind and, where the patch keeps the line's own break, was quoted or is trimmed and not itself
      in quotes. Text that runs on into the line must be blank, or happen to put an unquoted value
      in quotes. */
  lemma ReadBack(text: string, section: string, key: string, value: string, quote: bool)
    requires Plain(key) && SectionName(section)
    requires Patch(text, section, key, value, quote).Some?
    ensures var lines := Lines(text);
            var f := Find(lines, false, section, key, false).value;
            var more := RunOn(lines, f);
            Read(Patch(text, section, key, value, quote).value, section, key) == value
            <==> OneLine(value)
                 && (if quote then AllSpace(more)
                     else || (AllSpace(more) && Trimmed(value) && !Quoted(value))
                          || Strip(value + more) == InQuotes(value))
  {
    var lines, val := Lines(text), Literal(value, quote);
    var f := Find(lines, false, section, key, false).value;
    var rest := End(lines[f]) + Joined(lines[f + 1..]);
    ReadsAs(text, section, key, value, quote);
    LiteralOneLine(value, quote);
    CutRest(lines, f);
    hide Lines, Find, Patch, Read, Literal, Joined, RunOn, Strip, Unquoted, Quoted, Cut, End;
    if OneLine(value) {
      CutOneLine(val, rest);
      if quote { QuotedSurvives(value, RunOn(lines, f)); } else { BareSurvives(value, RunOn(lines, f)); }
    } else {
      CutWhole(val);
      CutStops(val, rest);
      BrokenLost(value, quote);
    }
  }

  lemma CutRest(lines: seq<string>, f: nat)
    requires f < |lines|
    ensures Cut(End(lines[f]) + Joined(lines[f + 1..])) == RunOn(lines, f)
  {
    if End(lines[f]) == [] { assert [] + Joined(lines[f + 1..]) == Joined(lines[f + 1..]); }
  }

  /** The usual case: the line ends in a newline, or is the last one. */
  lemma ReadBackUsual(text: string, section: string, key: string, value: string, quote: bool)
    requires Plain(key) && SectionName(section)
    requires Patch(text, section, key, value, quote).Some?
    requires Keeps(Lines(text), Find(Lines(text), false, section, key, false).value)
    ensures Read(Patch(text, section, key, value, quote).value, section, key) == value
            <==> OneLine(value) && (quote || (Trimmed(value) && !Quoted(value)))
  {
    ReadBack(text, section, key, value, quote);
    assert value + [] == value;
    StripShorter(value);
    hide Lines, Find, Patch, Read, Strip, Quoted;
  }

  lemma StripShorter(s: string)
    ensures |Strip(s)| <= |s|
  {
    var a := SplitLeft(s);
    var b := SplitRight(StripLeft(s));
  }

  lemma QuotedSurvives(value: string, more: string)
    ensures Unquoted(Strip(Literal(value, true) + more)) == value <==> AllSpace(more)
  {
    var q := InQuotes(value);
    assert Literal(value, true) == q;
    StripKeepsHead(q, more);
    var m := StripRight(more);
    var b := SplitRight(more);
    assert q[1..|q| - 1] == value;
    if m == [] {
      assert q + [] == q;
      assert more == b;
    } else {
      StripRightLast(more);
      assert |Unquoted(q + m)| > |value|;
      assert more[|m| - 1] == m[|m| - 1];
    }
  }

  /** Text that begins and ends with something other than whitespace is not touched from the left. */
  lemma StripKeepsHead(s: string, more: string)
    requires s != [] && !IsSpace(s[0]) && !IsSpace(s[|s| - 1])
    ensures Strip(s + more) == s + StripRight(more)
  {
    var front, last := s[..|s| - 1], s[|s| - 1];
    assert s == front + [last];
    assert (s + more)[0] == s[0];
    assert StripLeft(s + more) == s + more;
    hide StripLeft, StripRight, IsSpace;
    StripRightStops(front, last, more);
  }

  lemma BareSurvives(value: string, more: string)
    ensures Unquoted(Strip(Literal(value, false) + more)) == value
            <==> || (AllSpace(more) && Trimmed(value) && !Quoted(value))
                 || Strip(value + more) == InQuotes(value)
  {
    var s := Strip(value + more);
    if Quoted(s) {
      assert s == "\"" + s[1..|s| - 1] + "\"";
      UnquotedOnce(s, value);
      if AllSpace(more) {
        StripPad([], value, more);
        assert [] + value + more == value + more;
        if Trimmed(value) { StripTrimmed(value); }
      }
    } else {
      assert InQuotes(value)[0] == '"' && InQuotes(value)[|value| + 1] == '"';
      StripIsTrimmed(value + more);
      if s == value { TrimmedPrefix(value, more); }
      if AllSpace(more) && Trimmed(value) {
        StripPad([], value, more);
        assert [] + value + more == value + more;
        StripTrimmed(value);
      }
    }
  }

  lemma UnquotedOnce(s: string, value: string)
    requires Quoted(s)
    ensures Unquoted(s) == value <==> s == InQuotes(value)
  {
    assert s == "\"" + s[1..|s| - 1] + "\"";
    assert InQuotes(value)[1..|value| + 1] == value;
  }

  /** Stripping a longer text gives back a trimmed beginning only if the rest is blank. */
  lemma TrimmedPrefix(value: string, more: string)
    requires Trimmed(value) && Strip(value + more) == value
    ensures AllSpace(more)
  {
    if value == [] {
      assert value + more == more;
      var a := SplitLeft(more);
      var b := SplitRight(StripLeft(more));
      assert more == a + b;
    } else {
      StripKeepsHead(value, more);
      var b := SplitRight(more);
      assert |StripRight(more)| == 0;
      assert more == b;
    }
  }

  /** A value with a line break in it is never read back: the reader stops at the break. */
  lemma BrokenLost(value: string, quote: bool)
    requires !OneLine(value)
    ensures Unquoted(Strip(Cut(Literal(value, quote)))) != value
  {
    var c := Cut(value);
    CutWhole(value);
    assert |c| < |value| && IsSpace(value[|c|]);
    CutLiteral(value, quote);
    hide Cut, Strip, OneLine, IsSpace, Literal, IsBreak;
    var seen := if quote then "\"" + c else c;
    StripShorter(seen);
    StripIsTrimmed(seen);
    TrimmedNot(Strip(seen), value, |c|);
  }

  lemma CutLiteral(value: string, quote: bool)
    requires |Cut(value)| < |value|
    ensures Cut(Literal(value, quote)) == if quote then "\"" + Cut(value) else Cut(value)
  {
    if quote {
      Regroup("\"", value, "\"");
      CutOneLine("\"", value + "\"");
      CutStops(value, "\"");
    }
    hide Cut;
  }

  lemma TrimmedNot(s: string, value: string, c: nat)
    requires Trimmed(s) && c < |value| && IsSpace(value[c]) && |s| <= c + 1
    ensures s != value
  {
  }

  /** For one: a carriage return. */
  lemma CarriageReturnCuts(text: string, section: string, key: string, quote: bool)
    requires Plain(key) && SectionName(section)
    requires Patch(text, section, key, "a\rb", quote).Some?
    ensures Read(Patch(text, section, key, "a\rb", quote).value, section, key) != "a\rb"
  {
    assert IsBreak("a\rb"[1]);
    ReadBack(text, section, key, "a\rb", quote);
  }

  // -------------------------------------------------------------------------
  // Patches one after the other
  // -------------------------------------------------------------------------

  /** Only the last patch of a field matters, so patching twice is patching once, if and only if the
      first one keeps the line's break or eats it before an empty line. */
  lemma LastPatchWins(text: string, section: string, key: string, v: string, q: bool, v': string, q': bool)
    requires Plain(key) && SectionName(section) && OneLine(v)
    requires Patch(text, section, key, v, q).Some?
    ensures var lines := Lines(text);
            var f := Find(lines, false, section, key, false).value;
            Patch(Patch(text, section, key, v, q).value, section, key, v', q') == Patch(text, section, key, v', q')
            <==> Keeps(lines, f) || lines[f + 1] == [NL]
  {
    var lines, val, val' := Lines(text), Literal(v, q), Literal(v', q');
    var f := Find(lines, false, section, key, false).value;
    var line, text' := Rewritten(lines[f], key, val), Patch(text, section, key, v, q).value;
    var first, tail := FirstBehind(lines, f, line), TailBehind(lines, f);
    FoundFacts(text, section, key);
    LiteralOneLine(v, q);
    RewrittenShape(lines[f], key, val);
    EndsAgree(lines, f, line);
    LinesOfPatched(text, section, key, v, q);
    FirstOfPatched(lines, f, key, val);
    FindReplaced(lines, false, section, key, false, [first] + tail);
    PatchedFrom(text, section, key, v', q');
    assert LineShape(lines[f], f == |lines| - 1);
    hide Find, Rewritten, Lines, Joined, Literal, Shape, Head, Keeps, FirstBehind, TailBehind, Names, LineShape, Patch;
    PatchedAt(text', lines[..f], first, tail, section, key, v', q');
    SameEnd(Joined(lines[..f]), Head(lines[f], key), val', End(first) + Joined(tail),
            End(lines[f]) + Joined(lines[f + 1..]));
  }

  /** The line that stands in the place of the found one afterwards, and the lines behind it. */
  function FirstBehind(lines: seq<string>, f: nat, line: string): string
    requires f < |lines|
  {
    if Keeps(lines, f) then line else line + lines[f + 1]
  }

  function TailBehind(lines: seq<string>, f: nat): seq<string>
    requires f < |lines|
  {
    if Keeps(lines, f) then lines[f + 1..] else lines[f + 2..]
  }

  lemma LinesOfPatched(text: string, section: string, key: string, v: string, q: bool)
    requires Plain(key) && SectionName(section) && OneLine(v)
    requires Patch(text, section, key, v, q).Some?
    ensures var lines := Lines(text);
            var f := Find(lines, false, section, key, false).value;
            var line := Rewritten(lines[f], key, Literal(v, q));
            Lines(Patch(text, section, key, v, q).value)
            == lines[..f] + ([FirstBehind(lines, f, line)] + TailBehind(lines, f))
  {
    var lines := Lines(text);
    var f := Find(lines, false, section, key, false).value;
    var line := Rewritten(lines[f], key, Literal(v, q));
    PatchChangesOneLine(text, section, key, v, q);
    hide Find, Rewritten, Lines, Literal;
    if Keeps(lines, f) { UpdateIs(lines, f, line); } else { TailsOf(lines, f, line + lines[f + 1]); }
  }

  lemma PatchedAt(text: string, pre: seq<string>, first: string, tail: seq<string>,
                  section: string, key: string, v: string, q: bool)
    requires Plain(key) && SectionName(section)
    requires Lines(text) == pre + ([first] + tail)
    requires Find(Lines(text), false, section, key, false) == Some(|pre|)
    ensures Patch(text, section, key, v, q)
         == Some(Joined(pre) + (Head(first, key) + (Literal(v, q) + (End(first) + Joined(tail)))))
  {
    PatchedFrom(text, section, key, v, q);
    hide Find, Lines, Joined, Head, End, Rewritten;
    SplitAt(pre, first, tail);
  }

  lemma SplitAt(pre: seq<string>, first: string, tail: seq<string>)
    ensures var lines := pre + ([first] + tail);
            lines[..|pre|] == pre && lines[|pre|] == first && lines[|pre| + 1..] == tail
  {
  }

  lemma FirstOfPatched(lines: seq<string>, f: nat, key: string, val: string)
    requires f < |lines| && Plain(key) && Indented(lines[f])
    ensures var first := FirstBehind(lines, f, Rewritten(lines[f], key, val));
            Indented(first) && Names(first, key, false) && Head(first, key) == Head(lines[f], key)
  {
    RewrittenBegins(lines[f], key, val);
    var w := val + End(lines[f]);
    BeginsLoose(lines[f], key, w);
    if !Keeps(lines, f) {
      Regroup(Head(lines[f], key), w, lines[f + 1]);
      BeginsLoose(lines[f], key, w + lines[f + 1]);
    }
    HeadAgain(lines[f], FirstBehind(lines, f, Rewritten(lines[f], key, val)), key);
    hide Rewritten, Names, Head, Indent;
  }

  lemma HeadAgain(line: string, line': string, key: string)
    ensures Indent(line) == Indent(line') ==> Head(line, key) == Head(line', key)
  {
  }

  lemma SameEnd(pre: string, head: string, val: string, a: string, b: string)
    ensures pre + (head + (val + a)) == pre + (head + (val + b)) <==> a == b
  {
    var x, y := pre + (head + (val + a)), pre + (head + (val + b));
    var n := |pre| + |head| + |val|;
    assert x[n..] == a && y[n..] == b;
  }

  lemma EndsAgree(lines: seq<string>, f: nat, line: string)
    requires f < |lines| && End(line) == End(lines[f]) && (f + 1 < |lines| ==> lines[f + 1] != [])
    ensures End(FirstBehind(lines, f, line)) + Joined(TailBehind(lines, f)) == End(lines[f]) + Joined(lines[f + 1..])
            <==> Keeps(lines, f) || lines[f + 1] == [NL]
  {
    if !Keeps(lines, f) {
      var next, post := lines[f + 1], Joined(lines[f + 2..]);
      JoinedBehind(lines, f);
      assert [] + (next + post) == next + post;
      assert (line + next)[|line + next| - 1] == next[|next| - 1];
      assert End(line + next) == End(next);
      SameFront(End(next), next, post);
      hide Joined;
    }
  }
}
