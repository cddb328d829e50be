/** What a patch means for all other fields: what they read as afterwards, and when two patches can
    trade places. */
module YamlFields {
  import opened Options
  import opened Text
  import opened TextLines
  import opened YamlPatch

  // -------------------------------------------------------------------------
  // Reading other fields
  // -------------------------------------------------------------------------

  /** The value of a field in these lines, or the empty string. */
  function ReadLines(lines: seq<string>, section: string, key: string): string {
    var f := Find(lines, false, section, key, true);
    if f.Some? then ValueOf(lines[f.value], key) else ""
  }

  /** The lines other fields can still stand on after a patch of line `f`: all, except that the line
      behind it is part of the patched line when the break between them was eaten. */
  function Surviving(lines: seq<string>, f: nat): (r: seq<string>)
    requires f < |lines|
    ensures f < |r| && r[f] == lines[f]
  {
    if Keeps(lines, f) then lines else lines[..f + 1] + lines[f + 2..]
  }

  lemma SurvivingUpdated(lines: seq<string>, f: nat, first: string)
    requires f < |lines|
    ensures Surviving(lines, f)[f := first] == lines[..f] + ([first] + TailBehind(lines, f))
  {
  }

  lemma SurvivingFound(lines: seq<string>, section: string, key: string)
    requires Plain(key) && SectionName(section) && Find(lines, false, section, key, false).Some?
    ensures var f := Find(lines, false, section, key, false);
            Find(Surviving(lines, f.value), false, section, key, false) == f
  {
    var f := Find(lines, false, section, key, false).value;
    FoundIsIndented(lines, false, section, key);
    hide Find, Names;
    if !Keeps(lines, f) {
      FindReplaced(lines, false, section, key, false, [lines[f]] + lines[f + 2..]);
      LinesAround(lines, f);
    }
  }

  lemma LinesAround(lines: seq<string>, f: nat)
    requires f + 1 < |lines|
    ensures lines == lines[..f] + ([lines[f], lines[f + 1]] + lines[f + 2..])
    ensures lines[..f + 1] + lines[f + 2..] == lines[..f] + ([lines[f]] + lines[f + 2..])
  {
  }

  lemma HeadApart(pre: seq<string>, rest: seq<string>)
    requires pre != []
    ensures pre + rest == [pre[0]] + (pre[1..] + rest)
  {
  }

  /** Another line in the place of the found one that still names the key moves and hides no other
      field. */
  lemma OthersKept(lines: seq<string>, section: string, key: string, line: string,
                   section': string, key': string, strict: bool)
    requires Plain(key) && Plain(key') && SectionName(section)
    requires (section, key) != (section', key')
    requires Find(lines, false, section, key, false).Some?
    requires Indented(line) && Names(line, key, false)
    ensures var f := Find(lines, false, section, key, false).value;
            var f' := Find(lines, false, section', key', strict);
            && Find(lines[f := line], false, section', key', strict) == f'
            && f' != Some(f)
  {
    var f := Find(lines, false, section, key, false).value;
    FoundInside(lines, false, section, key, false);
    FoundIsIndented(lines, false, section, key);
    if section != section' {
      OneSection(lines, false, false, section, section', f);
    } else {
      if Names(line, key', strict) { NamedOnce(line, key, key', strict); }
      if Names(lines[f], key', strict) { NamedOnce(lines[f], key, key', strict); }
    }
    hide Names, Find, InsideAt;
    FindKept(lines, false, section', key', strict, f, line);
    if Find(lines, false, section', key', strict) == Some(f) { FoundInside(lines, false, section', key', strict); }
  }

  /** The lines after a patch, and where any other field is in them. */
  lemma OthersAfter(text: string, section: string, key: string, v: string, q: bool,
                    section': string, key': string, strict: bool)
    requires Plain(key) && Plain(key') && SectionName(section) && OneLine(v)
    requires (section, key) != (section', key')
    requires Patch(text, section, key, v, q).Some?
    ensures var lines := Lines(text);
            var f := Find(lines, false, section, key, false).value;
            var first := FirstBehind(lines, f, Rewritten(lines[f], key, Literal(v, q)));
            var after := Lines(Patch(text, section, key, v, q).value);
            var g := Find(Surviving(lines, f), false, section', key', strict);
            && after == Surviving(lines, f)[f := first]
            && Find(after, false, section', key', strict) == g && g != Some(f)
  {
    var lines := Lines(text);
    var f := Find(lines, false, section, key, false).value;
    var first := FirstBehind(lines, f, Rewritten(lines[f], key, Literal(v, q)));
    FoundIsIndented(lines, false, section, key);
    LinesOfPatched(text, section, key, v, q);
    FirstOfPatched(lines, f, key, Literal(v, q));
    SurvivingUpdated(lines, f, first);
    SurvivingFound(lines, section, key);
    hide Find, Lines, Rewritten, Literal, Names, Surviving, FirstBehind, TailBehind, Patch, Head;
    OthersKept(Surviving(lines, f), section, key, first, section', key', strict);
  }

  /** After a patch any other field reads as it would in the surviving lines. */
  lemma OtherFieldsRead(text: string, section: string, key: string, v: string, q: bool,
                        section': string, key': string)
    requires Plain(key) && Plain(key') && SectionName(section) && OneLine(v)
    requires (section, key) != (section', key')
    requires Patch(text, section, key, v, q).Some?
    ensures var f := Find(Lines(text), false, section, key, false).value;
            Read(Patch(text, section, key, v, q).value, section', key')
            == ReadLines(Surviving(Lines(text), f), section', key')
  {
    OthersAfter(text, section, key, v, q, section', key', true);
    hide Find, Lines, Rewritten, Literal, Names, Surviving, FirstBehind, Patch;
  }

  /** Any other field reads the same as before if and only if the break is kept, or leaving out the
      line behind it does not change what that field reads as. */
  lemma OtherFieldsReadSame(text: string, section: string, key: string, v: string, q: bool,
                            section': string, key': string)
    requires Plain(key) && Plain(key') && SectionName(section) && OneLine(v)
    requires (section, key) != (section', key')
    requires Patch(text, section, key, v, q).Some?
    ensures var lines := Lines(text);
            var f := Find(lines, false, section, key, false).value;
            Read(Patch(text, section, key, v, q).value, section', key') == Read(text, section', key')
            <==> || Keeps(lines, f)
                 || ReadLines(lines[..f + 1] + lines[f + 2..], section', key') == ReadLines(lines, section', key')
  {
    OtherFieldsRead(text, section, key, v, q, section', key');
    hide Find, Lines, Patch, ReadLines;
    ReadIs(text, section', key');
  }

  lemma ReadIs(text: string, section: string, key: string)
    ensures Read(text, section, key) == ReadLines(Lines(text), section, key)
  {
  }

  /** One step of `Find`, with the line and what is behind it apart. */
  lemma FindCons(line: string, rest: seq<string>, was: bool, section: string, key: string, strict: bool)
    ensures var now := Inside(line, was, section);
            var r := Find(rest, now, section, key, strict);
            Find([line] + rest, was, section, key, strict)
            == if now && Names(line, key, strict) then Some(0) else if r.Some? then Some(r.value + 1) else None
  {
    hide Names, Inside;
    assert ([line] + rest)[1..] == rest;
  }

  /** Leaving out an indented line matters only to the field that was found on it. */
  lemma {:induction false} IndentedLeftOut(pre: seq<string>, line: string, rest: seq<string>, was: bool,
                                           section: string, key: string, strict: bool)
    requires Indented(line) && Find(pre + ([line] + rest), was, section, key, strict) != Some(|pre|)
    ensures var g := Find(pre + ([line] + rest), was, section, key, strict);
            Find(pre + rest, was, section, key, strict)
            == if g.Some? && g.value > |pre| then Some(g.value - 1) else g
  {
    hide Names, Find, Inside, Indented;
    if pre == [] {
      assert pre + ([line] + rest) == [line] + rest && pre + rest == rest;
      IndentedStays(line, was, section);
      FindCons(line, rest, was, section, key, strict);
    } else {
      var head, pre' := pre[0], pre[1..];
      HeadApart(pre, [line] + rest);
      HeadApart(pre, rest);
      FindCons(head, pre' + ([line] + rest), was, section, key, strict);
      FindCons(head, pre' + rest, was, section, key, strict);
      var now := Inside(head, was, section);
      if !(now && Names(head, key, strict)) { IndentedLeftOut(pre', line, rest, now, section, key, strict); }
    }
  }

  lemma IndentedStays(line: string, was: bool, section: string)
    requires Indented(line)
    ensures Inside(line, was, section) == was
  {
  }

  lemma ReadLeftOut(lines: seq<string>, j: nat, section: string, key: string)
    requires j < |lines| && Indented(lines[j]) && Find(lines, false, section, key, true) != Some(j)
    ensures ReadLines(lines[..j] + lines[j + 1..], section, key) == ReadLines(lines, section, key)
  {
    hide Find, Names, ValueOf;
    UpdateIs(lines, j, lines[j]);
    assert lines[j := lines[j]] == lines;
    IndentedLeftOut(lines[..j], lines[j], lines[j + 1..], false, section, key, true);
  }

  /** So a field reads the same when the line eaten is indented and not its own. */
  lemma EatenLineOfAnother(text: string, section: string, key: string, v: string, q: bool,
                           section': string, key': string)
    requires Plain(key) && Plain(key') && SectionName(section) && OneLine(v)
    requires (section, key) != (section', key')
    requires Patch(text, section, key, v, q).Some?
    requires var lines := Lines(text);
             var f := Find(lines, false, section, key, false).value;
             && !Keeps(lines, f) && Indented(lines[f + 1])
             && Find(lines, false, section', key', true) != Some(f + 1)
    ensures Read(Patch(text, section, key, v, q).value, section', key') == Read(text, section', key')
  {
    hide Find, Lines, Patch, Names, ReadLines, Read, Indented, Plain, OneLine, SectionName;
    PatchFinds(text, section, key, v, q);
    var f := Find(Lines(text), false, section, key, false).value;
    OtherFieldsReadSame(text, section, key, v, q, section', key');
    ReadLeftOut(Lines(text), f + 1, section', key');
  }

  lemma PatchFinds(text: string, section: string, key: string, v: string, q: bool)
    ensures Patch(text, section, key, v, q).Some? ==> Find(Lines(text), false, section, key, false).Some?
  {
    hide Find, Lines;
  }

  /** A field that stood alone on the line whose break is missing now is gone. */
  lemma NeighbourEaten(text: string, section: string, key: string, v: string, q: bool, key': string)
    requires Plain(key) && Plain(key') && SectionName(section) && OneLine(v) && key != key'
    requires Patch(text, section, key, v, q).Some?
    requires var lines := Lines(text);
             var f := Find(lines, false, section, key, false).value;
             && !Keeps(lines, f)
             && Find(lines, false, section, key', true) == Some(f + 1)
             && Find(lines[f + 2..], true, section, key', true).None?
    ensures Read(Patch(text, section, key, v, q).value, section, key') == ""
  {
    hide Find, Lines, Names, Read;
    var lines := Lines(text);
    var f := Find(lines, false, section, key, false).value;
    hide Patch;
    FoundIsIndented(lines, false, section, key);
    OtherFieldsRead(text, section, key, v, q, section, key');
    LinesAround(lines, f);
    FindDropped(lines[..f], lines[f], lines[f + 1], lines[f + 2..], false, section, key');
  }

  lemma {:induction false} FindDropped(pre: seq<string>, line: string, next: string, rest: seq<string>, was: bool,
                                       section: string, key: string)
    requires Indented(line)
    requires Find(pre + ([line, next] + rest), was, section, key, true) == Some(|pre| + 1)
    requires Find(rest, true, section, key, true).None?
    ensures Find(pre + ([line] + rest), was, section, key, true).None?
  {
    hide Names, Find;
    if pre == [] {
      assert pre + ([line, next] + rest) == [line] + ([next] + rest) && pre + ([line] + rest) == [line] + rest;
      FindCons(line, [next] + rest, was, section, key, true);
      FindCons(next, rest, was, section, key, true);
      FindCons(line, rest, was, section, key, true);
      if !Indented(next) { OnlyIndented(next, key); }
    } else {
      var head, pre' := pre[0], pre[1..];
      HeadApart(pre, [line, next] + rest);
      HeadApart(pre, [line] + rest);
      FindCons(head, pre' + ([line, next] + rest), was, section, key, true);
      FindCons(head, pre' + ([line] + rest), was, section, key, true);
      hide Names, Find, Inside;
      FindDropped(pre', line, next, rest, Inside(head, was, section), section, key);
    }
  }

  // -------------------------------------------------------------------------
  // Two patches
  // -------------------------------------------------------------------------

  /** `Patch` after another patch, failing where either fails. */
  function Then(first: Option<string>, section: string, key: string, v: string, q: bool): Option<string> {
    if first.Some? then Patch(first.value, section, key, v, q) else None
  }

  /** Where the writer finds a field after a patch of line `f`, counted in the lines before it. */
  function FoundAfter(lines: seq<string>, f: nat, section: string, key: string): Option<nat>
    requires f < |lines|
  {
    var g := Find(Surviving(lines, f), false, section, key, false);
    if g.None? || Keeps(lines, f) || g.value <= f then g else Some(g.value + 1)
  }

  lemma FoundAfterFacts(lines: seq<string>, f: nat, section: string, key: string)
    requires f < |lines| && FoundAfter(lines, f, section, key).Some?
    ensures var p := FoundAfter(lines, f, section, key).value;
            var g := Find(Surviving(lines, f), false, section, key, false).value;
            && p < |lines| && lines[p] == Surviving(lines, f)[g] && Names(lines[p], key, false)
            && (g != f ==> p != f) && (!Keeps(lines, f) ==> p != f + 1)
  {
    var g := Find(Surviving(lines, f), false, section, key, false);
    hide Find, Names;
  }

  /** Lines `f` and `f + 1` joined into one make the same text. */
  lemma {:induction false} MergedJoined(all: seq<string>, f: nat)
    requires f + 1 < |all|
    ensures Joined(all[..f] + ([all[f] + all[f + 1]] + all[f + 2..])) == Joined(all)
    decreases f
  {
    var merged := all[..f] + ([all[f] + all[f + 1]] + all[f + 2..]);
    if f == 0 {
      assert merged[1..] == all[2..] && all[1..][1..] == all[2..];
      Regroup(all[0], all[1], Joined(all[2..]));
    } else {
      MergedJoined(all[1..], f - 1);
      assert merged[1..] == all[1..][..f - 1] + ([all[1..][f - 1] + all[1..][f]] + all[1..][f + 1..]);
    }
  }

  lemma MergedUpdate(lines: seq<string>, f: nat, line: string, g: nat, p: nat, l: string)
    requires f + 1 < |lines| && g < |lines| - 1 && g != f && p == if g <= f then g else g + 1
    ensures var all := lines[f := line][p := l];
            (lines[..f + 1] + lines[f + 2..])[f := line + lines[f + 1]][g := l]
            == all[..f] + ([all[f] + all[f + 1]] + all[f + 2..])
  {
  }

  lemma SameText(lines: seq<string>, f: nat, line: string, g: nat, p: nat, l: string)
    requires f < |lines| && g < |Surviving(lines, f)| && g != f
    requires p == if Keeps(lines, f) || g <= f then g else g + 1
    ensures p < |lines|
    ensures Joined(Surviving(lines, f)[f := FirstBehind(lines, f, line)][g := l]) == Joined(lines[f := line][p := l])
  {
    if !Keeps(lines, f) {
      MergedUpdate(lines, f, line, g, p, l);
      MergedJoined(lines[f := line][p := l], f);
    }
    hide Joined;
  }

  /** The text after two patches: both lines rewritten where they stood, the second wherever the
      first patch lets it be found. */
  lemma PatchAfter(text: string, s: string, k: string, v: string, q: bool,
                   s': string, k': string, v': string, q': bool)
    requires Plain(k) && Plain(k') && SectionName(s) && OneLine(v) && (s, k) != (s', k')
    requires Patch(text, s, k, v, q).Some?
    ensures var lines, val, val' := Lines(text), Literal(v, q), Literal(v', q');
            var f := Find(lines, false, s, k, false).value;
            var p := FoundAfter(lines, f, s', k');
            && (p.Some? ==> p.value < |lines| && p.value != f)
            && Then(Patch(text, s, k, v, q), s', k', v', q')
               == if p.None? then None
                  else Some(Joined(lines[f := Rewritten(lines[f], k, val)]
                                        [p.value := Rewritten(lines[p.value], k', val')]))
  {
    var lines, val, val' := Lines(text), Literal(v, q), Literal(v', q');
    var f := Find(lines, false, s, k, false).value;
    var line := Rewritten(lines[f], k, val);
    OthersAfter(text, s, k, v, q, s', k', false);
    var g := Find(Surviving(lines, f), false, s', k', false);
    if g.Some? {
      FoundAfterFacts(lines, f, s', k');
      hide Find, Lines, Joined, Rewritten, Literal, Names, FirstBehind, Plain, SectionName, OneLine;
      var p := FoundAfter(lines, f, s', k').value;
      SameText(lines, f, line, g.value, p, Rewritten(lines[p], k', val'));
    }
  }

  /** Each field is found, or not, at the same place whether or not the other was patched before; or
      neither order succeeds. */
  predicate Commuting(lines: seq<string>, s: string, k: string, s': string, k': string) {
    var f, f' := Find(lines, false, s, k, false), Find(lines, false, s', k', false);
    var p := if f.Some? then FoundAfter(lines, f.value, s', k') else None;
    var p' := if f'.Some? then FoundAfter(lines, f'.value, s, k) else None;
    (p.None? && p'.None?) || (f.Some? && f'.Some? && p == f' && p' == f)
  }

  predicate SameEitherWay(text: string, s: string, k: string, v: string, q: bool,
                          s': string, k': string, v': string, q': bool) {
    Then(Patch(text, s, k, v, q), s', k', v', q') == Then(Patch(text, s', k', v', q'), s, k, v, q)
  }

  lemma UpdatesCommute(lines: seq<string>, i: nat, l: string, j: nat, l': string)
    requires i < |lines| && j < |lines| && i != j
    ensures lines[i := l][j := l'] == lines[j := l'][i := l]
  {
  }

  lemma CommutingSuffices(text: string, s: string, k: string, v: string, q: bool,
                          s': string, k': string, v': string, q': bool)
    requires Plain(k) && Plain(k') && SectionName(s) && SectionName(s') && OneLine(v) && OneLine(v')
    requires (s, k) != (s', k') && Commuting(Lines(text), s, k, s', k')
    ensures SameEitherWay(text, s, k, v, q, s', k', v', q')
  {
    var lines: seq<string> := Lines(text);
    var f, f' := Find(lines, false, s, k, false), Find(lines, false, s', k', false);
    if f.Some? { PatchAfter(text, s, k, v, q, s', k', v', q'); }
    if f'.Some? { PatchAfter(text, s', k', v', q', s, k, v, q); }
    hide Find, Rewritten, Lines, Joined, Literal, Plain, SectionName, OneLine, FoundAfter, Names;
    if f.Some? && f'.Some? && f != f' {
      UpdatesCommute(lines, f.value, Rewritten(lines[f.value], k, Literal(v, q)),
                     f'.value, Rewritten(lines[f'.value], k', Literal(v', q')));
    }
  }

  // -------------------------------------------------------------------------
  // The condition is needed: values of well-chosen length tell where they were put
  // -------------------------------------------------------------------------

  function Run(n: nat): (r: string)
    ensures |r| == n && OneLine(r) && forall i :: 0 <= i < n ==> r[i] == 'a'
  {
    if n == 0 then "" else "a" + Run(n - 1)
  }

  /** A long run of one letter behind a blank stands in one place only. */
  lemma RunPlaced(x: string, y: string, x': string, y': string, n: nat)
    requires x != [] && x[|x| - 1] == ' ' && x' != [] && x'[|x'| - 1] == ' '
    requires n >= |x| + |x'| && x + Run(n) + y == x' + Run(n) + y'
    ensures |x| == |x'|
  {
    var t := x + Run(n) + y;
    assert forall i :: |x| <= i < |x| + n ==> t[i] == 'a';
    assert forall i :: |x'| <= i < |x'| + n ==> (x' + Run(n) + y')[i] == 'a';
    assert t[|x| - 1] == ' ' && (x' + Run(n) + y')[|x'| - 1] == ' ';
  }

  /** Where in the text the value of a rewritten line begins. */
  function Offset(lines: seq<string>, i: nat, key: string): nat
    requires i < |lines|
  {
    |Joined(lines[..i])| + |Head(lines[i], key)|
  }

  lemma {:induction false} IndentShort(line: string)
    ensures |Indent(line)| + |StripLeft(line)| <= |line|
  {
    if Indented(line) {
      assert IsSpace(line[0]);
      IndentShort(line[1..]);
    } else if line != [] && IsSpace(line[0]) {
      IndentShort(line[1..]);
    }
  }

  /** Two lines that name the same key have different offsets. */
  lemma OffsetsDiffer(lines: seq<string>, i: nat, j: nat, key: string)
    requires i < j < |lines| && Plain(key) && Names(lines[i], key, false)
    ensures Offset(lines, i, key) < Offset(lines, j, key)
  {
    IndentShort(lines[i]);
    assert |key + ": "| == |key| + 2;
    FrontLength(lines, i, j);
    hide Joined, Indent, StripLeft;
  }

  lemma FrontLength(lines: seq<string>, i: nat, j: nat)
    requires i < j <= |lines|
    ensures |Joined(lines[..j])| >= |Joined(lines[..i])| + |lines[i]|
  {
    JoinedPrefix(lines[..j], i);
    assert lines[..j][..i] == lines[..i] && lines[..j][i] == lines[i];
  }

  /** How a change of line `f` moves what stands behind it. */
  lemma MovedBy(lines: seq<string>, f: nat, line: string, i: nat)
    requires f < |lines| && i <= |lines|
    ensures |Joined(lines[f := line][..i])| == |Joined(lines[..i])| + (if f < i then |line| - |lines[f]| else 0)
  {
    if f < i {
      var front := lines[..i];
      assert lines[f := line][..i] == front[f := line];
      JoinedUpdate(front, f, line);
      JoinedUpdate(front, f, lines[f]);
      assert front[f := lines[f]] == front;
    } else {
      assert lines[f := line][..i] == lines[..i];
    }
  }

  /** The text with two rewritten lines, cut around the value of the second. */
  lemma TwoRewritten(lines: seq<string>, f: nat, line: string, p: nat, key: string, val: string)
    requires f < |lines| && p < |lines| && p != f
    ensures var front := Joined(lines[f := line][..p]) + Head(lines[p], key);
            && front != [] && front[|front| - 1] == ' '
            && |front| == Offset(lines, p, key) + (if f < p then |line| - |lines[f]| else 0)
            && Joined(lines[f := line][p := Rewritten(lines[p], key, val)])
               == front + val + (End(lines[p]) + Joined(lines[f := line][p + 1..]))
  {
    var all := lines[f := line];
    var front, behind := Joined(all[..p]), Joined(all[p + 1..]);
    var head, e := Head(lines[p], key), End(lines[p]);
    MovedBy(lines, f, line, p);
    JoinedUpdate(all, p, Rewritten(lines[p], key, val));
    RewrittenBegins(lines[p], key, val);
    HeadEnds(lines[p], key);
    hide Joined, Head, End, Rewritten;
    Pieces(front, head, val, e, behind);
    assert (front + head)[|front + head| - 1] == head[|head| - 1];
  }

  lemma HeadEnds(line: string, key: string)
    ensures Head(line, key) != [] && Head(line, key)[|Head(line, key)| - 1] == ' '
  {
    var w := key + ": ";
    assert w[|w| - 1] == ' ';
    assert Head(line, key)[|Head(line, key)| - 1] == w[|w| - 1];
  }

  lemma Pieces(front: string, head: string, val: string, e: string, behind: string)
    ensures front + (head + (val + e) + behind) == front + head + val + (e + behind)
  {
  }

  lemma RewrittenLength(line: string, key: string, val: string)
    ensures |Rewritten(line, key, val)| == |Head(line, key)| + |val| + |End(line)|
  {
    RewrittenBegins(line, key, val);
  }

  /** By how much a rewritten line grows when its value is empty. */
  function Growth(line: string, key: string): int {
    |Head(line, key)| + |End(line)| - |line|
  }

  /** Both orders give the same text for these two values. */
  predicate Agree(lines: seq<string>, f: nat, k: string, p: nat, k': string, f': nat, p': nat, v: string, v': string)
    requires f < |lines| && p < |lines| && f' < |lines| && p' < |lines|
  {
    Joined(lines[f := Rewritten(lines[f], k, v)][p := Rewritten(lines[p], k', v')])
    == Joined(lines[f' := Rewritten(lines[f'], k', v')][p' := Rewritten(lines[p'], k, v)])
  }

  /** If they agree whatever the second value, it stands at one place. */
  lemma SecondPlaced(lines: seq<string>, f: nat, k: string, p: nat, k': string, f': nat, p': nat, v: string)
    requires f < |lines| && p < |lines| && f' < |lines| && p' < |lines| && f != p && f' != p'
    requires forall v' :: OneLine(v') ==> Agree(lines, f, k, p, k', f', p', v, v')
    ensures Offset(lines, p, k') + (if f < p then Growth(lines[f], k) + |v| else 0)
         == Offset(lines, f', k') + (if p' < f' then Growth(lines[p'], k) + |v| else 0)
  {
    hide Joined, Rewritten, Head, End, Offset, Run, OneLine;
    var one, other := Rewritten(lines[f], k, v), Rewritten(lines[p'], k, v);
    var x := Joined(lines[f := one][..p]) + Head(lines[p], k');
    var x' := Joined(lines[p' := other][..f']) + Head(lines[f'], k');
    var v' := Run(|x| + |x'|);
    assert Agree(lines, f, k, p, k', f', p', v, v');
    TwoRewritten(lines, f, one, p, k', v');
    TwoRewritten(lines, p', other, f', k', v');
    UpdatesCommute(lines, p', other, f', Rewritten(lines[f'], k', v'));
    RewrittenLength(lines[f], k, v);
    RewrittenLength(lines[p'], k, v);
    RunPlaced(x, End(lines[p]) + Joined(lines[f := one][p + 1..]),
              x', End(lines[f']) + Joined(lines[p' := other][f' + 1..]), |x| + |x'|);
  }

  lemma AgreeTurned(lines: seq<string>, f: nat, k: string, p: nat, k': string, f': nat, p': nat, v: string, v': string)
    requires f < |lines| && p < |lines| && f' < |lines| && p' < |lines|
    ensures Agree(lines, f, k, p, k', f', p', v, v') ==> Agree(lines, f', k', p', k, f, p, v', v)
  {
    hide Joined, Rewritten;
  }

  /** Two places that agree for all values are the same places. */
  lemma SamePlaces(lines: seq<string>, f: nat, k: string, p: nat, k': string, f': nat, p': nat)
    requires f < |lines| && p < |lines| && f' < |lines| && p' < |lines| && f != p && f' != p'
    requires Plain(k) && Plain(k')
    requires Names(lines[f], k, false) && Names(lines[p'], k, false)
    requires Names(lines[p], k', false) && Names(lines[f'], k', false)
    requires forall v, v' :: OneLine(v) && OneLine(v') ==> Agree(lines, f, k, p, k', f', p', v, v')
    ensures p == f' && p' == f
  {
    forall v, v' | OneLine(v) && OneLine(v') ensures Agree(lines, f', k', p', k, f, p, v', v) {
      AgreeTurned(lines, f, k, p, k', f', p', v, v');
    }
    hide Names, Agree, Offset, Growth;
    SecondPlaced(lines, f, k, p, k', f', p', Run(0));
    SecondPlaced(lines, f, k, p, k', f', p', Run(1));
    SecondPlaced(lines, f', k', p', k, f, p, Run(0));
    SecondPlaced(lines, f', k', p', k, f, p, Run(1));
    SameOffset(lines, f, p', k);
    SameOffset(lines, p, f', k');
  }

  lemma SameOffset(lines: seq<string>, i: nat, j: nat, key: string)
    requires i < |lines| && j < |lines| && Plain(key) && Names(lines[i], key, false) && Names(lines[j], key, false)
    ensures Offset(lines, i, key) == Offset(lines, j, key) ==> i == j
  {
    if i < j { OffsetsDiffer(lines, i, j, key); }
    if j < i { OffsetsDiffer(lines, j, i, key); }
  }

  /** Both orders succeed, and agree for these values. */
  lemma AgreeIfSame(text: string, s: string, k: string, v: string, s': string, k': string, v': string)
    requires Plain(k) && Plain(k') && SectionName(s) && SectionName(s') && OneLine(v) && OneLine(v')
    requires (s, k) != (s', k') && SameEitherWay(text, s, k, v, false, s', k', v', false)
    requires Patch(text, s, k, v, false).Some? && Patch(text, s', k', v', false).Some?
    ensures var lines := Lines(text);
            var f, f' := Find(lines, false, s, k, false).value, Find(lines, false, s', k', false).value;
            var p, p' := FoundAfter(lines, f, s', k'), FoundAfter(lines, f', s, k);
            && p.Some? == p'.Some?
            && (p.Some? ==> p.value < |lines| && p'.value < |lines| && p.value != f && p'.value != f'
                            && Agree(lines, f, k, p.value, k', f', p'.value, v, v'))
  {
    PatchAfter(text, s, k, v, false, s', k', v', false);
    PatchAfter(text, s', k', v', false, s, k, v, false);
    hide Find, Lines, Patch, Joined, Rewritten, FoundAfter;
  }

  lemma CommutingNeeded(text: string, s: string, k: string, s': string, k': string)
    requires Plain(k) && Plain(k') && SectionName(s) && SectionName(s') && (s, k) != (s', k')
    requires forall v, v' :: OneLine(v) && OneLine(v') ==> SameEitherWay(text, s, k, v, false, s', k', v', false)
    ensures Commuting(Lines(text), s, k, s', k')
  {
    var lines: seq<string> := Lines(text);
    var f, f' := Find(lines, false, s, k, false), Find(lines, false, s', k', false);
    assert OneLine("");
    assert SameEitherWay(text, s, k, "", false, s', k', "", false);
    if f.None? {
      if f'.Some? { PatchAfter(text, s', k', "", false, s, k, "", false); }
    } else if f'.None? {
      PatchAfter(text, s, k, "", false, s', k', "", false);
    } else {
      BothCommute(text, s, k, s', k');
    }
  }

  lemma BothCommute(text: string, s: string, k: string, s': string, k': string)
    requires Plain(k) && Plain(k') && SectionName(s) && SectionName(s') && (s, k) != (s', k')
    requires forall v, v' :: OneLine(v) && OneLine(v') ==> SameEitherWay(text, s, k, v, false, s', k', v', false)
    requires Find(Lines(text), false, s, k, false).Some? && Find(Lines(text), false, s', k', false).Some?
    ensures Commuting(Lines(text), s, k, s', k')
  {
    hide Find, Lines, Patch, Names, Agree, FoundAfter, SameEitherWay, Plain, SectionName;
    var lines: seq<string> := Lines(text);
    var f, f' := Find(lines, false, s, k, false), Find(lines, false, s', k', false);
    FoundFor(text, s, k);
    FoundFor(text, s', k');
    assert OneLine("");
    hide OneLine;
    AgreeIfSame(text, s, k, "", s', k', "");
    var p, p' := FoundAfter(lines, f.value, s', k'), FoundAfter(lines, f'.value, s, k);
    if p.Some? {
      FoundAfterFacts(lines, f.value, s', k');
      FoundAfterFacts(lines, f'.value, s, k);
      FoundNames(lines, s, k);
      FoundNames(lines, s', k');
      forall v, v' | OneLine(v) && OneLine(v')
        ensures Agree(lines, f.value, k, p.value, k', f'.value, p'.value, v, v')
      {
        AgreeIfSame(text, s, k, v, s', k', v');
      }
      SamePlaces(lines, f.value, k, p.value, k', f'.value, p'.value);
    }
  }

  lemma FoundFor(text: string, section: string, key: string)
    requires Find(Lines(text), false, section, key, false).Some?
    ensures forall v, q :: Patch(text, section, key, v, q).Some?
  {
  }

  lemma FoundNames(lines: seq<string>, section: string, key: string)
    requires Find(lines, false, section, key, false).Some?
    ensures Names(lines[Find(lines, false, section, key, false).value], key, false)
  {
  }

  /** Patches of two fields can trade places for all one-line values, failures included, if and only
      if each is found at the same place whether or not the other was patched before, or neither
      order succeeds. */
  lemma PatchesCommute(text: string, s: string, k: string, s': string, k': string)
    requires Plain(k) && Plain(k') && SectionName(s) && SectionName(s') && (s, k) != (s', k')
    ensures (forall v, q, v', q' :: OneLine(v) && OneLine(v') ==> SameEitherWay(text, s, k, v, q, s', k', v', q'))
            <==> Commuting(Lines(text), s, k, s', k')
  {
    if Commuting(Lines(text), s, k, s', k') {
      forall v, q, v', q' | OneLine(v) && OneLine(v') ensures SameEitherWay(text, s, k, v, q, s', k', v', q') {
        CommutingSuffices(text, s, k, v, q, s', k', v', q');
      }
    } else if forall v, q, v', q' :: OneLine(v) && OneLine(v') ==> SameEitherWay(text, s, k, v, q, s', k', v', q') {
      CommutingNeeded(text, s, k, s', k');
    }
  }

  /** In particular when both keep their breaks. */
  lemma KeptPatchesCommute(text: string, s: string, k: string, s': string, k': string)
    requires Plain(k) && Plain(k') && SectionName(s) && SectionName(s') && (s, k) != (s', k')
    requires var f, f' := Find(Lines(text), false, s, k, false), Find(Lines(text), false, s', k', false);
             (f.Some? ==> Keeps(Lines(text), f.value)) && (f'.Some? ==> Keeps(Lines(text), f'.value))
    ensures Commuting(Lines(text), s, k, s', k')
  {
    hide Find;
  }

  // The lines of a small text in which the field `k` ends in a form feed.
  const HEADER := "s:\n"
  const LINE_K := "  k: 1\U{C}"
  const LINE_Z := "  z: 2\n"
  const EATEN := [HEADER, LINE_K, LINE_Z]

  /** For one: `z`, which stood behind a form feed, can be read before `k` is patched and not
      afterwards. */
  lemma FieldEaten(v: string, q: bool)
    requires OneLine(v)
    ensures var text := Joined(EATEN);
            && Read(text, "s", "z") == "2"
            && Patch(text, "s", "k", v, q).Some?
            && Read(Patch(text, "s", "k", v, q).value, "s", "z") == ""
  {
    EatenShape();
    LineFacts();
    hide Find, Names, ValueOf, LINE_K, LINE_Z, HEADER, Joined;
    EatenIn(HEADER, LINE_K, LINE_Z, v, q);
  }

  lemma EatenIn(h: string, k: string, z: string, v: string, q: bool)
    requires Shape([h, k, z]) && OneLine(v) && End(k) == []
    requires Inside(h, false, "s") && Inside(k, true, "s") && Inside(z, true, "s")
    requires !Names(h, "k", false) && Names(k, "k", false)
    requires !Names(h, "z", true) && !Names(k, "z", true) && Names(z, "z", true) && ValueOf(z, "z") == "2"
    ensures var text := Joined([h, k, z]);
            && Read(text, "s", "z") == "2"
            && Patch(text, "s", "k", v, q).Some?
            && Read(Patch(text, "s", "k", v, q).value, "s", "z") == ""
  {
    hide Names, Inside, Shape, ValueOf, Joined, Lines, End, Plain, OneLine, Rewritten, Literal;
    var lines := [h, k, z];
    JoinedLines(lines);
    assert Plain("k") && Plain("z") by { PlainLetters(); }
    assert lines[1..] == [k, z] && [k, z][1..] == [z] && lines[3..] == [];
    assert Find(lines, false, "s", "k", false) == Some(1);
    assert Find([z], true, "s", "z", true) == Some(0);
    assert Find([k, z], true, "s", "z", true) == Some(1);
    assert Find(lines, false, "s", "z", true) == Some(2);
    NeighbourEaten(Joined(lines), "s", "k", v, q, "z");
  }

  /** In that text the order of two patches matters: `k` and then `z` fails, `z` and then `k`
      succeeds. */
  lemma OrderMatters(v: string, q: bool, v': string, q': bool)
    requires OneLine(v) && OneLine(v')
    ensures var text := Joined(EATEN);
            && Then(Patch(text, "s", "k", v, q), "s", "z", v', q').None?
            && Then(Patch(text, "s", "z", v', q'), "s", "k", v, q).Some?
  {
    EatenShape();
    LineFacts();
    hide Find, Names, ValueOf, LINE_K, LINE_Z, HEADER, Joined;
    OrderMattersIn(HEADER, LINE_K, LINE_Z, v, q, v', q');
  }

  lemma OrderMattersIn(h: string, k: string, z: string, v: string, q: bool, v': string, q': bool)
    requires Shape([h, k, z]) && OneLine(v) && OneLine(v') && End(k) == []
    requires Inside(h, false, "s") && Inside(k, true, "s") && Inside(z, true, "s")
    requires !Names(h, "k", false) && Names(k, "k", false)
    requires !Names(h, "z", false) && !Names(k, "z", false) && Names(z, "z", false)
    ensures var text := Joined([h, k, z]);
            && Then(Patch(text, "s", "k", v, q), "s", "z", v', q').None?
            && Then(Patch(text, "s", "z", v', q'), "s", "k", v, q).Some?
  {
    hide Names, Inside, Shape, ValueOf, Joined, Lines, End, Plain, OneLine, Rewritten, Literal, Then;
    var lines := [h, k, z];
    JoinedLines(lines);
    assert Plain("k") && Plain("z") by { PlainLetters(); }
    assert lines[1..] == [k, z] && [k, z][1..] == [z];
    assert Find(lines, false, "s", "k", false) == Some(1);
    assert Find([z], true, "s", "z", false) == Some(0);
    assert Find([k, z], true, "s", "z", false) == Some(1);
    assert Find(lines, false, "s", "z", false) == Some(2);
    assert Surviving(lines, 1) == [h, k] && [h, k][1..] == [k] && [k][1..] == [];
    assert Find([h, k], false, "s", "z", false) == None;
    PatchAfter(Joined(lines), "s", "k", v, q, "s", "z", v', q');
    PatchAfter(Joined(lines), "s", "z", v', q', "s", "k", v, q);
  }

  lemma PlainLetters()
    ensures Plain("k") && Plain("z")
  {
  }

  lemma EatenShape()
    ensures Shape(EATEN) && End(LINE_K) == []
  {
    HeaderShape();
    LineKShape();
    LineZShape();
    hide LineShape, Apart, HEADER, LINE_K, LINE_Z, Shape, End;
    ThreeLines(HEADER, LINE_K, LINE_Z);
  }

  lemma HeaderShape()
    ensures LineShape(HEADER, false) && Apart(HEADER, LINE_K)
  {
    assert HEADER == "s:" + [NL];
    LineOf("s:", NL, false, LINE_K);
  }

  lemma LineKShape()
    ensures LineShape(LINE_K, false) && Apart(LINE_K, LINE_Z) && End(LINE_K) == []
  {
    assert LINE_K == "  k: 1" + ['\U{C}'];
    LineOf("  k: 1", '\U{C}', false, LINE_Z);
  }

  lemma LineZShape()
    ensures LineShape(LINE_Z, true)
  {
    assert LINE_Z == "  z: 2" + [NL];
    LineOf("  z: 2", NL, true, []);
  }

  lemma ThreeLines(a: string, b: string, c: string)
    requires LineShape(a, false) && LineShape(b, false) && LineShape(c, true) && Apart(a, b) && Apart(b, c)
    ensures Shape([a, b, c])
  {
    hide LineShape, Apart;
  }

  lemma LineOf(body: string, c: char, last: bool, next: string)
    requires OneLine(body) && IsBreak(c) && (next != [] ==> next[0] != NL)
    ensures LineShape(body + [c], last) && Apart(body + [c], next)
    ensures c != NL ==> End(body + [c]) == []
  {
    LengthOf(body, [c]);
  }

  /** What the lines name. */
  lemma LineFacts()
    ensures Inside(HEADER, false, "s") && !Names(HEADER, "k", false)
    ensures !Names(HEADER, "z", true) && !Names(HEADER, "z", false)
    ensures Inside(LINE_K, true, "s") && Names(LINE_K, "k", false)
    ensures !Names(LINE_K, "z", true) && !Names(LINE_K, "z", false)
    ensures Inside(LINE_Z, true, "s") && Names(LINE_Z, "z", true) && Names(LINE_Z, "z", false)
    ensures ValueOf(LINE_Z, "z") == "2"
  {
    HeaderFacts();
    TwoSpaces("k");
    TwoSpaces("z");
    BeginsLoose("  ", "k", "1\U{C}");
    BeginsStrict("  ", "z", "2\n");
    BeginsLoose("  ", "z", "2\n");
    SmallTexts();
    hide Head, Indent, Cut, Strip, StripLeft, StripRight, Unquoted, Names, LINE_K, LINE_Z;
    if Names(LINE_K, "z", true) { NamedOnce(LINE_K, "k", "z", true); }
    if Names(LINE_K, "z", false) { NamedOnce(LINE_K, "k", "z", false); }
  }

  lemma HeaderFacts()
    ensures Inside(HEADER, false, "s") && !Names(HEADER, "k", false)
    ensures !Names(HEADER, "z", true) && !Names(HEADER, "z", false)
  {
    assert HEADER == "s:" + [NL];
    StripRightPad("s:", [NL]);
    assert StripLeft(HEADER) == HEADER;
  }

  lemma TwoSpaces(key: string)
    requires Plain(key)
    ensures Indented("  ") && Head("  ", key) == "  " + (key + ": ")
  {
    assert "  "[1..] == " " && " "[1..] == "";
    assert Indent("") == "" && Indent(" ") == " ";
    assert " " + " " == "  ";
  }

  lemma SmallTexts()
    ensures "  " + ("k" + ": ") + "1\U{C}" == LINE_K && "  " + ("z" + ": ") + "2\n" == LINE_Z
    ensures Strip(Cut("2\n")) == "2"
  {
    CutOneLine("2", "\n");
    assert "2\n" == "2" + "\n" && Cut("\n") == "" && "2" + "" == "2";
    StripTrimmed("2");
  }
}
