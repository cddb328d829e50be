/** Reading and patching a printed configuration document: the field the document has, and that one. */
module YamlDocuments {
  import opened Options
  import opened Text
  import opened TextLines
  import opened YamlPatch

  // -------------------------------------------------------------------------
  // Documents
  // -------------------------------------------------------------------------

  /** What a line of a configuration file is. */
  datatype Item =
    | Heading(name: string)
    | Field(indent: string, key: string, value: string, quoted: bool)
    | Remark(indent: string, text: string)
    | Gap

  function Content(item: Item): string {
    match item
    case Heading(name) => name + ":"
    case Field(indent, key, value, quoted) =>
      indent + (key + ": ") + (if quoted then "\"" + value + "\"" else value)
    case Remark(indent, text) => indent + ("#" + text)
    case Gap => ""
  }

  function LineOf(item: Item): string {
    Content(item) + "\n"
  }

  function Print(items: seq<Item>): string {
    if items == [] then "" else LineOf(items[0]) + Print(items[1..])
  }

  ghost predicate Blanks(s: string) {
    forall i :: 0 <= i < |s| ==> s[i] == ' ' || s[i] == '\t'
  }

  /** Names without blanks or colons, one-line values; a value that is not in quotes has no blanks around it
      and does not itself look quoted. */
  ghost predicate Tidy(item: Item) {
    && OneLine(Content(item))
    && match item
       case Heading(name) => name != "" && !IsSpace(name[0]) && name[0] != '#'
       case Field(indent, key, value, quoted) =>
         && indent != "" && Blanks(indent) && Plain(key) && key[0] != '#'
         && (!quoted ==> Trimmed(value) && !(|value| >= 2 && value[0] == '"' && value[|value| - 1] == '"'))
       case Remark(indent, _) => Blanks(indent)
       case Gap => true
  }

  ghost predicate Asked(section: string, key: string) {
    && (section != "" ==> !IsSpace(section[0]) && section[0] != '#')
    && Plain(key) && key[0] != '#'
  }

  // -------------------------------------------------------------------------
  // Single lines
  // -------------------------------------------------------------------------

  lemma {:induction false} IndentOfBlanks(s: string)
    requires Blanks(s)
    ensures Indent(s) == s && (s != "" ==> Indented(s)) && AllSpace(s)
  {
    if s != "" {
      IndentOfBlanks(s[1..]);
      assert s == [s[0]] + s[1..];
    }
  }

  lemma CutLine(item: Item)
    requires OneLine(Content(item))
    ensures Cut(LineOf(item)) == Content(item) && LineShape(LineOf(item), false)
  {
    LengthOf(Content(item), "\n");
    hide Content, Cut, LineLength;
  }

  lemma MarginLine(item: Item, section: string)
    requires Tidy(item) && (section != "" ==> section[0] != '#')
    ensures item.Heading? ==> !Indented(LineOf(item)) && StripRight(LineOf(item)) == item.name + ":"
    ensures item.Gap? ==> !Indented(LineOf(item)) && StripRight(LineOf(item)) == ""
    ensures item.Remark? && item.indent == "" ==>
              !Indented(LineOf(item)) && StripRight(LineOf(item)) != section + ":"
  {
    match item
    case Heading(name) =>
      StripRightStops(name, ':', "\n");
      AllSpaceGone("\n");
      assert LineOf(item) == name + [':'] + "\n" && LineOf(item)[0] == name[0];
    case Gap => AllSpaceGone("\n");
    case Remark(indent, text) =>
      if indent == "" {
        assert LineOf(item) == [] + ['#'] + (text + "\n");
        StripRightStops([], '#', text + "\n");
        assert (section + ":")[0] != '#';
      }
    case Field(_, _, _, _) =>
  }

  lemma IndentedLine(item: Item)
    requires Tidy(item)
    ensures item.Field? || (item.Remark? && item.indent != "") ==> Indented(LineOf(item))
  {
    if item.Field? || (item.Remark? && item.indent != "") { assert LineOf(item)[0] == item.indent[0]; }
  }

  predicate AtMargin(item: Item) {
    item.Heading? || item.Gap? || (item.Remark? && item.indent == "")
  }

  lemma InsideOf(item: Item, was: bool, section: string)
    requires Tidy(item) && (section != "" ==> section[0] != '#')
    ensures Inside(LineOf(item), was, section)
         == if AtMargin(item) then item == Heading(section) else was
  {
    MarginLine(item, section);
    IndentedLine(item);
    hide LineOf, StripRight, Indented, Tidy;
    assert item.Heading? && item.name + ":" == section + ":" ==> item.name == section by {
      SameFront(if item.Heading? then item.name else "", section, ":");
    }
  }

  /** What a line names once its blanks are gone, seen with or without its break. */
  lemma FrontOf(item: Item, end: string)
    requires Tidy(item) && !item.Field? && (end == "" || end == "\n")
    ensures var l := Content(item) + end;
            StripLeft(l) == l || StripLeft(l) == [] || StripLeft(l)[0] == '#'
  {
    match item
    case Heading(name) => assert (name + ":" + end)[0] == name[0];
    case Gap =>
      assert "" + end == end;
      AllSpaceGone("\n");
    case Remark(indent, text) =>
      IndentOfBlanks(indent);
      Regroup(indent, "#" + text, end);
      StripLeftPad(indent, "#" + text + end);
      hide IsSpace;
      assert ("#" + text + end)[0] == '#' && !IsSpace('#') by { assert !IsSpace('#'); }
    case Field(_, _, _, _) =>
  }

  lemma OthersNameNothing(item: Item, key: string, strict: bool)
    requires Tidy(item) && !item.Field? && Plain(key) && key[0] != '#'
    ensures !Names(LineOf(item), key, strict)
  {
    FrontOf(item, "");
    FrontOf(item, "\n");
    CutLine(item);
    assert Content(item) + "" == Content(item);
    hide Content, StripLeft, Tidy, Cut;
  }

  /** A printed field names its own key and no other. */
  lemma FieldNames(item: Item, key: string, strict: bool)
    requires Tidy(item) && item.Field? && Plain(key)
    ensures Names(LineOf(item), key, strict) <==> item.key == key
  {
    FieldLine(item);
    FieldBegins(item);
    hide Names, LineOf, Tidy;
    if Names(LineOf(item), key, strict) { NamedOnce(LineOf(item), item.key, key, strict); }
  }

  /** Blanks before the colon: the writer takes the line for the key's, the reader does not. */
  lemma ColonStandsOff(indent: string, key: string, gap: string, rest: string)
    requires indent != "" && Blanks(indent) && Plain(key) && Blanks(gap) && gap != ""
    ensures var line := indent + (key + (gap + (":" + rest)));
            Names(line, key, false) && !Names(line, key, true)
  {
    var tail := gap + (":" + rest);
    var line := indent + (key + tail);
    IndentOfBlanks(indent);
    IndentOfBlanks(gap);
    StripLeftPad(indent, key + tail);
    StripLeftPad(gap, ":" + rest);
    assert StripLeft(line) == key + tail && (key + tail)[|key|..] == tail;
    assert StripLeft(tail) == ":" + rest by { ColonEnds(":" + rest); }
    ReaderStops(indent, key, tail);
  }

  /** The reader wants the colon right behind the key. */
  lemma ReaderStops(indent: string, key: string, tail: string)
    requires Blanks(indent) && Plain(key) && tail != [] && (tail[0] == ' ' || tail[0] == '\t')
    ensures !Names(indent + (key + tail), key, true)
  {
    var line := indent + (key + tail);
    IndentOfBlanks(indent);
    assert OneLine(indent) && OneLine(key) by { BlanksOneLine(indent); PlainOneLine(key); }
    CutOneLine(indent, key + tail);
    CutOneLine(key, tail);
    StripLeftPad(indent, key + Cut(tail));
    assert Cut(line) == indent + (key + Cut(tail));
    assert StripLeft(Cut(line)) == key + Cut(tail);
    assert (key + Cut(tail))[|key|..] == Cut(tail);
    hide Cut, StripLeft, Plain;
  }

  lemma BlanksOneLine(s: string)
    requires Blanks(s)
    ensures OneLine(s)
  {
  }

  lemma PlainOneLine(key: string)
    requires Plain(key)
    ensures OneLine(key)
  {
  }

  function Written(item: Item): string
    requires item.Field?
  {
    Literal(item.value, item.quoted)
  }

  lemma FieldLine(item: Item)
    requires Tidy(item) && item.Field?
    ensures Plain(item.key) && Indented(item.indent) && Indent(item.indent) == item.indent
    ensures LineOf(item) == Head(item.indent, item.key) + (Written(item) + "\n")
  {
    IndentOfBlanks(item.indent);
    Regroup(item.indent + (item.key + ": "), Written(item), "\n");
  }

  lemma FieldBegins(item: Item)
    requires Tidy(item) && item.Field?
    ensures Names(LineOf(item), item.key, false) && Names(LineOf(item), item.key, true)
    ensures Indent(LineOf(item)) == item.indent
    ensures ValueOf(LineOf(item), item.key) == item.value
  {
    FieldLine(item);
    WrittenReads(item);
    hide Names, LineOf, Tidy, ValueOf, Head, Plain, Indent;
    BeginsLoose(item.indent, item.key, Written(item) + "\n");
    BeginsStrict(item.indent, item.key, Written(item) + "\n");
  }

  lemma WrittenOneLine(item: Item)
    requires Tidy(item) && item.Field?
    ensures OneLine(Written(item))
  {
    var c, w := Content(item), Written(item);
    var n := |c| - |w|;
    assert c[n..] == w;
    forall i | 0 <= i < |w| ensures !IsBreak(w[i]) { assert w[i] == c[n + i]; }
  }

  /** A printed value reads back: a quoted one whatever it is, a bare one because it is trimmed. */
  lemma WrittenReads(item: Item)
    requires Tidy(item) && item.Field?
    ensures Unquoted(Strip(Cut(Written(item) + "\n"))) == item.value
  {
    hide Cut, Strip, IsSpace, OneLine, Tidy;
    WrittenOneLine(item);
    WrittenTrimmed(item);
    CutBefore(Written(item));
    StripTrimmed(Written(item));
  }

  lemma CutBefore(w: string)
    requires OneLine(w)
    ensures Cut(w + "\n") == w
  {
    CutOneLine(w, "\n");
    assert Cut("\n") == [] && w + [] == w;
  }

  lemma WrittenTrimmed(item: Item)
    requires Tidy(item) && item.Field?
    ensures Trimmed(Written(item)) && Unquoted(Written(item)) == item.value
  {
    var w := Written(item);
    if item.quoted {
      assert w[0] == '"' && w[|w| - 1] == '"' && !IsSpace('"');
      assert w[1..|w| - 1] == item.value;
    }
    hide IsSpace, OneLine;
  }

  // -------------------------------------------------------------------------
  // Documents
  // -------------------------------------------------------------------------

  function LinesOf(items: seq<Item>): seq<string> {
    seq(|items|, i requires 0 <= i < |items| => LineOf(items[i]))
  }

  lemma {:induction false} PrintJoins(items: seq<Item>)
    ensures Print(items) == Joined(LinesOf(items))
  {
    if items != [] {
      PrintJoins(items[1..]);
      assert LinesOf(items)[1..] == LinesOf(items[1..]);
    }
  }

  ghost predicate AllTidy(items: seq<Item>) {
    forall i :: 0 <= i < |items| ==> Tidy(items[i])
  }

  lemma PrintedLines(items: seq<Item>)
    requires AllTidy(items)
    ensures Lines(Print(items)) == LinesOf(items)
  {
    var lines := LinesOf(items);
    PrintJoins(items);
    forall i | 0 <= i < |lines| ensures LineShape(lines[i], false) { CutLine(items[i]); }
    hide Content, LineLength, Tidy, Joined, Print, Lines;
    forall i | 0 <= i < |lines| - 1 ensures Apart(lines[i], lines[i + 1]) {
      assert lines[i] == Content(items[i]) + "\n";
    }
    JoinedLines(lines);
  }

  /** The heading `h` is the last line at the margin before line `j`, and it opens the section. */
  ghost predicate Heads(items: seq<Item>, h: int, j: int, section: string) {
    && 0 <= h < j <= |items| && items[h] == Heading(section)
    && forall i :: h < i < j ==> !AtMargin(items[i])
  }

  /** The lines in front of line `j` leave the section open. */
  ghost predicate Headed(items: seq<Item>, j: int, section: string) {
    exists h :: Heads(items, h, j, section)
  }

  lemma HeadedStep(items: seq<Item>, j: nat, section: string)
    requires j < |items|
    ensures !Headed(items, 0, section)
    ensures Headed(items, j + 1, section)
            <==> if AtMargin(items[j]) then items[j] == Heading(section) else Headed(items, j, section)
  {
    HeadingAtMargin(section);
    hide AtMargin;
    var next := j + 1;
    if AtMargin(items[j]) {
      if items[j] == Heading(section) { assert Heads(items, j, next, section); }
      if h :| Heads(items, h, next, section) { assert h == j; }
    } else {
      if h :| Heads(items, h, next, section) { assert Heads(items, h, j, section); }
      if h :| Heads(items, h, j, section) { assert Heads(items, h, next, section); }
    }
  }

  lemma HeadingAtMargin(section: string)
    ensures AtMargin(Heading(section))
  {
  }

  /** Line `j` gives the key a value in the section. */
  ghost predicate FieldAt(items: seq<Item>, j: int, section: string, key: string) {
    && 0 <= j < |items| && items[j].Field? && items[j].key == key
    && Headed(items, j, section)
  }

  ghost predicate FirstField(items: seq<Item>, j: int, section: string, key: string) {
    FieldAt(items, j, section, key) && forall i :: 0 <= i < j ==> !FieldAt(items, i, section, key)
  }

  lemma {:induction false} InsideLast(lines: seq<string>, was: bool, section: string, j: nat)
    requires j < |lines|
    ensures InsideAt(lines, was, section, j)
         == Inside(lines[j], if j == 0 then was else InsideAt(lines, was, section, j - 1), section)
  {
    hide Inside;
    if j > 0 { InsideLast(lines[1..], Inside(lines[0], was, section), section, j - 1); }
  }

  lemma {:induction false} SectionOpen(items: seq<Item>, section: string, key: string, j: nat)
    requires AllTidy(items) && Asked(section, key) && j < |items|
    ensures InsideAt(LinesOf(items), false, section, j) <==> Headed(items, j + 1, section)
  {
    hide Inside, InsideAt, Tidy, LineOf, Headed, AtMargin;
    InsideLast(LinesOf(items), false, section, j);
    InsideOf(items[j], if j == 0 then false else InsideAt(LinesOf(items), false, section, j - 1), section);
    HeadedStep(items, j, section);
    if j > 0 { SectionOpen(items, section, key, j - 1); }
  }

  /** Line `j` is found exactly when it is such a field. */
  lemma FieldShows(items: seq<Item>, section: string, key: string, strict: bool, j: nat)
    requires AllTidy(items) && Asked(section, key) && j < |items|
    ensures InsideAt(LinesOf(items), false, section, j) && Names(LinesOf(items)[j], key, strict)
            <==> FieldAt(items, j, section, key)
  {
    hide InsideAt, Names, Tidy, LineOf, Headed;
    SectionOpen(items, section, key, j);
    HeadedStep(items, j, section);
    if items[j].Field? { FieldNames(items[j], key, strict); } else { OthersNameNothing(items[j], key, strict); }
  }

  lemma FoundField(items: seq<Item>, section: string, key: string, strict: bool)
    requires AllTidy(items) && Asked(section, key)
    ensures var f := Find(LinesOf(items), false, section, key, strict);
            && (f.None? ==> forall j :: !FieldAt(items, j, section, key))
            && (f.Some? ==> FirstField(items, f.value, section, key))
  {
    hide Find, InsideAt, Names, FieldAt;
    var lines := LinesOf(items);
    var f := Find(lines, false, section, key, strict);
    assert forall j :: FieldAt(items, j, section, key) ==> 0 <= j < |items| by { FieldBounds(items, section, key); }
    if f.Some? {
      FoundInside(lines, false, section, key, strict);
      FieldShows(items, section, key, strict, f.value);
    }
    forall j: nat | j < |items| && FieldAt(items, j, section, key) ensures f.Some? && f.value <= j {
      FieldShows(items, section, key, strict, j);
      FoundFirst(lines, false, section, key, strict, j);
    }
  }

  lemma FieldBounds(items: seq<Item>, section: string, key: string)
    ensures forall j :: FieldAt(items, j, section, key) ==> 0 <= j < |items|
  {
  }

  lemma OneFirst(items: seq<Item>, i: int, j: int, section: string, key: string)
    requires FirstField(items, i, section, key) && FirstField(items, j, section, key)
    ensures i == j
  {
    hide Headed;
  }

  /** Reading a printed document gives the value of the first field with that key under that heading,
      whatever else the document holds, and nothing when there is none. */
  lemma ReadsPrinted(items: seq<Item>, section: string, key: string)
    requires AllTidy(items) && Asked(section, key)
    ensures forall j :: FirstField(items, j, section, key) ==>
              FieldAt(items, j, section, key) && Read(Print(items), section, key) == items[j].value
    ensures (forall j :: !FieldAt(items, j, section, key)) ==> Read(Print(items), section, key) == ""
  {
    hide FieldAt, FirstField, Find, Names, Print, Lines, ValueOf, AllTidy, LinesOf;
    var f := Find(LinesOf(items), false, section, key, true);
    PrintedLines(items);
    FoundField(items, section, key, true);
    FirstIsField(items, section, key);
    if f.Some? {
      FoundValue(items, f.value, section, key);
      forall j | FirstField(items, j, section, key) { OneFirst(items, f.value, j, section, key); }
    }
  }

  lemma FirstIsField(items: seq<Item>, section: string, key: string)
    ensures forall j :: FirstField(items, j, section, key) ==> FieldAt(items, j, section, key)
    ensures forall j :: FieldAt(items, j, section, key) ==>
              0 <= j < |items| && items[j].Field? && items[j].key == key
  {
    hide Headed;
  }

  lemma FoundValue(items: seq<Item>, j: nat, section: string, key: string)
    requires FirstField(items, j, section, key) && AllTidy(items)
    ensures j < |items| && items[j].Field? && items[j].key == key && Tidy(items[j])
    ensures Names(LinesOf(items)[j], key, true) && ValueOf(LinesOf(items)[j], key) == items[j].value
  {
    hide Headed, ValueOf, Names, LineOf;
    FieldBegins(items[j]);
  }

  /** Patching a printed document prints the document with that one value changed, and fails exactly when
      the document has no such field. */
  lemma PatchesPrinted(items: seq<Item>, section: string, key: string, value: string, quote: bool)
    requires AllTidy(items) && Asked(section, key)
    ensures forall j :: FirstField(items, j, section, key) ==>
              && FieldAt(items, j, section, key)
              && Patch(Print(items), section, key, value, quote)
                 == Some(Print(items[j := Field(items[j].indent, key, value, quote)]))
    ensures (forall j :: !FieldAt(items, j, section, key)) ==> Patch(Print(items), section, key, value, quote) == None
  {
    hide FieldAt, FirstField, Find, Names, Print, Lines, AllTidy, LinesOf, Rewritten, Joined, Literal;
    var f := Find(LinesOf(items), false, section, key, false);
    PrintedLines(items);
    FoundField(items, section, key, false);
    FirstIsField(items, section, key);
    if f.Some? {
      FoundRewritten(items, f.value, section, key, value, quote);
      forall j | FirstField(items, j, section, key) { OneFirst(items, f.value, j, section, key); }
    }
  }

  lemma FoundRewritten(items: seq<Item>, j: nat, section: string, key: string, value: string, quote: bool)
    requires FirstField(items, j, section, key) && AllTidy(items)
    ensures j < |items| && items[j].Field?
    ensures Joined(LinesOf(items)[j := Rewritten(LinesOf(items)[j], key, Literal(value, quote))])
         == Print(items[j := Field(items[j].indent, key, value, quote)])
  {
    hide Headed, Rewritten, LineOf, Tidy, Joined, Print;
    var items' := items[j := Field(items[j].indent, key, value, quote)];
    RewrittenField(items[j], value, quote);
    PrintJoins(items');
    assert LinesOf(items') == LinesOf(items)[j := Rewritten(LinesOf(items)[j], key, Literal(value, quote))];
  }

  lemma RewrittenField(item: Item, value: string, quote: bool)
    requires Tidy(item) && item.Field?
    ensures Rewritten(LineOf(item), item.key, Literal(value, quote))
         == LineOf(Field(item.indent, item.key, value, quote))
  {
    FieldBegins(item);
    assert LineOf(item)[|LineOf(item)| - 1] == '\n';
    hide Indent, Tidy, Plain;
    Regroup(item.indent, item.key + ": ", Literal(value, quote));
    assert item.indent + item.key + ": " == item.indent + (item.key + ": ");
  }
}
