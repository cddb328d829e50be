/** The AMI line protocol: printing actions, reading messages, flattening SMS text. */
module AmiWire {
  import opened Options
  import opened Text

  type Field = (string, string)

  predicate IsNewline(c: char) {
    c == '\r' || c == '\n'
  }

  predicate OneLine(s: string) {
    forall i :: 0 <= i < |s| ==> !IsNewline(s[i])
  }

  function PrintField(f: Field): string {
    f.0 + ": " + f.1 + "\r\n"
  }

  function PrintFields(fields: seq<Field>): string {
    if fields == [] then [] else PrintField(fields[0]) + PrintFields(fields[1..])
  }

  function Print(fields: seq<Field>): string {
    PrintFields(fields) + "\r\n"
  }

  datatype SendResult = Sent(bytes: string) | NotConnected | NewlineInField

  /** `_send_action`: refused without a connection, then when a value has a line break; else the
      bytes written. */
  method SendAction(connected: bool, fields: seq<Field>) returns (r: SendResult)
    ensures r == NotConnected <==> !connected
    ensures connected ==> (r == NewlineInField <==> exists f :: f in fields && !OneLine(f.1))
    ensures r.Sent? ==> r.bytes == Print(fields)
  {
    if !connected { return NotConnected; }
    for i := 0 to |fields|
      invariant forall j :: 0 <= j < i ==> OneLine(fields[j].1)
    {
      var v := fields[i].1;
      for j := 0 to |v|
        invariant forall x :: 0 <= x < j ==> !IsNewline(v[x])
      {
        if IsNewline(v[j]) {
          assert !OneLine(v);
          return NewlineInField;
        }
      }
    }
    var msg := "";
    for i := 0 to |fields|
      invariant PrintFields(fields) == msg + PrintFields(fields[i..])
    {
      assert fields[i..][1..] == fields[i + 1..];
      msg := msg + PrintField(fields[i]);
    }
    assert fields[|fields|..] == [];
    assert PrintFields(fields) == msg;
    assert forall f :: f in fields ==> OneLine(f.1);
    return Sent(msg + "\r\n");
  }

  // -------------------------------------------------------------------------
  // Reading
  // -------------------------------------------------------------------------

  /** `readline`: up to and including the next line feed, or what is left at the end. */
  function ReadLine(s: string): (r: (string, string))
    ensures s == r.0 + r.1
    ensures s != [] ==> r.0 != []
  {
    var i := IndexOf(s, '\n');
    if i == |s| then (s, []) else (s[..i + 1], s[i + 1..])
  }

  predicate EndsMessage(line: string) {
    line == "\r\n" || line == "\n" || line == ""
  }

  function WithLine(headers: map<string, string>, line: string): map<string, string> {
    var text := Strip(line);
    var i := IndexOf(text, ':');
    if i == |text| then headers else headers[Strip(text[..i]) := Strip(text[i + 1..])]
  }

  function ReadFrom(s: string, headers: map<string, string>): (map<string, string>, string)
    decreases |s|
  {
    var (line, rest) := ReadLine(s);
    if EndsMessage(line) then (headers, rest) else ReadFrom(rest, WithLine(headers, line))
  }

  function Read(s: string): (map<string, string>, string) {
    ReadFrom(s, map[])
  }

  /** `_read_response` on the bytes waiting in the stream. */
  method ReadResponse(stream: string) returns (headers: map<string, string>, rest: string)
    ensures (headers, rest) == Read(stream)
  {
    headers, rest := map[], stream;
    while true
      invariant Read(stream) == ReadFrom(rest, headers)
      decreases |rest|
    {
      var (line, after) := ReadLine(rest);
      rest := after;
      if EndsMessage(line) { return; }
      var text := Strip(line);
      var colon := IndexOf(text, ':');
      if colon < |text| {
        headers := headers[Strip(text[..colon]) := Strip(text[colon + 1..])];
      }
    }
  }

  // -------------------------------------------------------------------------
  // Printing, then reading
  // -------------------------------------------------------------------------

  predicate KeyLike(k: string) {
    OneLine(k) && forall i :: 0 <= i < |k| ==> k[i] != ':'
  }

  predicate Printable(fields: seq<Field>) {
    forall f :: f in fields ==> KeyLike(f.0) && OneLine(f.1)
  }

  /** What a reader makes of the fields: keys and values trimmed, a later key wins. */
  function Headers(fields: seq<Field>, headers: map<string, string>): map<string, string> {
    if fields == [] then headers
    else Headers(fields[1..], headers[Strip(fields[0].0) := Strip(fields[0].1)])
  }

  lemma {:induction false} IndexOfFirst(a: string, c: char, b: string)
    requires forall i :: 0 <= i < |a| ==> a[i] != c
    ensures IndexOf(a + [c] + b, c) == |a|
  {
    var s := a + [c] + b;
    assert s[|a|] == c;
    assert forall i :: 0 <= i < |a| ==> s[i] == a[i];
  }

  lemma PrintedLine(f: Field, rest: string)
    requires KeyLike(f.0) && OneLine(f.1)
    ensures ReadLine(PrintField(f) + rest) == (PrintField(f), rest)
    ensures !EndsMessage(PrintField(f))
  {
    var line := PrintField(f);
    var a := f.0 + ": " + f.1 + "\r";
    assert line == a + ['\n'];
    IndexOfFirst(a, '\n', rest);
    assert line + rest == a + ['\n'] + rest;
    assert (line + rest)[..|line|] == line && (line + rest)[|line|..] == rest;
    assert |line| >= 4;
  }

  /** Stripping `key:rest` strips the two ends apart. */
  lemma StripPair(k: string, w: string)
    ensures Strip(k + [':'] + w) == StripLeft(k) + [':'] + StripRight(w)
  {
    StripLeftStops(k, ':', w);
    StripRightStops(StripLeft(k), ':', w);
  }

  lemma {:induction false} StripLeftKeeps(k: string)
    requires forall i :: 0 <= i < |k| ==> k[i] != ':'
    ensures forall i :: 0 <= i < |StripLeft(k)| ==> StripLeft(k)[i] != ':'
  {
    if k != [] && IsSpace(k[0]) { StripLeftKeeps(k[1..]); }
  }

  lemma SplitAtColon(headers: map<string, string>, line: string, k: string, w: string)
    requires forall i :: 0 <= i < |k| ==> k[i] != ':'
    requires Strip(line) == k + [':'] + w
    ensures WithLine(headers, line) == headers[Strip(k) := Strip(w)]
  {
    hide Strip;
    IndexOfFirst(k, ':', w);
    var text := k + [':'] + w;
    assert text[..|k|] == k && text[|k| + 1..] == w;
  }

  lemma StripHalves(k: string, v: string)
    ensures Strip(StripLeft(k)) == Strip(k)
    ensures Strip(StripRight(" " + v + "\r\n")) == Strip(v)
  {
    StripLeftTwice(k);
    var w := " " + v + "\r\n";
    var y := SplitRight(w);
    StripPad([], StripRight(w), y);
    assert [] + StripRight(w) + y == w;
    StripPad(" ", v, "\r\n");
  }

  /** A printed field reads back as its trimmed key and value. */
  lemma PrintedField(f: Field, headers: map<string, string>)
    requires KeyLike(f.0)
    ensures WithLine(headers, PrintField(f)) == headers[Strip(f.0) := Strip(f.1)]
  {
    var k, v := f.0, f.1;
    var w := " " + v + "\r\n";
    var line := PrintField(f);
    assert line == k + [':'] + w;
    StripPair(k, w);
    StripLeftKeeps(k);
    hide Strip, StripLeft, StripRight, WithLine;
    SplitAtColon(headers, line, StripLeft(k), StripRight(w));
    StripHalves(k, v);
  }

  lemma {:induction false} ReadPrinted(fields: seq<Field>, rest: string, headers: map<string, string>)
    requires Printable(fields)
    ensures ReadFrom(Print(fields) + rest, headers) == (Headers(fields, headers), rest)
    decreases |fields|
  {
    var s := Print(fields) + rest;
    if fields == [] {
      IndexOfFirst("\r", '\n', rest);
      assert s == "\r" + ['\n'] + rest;
      assert s[..2] == "\r\n" && s[2..] == rest;
    } else {
      var f := fields[0];
      assert f in fields;
      var after := Print(fields[1..]) + rest;
      assert s == PrintField(f) + after;
      PrintedLine(f, after);
      PrintedField(f, headers);
      ReadPrinted(fields[1..], rest, headers[Strip(f.0) := Strip(f.1)]);
    }
  }

  // Lines as another sender may write them: other blanks, other line ends, lines that are no header.

  predicate LineEnd(eol: string) {
    eol == "\n" || eol == "\r\n"
  }

  lemma LineTaken(line: string, eol: string, rest: string)
    requires '\n' !in line && LineEnd(eol)
    ensures ReadLine(line + eol + rest) == (line + eol, rest)
  {
    var a := line + eol[..|eol| - 1];
    assert line + eol == a + ['\n'];
    IndexOfFirst(a, '\n', rest);
    assert (line + eol + rest)[..|line + eol|] == line + eol && (line + eol + rest)[|line + eol|..] == rest;
  }

  /** A header line gives its value to its key, whatever blanks stand around either. */
  lemma HeaderRead(a: string, key: string, b: string, c: string, value: string, d: string, eol: string,
                   rest: string, headers: map<string, string>)
    requires AllSpace(a) && AllSpace(b) && AllSpace(c) && AllSpace(d) && LineEnd(eol)
    requires Trimmed(key) && ':' !in key && Trimmed(value)
    requires var line := a + key + b + ":" + c + value + d; '\n' !in line
    ensures ReadFrom(a + key + b + ":" + c + value + d + eol + rest, headers)
         == ReadFrom(rest, headers[key := value])
  {
    var line := a + key + b + ":" + c + value + d;
    LineTaken(line, eol, rest);
    assert (line + eol)[|a + key + b|] == ':';
    assert !EndsMessage(line + eol);
    HeaderLine(a, key, b, c, value, d, eol, headers);
    hide ReadLine, WithLine, EndsMessage, AllSpace, Trimmed;
  }

  lemma HeaderLine(a: string, key: string, b: string, c: string, value: string, d: string, eol: string,
                   headers: map<string, string>)
    requires AllSpace(a) && AllSpace(b) && AllSpace(c) && AllSpace(d) && LineEnd(eol)
    requires Trimmed(key) && ':' !in key && Trimmed(value)
    ensures WithLine(headers, a + key + b + ":" + c + value + d + eol) == headers[key := value]
  {
    var k, w := a + key + b, c + value + (d + eol);
    var line := a + key + b + ":" + c + value + d + eol;
    assert line == k + [':'] + w;
    assert ':' !in k;
    assert AllSpace(d + eol);
    StripPad(a, key, b);
    StripPad(c, value, d + eol);
    StripTrimmed(key);
    StripTrimmed(value);
    hide AllSpace, Trimmed, Strip, StripLeft, StripRight, WithLine;
    StripPair(k, w);
    StripLeftKeeps(k);
    StripEnds(k, w);
    SplitAtColon(headers, line, StripLeft(k), StripRight(w));
  }

  lemma StripEnds(k: string, w: string)
    ensures Strip(StripLeft(k)) == Strip(k) && Strip(StripRight(w)) == Strip(w)
  {
    StripLeftTwice(k);
    StripTail(w);
    hide StripLeft, StripRight;
  }

  lemma StripTail(w: string)
    ensures Strip(StripRight(w)) == Strip(w)
  {
    var y := SplitRight(w);
    hide Strip, StripRight, AllSpace;
    assert AllSpace([]) by { NoSpaces(); }
    StripPad([], StripRight(w), y);
    assert [] + StripRight(w) + y == StripRight(w) + y;
  }

  lemma NoSpaces()
    ensures AllSpace([])
  {
  }

  /** A line without a colon says nothing; the first empty line, however it ends, or the end of the stream
      ends the message. */
  lemma OtherLinesRead(line: string, eol: string, rest: string, headers: map<string, string>)
    requires '\n' !in line && ':' !in line && LineEnd(eol)
    ensures line != "" && !(line == "\r" && eol == "\n") ==>
              ReadFrom(line + eol + rest, headers) == ReadFrom(rest, headers)
    ensures ReadFrom(eol + rest, headers) == (headers, rest)
    ensures ReadFrom("", headers) == (headers, "")
  {
    LineTaken(line, eol, rest);
    LineTaken("", eol, rest);
    assert "" + eol == eol;
    if line != "" && !(line == "\r" && eol == "\n") {
      NoEnd(line, eol);
      NoColon(line + eol, headers);
      hide WithLine;
    }
  }

  lemma NoEnd(line: string, eol: string)
    requires LineEnd(eol) && line != "" && !(line == "\r" && eol == "\n")
    ensures !EndsMessage(line + eol)
  {
    assert |line + eol| == |line| + |eol| && line[0] == (line + eol)[0];
    assert |line + eol| == 2 ==> eol == "\n" && line == [line[0]];
  }

  lemma NoColon(line: string, headers: map<string, string>)
    requires ':' !in line
    ensures WithLine(headers, line) == headers
  {
    var a := SplitLeft(line);
    StripRightLast(StripLeft(line));
    assert forall i :: 0 <= i < |Strip(line)| ==> Strip(line)[i] == line[|a| + i];
  }

  // -------------------------------------------------------------------------
  // Whole messages
  // -------------------------------------------------------------------------

  /** A message as its caller means it: distinct keys, everything trimmed. */
  predicate Plain(fields: seq<Field>) {
    && Printable(fields)
    && (forall f :: f in fields ==> Trimmed(f.0) && Trimmed(f.1))
    && (forall i, j :: 0 <= i < j < |fields| ==> fields[i].0 != fields[j].0)
  }

  lemma {:induction false} PlainHeaders(fields: seq<Field>, headers: map<string, string>)
    requires Plain(fields) && forall f :: f in fields ==> f.0 !in headers
    ensures Headers(fields, headers).Keys == headers.Keys + set f | f in fields :: f.0
    ensures forall k :: k in headers ==> Headers(fields, headers)[k] == headers[k]
    ensures forall f :: f in fields ==> Headers(fields, headers)[f.0] == f.1
    decreases |fields|
  {
    if fields != [] {
      var f, rest := fields[0], fields[1..];
      assert f in fields;
      StripTrimmed(f.0);
      StripTrimmed(f.1);
      var headers' := headers[f.0 := f.1];
      forall g | g in rest ensures g in fields && g.0 !in headers' {
        var i :| 0 <= i < |rest| && rest[i] == g;
        assert fields[i + 1] == g;
      }
      PlainHeaders(rest, headers');
      assert forall g :: g in fields <==> g == f || g in rest;
    }
  }

  function PrintAll(messages: seq<seq<Field>>): string {
    if messages == [] then [] else Print(messages[0]) + PrintAll(messages[1..])
  }

  /** Reading `n` messages one after the other. */
  function ReadAll(s: string, n: nat): (seq<map<string, string>>, string)
    decreases n
  {
    if n == 0 then ([], s)
    else
      var (m, rest) := Read(s);
      var (ms, left) := ReadAll(rest, n - 1);
      ([m] + ms, left)
  }

  ghost predicate IsMessage(m: map<string, string>, fields: seq<Field>) {
    && m.Keys == (set f | f in fields :: f.0)
    && forall f :: f in fields ==> m[f.0] == f.1
  }

  lemma FirstMessageRead(fields: seq<Field>, rest: string)
    requires Plain(fields)
    ensures var (m, left) := Read(Print(fields) + rest);
            left == rest && IsMessage(m, fields)
  {
    ReadPrinted(fields, rest, map[]);
    PlainHeaders(fields, map[]);
    hide Print, Headers, ReadFrom;
  }

  /** Any list of actions, written back to back, reads as those messages in order with nothing
      left over. */
  lemma {:induction false} WireRoundTrip(messages: seq<seq<Field>>)
    requires forall i :: 0 <= i < |messages| ==> Plain(messages[i])
    ensures var (ms, left) := ReadAll(PrintAll(messages), |messages|);
            && left == ""
            && |ms| == |messages|
            && forall i :: 0 <= i < |messages| ==> IsMessage(ms[i], messages[i])
    decreases |messages|
  {
    hide Plain, IsMessage, Print, Read;
    if messages != [] {
      var rest := messages[1..];
      assert forall i :: 0 <= i < |rest| ==> rest[i] == messages[i + 1];
      FirstMessageRead(messages[0], PrintAll(rest));
      WireRoundTrip(rest);
    }
  }

  // -------------------------------------------------------------------------
  // SMS
  // -------------------------------------------------------------------------

  function SkipNewlines(s: string): (r: string)
    ensures |r| <= |s|
  {
    if s != [] && IsNewline(s[0]) then SkipNewlines(s[1..]) else s
  }

  /** Every run of line breaks becomes one space. */
  function Flatten(s: string): string
    decreases |s|
  {
    if s == [] then []
    else if IsNewline(s[0]) then " " + Flatten(SkipNewlines(s[1..]))
    else [s[0]] + Flatten(s[1..])
  }

  lemma {:induction false} FlattenOneLine(s: string)
    ensures OneLine(Flatten(s))
    decreases |s|
  {
    if s != [] {
      FlattenOneLine(if IsNewline(s[0]) then SkipNewlines(s[1..]) else s[1..]);
    }
  }

  lemma {:induction false} SkipRun(r: string, rest: string)
    requires forall i :: 0 <= i < |r| ==> IsNewline(r[i])
    requires rest == [] || !IsNewline(rest[0])
    ensures SkipNewlines(r + rest) == rest
    decreases |r|
  {
    if r == [] {
      assert r + rest == rest;
    } else {
      assert (r + rest)[1..] == r[1..] + rest;
      SkipRun(r[1..], rest);
    }
  }

  /** A maximal run of line breaks after a line is replaced by a single space; a text without
      line breaks is unchanged. */
  lemma {:induction false} FlattenRun(line: string, run: string, rest: string)
    requires OneLine(line) && forall i :: 0 <= i < |run| ==> IsNewline(run[i])
    requires rest == [] || !IsNewline(rest[0])
    ensures Flatten(line + run + rest) == line + (if run == [] then "" else " ") + Flatten(rest)
    decreases |line|
  {
    var s := line + run + rest;
    if line != [] {
      assert s[1..] == line[1..] + run + rest;
      FlattenRun(line[1..], run, rest);
      assert line == [line[0]] + line[1..];
    } else if run != [] {
      assert s[1..] == run[1..] + rest;
      SkipRun(run[1..], rest);
    } else {
      assert s == rest;
    }
  }

  function SmsAction(device: string, to: string, text: string, actionId: string, payload: Option<string>): seq<Field> {
    [("Action", "DongleSendSMS"), ("Device", device), ("Number", to), ("Message", Flatten(text)),
     ("Validity", "1440"), ("Report", "yes"), ("ActionID", actionId)]
    + (if payload.Some? then [("Payload", payload.value)] else [])
  }

  lemma SmsKeys()
    ensures KeyLike("Action") && KeyLike("Device") && KeyLike("Number") && KeyLike("Message")
    ensures KeyLike("Validity") && KeyLike("Report") && KeyLike("ActionID") && KeyLike("Payload")
    ensures OneLine("DongleSendSMS") && OneLine("1440") && OneLine("yes")
  {
  }

  lemma PrintableSnoc(fields: seq<Field>, f: Field)
    requires Printable(fields) && KeyLike(f.0) && OneLine(f.1)
    ensures Printable(fields + [f])
  {
    hide KeyLike, OneLine;
  }

  lemma SmsPrintable(device: string, to: string, text: string, actionId: string, payload: Option<string>)
    requires OneLine(device) && OneLine(to) && OneLine(actionId)
    requires payload.Some? ==> OneLine(payload.value)
    ensures Printable(SmsAction(device, to, text, actionId, payload))
  {
    SmsKeys();
    FlattenOneLine(text);
    hide KeyLike, OneLine, Flatten;
    var base := SmsAction(device, to, text, actionId, None);
    assert Printable(base) by {
      forall i | 0 <= i < |base| ensures KeyLike(base[i].0) && OneLine(base[i].1) { }
    }
    if payload.Some? {
      assert SmsAction(device, to, text, actionId, payload) == base + [("Payload", payload.value)];
      PrintableSnoc(base, ("Payload", payload.value));
    }
  }

  /** What the driver reads of an SMS action. */
  function SmsHeaders(device: string, to: string, text: string, actionId: string, payload: Option<string>)
    : map<string, string>
  {
    var base := map[]["Action" := "DongleSendSMS"]["Device" := Strip(device)]["Number" := Strip(to)]
                     ["Message" := Strip(Flatten(text))]["Validity" := "1440"]["Report" := "yes"]
                     ["ActionID" := Strip(actionId)];
    if payload.Some? then base["Payload" := Strip(payload.value)] else base
  }

  /** Whatever the text, an SMS action is exactly one message on the wire; the driver reads the modem, the
      recipient, the flattened text up to edge whitespace, a validity of a day, the wish for a report, the
      action id and the payload if one was given, and no other field. The other parameters must be single
      lines, which is also what the sender demands of them. */
  lemma SmsIsOneMessage(device: string, to: string, text: string, actionId: string, payload: Option<string>,
                        rest: string)
    requires OneLine(device) && OneLine(to) && OneLine(actionId)
    requires payload.Some? ==> OneLine(payload.value)
    ensures Read(Print(SmsAction(device, to, text, actionId, payload)) + rest)
         == (SmsHeaders(device, to, text, actionId, payload), rest)
  {
    SmsPrintable(device, to, text, actionId, payload);
    SmsHeadersRead(device, to, text, actionId, payload);
    hide SmsAction, SmsHeaders, Print, Printable, OneLine, Headers;
    ReadPrinted(SmsAction(device, to, text, actionId, payload), rest, map[]);
  }

  lemma SmsKeysTrimmed()
    ensures Strip("Action") == "Action" && Strip("Device") == "Device" && Strip("Number") == "Number"
    ensures Strip("Message") == "Message" && Strip("Validity") == "Validity" && Strip("Report") == "Report"
    ensures Strip("ActionID") == "ActionID" && Strip("Payload") == "Payload"
    ensures Strip("DongleSendSMS") == "DongleSendSMS" && Strip("1440") == "1440" && Strip("yes") == "yes"
  {
    StripTrimmed("Action");
    StripTrimmed("Device");
    StripTrimmed("Number");
    StripTrimmed("Message");
    StripTrimmed("Validity");
    StripTrimmed("Report");
    StripTrimmed("ActionID");
    StripTrimmed("Payload");
    StripTrimmed("DongleSendSMS");
    StripTrimmed("1440");
    StripTrimmed("yes");
    hide Strip;
  }

  lemma HeadersCons(f: Field, rest: seq<Field>, headers: map<string, string>)
    ensures Headers([f] + rest, headers) == Headers(rest, headers[Strip(f.0) := Strip(f.1)])
  {
    assert ([f] + rest)[1..] == rest;
  }

  lemma HeadersNone(headers: map<string, string>)
    ensures Headers([], headers) == headers
  {
  }

  lemma SmsHeadersRead(device: string, to: string, text: string, actionId: string, payload: Option<string>)
    ensures Headers(SmsAction(device, to, text, actionId, payload), map[])
         == SmsHeaders(device, to, text, actionId, payload)
  {
    SmsKeysTrimmed();
    hide Strip, Flatten, Headers;
    var m1 := map[]["Action" := "DongleSendSMS"];
    var m2 := m1["Device" := Strip(device)];
    var m3 := m2["Number" := Strip(to)];
    var m4 := m3["Message" := Strip(Flatten(text))];
    var m5 := m4["Validity" := "1440"];
    var m6 := m5["Report" := "yes"];
    var m7 := m6["ActionID" := Strip(actionId)];
    var f8: seq<Field> := if payload.Some? then [("Payload", payload.value)] else [];
    var f7 := [("ActionID", actionId)] + f8;
    var f6 := [("Report", "yes")] + f7;
    var f5 := [("Validity", "1440")] + f6;
    var f4 := [("Message", Flatten(text))] + f5;
    var f3 := [("Number", to)] + f4;
    var f2 := [("Device", device)] + f3;
    assert SmsAction(device, to, text, actionId, payload) == [("Action", "DongleSendSMS")] + f2;
    HeadersCons(("Action", "DongleSendSMS"), f2, map[]);
    HeadersCons(("Device", device), f3, m1);
    HeadersCons(("Number", to), f4, m2);
    HeadersCons(("Message", Flatten(text)), f5, m3);
    HeadersCons(("Validity", "1440"), f6, m4);
    HeadersCons(("Report", "yes"), f7, m5);
    HeadersCons(("ActionID", actionId), f8, m6);
    if payload.Some? {
      assert f8 == [("Payload", payload.value)] + [];
      HeadersCons(("Payload", payload.value), [], m7);
      HeadersNone(m7["Payload" := Strip(payload.value)]);
    } else {
      HeadersNone(m7);
    }
  }

  /** Each field is printed behind the earlier ones as a line of its own: key, colon, space, value. */
  lemma {:induction false} PrintsLines(fields: seq<Field>, f: Field)
    ensures PrintFields(fields + [f]) == PrintFields(fields) + (f.0 + ": " + f.1 + "\r\n")
    decreases |fields|
  {
    if fields == [] {
      assert fields + [f] == [f] && PrintFields([f][1..]) == [];
    } else {
      assert (fields + [f])[1..] == fields[1..] + [f];
      PrintsLines(fields[1..], f);
    }
  }

  /** What stands on the wire for one small action. */
  lemma PingBytes()
    ensures Print([("Action", "Ping"), ("ActionID", "7")]) == "Action: Ping\r\nActionID: 7\r\n\r\n"
  {
    assert [("Action", "Ping"), ("ActionID", "7")][1..] == [("ActionID", "7")];
  }
}
