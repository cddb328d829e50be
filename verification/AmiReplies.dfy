/** What a poll answers, told from the messages the driver sends. */
module AmiReplies {
  import opened Options
  import opened Text
  import opened AmiPoll

  // -------------------------------------------------------------------------
  // Numbers
  // -------------------------------------------------------------------------

  lemma {:induction false} DigitsReadBack(n: nat, rest: string, afterDigit: bool)
    ensures DigitsFrom(Decimal(n) + rest, 0, afterDigit) == DigitsFrom(rest, n, true)
  {
    if n < 10 {
      DigitValue(n);
      assert (Decimal(n) + rest)[1..] == rest;
    } else {
      var last := ["0123456789"[n % 10]];
      DigitValue(n % 10);
      assert Decimal(n) + rest == Decimal(n / 10) + (last + rest);
      DigitsReadBack(n / 10, last + rest, afterDigit);
      assert (last + rest)[1..] == rest;
    }
  }

  lemma DigitsTrimmed(s: string)
    requires AllDigits(s) && s != []
    ensures Strip(s) == s && Strip("-" + s) == "-" + s
  {
    StripTrimmed(s);
    StripTrimmed("-" + s);
  }

  /** A number printed in decimal, with a minus sign if negative, reads back. */
  lemma SignedReadsBack(n: int)
    ensures ParseInt(Signed(n)) == Some(n)
  {
    var m := if n < 0 then -n else n;
    DecimalDigits(m);
    DigitsTrimmed(Decimal(m));
    DigitsReadBack(m, [], false);
    assert Decimal(m) + [] == Decimal(m);
    assert n < 0 ==> Signed(n)[1..] == Decimal(m);
  }

  lemma {:induction false} NoDigitsNoNumber(s: string, acc: nat)
    requires NoDigits(s)
    ensures DigitsFrom(s, acc, false) == None
  {
  }

  /** A text without a digit is no number. */
  lemma NotANumber(s: string)
    requires NoDigits(s)
    ensures ParseInt(s) == None
  {
    var a := SplitLeft(s);
    var b := SplitRight(StripLeft(s));
    assert s == a + (Strip(s) + b);
    assert forall i :: 0 <= i < |Strip(s)| ==> Strip(s)[i] == s[|a| + i];
    var t := Strip(s);
    NoDigitsNoNumber(t, 0);
    if t != [] { NoDigitsNoNumber(t[1..], 0); }
  }

  lemma FirstPart(a: string, b: string)
    requires ',' !in a
    ensures (a + "," + b)[..IndexOf(a + "," + b, ',')] == a
  {
    var s := a + "," + b;
    assert s[|a|] == ',';
    assert forall j :: 0 <= j < |a| ==> s[j] == a[j];
  }

  lemma WholePart(a: string)
    requires ',' !in a
    ensures a[..IndexOf(a, ',')] == a
  {
  }

  // -------------------------------------------------------------------------
  // One device entry
  // -------------------------------------------------------------------------

  datatype Registration = HomeNetwork | Roaming | Otherwise(text: string)

  /** A modem as the driver sees it: its signal in dBm, if any, comes with a remark. */
  datatype Sighting = Sighting(
    device: string,
    registration: Registration,
    dbm: Option<int>,
    remark: string,
    provider: string,
    imei: string)

  function RegistrationText(r: Registration): string {
    match r
    case HomeNetwork => "Registered, home network"
    case Roaming => "Registered, roaming"
    case Otherwise(text) => text
  }

  ghost predicate Sensible(x: Sighting) {
    && (x.registration.Otherwise? ==>
          x.registration.text != "Registered, home network" && x.registration.text != "Registered, roaming")
    && (x.dbm.None? ==> NoDigits(x.remark) && ',' !in x.remark)
  }

  /** The message shows the modem; it may carry any other fields. */
  ghost predicate Shows(m: Message, x: Sighting) {
    && Get(m, "Device") == x.device
    && Get(m, "GSMRegistrationStatus") == RegistrationText(x.registration)
    && Get(m, "RSSI") == (if x.dbm.Some? then Signed(x.dbm.value) + "," + x.remark else x.remark)
    && Get(m, "ProviderName") == x.provider
    && Get(m, "IMEIState") == x.imei
  }

  /** The device entry the driver prints for a modem. */
  function Entry(x: Sighting, actionId: string): Message {
    map["Event" := "DongleDeviceEntry", "ActionID" := actionId, "Device" := x.device,
        "GSMRegistrationStatus" := RegistrationText(x.registration),
        "RSSI" := if x.dbm.Some? then Signed(x.dbm.value) + "," + x.remark else x.remark,
        "ProviderName" := x.provider, "IMEIState" := x.imei]
  }

  /** The status says what the modem was seen with: on the network or not, the signal's percentage, the
      operator if named, and the last four characters of the IMEI, or all of a shorter one. */
  ghost predicate Tells(s: DeviceStatus, x: Sighting) {
    && s.device == x.device
    && (s.registered <==> x.registration.HomeNetwork? || x.registration.Roaming?)
    && s.signal == (if x.dbm.Some? then Some(Percent(x.dbm.value)) else None)
    && (x.provider == "" ==> s.operator == None)
    && (x.provider != "" ==> s.operator == Some(x.provider))
    && (x.imei == "" ==> s.imeiSuffix == None)
    && (0 < |x.imei| < 4 ==> s.imeiSuffix == Some(x.imei))
    && (forall head, tail :: |tail| == 4 && x.imei == head + tail ==> s.imeiSuffix == Some(tail))
  }

  lemma SignedHasNoComma(n: int)
    ensures ',' !in Signed(n)
  {
    DecimalDigits(if n < 0 then -n else n);
  }

  lemma SignalReads(m: Message, x: Sighting)
    requires Sensible(x) && Shows(m, x)
    ensures Normalized(m).signal == if x.dbm.Some? then Some(Percent(x.dbm.value)) else None
  {
    hide IndexOf, ParseInt, Signed, Percent, NoDigits;
    if x.dbm.Some? {
      SignedHasNoComma(x.dbm.value);
      FirstPart(Signed(x.dbm.value), x.remark);
      SignedReadsBack(x.dbm.value);
    } else {
      WholePart(x.remark);
      NotANumber(x.remark);
    }
  }

  lemma EntryTells(m: Message, x: Sighting)
    requires Sensible(x) && Shows(m, x)
    ensures Tells(Normalized(m), x)
  {
    SignalReads(m, x);
    hide IndexOf, ParseInt, Signed, Percent, NoDigits;
    forall head, tail | |tail| == 4 && x.imei == head + tail ensures Normalized(m).imeiSuffix == Some(tail) {
      assert |x.imei| == |head| + 4;
      assert x.imei[|x.imei| - 4..] == tail;
    }
  }

  // -------------------------------------------------------------------------
  // One poll
  // -------------------------------------------------------------------------

  ghost predicate Holds(text: string, part: string) {
    exists a, b :: text == a + part + b
  }

  /** The header by which a message says what it is. */
  ghost predicate Titled(m: Message, title: string) {
    || ("Event" in m && m["Event"] != "" && m["Event"] == title)
    || (("Event" !in m || m["Event"] == "") && "Message" in m && m["Message"] == title)
    || (("Event" !in m || m["Event"] == "") && "Message" !in m && title == "")
  }

  lemma TitledMarker(m: Message, title: string)
    requires Titled(m, title)
    ensures Marker(m) == title
  {
  }

  /** A message that is neither a device entry nor the end of a list, whoever sent it. */
  ghost predicate Remark(m: Message) {
    && ("GSMRegistrationStatus" !in m || "Device" !in m)
    && exists title :: Titled(m, title) && !Holds(title, "DongleDeviceEntry")
         && !Holds(title, "DongleShowDevicesComplete") && !Holds(title, "ListComplete")
  }

  ghost predicate Ends(m: Message) {
    && ("GSMRegistrationStatus" !in m || "Device" !in m)
    && exists title :: Titled(m, title) && !Holds(title, "DongleDeviceEntry")
         && (Holds(title, "DongleShowDevicesComplete") || Holds(title, "ListComplete"))
  }

  /** An entry by its title, or by the two fields only entries have. */
  ghost predicate Enters(m: Message) {
    || (exists title :: Titled(m, title) && Holds(title, "DongleDeviceEntry"))
    || ("GSMRegistrationStatus" in m && "Device" in m)
  }

  lemma Kinds(m: Message)
    ensures Remark(m) ==> !IsDeviceEntry(m) && !IsListComplete(m)
    ensures Ends(m) ==> !IsDeviceEntry(m) && IsListComplete(m)
    ensures Enters(m) <==> IsDeviceEntry(m)
    ensures Remark(m) || Ends(m) || Enters(m)
  {
    hide Contains;
    var t := Marker(m);
    assert Titled(m, t);
    forall title | Titled(m, title) ensures title == t { TitledMarker(m, title); }
    ContainsExactly(t, "DongleDeviceEntry");
    ContainsExactly(t, "DongleShowDevicesComplete");
    ContainsExactly(t, "ListComplete");
  }

  ghost predicate Ours(m: Message, actionId: string) {
    "ActionID" in m && m["ActionID"] == actionId
  }

  ghost predicate Acknowledges(m: Message, actionId: string) {
    && Ours(m, actionId) && Remark(m)
    && "Response" in m && (m["Response"] == "Success" || m["Response"] == "Followed")
  }

  /** A reply as it stands in the stream: remarks may stand anywhere, further entries behind the
      first one. */
  datatype Answer = Answer(ack: Message, before: seq<Message>, entries: seq<Message>, fin: Message)

  ghost predicate Answers(a: Answer, actionId: string) {
    && Acknowledges(a.ack, actionId)
    && (forall m :: m in a.before ==> Remark(m))
    && (a.entries != [] ==> Enters(a.entries[0]))
    && (forall m :: m in a.entries ==> Remark(m) || Enters(m))
    && Ends(a.fin)
  }

  function Stream(a: Answer): seq<Message> {
    [a.ack] + (a.before + a.entries) + [a.fin]
  }

  lemma {:induction false} FirstIs(before: seq<Message>, entries: seq<Message>)
    requires forall m :: m in before ==> !IsDeviceEntry(m)
    requires entries != [] ==> IsDeviceEntry(entries[0])
    ensures FirstEntry(before + entries) == if entries == [] then map[] else entries[0]
    decreases |before|
  {
    hide IsDeviceEntry;
    if before == [] {
      assert before + entries == entries;
    } else {
      assert (before + entries)[1..] == before[1..] + entries;
      assert before[0] in before;
      FirstIs(before[1..], entries);
    }
  }

  lemma AnswerProper(a: Answer, actionId: string)
    requires Answers(a, actionId)
    ensures ProperReply(Reply(a.ack, a.before + a.entries, a.fin), actionId)
    ensures FirstEntry(a.before + a.entries) == if a.entries == [] then map[] else a.entries[0]
  {
    hide IsDeviceEntry, IsListComplete, Remark, Enters, Ends;
    Kinds(a.ack);
    Kinds(a.fin);
    forall m | m in a.before + a.entries { Kinds(m); }
    forall m | m in a.before ensures !IsDeviceEntry(m) { Kinds(m); }
    if a.entries != [] { Kinds(a.entries[0]); }
    FirstIs(a.before, a.entries);
  }

  /** A poll that fits in the cap reports the modem its answer shows first, however much of other
      transactions stands before the answer; an answer without an entry reports no modem. */
  lemma PollTells(pre: seq<Message>, a: Answer, tail: seq<Message>, actionId: string, cap: nat, x: Sighting)
    requires (forall m :: m in pre ==> !Ours(m, actionId)) && Answers(a, actionId)
    requires |pre| + |Stream(a)| <= cap
    requires a.entries != [] ==> Shows(a.entries[0], x) && Sensible(x)
    ensures var r := Poll(pre + Stream(a) + tail, actionId, cap);
            && r.used == |pre| + |Stream(a)|
            && (a.entries == [] ==> StatusOf(r) == None)
            && (a.entries != [] ==> StatusOf(r).Some? && Tells(StatusOf(r).value, x))
  {
    hide Poll, ProperReply, Answers, Tells, Shows, Sensible, Normalized;
    AnswerProper(a, actionId);
    var reply := Reply(a.ack, a.before + a.entries, a.fin);
    PollResynchronises(pre, reply, tail, actionId, cap);
    if a.entries != [] {
      EntryTells(a.entries[0], x);
      EntriesFilled(a, actionId);
    }
  }

  lemma EntriesFilled(a: Answer, actionId: string)
    requires Answers(a, actionId) && a.entries != []
    ensures a.entries[0] != map[]
  {
    Kinds(a.entries[0]);
    EntryNotEmpty(a.entries[0]);
  }

  // -------------------------------------------------------------------------
  // The messages of one driver
  // -------------------------------------------------------------------------

  function ListFollows(actionId: string): Message {
    map["Response" := "Success", "ActionID" := actionId, "Message" := FOLLOWS]
  }

  function ListEnds(actionId: string): Message {
    map["Event" := "DongleShowDevicesComplete", "ActionID" := actionId]
  }

  lemma HoldsLetters(text: string, part: string, c: char)
    requires Holds(text, part) && c in part
    ensures c in text
  {
  }

  lemma Misses(text: string, part: string, c: char)
    requires c in part && c !in text
    ensures !Holds(text, part)
  {
    if Holds(text, part) { HoldsLetters(text, part, c); }
  }

  const FOLLOWS := "Device status list will follow"

  lemma FollowsLetters()
    ensures 'n' !in FOLLOWS && 'm' !in FOLLOWS
  {
  }

  lemma FollowsIsRemark()
    ensures !Holds(FOLLOWS, "DongleDeviceEntry") && !Holds(FOLLOWS, "DongleShowDevicesComplete")
    ensures !Holds(FOLLOWS, "ListComplete")
  {
    hide Holds, FOLLOWS;
    assert 'n' !in FOLLOWS && 'm' !in FOLLOWS by { FollowsLetters(); }
    assert "DongleDeviceEntry"[2] == 'n' && "DongleShowDevicesComplete"[2] == 'n' && "ListComplete"[6] == 'm';
    Misses(FOLLOWS, "DongleDeviceEntry", 'n');
    Misses(FOLLOWS, "DongleShowDevicesComplete", 'n');
    Misses(FOLLOWS, "ListComplete", 'm');
  }

  lemma FollowsAcknowledges(actionId: string)
    ensures Acknowledges(ListFollows(actionId), actionId)
  {
    hide Holds, FOLLOWS;
    FollowsIsRemark();
    assert Titled(ListFollows(actionId), FOLLOWS);
  }

  lemma EndsEnds(actionId: string)
    ensures Ends(ListEnds(actionId))
  {
    var ends := "DongleShowDevicesComplete";
    Misses(ends, "DongleDeviceEntry", 'E');
    assert Holds(ends, ends) by { assert ends == [] + ends + []; }
    hide Holds;
    assert Titled(ListEnds(actionId), ends);
  }

  lemma EntryShows(x: Sighting, actionId: string)
    ensures Enters(Entry(x, actionId)) && Shows(Entry(x, actionId), x)
  {
    hide RegistrationText, Signed;
  }

  /** The driver's own messages are what the poll takes them for: a poll of a modem reports it. */
  lemma DriverPoll(x: Sighting, actionId: string)
    requires Sensible(x)
    ensures var r := Poll([ListFollows(actionId), Entry(x, actionId), ListEnds(actionId)], actionId, DRAIN_CAP);
            r.used == 3 && StatusOf(r).Some? && Tells(StatusOf(r).value, x)
  {
    hide Poll, Tells, Sensible, Entry, ListFollows, ListEnds, Enters, Ends, Acknowledges, Shows;
    var a := Answer(ListFollows(actionId), [], [Entry(x, actionId)], ListEnds(actionId));
    FollowsAcknowledges(actionId);
    EndsEnds(actionId);
    EntryShows(x, actionId);
    PollTells([], a, [], actionId, DRAIN_CAP, x);
    assert [] + Stream(a) + [] == [ListFollows(actionId), Entry(x, actionId), ListEnds(actionId)];
  }
}
