/** The device poll on the shared message stream: it drains to its own list terminator, past
    whatever earlier transactions and call events left in the way. */
module AmiPoll {
  import opened Options
  import opened Text

  type Message = map<string, string>

  const DRAIN_CAP: nat := 1024

  function Get(m: Message, key: string): string {
    if key in m then m[key] else ""
  }

  function Marker(m: Message): string {
    if Get(m, "Event") != "" then Get(m, "Event") else Get(m, "Message")
  }

  predicate IsDeviceEntry(m: Message) {
    || Contains(Marker(m), "DongleDeviceEntry")
    || ("GSMRegistrationStatus" in m && "Device" in m)
  }

  predicate IsListComplete(m: Message) {
    Contains(Marker(m), "DongleShowDevicesComplete") || Contains(Marker(m), "ListComplete")
  }

  predicate Carries(m: Message, actionId: string) {
    "ActionID" in m && m["ActionID"] == actionId
  }

  predicate Positive(m: Message) {
    Get(m, "Response") == "Success" || Get(m, "Response") == "Followed"
  }

  datatype Ending = Terminated | CapHit | Starved

  /** `used` messages were taken off the stream. The empty entry stands for "no device". */
  datatype Outcome = Outcome(entry: Message, used: nat, ending: Ending)

  /** One drain, message by message. */
  function Drained(q: seq<Message>, actionId: string, budget: nat, entry: Message, acked: bool): Outcome
    decreases budget
  {
    if budget == 0 then Outcome(entry, 0, CapHit)
    else if q == [] then Outcome(entry, 0, Starved)
    else
      var m := q[0];
      var ours := Carries(m, actionId) || acked;
      if !(IsDeviceEntry(m) && ours) && IsListComplete(m) && ours then Outcome(entry, 1, Terminated)
      else
        var entry' := if IsDeviceEntry(m) && ours && entry == map[] then m else entry;
        var plain := !(IsDeviceEntry(m) && ours) && !IsListComplete(m);
        var acked' := acked || (plain && Positive(m) && Carries(m, actionId));
        var r := Drained(q[1..], actionId, budget - 1, entry', acked');
        r.(used := r.used + 1)
  }

  function Poll(q: seq<Message>, actionId: string, cap: nat): Outcome {
    Drained(q, actionId, cap, map[], false)
  }

  // -------------------------------------------------------------------------
  // The status a caller sees
  // -------------------------------------------------------------------------

  datatype DeviceStatus = DeviceStatus(
    device: string,
    registered: bool,
    signal: Option<int>,
    operator: Option<string>,
    imeiSuffix: Option<string>)

  /** The rest of a decimal number: digits, with single underscores between them. */
  function DigitsFrom(s: string, acc: nat, afterDigit: bool): Option<nat> {
    if s == [] then (if afterDigit then Some(acc) else None)
    else if IsDigit(s[0]) then DigitsFrom(s[1..], 10 * acc + (s[0] - '0') as nat, true)
    else if s[0] == '_' && afterDigit then DigitsFrom(s[1..], acc, false)
    else None
  }

  /** `int(s)`, on ASCII. */
  function ParseInt(s: string): Option<int> {
    var t := Strip(s);
    if t != [] && t[0] == '-' then
      var n := DigitsFrom(t[1..], 0, false);
      if n.None? then None else (var v: int := n.value; Some(-v))
    else
      var n := DigitsFrom(if t != [] && t[0] == '+' then t[1..] else t, 0, false);
      if n.Some? then Some(n.value) else None
  }

  /** -110 to -50 dBm as 0 to 100 percent, rounded to the nearest. */
  function Percent(dbm: int): int {
    var n := ((dbm + 110) * 5 + 1) / 3;
    if n < 0 then 0 else if n > 100 then 100 else n
  }

  function Normalized(entry: Message): DeviceStatus {
    var rssi := Get(entry, "RSSI");
    var dbm := ParseInt(rssi[..IndexOf(rssi, ',')]);
    var operator, imei := Get(entry, "ProviderName"), Get(entry, "IMEIState");
    DeviceStatus(
      Get(entry, "Device"),
      Get(entry, "GSMRegistrationStatus") in {"Registered, home network", "Registered, roaming"},
      if dbm.Some? then Some(Percent(dbm.value)) else None,
      if operator != "" then Some(operator) else None,
      if imei == "" then None else Some(if |imei| > 4 then imei[|imei| - 4..] else imei))
  }

  /** The scale is monotone, within a third of a percent of the exact value between its ends, and
      reaches each end exactly there. */
  lemma PercentScale(a: int, b: int)
    requires a <= b
    ensures 0 <= Percent(a) <= Percent(b) <= 100
    ensures Percent(a) == 0 <==> a <= -110
    ensures Percent(a) == 100 <==> a >= -50
    ensures -110 <= a <= -50 ==> -1 <= 3 * Percent(a) - 5 * (a + 110) <= 1
  {
    var x, y := (a + 110) * 5 + 1, (b + 110) * 5 + 1;
    assert x <= y && x / 3 <= y / 3;
  }

  /** Only the empty answer of a poll means that there is no device. */
  function StatusOf(r: Outcome): Option<DeviceStatus> {
    if r.entry == map[] then None else Some(Normalized(r.entry))
  }

  /** The poll as the client runs it: the loop, then the normalized answer. */
  method GetModemStatus(stream: seq<Message>, actionId: string, cap: nat := DRAIN_CAP)
    returns (status: Option<DeviceStatus>, r: Outcome)
    ensures r == Poll(stream, actionId, cap)
    ensures status == StatusOf(r)
  {
    r := Drain(stream, actionId, cap);
    status := if r.entry == map[] then None else Some(Normalized(r.entry));
  }

  method Drain(stream: seq<Message>, actionId: string, cap: nat) returns (r: Outcome)
    ensures r == Poll(stream, actionId, cap)
  {
    hide IsDeviceEntry, IsListComplete, Positive, Carries;
    var entry: Message := map[];
    var acked := false;
    var i := 0;
    while i < cap && i < |stream|
      invariant 0 <= i <= cap && i <= |stream|
      invariant Poll(stream, actionId, cap)
             == var d := Drained(stream[i..], actionId, cap - i, entry, acked); d.(used := d.used + i)
    {
      var resp := stream[i];
      var aid := Carries(resp, actionId);
      if IsDeviceEntry(resp) && (aid || acked) {
        if entry == map[] {
          entry := resp;
        }
      } else if IsListComplete(resp) {
        if aid || acked {
          return Outcome(entry, i + 1, Terminated);
        }
      } else if Positive(resp) && aid {
        acked := true;
      }
      i := i + 1;
    }
    return Outcome(entry, i, if i == cap then CapHit else Starved);
  }

  // -------------------------------------------------------------------------
  // One poll
  // -------------------------------------------------------------------------

  /** The reply to one DongleShowDevices action: acknowledgement, then device entries and
      unrelated events in any order, then the terminator. */
  datatype Reply = Reply(ack: Message, body: seq<Message>, fin: Message)

  predicate ProperReply(r: Reply, actionId: string) {
    && Carries(r.ack, actionId) && Positive(r.ack) && !IsDeviceEntry(r.ack) && !IsListComplete(r.ack)
    && (forall m :: m in r.body && IsListComplete(m) ==> IsDeviceEntry(m))
    && IsListComplete(r.fin) && !IsDeviceEntry(r.fin)
  }

  function Messages(r: Reply): seq<Message> {
    [r.ack] + r.body + [r.fin]
  }

  function FirstEntry(body: seq<Message>): Message {
    if body == [] then map[]
    else if IsDeviceEntry(body[0]) then body[0]
    else FirstEntry(body[1..])
  }

  predicate Foreign(q: seq<Message>, actionId: string) {
    forall m :: m in q ==> !Carries(m, actionId)
  }

  lemma EntryNotEmpty(m: Message)
    requires IsDeviceEntry(m)
    ensures m != map[]
  {
  }

  lemma {:induction false} BodyDrained(body: seq<Message>, fin: Message, tail: seq<Message>, actionId: string,
                                       budget: nat, entry: Message)
    requires forall m :: m in body && IsListComplete(m) ==> IsDeviceEntry(m)
    requires IsListComplete(fin) && !IsDeviceEntry(fin) && budget > |body|
    ensures Drained(body + [fin] + tail, actionId, budget, entry, true)
         == Outcome(if entry == map[] then FirstEntry(body) else entry, |body| + 1, Terminated)
    decreases |body|
  {
    hide IsDeviceEntry, IsListComplete, Carries, Positive;
    var q := body + [fin] + tail;
    if body == [] {
      assert q[0] == fin;
    } else {
      assert q[0] == body[0] && q[1..] == body[1..] + [fin] + tail;
      assert body[0] in body;
      if IsDeviceEntry(body[0]) { EntryNotEmpty(body[0]); }
      BodyDrained(body[1..], fin, tail, actionId, budget - 1,
                  if IsDeviceEntry(body[0]) && entry == map[] then body[0] else entry);
    }
  }

  /** Whatever is queued before its reply, a poll that fits in the cap returns the first device
      entry of its own reply and stops right behind its own terminator. */
  lemma {:induction false} PollResynchronises(pre: seq<Message>, r: Reply, tail: seq<Message>, actionId: string,
                                              cap: nat)
    requires Foreign(pre, actionId) && ProperReply(r, actionId)
    requires |pre| + |Messages(r)| <= cap
    ensures Poll(pre + Messages(r) + tail, actionId, cap)
         == Outcome(FirstEntry(r.body), |pre| + |Messages(r)|, Terminated)
    decreases |pre|
  {
    hide IsDeviceEntry, IsListComplete, Positive;
    var q := pre + Messages(r) + tail;
    if pre == [] {
      assert q[0] == r.ack && q[1..] == r.body + [r.fin] + tail;
      BodyDrained(r.body, r.fin, tail, actionId, cap - 1, map[]);
    } else {
      assert pre[0] in pre && q[0] == pre[0];
      assert q[1..] == pre[1..] + Messages(r) + tail;
      PollResynchronises(pre[1..], r, tail, actionId, cap - 1);
    }
  }

  // -------------------------------------------------------------------------
  // Unbounded runs of polls
  // -------------------------------------------------------------------------

  /** Before poll number i: other transactions take `taken` messages off the front, then `noise`
      (call events, late replies) arrives, then the poll's own reply. */
  datatype Round = Round(actionId: string, taken: nat, noise: seq<Message>, reply: Reply)

  function Drop(q: seq<Message>, n: nat): seq<Message> {
    if n <= |q| then q[n..] else []
  }

  /** What is queued ahead of the reply of the last round. */
  function Ahead(rounds: seq<Round>, cap: nat): seq<Message>
    requires rounds != []
    decreases |rounds|, 0
  {
    var last := rounds[|rounds| - 1];
    Drop(Queue(rounds[..|rounds| - 1], cap), last.taken) + last.noise
  }

  /** What the polls have left in the stream. */
  function Queue(rounds: seq<Round>, cap: nat): seq<Message>
    decreases |rounds|, 1
  {
    if rounds == [] then []
    else
      var q := Ahead(rounds, cap) + Messages(rounds[|rounds| - 1].reply);
      Drop(q, Poll(q, rounds[|rounds| - 1].actionId, cap).used)
  }

  /** Action ids are fresh: no message carries the id of a poll that has not been sent yet. Late
      pieces of earlier replies may turn up anywhere. */
  ghost predicate FreshIds(rounds: seq<Round>) {
    && (forall i, j, m :: 0 <= i <= j < |rounds| && m in rounds[i].noise ==>
          !Carries(m, rounds[j].actionId))
    && (forall i, j, m :: 0 <= i < j < |rounds| && m in Messages(rounds[i].reply) ==>
          !Carries(m, rounds[j].actionId))
  }

  lemma {:induction false} LeftoversForeign(rounds: seq<Round>, n: nat, j: nat, cap: nat)
    requires FreshIds(rounds) && n <= j < |rounds|
    ensures Foreign(Queue(rounds[..n], cap), rounds[j].actionId)
    decreases n
  {
    hide ProperReply, Carries, Poll, Messages;
    if n > 0 {
      var rs := rounds[..n];
      assert rs[..n - 1] == rounds[..n - 1];
      LeftoversForeign(rounds, n - 1, j, cap);
      var ahead := Ahead(rs, cap);
      assert Foreign(ahead, rounds[j].actionId);
      var q := ahead + Messages(rs[n - 1].reply);
      assert Foreign(q, rounds[j].actionId);
    }
  }

  /** In any run, however many polls hit the cap before and whatever they were answered, each poll with
      a proper reply that fits in the cap together with its backlog reports its own first device entry
      and leaves the stream empty behind it. */
  lemma EveryFittingPollIsExact(rounds: seq<Round>, i: nat, cap: nat)
    requires FreshIds(rounds) && i < |rounds| && ProperReply(rounds[i].reply, rounds[i].actionId)
    requires |Ahead(rounds[..i + 1], cap)| + |Messages(rounds[i].reply)| <= cap
    ensures var ahead := Ahead(rounds[..i + 1], cap);
            var q := ahead + Messages(rounds[i].reply);
            && Poll(q, rounds[i].actionId, cap) == Outcome(FirstEntry(rounds[i].reply.body), |q|, Terminated)
            && Queue(rounds[..i + 1], cap) == []
  {
    var rs := rounds[..i + 1];
    assert rs[..i] == rounds[..i] && rs[i] == rounds[i];
    LeftoversForeign(rounds, i, i, cap);
    var ahead := Ahead(rs, cap);
    hide ProperReply, Carries, Messages, Poll;
    assert Foreign(ahead, rounds[i].actionId);
    PollResynchronises(ahead, rounds[i].reply, [], rounds[i].actionId, cap);
    assert ahead + Messages(rounds[i].reply) + [] == ahead + Messages(rounds[i].reply);
  }
}
