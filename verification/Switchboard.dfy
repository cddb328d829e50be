/** The call handlers as one state machine. A handler runs without interruption up to its
    next `await`; there it parks as a task, and any other event may happen before it resumes.
    Device reports and the second halves of releases are events of their own. */
module Switchboard {
  import opened Options
  import opened Calls
  import opened Modems
  import opened Registry

  /** What a parked handler does when its last await returns. */
  datatype Finish =
    | CleanupOnly          // the outcome is recorded; only the user notification was pending
    | HangupThenCleanup    // hang up (a refusal is ignored), then clean up
    | HangupOrKeep         // hang up; if refused, answer 409 and leave the call alone

  /** `left` awaits are still to return for `id`; `rest` is the unhandled part of a
      timeout pass. */
  datatype Task = Task(id: CallId, left: nat, finish: Finish, rest: seq<CallId>)

  /** `closed` keeps the record of every call that was cleaned up (handlers may still hold
      it); `freed` counts, per call, the modem releases performed on its behalf. */
  datatype World = World(
    desk: Desk,
    closed: map<CallId, Call>,
    freed: multiset<CallId>,
    tasks: map<nat, Task>,
    nextTask: nat,
    now: int)

  datatype Status = Answered | NoAnswer | BusyLine | Failed | Cancelled | Ended

  datatype Event =
    | CallIncoming(id: CallId, modem: string, gsmChannel: string)
    | CallOutgoing(id: CallId, modemRequired: bool, choice: string)
    | OutgoingAccepted(id: CallId, bridgeChannel: string)
    | Complete(id: CallId, status: Status)
    | TelegramRing(id: CallId)
    | Accept(id: CallId)
    | AnswerGsm(id: CallId)
    | Bridge(id: CallId)
    | SetBridgeLeg(id: CallId, channel: string)
    | SetGsmChannel(id: CallId, channel: string)
    | Reject(id: CallId)
    | Hangup(id: CallId)
    | CheckTimeouts(limits: Limits, order: seq<CallId>)
    | Resume(task: nat)
    | FinishRelease(id: CallId)
    | DeviceReport(modem: string, report: Report)
    | DeviceGone(modem: string)
    | Tick(later: int)

  function All(w: World): map<CallId, Call> {
    w.desk.calls + w.closed
  }

  predicate Known(w: World, id: CallId) {
    id in w.desk.calls || id in w.closed
  }

  function Go(w: World, id: CallId, t: CallState): World {
    w.(desk := Move(w.desk, id, t, w.now))
  }

  /** `cleanup`: whoever pops the call releases its modem. */
  function Shut(w: World, id: CallId): World {
    if id in w.desk.calls then
      var c := w.desk.calls[id];
      w.(desk := Remove(w.desk, id),
         closed := w.closed[id := c],
         freed := if Holds(c) then w.freed + multiset{id} else w.freed)
    else w
  }

  function Park(w: World, t: Task): World {
    w.(tasks := w.tasks[w.nextTask := t], nextTask := w.nextTask + 1)
  }

  function Finished(w: World, id: CallId, f: Finish): World {
    match f
    case CleanupOnly => Shut(w, id)
    case HangupThenCleanup => Shut(Go(w, id, HungUp), id)
    case HangupOrKeep => if Moves(w.desk, id, HungUp) then Shut(Go(w, id, HungUp), id) else w
  }

  /** Hang up the call's channels one await at a time, then finish. */
  function HangupLegs(w: World, id: CallId, f: Finish): World
    requires id in w.desk.calls
  {
    var n := Channels(w.desk.calls[id]);
    if n == 0 then Finished(w, id, f) else Park(w, Task(id, n, f, []))
  }

  /** The loop of a timeout pass over the calls it found overdue; it re-reads each state. */
  function Sweep(w: World, ids: seq<CallId>): World
    decreases |ids|
  {
    if ids == [] then w
    else if !Known(w, ids[0]) then Sweep(w, ids[1..])
    else
      var id := ids[0];
      var c := All(w)[id];
      match c.state
      case Ringing => Sweep(Shut(Go(w, id, Voicemail), id), ids[1..])
      case TelegramRinging => Sweep(Shut(Go(w, id, Voicemail), id), ids[1..])
      case ModemReserved => Park(Go(w, id, TelegramTimeout), Task(id, 1, CleanupOnly, ids[1..]))
      case TelegramCalling => Park(Go(w, id, TelegramTimeout), Task(id, 1, CleanupOnly, ids[1..]))
      case Bridged =>
        if Channels(c) == 0 then Sweep(Finished(w, id, HangupThenCleanup), ids[1..])
        else Park(w, Task(id, Channels(c), HangupThenCleanup, ids[1..]))
      case _ => Sweep(w, ids[1..])
  }

  function Resumed(w: World, k: nat): World
    requires k in w.tasks
  {
    var t := w.tasks[k];
    if t.left > 1 then w.(tasks := w.tasks[k := t.(left := t.left - 1)])
    else Sweep(Finished(w.(tasks := w.tasks - {k}), t.id, t.finish), t.rest)
  }

  function CompletedIncoming(w: World, id: CallId, status: Status): World {
    match status
    case Answered => w.(desk := FastForwarded(w.desk, id, w.now))
    case NoAnswer => if Moves(w.desk, id, Voicemail) then Shut(Go(w, id, Voicemail), id) else w
    case BusyLine => if Moves(w.desk, id, Rejected) then Shut(Go(w, id, Rejected), id) else w
    case _ => Finished(w, id, HangupOrKeep)
  }

  function CompletedOutgoing(w: World, id: CallId, status: Status): World
    requires id in w.desk.calls
  {
    match status
    case Answered =>
      if Moves(w.desk, id, GsmRinging)
      then Go(Go(Go(w, id, GsmRinging), id, Connected), id, Bridged)
      else w
    case NoAnswer => Recorded(w, id, GsmNoAnswer)
    case BusyLine => Recorded(w, id, GsmBusy)
    case Failed => Recorded(w, id, GsmError)
    case _ => HangupLegs(w, id, HangupOrKeep)
  }

  /** A failed dial: record it, tell the user (an await), then clean up. */
  function Recorded(w: World, id: CallId, t: CallState): World {
    if Moves(w.desk, id, t) then Park(Go(w, id, t), Task(id, 1, CleanupOnly, [])) else w
  }

  function Completed(w: World, id: CallId, status: Status): World {
    if id !in w.desk.calls || Terminal(w.desk.calls[id].state) then w
    else if w.desk.calls[id].state == Bridged then
      if status == Answered then w else HangupLegs(w, id, HangupThenCleanup)
    else if w.desk.calls[id].direction.Incoming? then CompletedIncoming(w, id, status)
    else CompletedOutgoing(w, id, status)
  }

  function Pending(w: World): set<CallId> {
    set id | id in w.desk.calls && w.desk.calls[id].direction.Outgoing?
             && w.desk.calls[id].state in {ModemReserved, TelegramCalling}
  }

  function WithBridgeLeg(w: World, id: CallId, channel: string): World {
    if id in w.desk.calls then
      w.(desk := w.desk.(calls := w.desk.calls[id := w.desk.calls[id].(bridgeChannel := channel)]))
    else w
  }

  function WithGsmChannel(w: World, id: CallId, channel: string): World {
    if id in w.desk.calls then
      w.(desk := w.desk.(calls := w.desk.calls[id := w.desk.calls[id].(gsmChannel := channel)]))
    else w
  }

  /** The bridge reports an accept without naming the call: it must be the only pending one. */
  function AcceptedOutgoing(w: World, id: CallId, channel: string): World {
    if Pending(w) != {id} then w
    else
      var w1 := if w.desk.calls[id].state == ModemReserved then Go(w, id, TelegramCalling) else w;
      var w2 := if channel != "" then WithBridgeLeg(w1, id, channel) else w1;
      Go(Go(w2, id, UserAccepted), id, GsmDialing)
  }

  function Opened(w: World, id: CallId, modemRequired: bool, choice: string): World {
    if Known(w, id) then w
    else Go(w.(desk := WithOutgoing(w.desk, id, modemRequired, choice, w.now)), id, TelegramCalling)
  }

  function Rang(w: World, id: CallId, modem: string, gsmChannel: string): World {
    if Known(w, id) then w
    else Go(w.(desk := Enrolled(w.desk, id, NewCall(Incoming, modem, Ringing, gsmChannel, w.now))),
            id, TelegramRinging)
  }

  function WithDevice(w: World, m: string, d: Device): World
    requires w.desk.lines.Pooled?
  {
    var p := w.desk.lines.pool;
    w.(desk := w.desk.(lines := w.desk.lines.(pool := p.(devices := p.devices[m := d]))))
  }

  predicate Knows(w: World, m: string) {
    w.desk.lines.Pooled? && m in w.desk.lines.pool.devices
  }

  ghost predicate ListingOf(order: seq<CallId>, ids: set<CallId>) {
    && (forall i, j :: 0 <= i < j < |order| ==> order[i] != order[j])
    && forall id :: id in order <==> id in ids
  }

  /** One event. An event that cannot happen in `w` leaves it unchanged. */
  ghost function Next(w: World, e: Event): World {
    match e
    case CallIncoming(id, modem, gsm) => Rang(w, id, modem, gsm)
    case CallOutgoing(id, required, choice) => Opened(w, id, required, choice)
    case OutgoingAccepted(id, ch) => AcceptedOutgoing(w, id, ch)
    case Complete(id, status) => Completed(w, id, status)
    case TelegramRing(id) => Go(w, id, TelegramRinging)
    case Accept(id) => Go(w, id, TelegramAccepted)
    case AnswerGsm(id) =>
      // AMI cannot answer a channel: with a channel recorded the handler fails before the transition.
      if id in w.desk.calls && w.desk.calls[id].gsmChannel != "" then w else Go(w, id, GsmAnswered)
    case Bridge(id) => Go(w, id, Bridged)
    case SetBridgeLeg(id, ch) => WithBridgeLeg(w, id, ch)
    case SetGsmChannel(id, ch) => WithGsmChannel(w, id, ch)
    case Reject(id) => if Moves(w.desk, id, Rejected) then Shut(Go(w, id, Rejected), id) else w
    case Hangup(id) => if id in w.desk.calls then HangupLegs(w, id, HangupOrKeep) else w
    case CheckTimeouts(limits, order) =>
      if ListingOf(order, OverdueIds(w.desk.calls, limits, w.now)) then Sweep(w, order) else w
    case Resume(k) => if k in w.tasks then Resumed(w, k) else w
    case FinishRelease(id) => w.(desk := w.desk.(lines := Settled(w.desk.lines, id)))
    case DeviceReport(m, r) =>
      if Knows(w, m) then WithDevice(w, m, Reported(w.desk.lines.pool.devices[m], r, w.now)) else w
    case DeviceGone(m) =>
      if Knows(w, m) then WithDevice(w, m, Modems.Gone(w.desk.lines.pool.devices[m], w.now)) else w
    case Tick(later) => if later >= w.now then w.(now := later) else w
  }

  ghost function Run(w: World, events: seq<Event>): World
    decreases |events|
  {
    if events == [] then w
    else Next(Run(w, events[..|events| - 1]), events[|events| - 1])
  }

  /** The start: no call; with a pool, every modem unreserved and idle. */
  ghost predicate Initial(w: World) {
    && w.desk.calls == map[] && w.closed == map[] && w.tasks == map[] && w.freed == multiset{}
    && w.desk.metrics == ZERO_COUNTERS
    && (match w.desk.lines
        case Pooled(p, r) =>
          && r == map[] && p.reserved == {} && "" !in p.devices
          && forall m :: m in p.devices ==> Fresh(p.devices[m]) && !p.devices[m].callActive
        case Direct(n) => n == 0)
  }
}
