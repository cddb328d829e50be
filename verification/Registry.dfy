/** The registry of live calls as a value: the calls, the modems they hold, the counters. */
module Registry {
  import opened Options
  import opened Calls
  import opened Modems

  /** With a pool, `releasing` remembers the cleanups whose second half (clearing the
      activity flag, outside the pool's lock) is still to come. Without one, a counter. */
  datatype Lines =
    | Pooled(pool: Pool, releasing: map<CallId, string>)
    | Direct(reserved: int)

  datatype Desk = Desk(calls: map<CallId, Call>, lines: Lines, metrics: Counters)

  const DEFAULT_MODEM := "gsm"

  predicate Moves(d: Desk, id: CallId, t: CallState) {
    id in d.calls && CanMove(d.calls[id].direction, d.calls[id].state, t)
  }

  /** `transition`: a refused transition changes nothing. */
  function Move(d: Desk, id: CallId, t: CallState, now: int): Desk {
    if Moves(d, id, t) then
      var c := Moved(d.calls[id], t, now);
      d.(calls := d.calls[id := c], metrics := Counted(d.metrics, c, now))
    else d
  }

  function Vacated(l: Lines, id: CallId, c: Call): Lines {
    if !Holds(c) then l
    else match l
      case Pooled(p, r) => Pooled(Unreserved(p, c.modem), r[id := c.modem])
      case Direct(n) => Direct(if n > 1 then n - 1 else 0)
  }

  /** `cleanup` up to the point where the modem's activity flag is still up. */
  function Remove(d: Desk, id: CallId): Desk {
    if id in d.calls then
      d.(calls := d.calls - {id}, lines := Vacated(d.lines, id, d.calls[id]))
    else d
  }

  /** The second half of a release. */
  function Settled(l: Lines, id: CallId): Lines {
    if l.Pooled? && id in l.releasing then
      Pooled(CallCleared(l.pool, l.releasing[id]), l.releasing - {id})
    else l
  }

  function NewCall(d: Direction, modem: string, state: CallState, gsmChannel: string, now: int): Call {
    Call(d, modem, state, now, None, gsmChannel, "")
  }

  function Enrolled(d: Desk, id: CallId, c: Call): Desk {
    d.(calls := d.calls[id := c])
  }

  /** `create_outgoing` when a modem is needed; `choice` is what the pool's strategy picked.
      `None` stands for the busy/offline error. */
  function Reserved(l: Lines, choice: string): Option<(Lines, string)> {
    match l
    case Pooled(p, r) =>
      if choice in Available(p) then Some((Pooled(Selected(p, choice), r), choice)) else None
    case Direct(n) =>
      if n > 0 then None else Some((Direct(n + 1), DEFAULT_MODEM))
  }

  function WithOutgoing(d: Desk, id: CallId, modemRequired: bool, choice: string, now: int): Desk {
    if !modemRequired then Enrolled(d, id, NewCall(Outgoing, "", ModemReserved, "", now))
    else match Reserved(d.lines, choice)
      case None => d
      case Some(r) =>
        Enrolled(d.(lines := r.0), id, NewCall(Outgoing, r.1, ModemReserved, "", now))
  }

  /** `fast_forward_bridged`: each step fires only from its own source state. */
  function Step(d: Desk, id: CallId, source: CallState, target: CallState, now: int): Desk {
    if id in d.calls && d.calls[id].state == source then Move(d, id, target, now) else d
  }

  function FastForwarded(d: Desk, id: CallId, now: int): Desk {
    var d1 := Step(d, id, Ringing, TelegramRinging, now);
    var d2 := Step(d1, id, TelegramRinging, TelegramAccepted, now);
    var d3 := Step(d2, id, TelegramAccepted, GsmAnswered, now);
    Step(d3, id, GsmAnswered, Bridged, now)
  }

  datatype Limits = Limits(ringWait: int, maxCall: int, tgRing: int)

  predicate Overdue(c: Call, limits: Limits, now: int) {
    match c.state
    case Ringing => now - c.since > limits.ringWait
    case TelegramRinging => now - c.since > limits.ringWait
    case ModemReserved => now - c.since > limits.tgRing
    case TelegramCalling => now - c.since > limits.tgRing
    case Bridged => now - c.since > limits.maxCall
    case _ => false
  }

  function OverdueIds(calls: map<CallId, Call>, limits: Limits, now: int): set<CallId> {
    set id | id in calls && Overdue(calls[id], limits, now)
  }
}
