/** The call handlers as code over the registry: each runs up to its first await, where it parks,
    or to its end. What it does to the world is one event of the switchboard, with the releases it
    began also finished. */
module Routes {
  import opened Options
  import opened Calls
  import opened Modems
  import opened Registry
  import opened Switchboard
  import opened CallSafety
  import CallHandlers
  import opened CallControl

  // -------------------------------------------------------------------------
  // Finishing the releases
  // -------------------------------------------------------------------------

  function Rested(l: Lines): Lines {
    match l
    case Direct(_) => l
    case Pooled(p, r) =>
      Pooled(p.(devices := map m | m in p.devices ::
                             if m in r.Values then WithCall(p.devices[m], false) else p.devices[m]), map[])
  }

  /** `w` once every release it has begun is done. */
  function Quiet(w: World): World {
    w.(desk := w.desk.(lines := Rested(w.desk.lines)))
  }

  predicate IsQuiet(w: World) {
    w.desk.lines.Pooled? ==> w.desk.lines.releasing == map[]
  }

  /** No release under way belongs to a live call. */
  ghost predicate Apart(w: World) {
    w.desk.lines.Pooled? ==> forall id :: id in w.desk.lines.releasing ==> id !in w.desk.calls
  }

  function FinishAll(w: World, ids: seq<CallId>): World
    decreases |ids|
  {
    if ids == [] then w
    else FinishAll(w.(desk := w.desk.(lines := Settled(w.desk.lines, ids[0]))), ids[1..])
  }

  lemma QuietFacts(w: World)
    ensures IsQuiet(Quiet(w)) && Apart(Quiet(w))
    ensures IsQuiet(w) ==> Quiet(w) == w && Apart(w)
  {
    if w.desk.lines.Pooled? && IsQuiet(w) {
      assert Rested(w.desk.lines).pool.devices == w.desk.lines.pool.devices;
    }
  }

  lemma RestedSettled(l: Lines, id: CallId)
    ensures Rested(Settled(l, id)) == Rested(l)
  {
    if l.Pooled? && id in l.releasing {
      var m := l.releasing[id];
      var r' := l.releasing - {id};
      assert m in l.releasing.Values;
      forall x | x in l.releasing.Values && x != m ensures x in r'.Values {
        var i :| i in l.releasing && l.releasing[i] == x;
        assert i in r' && r'[i] == x;
      }
      forall x | x in r'.Values ensures x in l.releasing.Values { }
      assert Rested(Settled(l, id)).pool.devices == Rested(l).pool.devices;
    }
  }

  lemma OneFinished(w: World, id: CallId)
    requires Inv(w) && w.desk.lines.Pooled? && id in w.desk.lines.releasing
    ensures var w' := w.(desk := w.desk.(lines := Settled(w.desk.lines, id)));
            && Inv(w') && Quiet(w') == Quiet(w)
            && w'.desk.lines.Pooled? && |w'.desk.lines.releasing| < |w.desk.lines.releasing|
  {
    hide Inv, Rested, CallCleared;
    SettledInv(w, id);
    RestedSettled(w.desk.lines, id);
    FewerKeys(w.desk.lines.releasing, id);
  }

  lemma FewerKeys(m: map<CallId, string>, id: CallId)
    requires id in m
    ensures |m - {id}| == |m| - 1
  {
    assert (m - {id}).Keys == m.Keys - {id};
  }

  /** Being quiet is reached by finishing the releases one event at a time, so the invariant holds
      there too. */
  lemma {:induction false} QuietByFinishing(w: World) returns (ids: seq<CallId>)
    requires Inv(w)
    ensures FinishAll(w, ids) == Quiet(w) && Inv(Quiet(w))
    decreases if w.desk.lines.Pooled? then |w.desk.lines.releasing| else 0
  {
    if IsQuiet(w) {
      QuietFacts(w);
      ids := [];
    } else {
      assert w.desk.lines.releasing.Keys != {};
      var id :| id in w.desk.lines.releasing;
      var w' := w.(desk := w.desk.(lines := Settled(w.desk.lines, id)));
      OneFinished(w, id);
      hide Inv, Rested, Settled;
      var rest := QuietByFinishing(w');
      ids := [id] + rest;
      assert ids[1..] == rest;
    }
  }

  /** What a handler leaves behind satisfies the invariant again. */
  lemma HandlerInv(w: World, e: Event)
    requires Inv(w)
    ensures Inv(Quiet(Next(w, e)))
  {
    NextInv(w, e);
    var ids := QuietByFinishing(Next(w, e));
  }

  // -------------------------------------------------------------------------
  // A pass with each release finished on the spot
  // -------------------------------------------------------------------------

  lemma QuietGo(w: World, id: CallId, t: CallState)
    ensures Go(Quiet(w), id, t) == Quiet(Go(w, id, t))
    ensures Apart(w) ==> Apart(Go(w, id, t))
  {
    hide CanMove, Counted, Moved, Rested;
  }

  lemma RestedVacated(l: Lines, id: CallId, c: Call)
    requires l.Pooled? ==> id !in l.releasing
    ensures Rested(Vacated(Rested(l), id, c)) == Rested(Vacated(l, id, c))
  {
    if l.Pooled? && Holds(c) {
      var l1, l2 := Vacated(Rested(l), id, c), Vacated(l, id, c);
      assert id in l1.releasing && l1.releasing[id] == c.modem;
      assert id in l2.releasing && l2.releasing[id] == c.modem;
      assert l1.releasing.Values == {c.modem};
      assert l2.releasing.Values == l.releasing.Values + {c.modem} by {
        forall x | x in l.releasing.Values ensures x in l2.releasing.Values {
          var i :| i in l.releasing && l.releasing[i] == x;
          assert i in l2.releasing && l2.releasing[i] == x;
        }
      }
      assert Rested(l1).pool.devices == Rested(l2).pool.devices;
    } else if l.Pooled? {
      assert Rested(Rested(l)).pool.devices == Rested(l).pool.devices;
    }
  }

  lemma QuietShut(w: World, id: CallId)
    requires Apart(w)
    ensures Quiet(Shut(Quiet(w), id)) == Quiet(Shut(w, id)) && Apart(Shut(w, id))
  {
    QuietFacts(w);
    if id in w.desk.calls {
      RestedVacated(w.desk.lines, id, w.desk.calls[id]);
    } else {
      QuietFacts(Quiet(w));
    }
  }

  lemma SettledIsRested(l: Lines, id: CallId, c: Call)
    requires l.Pooled? ==> l.releasing == map[]
    ensures Settled(Vacated(l, id, c), id) == Rested(Vacated(l, id, c))
  {
    if l.Pooled? {
      assert map[][id := c.modem] - {id} == map[];
      assert map[id := c.modem].Values == {c.modem};
      var a, b := Settled(Vacated(l, id, c), id), Rested(Vacated(l, id, c));
      assert a.pool.devices == b.pool.devices;
    }
  }

  /** The registry's cleanup, both halves of the release at once. */
  function Cleaned(d: Desk, id: CallId): Desk {
    Remove(d, id).(lines := Settled(Remove(d, id).lines, id))
  }

  /** A cleanup finishes the release it begins. */
  lemma CleanUpIsQuiet(w: World, id: CallId)
    requires IsQuiet(w)
    ensures id in w.desk.calls ==>
              var c := w.desk.calls[id];
              Quiet(Shut(w, id)) == w.(desk := Cleaned(w.desk, id), closed := w.closed[id := c],
                                       freed := if Holds(c) then w.freed + multiset{id} else w.freed)
    ensures id !in w.desk.calls ==> Quiet(Shut(w, id)) == w && Cleaned(w.desk, id) == w.desk
  {
    QuietFacts(w);
    if id in w.desk.calls { SettledIsRested(w.desk.lines, id, w.desk.calls[id]); }
  }

  lemma ClosedQuiet(w: World, id: CallId, t: CallState)
    requires Apart(w)
    ensures var s, s' := Shut(Go(w, id, t), id), Shut(Go(Quiet(w), id, t), id);
            Quiet(s) == Quiet(s') && Apart(s) && Apart(s')
  {
    QuietGo(w, id, t);
    QuietFacts(w);
    QuietFacts(Go(w, id, t));
    QuietShut(Go(w, id, t), id);
    QuietShut(Go(Quiet(w), id, t), id);
    hide Go, Shut, Quiet, Apart;
  }

  /** What a pass does with the next of its calls. */
  datatype Turn = Skip | Close(target: CallState) | Notify | HangUpLegs(n: nat)

  function TurnFor(c: Call): Turn {
    match c.state
    case Ringing => Close(Voicemail)
    case TelegramRinging => Close(Voicemail)
    case ModemReserved => Notify
    case TelegramCalling => Notify
    case Bridged => if Channels(c) == 0 then Close(HungUp) else HangUpLegs(Channels(c))
    case _ => Skip
  }

  function TurnOf(w: World, id: CallId): Turn {
    if Known(w, id) then TurnFor(All(w)[id]) else Skip
  }

  function AfterTurn(w: World, id: CallId, rest: seq<CallId>, turn: Turn): World {
    match turn
    case Skip => Sweep(w, rest)
    case Close(t) => Sweep(Shut(Go(w, id, t), id), rest)
    case Notify => Park(Go(w, id, TelegramTimeout), Task(id, 1, CleanupOnly, rest))
    case HangUpLegs(n) => Park(w, Task(id, n, HangupThenCleanup, rest))
  }

  lemma SweepByTurn(w: World, ids: seq<CallId>)
    requires ids != []
    ensures Sweep(w, ids) == AfterTurn(w, ids[0], ids[1..], TurnOf(w, ids[0]))
  {
    hide Go, Shut, Park;
  }

  lemma TurnQuiet(w: World, id: CallId)
    ensures TurnOf(Quiet(w), id) == TurnOf(w, id)
  {
  }

  lemma ParkQuiet(w: World, t: Task)
    ensures Quiet(Park(Quiet(w), t)) == Quiet(Park(w, t))
  {
    QuietFacts(w);
    QuietFacts(Quiet(w));
    hide Rested;
  }

  /** Finishing the releases as they come, or all at the end, leaves the same world. */
  lemma {:induction false} SweepQuiet(w: World, ids: seq<CallId>)
    requires Apart(w)
    ensures Quiet(Sweep(w, ids)) == Quiet(Sweep(Quiet(w), ids))
    decreases |ids|, 0
  {
    if ids == [] {
      QuietFacts(Quiet(w));
    } else {
      var id, rest := ids[0], ids[1..];
      SweepByTurn(w, ids);
      SweepByTurn(Quiet(w), ids);
      TurnQuiet(w, id);
      hide Go, Shut, Park, Quiet, TurnOf, Sweep, Apart;
      match TurnOf(w, id)
      case Skip => SweepQuiet(w, rest);
      case Close(t) => SameRest(w, id, t, rest);
      case Notify =>
        QuietGo(w, id, TelegramTimeout);
        ParkQuiet(Go(w, id, TelegramTimeout), Task(id, 1, CleanupOnly, rest));
      case HangUpLegs(n) => ParkQuiet(w, Task(id, n, HangupThenCleanup, rest));
    }
  }

  lemma SameRest(w: World, id: CallId, t: CallState, rest: seq<CallId>)
    requires Apart(w)
    ensures Quiet(Sweep(Shut(Go(w, id, t), id), rest)) == Quiet(Sweep(Shut(Go(Quiet(w), id, t), id), rest))
    decreases |rest|, 1
  {
    ClosedQuiet(w, id, t);
    SweepQuiet(Shut(Go(w, id, t), id), rest);
    SweepQuiet(Shut(Go(Quiet(w), id, t), id), rest);
    hide Go, Shut, Apart, Quiet, Sweep;
  }

  // -------------------------------------------------------------------------
  // The handlers
  // -------------------------------------------------------------------------

  const OK := 200
  const NOT_FOUND := 404
  const CONFLICT := 409
  const NOT_ANSWERED := 500
  const UNAVAILABLE := 503

  /** No modem can be had: none is available in the pool, or the only one is taken. */
  predicate NoModem(l: Lines) {
    match l
    case Pooled(p, _) => Available(p) == {}
    case Direct(n) => n > 0
  }

  /** The answer to an outcome report; `None` when it comes after an await. */
  function CompleteCode(w: World, id: CallId, status: Status): Option<int> {
    if id !in w.desk.calls || Terminal(w.desk.calls[id].state) then Some(NOT_FOUND)
    else
      var c := w.desk.calls[id];
      if c.state == Bridged then
        if status == Answered then Some(CONFLICT) else if Channels(c) > 0 then None else Some(OK)
      else if c.direction.Incoming? then IncomingCode(w, id, status)
      else OutgoingCode(w, id, status)
  }

  function IncomingCode(w: World, id: CallId, status: Status): Option<int>
    requires id in w.desk.calls
  {
    var target := match status case NoAnswer => Voicemail case BusyLine => Rejected case _ => HungUp;
    var fine :=
      if status == Answered then w.desk.calls[id].state in {Ringing, TelegramRinging, TelegramAccepted, GsmAnswered}
      else Moves(w.desk, id, target);
    Some(if fine then OK else CONFLICT)
  }

  function OutgoingCode(w: World, id: CallId, status: Status): Option<int>
    requires id in w.desk.calls
  {
    match status
    case Answered => Some(if Moves(w.desk, id, GsmRinging) then OK else CONFLICT)
    case NoAnswer => if Moves(w.desk, id, GsmNoAnswer) then None else Some(CONFLICT)
    case BusyLine => if Moves(w.desk, id, GsmBusy) then None else Some(CONFLICT)
    case Failed => if Moves(w.desk, id, GsmError) then None else Some(CONFLICT)
    case _ =>
      if Channels(w.desk.calls[id]) > 0 then None
      else Some(if Moves(w.desk, id, HungUp) then OK else CONFLICT)
  }

  class CallRoutes {
    const registry: CallRegistry
    var closed: map<CallId, Call>       // cleaned-up calls that handlers may still look at
    ghost var freed: multiset<CallId>
    var tasks: map<nat, Task>           // handlers waiting at an await
    var nextTask: nat

    constructor (registry: CallRegistry)
      ensures this.registry == registry && closed == map[] && freed == multiset{} && tasks == map[] && nextTask == 0
    {
      this.registry := registry;
      closed, freed, tasks, nextTask := map[], multiset{}, map[], 0;
    }

    ghost predicate Valid()
      reads this, registry, registry.Machines()
    {
      registry.Valid() && registry.calls.Keys !! closed.Keys
    }

    ghost function View(now: int): World
      reads this, registry, registry.Foot()
    {
      World(registry.View(), closed, freed, tasks, nextTask, now)
    }

    method Wait(t: Task)
      modifies this`tasks, this`nextTask
      ensures forall now :: View(now) == Park(old(View(now)), t)
    {
      tasks := tasks[nextTask := t];
      nextTask := nextTask + 1;
    }

    method Move(id: CallId, target: CallState, now: int) returns (ok: bool)
      requires Valid()
      modifies registry.Machines(), registry.metrics
      ensures Valid() && registry.calls == old(registry.calls)
      ensures ok == old(Moves(View(now).desk, id, target))
      ensures View(now) == Go(old(View(now)), id, target)
    {
      ok := registry.Transition(id, target, now);
    }

    /** Handlers may go on looking at the record that is about to be cleaned up. */
    method Keep(id: CallId, now: int)
      requires Valid()
      modifies this`closed, this`freed
      ensures View(now) == if id in old(View(now)).desk.calls then
                             var c := old(View(now)).desk.calls[id];
                             old(View(now)).(closed := old(closed)[id := c],
                                             freed := if Holds(c) then old(freed) + multiset{id} else old(freed))
                           else old(View(now))
    {
      if id in registry.calls {
        var c := registry.calls[id].View();
        closed := closed[id := c];
        if c.direction == Outgoing && c.modem != "" {
          freed := freed + multiset{id};
        }
      }
    }

    method CleanUp(id: CallId, now: int)
      requires Valid()
      modifies this`closed, this`freed, registry, registry.pool,
               if registry.pool == null then {} else {registry.pool.provider}
      ensures Valid() && registry.calls == old(registry.calls) - {id}
      ensures View(now) == Quiet(Shut(old(View(now)), id))
    {
      ghost var w := View(now);
      CleanUpIsQuiet(w, id);
      Keep(id, now);
      hide Quiet, Shut, Settled, Remove;
      registry.CleanUp(id);
    }

    /** Every handler leaves the registry sound and its machines its own or new. */
    twostate predicate Kept()
      reads this, registry, registry.Machines()
    {
      Valid() && forall m :: m in registry.Machines() ==> m in old(registry.Machines()) || fresh(m)
    }

    // --- creation ---

    /** `id` is the call's new identifier. */
    method CallIncoming(id: CallId, modem: string, gsmChannel: string, now: int)
      requires Valid() && id !in registry.calls && id !in closed
      modifies registry.Foot()
      ensures Kept()
      ensures View(now) == Next(old(View(now)), Event.CallIncoming(id, modem, gsmChannel))
    {
      registry.CreateIncoming(id, modem, gsmChannel, now);
      var ok := Move(id, TelegramRinging, now);
    }

    /** After the checks on the user and the number. */
    method CallOutgoing(id: CallId, modemRequired: bool, now: int) returns (code: int, ghost choice: string)
      requires Valid() && id !in registry.calls && id !in closed
      modifies registry.Foot()
      ensures Kept() && code == (if id in registry.calls then OK else UNAVAILABLE)
      ensures code == UNAVAILABLE <==> modemRequired && old(NoModem(registry.LinesView()))
      ensures View(now) == Next(old(View(now)), Event.CallOutgoing(id, modemRequired, choice))
    {
      var ok, selected := registry.CreateOutgoing(id, modemRequired, now);
      choice := selected;
      if !ok { return UNAVAILABLE, choice; }
      var rang := Move(id, TelegramCalling, now);
      return OK, choice;
    }

    // --- single transitions ---

    method CallTransition(id: CallId, target: CallState, now: int) returns (code: int)
      requires Valid()
      modifies registry.Foot()
      ensures Kept()
      ensures code == (if id !in old(registry.calls) then NOT_FOUND
                       else if old(Moves(View(now).desk, id, target)) then OK else CONFLICT)
      ensures View(now) == Go(old(View(now)), id, target)
    {
      if id !in registry.calls { return NOT_FOUND; }
      var ok := Move(id, target, now);
      return if ok then OK else CONFLICT;
    }

    method CallSetBridgeLeg(id: CallId, channel: string, now: int) returns (code: int)
      requires Valid()
      modifies registry.Machines()
      ensures Valid() && registry.calls == old(registry.calls)
      ensures code == if id in registry.calls then OK else NOT_FOUND
      ensures View(now) == WithBridgeLeg(old(View(now)), id, channel)
    {
      var found := registry.SetBridgeLeg(id, channel);
      return if found then OK else NOT_FOUND;
    }

    method CallSetGsmChannel(id: CallId, channel: string, now: int) returns (code: int)
      requires Valid()
      modifies registry.Machines()
      ensures Valid() && registry.calls == old(registry.calls)
      ensures code == if id in registry.calls then OK else NOT_FOUND
      ensures View(now) == WithGsmChannel(old(View(now)), id, channel)
    {
      var found := registry.SetGsmChannel(id, channel);
      return if found then OK else NOT_FOUND;
    }

    /** AMI cannot answer a channel, so with one recorded the request fails. */
    method CallAnswerGsm(id: CallId, now: int) returns (code: int)
      requires Valid()
      modifies registry.Foot()
      ensures Kept()
      ensures code == (if id !in old(registry.calls) then NOT_FOUND
                       else if old(registry.calls[id].gsmChannel) != "" then NOT_ANSWERED
                       else if old(Moves(View(now).desk, id, GsmAnswered)) then OK else CONFLICT)
      ensures View(now) == Next(old(View(now)), Event.AnswerGsm(id))
    {
      CallHandlers.Refused(View(now), id, GsmAnswered);
      hide Go;
      if id !in registry.calls { return NOT_FOUND; }
      assert View(now).desk.calls[id].gsmChannel == registry.calls[id].gsmChannel;
      if registry.calls[id].gsmChannel != "" { return NOT_ANSWERED; }
      code := CallTransition(id, GsmAnswered, now);
    }

    // --- ending a call ---

    method FinishUp(id: CallId, f: Finish, now: int) returns (ok: bool)
      requires Valid()
      modifies this`closed, this`freed, registry.Foot()
      ensures Kept() && registry.Machines() <= old(registry.Machines())
      ensures ok == (f == HangupOrKeep ==> old(Moves(View(now).desk, id, HungUp)))
      ensures View(now) == Quiet(Finished(old(View(now)), id, f))
    {
      QuietFacts(View(now));
      CallHandlers.Refused(View(now), id, HungUp);
      hide Go, Shut, Quiet;
      match f {
        case CleanupOnly =>
          CleanUp(id, now);
          return true;
        case HangupThenCleanup =>
          var moved := Move(id, HungUp, now);
          CleanUp(id, now);
          return true;
        case HangupOrKeep =>
          ok := Move(id, HungUp, now);
          if ok { CleanUp(id, now); }
      }
    }

    method CallReject(id: CallId, now: int) returns (code: int)
      requires Valid()
      modifies this`closed, this`freed, registry.Foot()
      ensures Kept()
      ensures code == (if id !in old(registry.calls) then NOT_FOUND
                       else if old(Moves(View(now).desk, id, Rejected)) then OK else CONFLICT)
      ensures View(now) == Quiet(Next(old(View(now)), Event.Reject(id)))
    {
      QuietFacts(View(now));
      hide Go, Shut, Quiet;
      if id !in registry.calls { return NOT_FOUND; }
      code := CloseOr409(id, Rejected, now);
    }

    /** Hang up the call's channels one await at a time. `None` means the handler is waiting. */
    method HangUpChannels(id: CallId, f: Finish, now: int) returns (ok: Option<bool>)
      requires Valid() && id in registry.calls
      modifies this`closed, this`freed, this`tasks, this`nextTask, registry.Foot()
      ensures Kept()
      ensures ok.None? <==> Channels(old(View(now)).desk.calls[id]) > 0
      ensures ok.Some? ==> ok.value == (f == HangupOrKeep ==> old(Moves(View(now).desk, id, HungUp)))
      ensures View(now) == Quiet(HangupLegs(old(View(now)), id, f))
    {
      hide Quiet;
      var call := registry.calls[id];
      var n := (if call.gsmChannel != "" then 1 else 0) + (if call.bridgeChannel != "" then 1 else 0);
      assert n == Channels(View(now).desk.calls[id]);
      if n > 0 {
        Wait(Task(id, n, f, []));
        QuietFacts(View(now));
        return None;
      }
      var done := FinishUp(id, f, now);
      return Some(done);
    }

    method CallHangup(id: CallId, now: int) returns (code: Option<int>)
      requires Valid()
      modifies this`closed, this`freed, this`tasks, this`nextTask, registry.Foot()
      ensures Kept()
      ensures code == (if id !in old(registry.calls) then Some(NOT_FOUND)
                       else if Channels(old(View(now)).desk.calls[id]) > 0 then None
                       else Some(if old(Moves(View(now).desk, id, HungUp)) then OK else CONFLICT))
      ensures View(now) == Quiet(Next(old(View(now)), Event.Hangup(id)))
    {
      QuietFacts(View(now));
      hide Quiet;
      if id !in registry.calls { return Some(NOT_FOUND); }
      var ok := HangUpChannels(id, HangupOrKeep, now);
      return if ok.None? then None else Some(if ok.value then OK else CONFLICT);
    }

    // --- outcome reports ---

    /** The outcome is recorded, the user is told (an await); the cleanup comes after it. */
    method Record(id: CallId, target: CallState, now: int) returns (code: Option<int>)
      requires Valid() && id in registry.calls
      modifies this`tasks, this`nextTask, registry.Foot()
      ensures Kept()
      ensures code == if old(Moves(View(now).desk, id, target)) then None else Some(CONFLICT)
      ensures View(now) == Recorded(old(View(now)), id, target)
    {
      CallHandlers.Refused(View(now), id, target);
      hide Go;
      var ok := Move(id, target, now);
      if !ok { return Some(CONFLICT); }
      Wait(Task(id, 1, CleanupOnly, []));
      return None;
    }

    method CloseOr409(id: CallId, target: CallState, now: int) returns (code: int)
      requires Valid() && id in registry.calls
      modifies this`closed, this`freed, registry.Foot()
      ensures Kept()
      ensures code == if old(Moves(View(now).desk, id, target)) then OK else CONFLICT
      ensures View(now) == Quiet(if old(Moves(View(now).desk, id, target))
                                 then Shut(Go(old(View(now)), id, target), id) else old(View(now)))
    {
      QuietFacts(View(now));
      CallHandlers.Refused(View(now), id, target);
      hide Go, Shut, Quiet;
      var ok := Move(id, target, now);
      if !ok { return CONFLICT; }
      CleanUp(id, now);
      return OK;
    }

    method CompleteIncoming(id: CallId, status: Status, now: int) returns (code: int)
      requires Valid() && id in registry.calls
      requires registry.calls[id].direction == Incoming && registry.calls[id].state != Bridged
      modifies this`closed, this`freed, registry.Foot()
      ensures Kept()
      ensures Some(code) == IncomingCode(old(View(now)), id, status)
      ensures View(now) == Quiet(CompletedIncoming(old(View(now)), id, status))
    {
      hide Go, Shut, Quiet, FastForwarded;
      match status {
        case Answered =>
          WhoCanBridge(View(now).desk, id, now);
          var bridged := registry.FastForwardBridged(id, now);
          QuietFacts(View(now));
          code := if bridged then OK else CONFLICT;
        case NoAnswer => code := CloseOr409(id, Voicemail, now);
        case BusyLine => code := CloseOr409(id, Rejected, now);
        case _ =>
          var ok := FinishUp(id, HangupOrKeep, now);
          code := if ok then OK else CONFLICT;
      }
    }

    method CompleteOutgoing(id: CallId, status: Status, now: int) returns (code: Option<int>)
      requires Valid() && id in registry.calls
      modifies this`closed, this`freed, this`tasks, this`nextTask, registry.Foot()
      ensures Kept()
      ensures code == OutgoingCode(old(View(now)), id, status)
      ensures View(now) == Quiet(CompletedOutgoing(old(View(now)), id, status))
    {
      DialChain(View(now), id);
      hide Go, Quiet, HangupLegs, Recorded;
      match status {
        case Answered =>
          var ok := Move(id, GsmRinging, now);
          if ok { ok := Move(id, Connected, now); }
          if ok { ok := Move(id, Bridged, now); }
          code := Some(if ok then OK else CONFLICT);
          QuietFacts(View(now));
        case NoAnswer => code := Record(id, GsmNoAnswer, now); QuietFacts(View(now));
        case BusyLine => code := Record(id, GsmBusy, now); QuietFacts(View(now));
        case Failed => code := Record(id, GsmError, now); QuietFacts(View(now));
        case _ =>
          var ok := HangUpChannels(id, HangupOrKeep, now);
          code := if ok.None? then None else Some(if ok.value then OK else CONFLICT);
      }
    }

    /** An outcome report. `None`: the answer comes after an await. */
    method CallComplete(id: CallId, status: Status, now: int) returns (code: Option<int>)
      requires Valid()
      modifies this`closed, this`freed, this`tasks, this`nextTask, registry.Foot()
      ensures Kept()
      ensures code == CompleteCode(old(View(now)), id, status)
      ensures View(now) == Quiet(Next(old(View(now)), Event.Complete(id, status)))
    {
      QuietFacts(View(now));
      CallHandlers.CompleteIs(View(now), id, status);
      hide Next, Quiet, HangupLegs, CompletedIncoming, CompletedOutgoing;
      if id !in registry.calls || Terminal(registry.calls[id].state) { return Some(NOT_FOUND); }
      var call := registry.calls[id];
      assert View(now).desk.calls[id] == call.View();
      if call.state == Bridged {
        if status == Answered { return Some(CONFLICT); }
        var ok := HangUpChannels(id, HangupThenCleanup, now);
        return if ok.None? then None else Some(OK);
      }
      if call.direction == Incoming {
        var c := CompleteIncoming(id, status, now);
        return Some(c);
      }
      code := CompleteOutgoing(id, status, now);
    }

    // --- the bridge's accept ---

    method ListPending(now: int) returns (ids: seq<CallId>)
      requires Valid()
      ensures forall i, j :: 0 <= i < j < |ids| ==> ids[i] != ids[j]
      ensures forall id :: id in ids <==> id in Pending(View(now))
    {
      ids := [];
      var rest := registry.calls.Keys;
      while rest != {}
        invariant rest <= registry.calls.Keys
        invariant forall i, j :: 0 <= i < j < |ids| ==> ids[i] != ids[j]
        invariant forall id :: id in ids <==> id in Pending(View(now)) && id !in rest
        decreases |rest|
      {
        var id :| id in rest;
        rest := rest - {id};
        var call := registry.calls[id];
        assert View(now).desk.calls[id] == call.View();
        if call.direction == Outgoing && call.state in {ModemReserved, TelegramCalling} {
          assert id !in ids;
          ids := ids + [id];
        }
      }
    }

    /** The accept names no call: 404 without a pending one, 409 with several. */
    method CallOutgoingAccepted(channel: string, now: int) returns (code: int, ghost id: CallId)
      requires Valid()
      modifies registry.Foot()
      ensures Kept()
      ensures code == OK <==> exists i :: Pending(old(View(now))) == {i}
      ensures code == NOT_FOUND <==> Pending(old(View(now))) == {}
      ensures code != OK ==> code in {NOT_FOUND, CONFLICT} && View(now) == old(View(now))
      ensures code == OK ==> Pending(old(View(now))) == {id}
                             && View(now) == Next(old(View(now)), Event.OutgoingAccepted(id, channel))
    {
      var ids := ListPending(now);
      ghost var w := View(now);
      OnlyOne(ids, Pending(w));
      id := "";
      hide Next, Pending, AcceptedOutgoing;
      if ids == [] { return NOT_FOUND, id; }
      if |ids| > 1 { return CONFLICT, id; }
      var only := ids[0];
      id := only;
      AcceptIs(w, id, channel);
      code := AcceptPending(only, channel, now);
    }

    method AcceptPending(id: CallId, channel: string, now: int) returns (code: int)
      requires Valid() && Pending(View(now)) == {id}
      modifies registry.Foot()
      ensures Kept() && code == OK
      ensures View(now) == AcceptedOutgoing(old(View(now)), id, channel)
    {
      CallHandlers.AcceptChain(View(now), id, channel);
      assert View(now).desk.calls[id].state == registry.calls[id].state;
      hide Go, Pending, WithBridgeLeg;
      if registry.calls[id].state == ModemReserved {
        var started := Move(id, TelegramCalling, now);
      }
      if channel != "" {
        var found := CallSetBridgeLeg(id, channel, now);
      }
      var ok := Move(id, UserAccepted, now);
      if !ok { return CONFLICT; }
      ok := Move(id, GsmDialing, now);
      return if ok then OK else CONFLICT;
    }

    // --- timeouts ---

    function Seen(id: CallId): Call
      requires id in registry.calls || id in closed
      reads this, registry, registry.Machines()
    {
      if id in registry.calls then registry.calls[id].View() else closed[id]
    }

    /** The loop of a pass, from its beginning or from where it parked. */
    method Pass(ids: seq<CallId>, now: int) returns (waiting: bool)
      requires Valid()
      modifies this`closed, this`freed, this`tasks, this`nextTask, registry.Foot()
      ensures Kept()
      ensures View(now) == Quiet(Sweep(old(View(now)), ids))
    {
      ghost var w0 := View(now);
      assert ids[0..] == ids;
      for i := 0 to |ids|
        invariant Kept() && registry.Machines() <= old(registry.Machines())
        invariant Quiet(Sweep(View(now), ids[i..])) == Quiet(Sweep(w0, ids))
      {
        assert ids[i..][0] == ids[i] && ids[i..][1..] == ids[i + 1..];
        SweepByTurn(View(now), ids[i..]);
        hide Quiet, Sweep, AfterTurn, TurnOf;
        waiting := PassTurn(ids[i], ids[i + 1..], now);
        if waiting {
          QuietFacts(View(now));
          return true;
        }
      }
      assert ids[|ids|..] == [];
      QuietFacts(View(now));
      return false;
    }

    /** One call of a pass. Its state is read again; its age is not. */
    method PassTurn(id: CallId, rest: seq<CallId>, now: int) returns (waiting: bool)
      requires Valid()
      modifies this`closed, this`freed, this`tasks, this`nextTask, registry.Foot()
      ensures Kept() && registry.Machines() <= old(registry.Machines())
      ensures waiting ==> View(now) == AfterTurn(old(View(now)), id, rest, TurnOf(old(View(now)), id))
      ensures !waiting ==> Quiet(Sweep(View(now), rest))
                           == Quiet(AfterTurn(old(View(now)), id, rest, TurnOf(old(View(now)), id)))
    {
      if id !in registry.calls && id !in closed { return false; }
      var call := Seen(id);
      assert call == Switchboard.All(View(now))[id];
      hide Go, Shut, Park, Quiet, Sweep, TurnFor, Switchboard.All;
      match TurnFor(call) {
        case Skip =>
          return false;
        case Close(target) =>
          Lapse(id, target, rest, now);
          return false;
        case Notify =>
          NotifyTimeout(id, rest, now);
          return true;
        case HangUpLegs(n) =>
          Wait(Task(id, n, HangupThenCleanup, rest));
          return true;
      }
    }

    /** Record the timeout and tell the user, which is an await. */
    method NotifyTimeout(id: CallId, rest: seq<CallId>, now: int)
      requires Valid()
      modifies this`tasks, this`nextTask, registry.Foot()
      ensures Kept() && registry.Machines() <= old(registry.Machines())
      ensures View(now) == Park(Go(old(View(now)), id, TelegramTimeout), Task(id, 1, CleanupOnly, rest))
    {
      hide Go, Park;
      var ok := Move(id, TelegramTimeout, now);
      Wait(Task(id, 1, CleanupOnly, rest));
    }

    /** Close an overdue call on the spot, whether or not its transition was allowed. */
    method Lapse(id: CallId, target: CallState, ghost rest: seq<CallId>, now: int)
      requires Valid()
      modifies this`closed, this`freed, registry.Foot()
      ensures Kept() && registry.Machines() <= old(registry.Machines())
      ensures Quiet(Sweep(View(now), rest)) == Quiet(Sweep(Shut(Go(old(View(now)), id, target), id), rest))
    {
      ghost var w := View(now);
      QuietFacts(w);
      QuietGo(w, id, target);
      QuietShut(Go(w, id, target), id);
      SweepQuiet(Shut(Go(w, id, target), id), rest);
      hide Go, Shut, Quiet, Sweep;
      var ok := Move(id, target, now);
      CleanUp(id, now);
    }

    method CallCheckTimeouts(limits: Limits, now: int) returns (waiting: bool, ghost order: seq<CallId>)
      requires Valid()
      modifies this`closed, this`freed, this`tasks, this`nextTask, registry.Foot()
      ensures Kept()
      ensures ListingOf(order, OverdueIds(old(View(now)).desk.calls, limits, now))
      ensures View(now) == Quiet(Next(old(View(now)), CheckTimeouts(limits, order)))
    {
      var ids := registry.GetTimedOutCalls(limits, now);
      order := ids;
      hide Sweep, Quiet;
      waiting := Pass(ids, now);
    }

    /** The last await of a parked handler returns, or one of several. */
    method ResumeTask(k: nat, now: int) returns (waiting: bool)
      requires Valid() && k in tasks
      modifies this`closed, this`freed, this`tasks, this`nextTask, registry.Foot()
      ensures Kept()
      ensures View(now) == Quiet(Next(old(View(now)), Resume(k)))
    {
      var t := tasks[k];
      ghost var w := View(now);
      ResumeIs(w, k);
      hide Next, Sweep, Quiet, Finished;
      if t.left > 1 {
        tasks := tasks[k := t.(left := t.left - 1)];
        assert View(now) == w.(tasks := tasks);
        return true;
      }
      tasks := tasks - {k};
      assert View(now) == w.(tasks := tasks);
      waiting := GoOn(t, now);
    }

    /** Behind the last await: finish with the call, then with the rest of the pass. */
    method GoOn(t: Task, now: int) returns (waiting: bool)
      requires Valid()
      modifies this`closed, this`freed, this`tasks, this`nextTask, registry.Foot()
      ensures Kept()
      ensures View(now) == Quiet(Sweep(Quiet(Finished(old(View(now)), t.id, t.finish)), t.rest))
    {
      hide Sweep, Quiet, Finished;
      var ok := FinishUp(t.id, t.finish, now);
      waiting := Pass(t.rest, now);
    }
  }

  /** Among incoming calls not bridged yet, fast-forward bridges those in its four source states. */
  lemma WhoCanBridge(d: Desk, id: CallId, now: int)
    requires id in d.calls && d.calls[id].direction == Incoming && d.calls[id].state != Bridged
    ensures var r := FastForwarded(d, id, now);
            (id in r.calls && r.calls[id].state == Bridged)
            <==> d.calls[id].state in {Ringing, TelegramRinging, TelegramAccepted, GsmAnswered}
  {
    CallHandlers.FastForwardReaches(d, id, now);
    hide FastForwarded;
  }

  /** An outcome report is answered with 404 or 409 exactly when it changes nothing. */
  lemma RefusedChangesNothing(w: World, id: CallId, status: Status)
    requires Inv(w)
    ensures CompleteCode(w, id, status) in {Some(NOT_FOUND), Some(CONFLICT)} <==> Next(w, Complete(id, status)) == w
  {
    CallHandlers.CompleteIs(w, id, status);
    hide Next;
    if id in w.desk.calls && !Terminal(w.desk.calls[id].state) {
      CallFacts(w, id);
      hide Inv, Terminal;
      if w.desk.calls[id].state == Bridged {
        BridgedHangsUp(w.desk.calls[id]);
        LegsShow(w, id, HangupThenCleanup);
      } else if w.desk.calls[id].direction.Incoming? {
        IncomingShows(w, id, status);
      } else {
        LegsShow(w, id, HangupOrKeep);
        OutgoingShows(w, id, status);
      }
    }
  }

  /** The answer follows what the report does to the call: 404 when there is no such call or it has ended;
      otherwise it waits for a hangup or a notification, or is 200 when the call moves and 409 when not. */
  lemma AnswerMeans(w: World, id: CallId, status: Status)
    requires Inv(w)
    ensures CompleteCode(w, id, status) == Some(404) <==> id !in w.desk.calls || Terminal(w.desk.calls[id].state)
    ensures id in w.desk.calls && !Terminal(w.desk.calls[id].state) ==>
              var c := w.desk.calls[id];
              var moves := CallHandlers.Verdict(c.direction, c.state, status).Some?;
              var up := c.gsmChannel != "" || c.bridgeChannel != "";
              CompleteCode(w, id, status) ==
                if c.state == Bridged then (if status == Answered then Some(409) else if up then None else Some(200))
                else if c.direction.Outgoing? && status in {NoAnswer, BusyLine, Failed} && moves then None
                else if c.direction.Outgoing? && status in {Cancelled, Ended} && up then None
                else Some(if moves then 200 else 409)
  {
    if id in w.desk.calls && !Terminal(w.desk.calls[id].state) {
      CallFacts(w, id);
      hide Inv;
      if w.desk.calls[id].state != Bridged { CodeOfSeated(w, id, status); }
    }
  }

  lemma CodeOfSeated(w: World, id: CallId, status: Status)
    requires id in w.desk.calls && Seated(w.desk.calls[id]) && !Terminal(w.desk.calls[id].state)
    requires w.desk.calls[id].state != Bridged
    ensures var c := w.desk.calls[id];
            var moves := CallHandlers.Verdict(c.direction, c.state, status).Some?;
            if c.direction.Incoming? then IncomingCode(w, id, status) == Some(if moves then 200 else 409)
            else OutgoingCode(w, id, status)
                 == if status in {NoAnswer, BusyLine, Failed} && moves then None
                    else if status in {Cancelled, Ended} && Channels(c) > 0 then None
                    else Some(if moves then 200 else 409)
  {
    var c := w.desk.calls[id];
    if status == Answered {
      assert c.direction.Outgoing? ==> (CanMove(Outgoing, c.state, GsmRinging) <==> c.state == GsmDialing);
    } else if c.direction.Incoming? {
      CallHandlers.IncomingVerdict(c, status);
      hide CanMove, CallHandlers.Verdict;
    } else {
      CallHandlers.OutgoingVerdict(c, status);
      hide CanMove, CallHandlers.Verdict;
    }
  }

  /** Closing and parking are seen in the world. */
  lemma ClosingShows(w: World, id: CallId, t: CallState)
    requires Moves(w.desk, id, t)
    ensures Shut(Go(w, id, t), id) != w
  {
    CallHandlers.ShutClosed(w, id, t);
    hide Go, Shut;
  }

  lemma LegsShow(w: World, id: CallId, f: Finish)
    requires id in w.desk.calls && f != CleanupOnly
    requires f == HangupThenCleanup ==> Moves(w.desk, id, HungUp)
    ensures HangupLegs(w, id, f) == w <==> Channels(w.desk.calls[id]) == 0 && !Moves(w.desk, id, HungUp)
  {
    if Moves(w.desk, id, HungUp) { ClosingShows(w, id, HungUp); }
    hide Go, Shut, CanMove;
  }

  lemma IncomingShows(w: World, id: CallId, status: Status)
    requires id in w.desk.calls && w.desk.calls[id].direction.Incoming? && w.desk.calls[id].state != Bridged
    ensures IncomingCode(w, id, status) == Some(CONFLICT) <==> CompletedIncoming(w, id, status) == w
  {
    if status == Answered {
      CallHandlers.FastForwardReaches(w.desk, id, w.now);
      hide FastForwarded;
    } else {
      var t := match status case NoAnswer => Voicemail case BusyLine => Rejected case _ => HungUp;
      if Moves(w.desk, id, t) { ClosingShows(w, id, t); }
      hide Go, Shut, CanMove;
    }
  }

  lemma RecordedShows(w: World, id: CallId, t: CallState)
    ensures Recorded(w, id, t) == w <==> !Moves(w.desk, id, t)
  {
    hide Registry.Move, CanMove;
  }

  lemma DialShows(w: World, id: CallId)
    requires id in w.desk.calls && w.desk.calls[id].direction.Outgoing? && Moves(w.desk, id, GsmRinging)
    ensures Go(Go(Go(w, id, GsmRinging), id, Connected), id, Bridged) != w
  {
    CallHandlers.DialAnswered(w, id);
    assert w.desk.calls[id].state == GsmDialing;
    var r := Go(Go(Go(w, id, GsmRinging), id, Connected), id, Bridged);
    assert r.desk.calls[id].state == Bridged;
    hide Go, CallHandlers.Onward;
  }

  lemma OutgoingShows(w: World, id: CallId, status: Status)
    requires id in w.desk.calls && w.desk.calls[id].direction.Outgoing?
    requires HangupLegs(w, id, HangupOrKeep) == w <==> Channels(w.desk.calls[id]) == 0 && !Moves(w.desk, id, HungUp)
    ensures OutgoingCode(w, id, status) == Some(CONFLICT) <==> CompletedOutgoing(w, id, status) == w
  {
    if status == Answered && Moves(w.desk, id, GsmRinging) { DialShows(w, id); }
    RecordedShows(w, id, GsmNoAnswer);
    RecordedShows(w, id, GsmBusy);
    RecordedShows(w, id, GsmError);
    hide Go, HangupLegs, CanMove, Recorded, Channels;
  }

  lemma AcceptIs(w: World, id: CallId, channel: string)
    ensures Next(w, OutgoingAccepted(id, channel)) == AcceptedOutgoing(w, id, channel)
  {
  }

  /** One wait less; or, behind the last await: finish, with its release, then go on with the pass. */
  lemma ResumeIs(w: World, k: nat)
    requires IsQuiet(w) && k in w.tasks
    ensures var t, r := w.tasks[k], Quiet(Next(w, Resume(k)));
            if t.left > 1 then r == w.(tasks := w.tasks[k := t.(left := t.left - 1)])
            else r == Quiet(Sweep(Quiet(Finished(w.(tasks := w.tasks - {k}), t.id, t.finish)), t.rest))
  {
    var t, w' := w.tasks[k], w.(tasks := w.tasks - {k});
    if t.left > 1 { QuietFacts(w.(tasks := w.tasks[k := t.(left := t.left - 1)])); }
    FinishedApart(w', t.id, t.finish);
    SweepQuiet(Finished(w', t.id, t.finish), t.rest);
    hide Sweep, Quiet, Finished;
  }

  lemma FinishedApart(w: World, id: CallId, f: Finish)
    requires IsQuiet(w)
    ensures Apart(Finished(w, id, f))
  {
    QuietFacts(w);
    QuietGo(w, id, HungUp);
    QuietShut(w, id);
    QuietShut(Go(w, id, HungUp), id);
    hide Go, Shut, Apart;
  }

  lemma OnlyOne(ids: seq<CallId>, s: set<CallId>)
    requires forall i, j :: 0 <= i < j < |ids| ==> ids[i] != ids[j]
    requires forall id :: id in ids <==> id in s
    ensures ids == [] <==> s == {}
    ensures |ids| == 1 ==> s == {ids[0]}
    ensures |ids| > 1 ==> forall i :: s != {i}
  {
    assert |ids| > 0 ==> ids[0] in s;
    assert |ids| > 1 ==> ids[1] in s && ids[0] != ids[1];
  }

  /** Once a dial may ring, it may also connect and bridge; a refused step changes nothing. */
  lemma DialChain(w: World, id: CallId)
    requires id in w.desk.calls
    ensures if Moves(w.desk, id, GsmRinging) then
              var w1 := Go(w, id, GsmRinging);
              var w2 := Go(w1, id, Connected);
              Moves(w1.desk, id, Connected) && Moves(w2.desk, id, Bridged)
            else Go(w, id, GsmRinging) == w
  {
    if Moves(w.desk, id, GsmRinging) {
      assert w.desk.calls[id].direction == Outgoing;
      assert CanMove(Outgoing, GsmRinging, Connected) && CanMove(Outgoing, Connected, Bridged);
      hide CanMove, Counted;
    }
  }
}