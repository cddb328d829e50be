/** When calls time out, told from the events alone: how long ago a call entered the state it is in,
    against the limit of that state. */
module CallExpiry {
  import opened Options
  import opened Calls
  import opened Modems
  import opened Registry
  import opened Switchboard
  import opened CallSafety
  import opened CallHandlers
  import opened CallTimeouts

  // -------------------------------------------------------------------------
  // One step and the age of a state
  // -------------------------------------------------------------------------

  /** The record stayed in its state and kept its entry time, or moved on and has a new one. */
  predicate Aged(c: Call, c': Call, now: int) {
    && c'.direction == c.direction
    && (if c'.state == c.state then c'.since == c.since
        else Rank(c.direction, c.state) < Rank(c.direction, c'.state) && c'.since == now)
  }

  ghost predicate AgedIn(w: World, w': World, id: CallId) {
    id in w'.desk.calls ==>
      if id in w.desk.calls then Aged(w.desk.calls[id], w'.desk.calls[id], w.now)
      else id !in w.closed && w'.desk.calls[id].since == w.now
  }

  /** What happens to all records within one moment; a closed call does not come back. */
  ghost predicate Timed(w: World, w': World) {
    && w'.now == w.now
    && (forall id :: AgedIn(w, w', id))
    && (forall id :: id in w.closed ==> id in w'.closed)
    && (forall id :: id in w.desk.calls ==> Known(w', id))
    && w'.desk.calls.Keys !! w'.closed.Keys
  }

  lemma TimedSame(w: World, w': World)
    requires w.desk.calls.Keys !! w.closed.Keys
    requires w'.now == w.now && w'.desk.calls == w.desk.calls && w'.closed == w.closed
    ensures Timed(w, w')
  {
  }

  lemma AgedTwice(w: World, w1: World, w2: World, id: CallId)
    requires Timed(w, w1) && Timed(w1, w2)
    ensures AgedIn(w, w2, id)
  {
    assert AgedIn(w, w1, id) && AgedIn(w1, w2, id);
    hide Rank;
  }

  lemma TimedTwice(w: World, w1: World, w2: World)
    requires Timed(w, w1) && Timed(w1, w2)
    ensures Timed(w, w2)
  {
    forall id ensures AgedIn(w, w2, id) { AgedTwice(w, w1, w2, id); }
    hide AgedIn;
  }

  lemma GoTimed(w: World, id: CallId, t: CallState)
    requires w.desk.calls.Keys !! w.closed.Keys
    ensures Timed(w, Go(w, id, t))
  {
    if Moves(w.desk, id, t) { RankRises(w.desk.calls[id].direction, w.desk.calls[id].state, t); }
    hide CanMove, Rank, Counted;
  }

  lemma ShutTimed(w: World, id: CallId)
    requires w.desk.calls.Keys !! w.closed.Keys
    ensures Timed(w, Shut(w, id))
  {
    hide Rank, Vacated;
  }

  lemma CloseTimed(w: World, id: CallId, t: CallState)
    requires w.desk.calls.Keys !! w.closed.Keys
    ensures Timed(w, Shut(Go(w, id, t), id))
  {
    GoTimed(w, id, t);
    ShutTimed(Go(w, id, t), id);
    TimedTwice(w, Go(w, id, t), Shut(Go(w, id, t), id));
    hide Go, Shut, Timed;
  }

  lemma ParkTimed(w: World, w1: World, t: Task)
    requires Timed(w, w1)
    ensures Timed(w, Park(w1, t))
  {
    ParkAged(w, w1, t);
    hide AgedIn;
  }

  lemma ParkAged(w: World, w1: World, t: Task)
    ensures forall id :: AgedIn(w, Park(w1, t), id) == AgedIn(w, w1, id)
  {
  }

  // -------------------------------------------------------------------------
  // The handlers
  // -------------------------------------------------------------------------

  ghost predicate Apart(w: World) {
    w.desk.calls.Keys !! w.closed.Keys
  }

  lemma StayTimed(w: World)
    requires Apart(w)
    ensures Timed(w, w)
  {
    TimedSame(w, w);
  }

  lemma FinishedTimed(w: World, id: CallId, f: Finish)
    requires Apart(w)
    ensures Timed(w, Finished(w, id, f))
  {
    StayTimed(w);
    ShutTimed(w, id);
    CloseTimed(w, id, HungUp);
    hide Timed, Go, Shut, CanMove;
  }

  lemma HangupLegsTimed(w: World, id: CallId, f: Finish)
    requires Apart(w) && id in w.desk.calls
    ensures Timed(w, HangupLegs(w, id, f))
  {
    StayTimed(w);
    FinishedTimed(w, id, f);
    ParkTimed(w, w, Task(id, Channels(w.desk.calls[id]), f, []));
    hide Timed, Finished, Park;
  }

  lemma TimedApart(w: World, w1: World)
    requires Timed(w, w1)
    ensures Apart(w1) && w1.now == w.now
  {
    hide AgedIn;
  }

  lemma {:induction false} SweepTimed(w: World, ids: seq<CallId>)
    requires Apart(w)
    ensures Timed(w, Sweep(w, ids))
    decreases |ids|, 1
  {
    hide Timed, Go, Shut, Park, Finished, Apart;
    StayTimed(w);
    if ids != [] && !Known(w, ids[0]) {
      SweepTimed(w, ids[1..]);
    } else if ids != [] {
      var id := ids[0];
      match All(w)[id].state
      case Ringing => CloseTimed(w, id, Voicemail); SweepRestTimed(w, Shut(Go(w, id, Voicemail), id), ids);
      case TelegramRinging => CloseTimed(w, id, Voicemail); SweepRestTimed(w, Shut(Go(w, id, Voicemail), id), ids);
      case ModemReserved =>
        GoTimed(w, id, TelegramTimeout);
        ParkTimed(w, Go(w, id, TelegramTimeout), Task(id, 1, CleanupOnly, ids[1..]));
      case TelegramCalling =>
        GoTimed(w, id, TelegramTimeout);
        ParkTimed(w, Go(w, id, TelegramTimeout), Task(id, 1, CleanupOnly, ids[1..]));
      case Bridged =>
        if Channels(All(w)[id]) == 0 {
          FinishedTimed(w, id, HangupThenCleanup);
          SweepRestTimed(w, Finished(w, id, HangupThenCleanup), ids);
        } else {
          ParkTimed(w, w, Task(id, Channels(All(w)[id]), HangupThenCleanup, ids[1..]));
        }
      case _ => SweepTimed(w, ids[1..]);
    }
  }

  lemma SweepRestTimed(w: World, w1: World, ids: seq<CallId>)
    requires ids != [] && Timed(w, w1)
    ensures Timed(w, Sweep(w1, ids[1..]))
    decreases |ids|, 0
  {
    TimedApart(w, w1);
    hide Timed, Sweep;
    SweepTimed(w1, ids[1..]);
    TimedTwice(w, w1, Sweep(w1, ids[1..]));
  }

  lemma ResumedTimed(w: World, k: nat)
    requires Apart(w) && k in w.tasks
    ensures Timed(w, Resumed(w, k))
  {
    var t := w.tasks[k];
    var w1 := w.(tasks := w.tasks - {k});
    if t.left > 1 { TimedSame(w, w.(tasks := w.tasks[k := t.(left := t.left - 1)])); }
    TimedSame(w, w1);
    FinishedTimed(w1, t.id, t.finish);
    TimedTwice(w, w1, Finished(w1, t.id, t.finish));
    hide Timed, Sweep, Finished;
    SweepRestTimed(w, Finished(w1, t.id, t.finish), [t.id] + t.rest);
    assert ([t.id] + t.rest)[1..] == t.rest;
  }

  lemma StepTimed(w: World, d: Desk, id: CallId, s: CallState, t: CallState)
    requires Timed(w, w.(desk := d))
    ensures Timed(w, w.(desk := Step(d, id, s, t, w.now)))
  {
    var w1 := w.(desk := d);
    TimedApart(w, w1);
    hide Timed;
    GoTimed(w1, id, t);
    TimedTwice(w, w1, Go(w1, id, t));
    hide Move;
  }

  lemma FastForwardTimed(w: World, id: CallId)
    requires Apart(w)
    ensures Timed(w, w.(desk := FastForwarded(w.desk, id, w.now)))
  {
    StayTimed(w);
    hide Timed, Step;
    var d1 := Step(w.desk, id, Ringing, TelegramRinging, w.now);
    var d2 := Step(d1, id, TelegramRinging, TelegramAccepted, w.now);
    var d3 := Step(d2, id, TelegramAccepted, GsmAnswered, w.now);
    StepTimed(w, w.desk, id, Ringing, TelegramRinging);
    StepTimed(w, d1, id, TelegramRinging, TelegramAccepted);
    StepTimed(w, d2, id, TelegramAccepted, GsmAnswered);
    StepTimed(w, d3, id, GsmAnswered, Bridged);
  }

  /** One transition after another, within one moment. */
  lemma ThenGoTimed(w: World, w1: World, id: CallId, t: CallState)
    requires Timed(w, w1)
    ensures Timed(w, Go(w1, id, t))
  {
    TimedApart(w, w1);
    hide Timed, Go;
    GoTimed(w1, id, t);
    TimedTwice(w, w1, Go(w1, id, t));
  }

  lemma RecordedTimed(w: World, id: CallId, t: CallState)
    requires Apart(w)
    ensures Timed(w, Recorded(w, id, t))
  {
    StayTimed(w);
    GoTimed(w, id, t);
    ParkTimed(w, Go(w, id, t), Task(id, 1, CleanupOnly, []));
    hide Timed, Go, Park, CanMove;
  }

  lemma CompletedTimed(w: World, id: CallId, status: Status)
    requires Apart(w)
    ensures Timed(w, Completed(w, id, status))
  {
    hide Timed, Apart, CompletedIncoming, CompletedOutgoing, HangupLegs, Terminal;
    StayTimed(w);
    if id in w.desk.calls && !Terminal(w.desk.calls[id].state) {
      HangupLegsTimed(w, id, HangupThenCleanup);
      ReportTimed(w, id, status);
    }
  }

  lemma ReportTimed(w: World, id: CallId, status: Status)
    requires Apart(w) && id in w.desk.calls
    ensures Timed(w, CompletedIncoming(w, id, status)) && Timed(w, CompletedOutgoing(w, id, status))
  {
    hide Timed, Go, Shut, Finished, FastForwarded, HangupLegs, Recorded, CanMove, Apart;
    StayTimed(w);
    match status
    case Answered =>
      FastForwardTimed(w, id);
      ThenGoTimed(w, w, id, GsmRinging);
      ThenGoTimed(w, Go(w, id, GsmRinging), id, Connected);
      ThenGoTimed(w, Go(Go(w, id, GsmRinging), id, Connected), id, Bridged);
    case NoAnswer => CloseTimed(w, id, Voicemail); RecordedTimed(w, id, GsmNoAnswer);
    case BusyLine => CloseTimed(w, id, Rejected); RecordedTimed(w, id, GsmBusy);
    case Failed => FinishedTimed(w, id, HangupOrKeep); RecordedTimed(w, id, GsmError);
    case _ => FinishedTimed(w, id, HangupOrKeep); HangupLegsTimed(w, id, HangupOrKeep);
  }

  lemma ChannelTimed(w: World, id: CallId, channel: string)
    requires Apart(w)
    ensures Timed(w, WithBridgeLeg(w, id, channel)) && Timed(w, WithGsmChannel(w, id, channel))
  {
    hide Rank;
  }

  lemma AcceptedTimed(w: World, id: CallId, channel: string)
    requires Apart(w)
    ensures Timed(w, AcceptedOutgoing(w, id, channel))
  {
    StayTimed(w);
    if Pending(w) == {id} {
      assert id in Pending(w);
      GoTimed(w, id, TelegramCalling);
      var w1 := if w.desk.calls[id].state == ModemReserved then Go(w, id, TelegramCalling) else w;
      TimedApart(w, w1);
      ChannelTimed(w1, id, channel);
      hide Timed, Go, WithBridgeLeg, Pending, Apart;
      TimedTwice(w, w1, WithBridgeLeg(w1, id, channel));
      var w2 := if channel != "" then WithBridgeLeg(w1, id, channel) else w1;
      ThenGoTimed(w, w2, id, UserAccepted);
      ThenGoTimed(w, Go(w2, id, UserAccepted), id, GsmDialing);
    }
  }

  /** A new call appears with the current time. */
  lemma NewTimed(w: World, id: CallId, d: Desk, t: CallState)
    requires Apart(w) && !Known(w, id)
    requires d.calls.Keys <= w.desk.calls.Keys + {id}
    requires forall i :: i in w.desk.calls ==> i in d.calls && d.calls[i] == w.desk.calls[i]
    requires id in d.calls ==> d.calls[id].since == w.now
    ensures Timed(w, Go(w.(desk := d), id, t))
  {
    assert Timed(w, w.(desk := d)) by { hide Rank; }
    ThenGoTimed(w, w.(desk := d), id, t);
  }

  lemma OpenedTimed(w: World, id: CallId, modemRequired: bool, choice: string)
    requires Apart(w)
    ensures Timed(w, Opened(w, id, modemRequired, choice))
  {
    StayTimed(w);
    hide Timed, Go, Reserved;
    if !Known(w, id) { NewTimed(w, id, WithOutgoing(w.desk, id, modemRequired, choice, w.now), TelegramCalling); }
  }

  lemma RangTimed(w: World, id: CallId, modem: string, gsm: string)
    requires Apart(w)
    ensures Timed(w, Rang(w, id, modem, gsm))
  {
    StayTimed(w);
    hide Timed, Go;
    if !Known(w, id) {
      NewTimed(w, id, Enrolled(w.desk, id, NewCall(Incoming, modem, Ringing, gsm, w.now)), TelegramRinging);
    }
  }

  lemma OwnEventTimed(w: World, e: Event)
    requires Apart(w) && OfOneCall(e)
    ensures Timed(w, Next(w, e))
  {
    hide Timed, Apart, Go, Opened, Rang, Completed, AcceptedOutgoing, WithBridgeLeg, WithGsmChannel;
    StayTimed(w);
    match e
    case CallIncoming(id, modem, gsm) => RangTimed(w, id, modem, gsm);
    case CallOutgoing(id, required, choice) => OpenedTimed(w, id, required, choice);
    case OutgoingAccepted(id, ch) => AcceptedTimed(w, id, ch);
    case Complete(id, status) => CompletedTimed(w, id, status);
    case TelegramRing(id) => GoTimed(w, id, TelegramRinging);
    case Accept(id) => GoTimed(w, id, TelegramAccepted);
    case AnswerGsm(id) => GoTimed(w, id, GsmAnswered);
    case Bridge(id) => GoTimed(w, id, Bridged);
    case SetBridgeLeg(id, ch) => ChannelTimed(w, id, ch);
    case SetGsmChannel(id, ch) => ChannelTimed(w, id, ch);
  }

  lemma OtherEventTimed(w: World, e: Event)
    requires Apart(w) && !OfOneCall(e) && !e.Tick?
    ensures Timed(w, Next(w, e))
  {
    StayTimed(w);
    if e.FinishRelease? || e.DeviceReport? || e.DeviceGone? {
      TimedSame(w, Next(w, e));
    } else {
      hide Timed, Go, Shut, Sweep, Resumed, HangupLegs, CanMove, ListingOf, OverdueIds;
      match e
      case Reject(id) => CloseTimed(w, id, Rejected);
      case Hangup(id) => if id in w.desk.calls { HangupLegsTimed(w, id, HangupOrKeep); }
      case CheckTimeouts(limits, order) => SweepTimed(w, order);
      case Resume(k) => if k in w.tasks { ResumedTimed(w, k); }
    }
  }

  /** Every event leaves each record in its state with its entry time, or moves it up and stamps
      the current time. Only the clock's own event changes the time, and then no record. */
  lemma NextTimed(w: World, e: Event)
    requires Apart(w)
    ensures !e.Tick? ==> Timed(w, Next(w, e))
    ensures e.Tick? ==> Next(w, e) == w.(now := if e.later >= w.now then e.later else w.now)
  {
    hide Timed, Next;
    if e.Tick? { TickIs(w, e); } else if OfOneCall(e) { OwnEventTimed(w, e); } else { OtherEventTimed(w, e); }
  }

  lemma TickIs(w: World, e: Event)
    requires e.Tick?
    ensures Next(w, e) == w.(now := if e.later >= w.now then e.later else w.now)
  {
  }

  // -------------------------------------------------------------------------
  // Runs
  // -------------------------------------------------------------------------

  ghost function After(w0: World, events: seq<Event>, k: nat): World
    requires k <= |events|
  {
    Run(w0, events[..k])
  }

  lemma AfterOne(w0: World, events: seq<Event>, k: nat)
    requires k < |events|
    ensures After(w0, events, k + 1) == Next(After(w0, events, k), events[k])
  {
    assert events[..k + 1][..k] == events[..k];
    hide Next;
  }

  lemma AfterApart(w0: World, events: seq<Event>, k: nat)
    requires Initial(w0) && k <= |events|
    ensures Apart(After(w0, events, k))
  {
    RunInv(w0, events[..k]);
    InvApart(After(w0, events, k));
    hide Inv;
  }

  lemma InvApart(w: World)
    requires Inv(w)
    ensures Apart(w)
  {
    hide Conserved, Tallied, Owned;
  }

  /** From an earlier to a later moment: a live call was live or unknown before, kept its record's
      time while it stayed in its state, and otherwise climbed. */
  ghost predicate OlderIn(w: World, w': World, id: CallId) {
    && (id in w.desk.calls && id in w'.desk.calls ==>
          && w'.desk.calls[id].direction == w.desk.calls[id].direction
          && (if w'.desk.calls[id].state == w.desk.calls[id].state
              then w'.desk.calls[id].since == w.desk.calls[id].since
              else Rank(w.desk.calls[id].direction, w.desk.calls[id].state)
                   < Rank(w.desk.calls[id].direction, w'.desk.calls[id].state)))
    && (id in w.closed ==> id in w'.closed)
    && (id in w.desk.calls ==> Known(w', id))
    && w'.desk.calls.Keys !! w'.closed.Keys
  }

  lemma OlderStep(w: World, e: Event, id: CallId)
    requires Apart(w)
    ensures OlderIn(w, Next(w, e), id)
  {
    NextTimed(w, e);
    if !e.Tick? { assert AgedIn(w, Next(w, e), id); }
    hide Next, Rank;
  }

  lemma OlderSame(w: World, id: CallId)
    requires Apart(w)
    ensures OlderIn(w, w, id)
  {
  }

  lemma OlderTwice(w: World, w1: World, w2: World, id: CallId)
    requires OlderIn(w, w1, id) && OlderIn(w1, w2, id)
    ensures OlderIn(w, w2, id)
  {
    hide Rank;
  }

  lemma {:induction false} Older(w0: World, events: seq<Event>, i: nat, j: nat, id: CallId)
    requires Initial(w0) && i <= j <= |events|
    ensures OlderIn(After(w0, events, i), After(w0, events, j), id)
    decreases j
  {
    hide After, Initial, Next, OlderIn, Apart;
    AfterApart(w0, events, i);
    OlderSame(After(w0, events, i), id);
    if i < j {
      Older(w0, events, i, j - 1, id);
      AfterApart(w0, events, j - 1);
      AfterOne(w0, events, j - 1);
      OlderStep(After(w0, events, j - 1), events[j - 1], id);
      OlderTwice(After(w0, events, i), After(w0, events, j - 1), After(w0, events, j), id);
    }
  }

  /** The event number `k` put the call into the state in which the run leaves it. */
  ghost predicate EnteredBy(w0: World, events: seq<Event>, k: nat, id: CallId)
    requires k < |events|
  {
    var before, after, end := After(w0, events, k), After(w0, events, k + 1), Run(w0, events);
    && id in after.desk.calls && id in end.desk.calls
    && end.desk.calls[id].state == after.desk.calls[id].state
    && (id in before.desk.calls ==> before.desk.calls[id].state != after.desk.calls[id].state)
  }

  /** The recorded time is the time of the event that brought the call into its state. */
  lemma SinceIsEntry(w0: World, events: seq<Event>, k: nat, id: CallId)
    requires Initial(w0) && k < |events| && EnteredBy(w0, events, k, id)
    ensures Run(w0, events).desk.calls[id].since == After(w0, events, k).now
  {
    var w := After(w0, events, k);
    AfterApart(w0, events, k);
    AfterOne(w0, events, k);
    NextTimed(w, events[k]);
    if !events[k].Tick? { assert AgedIn(w, Next(w, events[k]), id); }
    Older(w0, events, k + 1, |events|, id);
    assert events[..|events|] == events;
    hide Next, Rank, Initial;
  }

  /** Every live call was brought into its state by some event. */
  lemma {:induction false} EntryExists(w0: World, events: seq<Event>, id: CallId)
    requires Initial(w0) && id in Run(w0, events).desk.calls
    ensures exists k :: 0 <= k < |events| && EnteredBy(w0, events, k, id)
    decreases |events|
  {
    var n := |events|;
    assert events[..n] == events;
    StartEmpty(w0);
    hide Next, Initial;
    if n > 0 {
      var before := After(w0, events, n - 1);
      if id in before.desk.calls && before.desk.calls[id].state == Run(w0, events).desk.calls[id].state {
        hide EnteredBy, Run;
        EntryExists(w0, events[..n - 1], id);
        var k :| 0 <= k < n - 1 && EnteredBy(w0, events[..n - 1], k, id);
        EntryKept(w0, events, k, id);
      } else {
        assert EnteredBy(w0, events, n - 1, id);
      }
    }
  }

  lemma StartEmpty(w0: World)
    requires Initial(w0)
    ensures Run(w0, []).desk.calls == map[]
  {
  }

  lemma EntryKept(w0: World, events: seq<Event>, k: nat, id: CallId)
    requires k + 1 < |events| && EnteredBy(w0, events[..|events| - 1], k, id)
    requires id in Run(w0, events).desk.calls && id in After(w0, events, |events| - 1).desk.calls
    requires Run(w0, events).desk.calls[id].state == After(w0, events, |events| - 1).desk.calls[id].state
    ensures EnteredBy(w0, events, k, id)
  {
    var less := events[..|events| - 1];
    assert less[..k] == events[..k] && less[..k + 1] == events[..k + 1];
    hide Run;
  }

  /** The end `r` of a pass for a call that had been in its state for `age`: closed if and only if
      that is more than the one limit of that state (whatever the other two are), in the closing state
      of that limit. A call in any other state, or not that old, keeps its record. */
  ghost predicate ClosedByAge(w: World, r: World, id: CallId, age: int, limits: Limits)
    requires id in w.desk.calls
  {
    var c := w.desk.calls[id];
    if || (c.state == Ringing && age > limits.ringWait)
       || (c.state == TelegramRinging && age > limits.ringWait)
       || (c.state == ModemReserved && age > limits.tgRing)
       || (c.state == TelegramCalling && age > limits.tgRing)
       || (c.state == Bridged && age > limits.maxCall)
    then
      && id !in r.desk.calls && id in r.closed
      && r.closed[id] == c.(since := w.now, state :=
           if c.state == Bridged then HungUp
           else if c.state in {ModemReserved, TelegramCalling} then TelegramTimeout
           else Voicemail)
    else id in r.desk.calls && r.desk.calls[id] == c
  }

  /** A timeout pass that nothing interrupts, after any run: what it does with a call depends only on
      how long ago the event number `k` brought the call into its state. */
  lemma ExpiresByAge(w0: World, events: seq<Event>, k: nat, id: CallId, limits: Limits, order: seq<CallId>)
    requires Initial(w0) && k < |events| && EnteredBy(w0, events, k, id)
    requires ListingOf(order, OverdueIds(Run(w0, events).desk.calls, limits, Run(w0, events).now))
    ensures var w := Run(w0, events);
            ClosedByAge(w, Alone(w, Next(w, CheckTimeouts(limits, order))), id,
                        w.now - After(w0, events, k).now, limits)
  {
    hide Next, Inv, Initial, After, Run, Alone, ListingOf, ClosedByAge, OverdueIds;
    SinceIsEntry(w0, events, k, id);
    RunInv(w0, events);
    PassByAge(Run(w0, events), id, limits, order);
  }

  lemma PassByAge(w: World, id: CallId, limits: Limits, order: seq<CallId>)
    requires Inv(w) && ListingOf(order, OverdueIds(w.desk.calls, limits, w.now)) && id in w.desk.calls
    ensures ClosedByAge(w, Alone(w, Next(w, CheckTimeouts(limits, order))), id,
                        w.now - w.desk.calls[id].since, limits)
  {
    hide Next, Inv, Alone, ListingOf, ClosedExactly, OverdueIds, Overdue, Lapsed;
    PassCloses(w, limits, order);
    var r := Alone(w, Next(w, CheckTimeouts(limits, order)));
    ClosedMember(w, r, OverdueIds(w.desk.calls, limits, w.now), id);
    OverdueMeans(w.desk.calls, id, limits, w.now);
    LapsedRecord(w, id);
  }

  lemma OverdueMeans(calls: map<CallId, Call>, id: CallId, limits: Limits, now: int)
    requires id in calls
    ensures var c := calls[id];
            var age := now - c.since;
            id in OverdueIds(calls, limits, now) <==>
              || (c.state in {Ringing, TelegramRinging} && age > limits.ringWait)
              || (c.state in {ModemReserved, TelegramCalling} && age > limits.tgRing)
              || (c.state == Bridged && age > limits.maxCall)
  {
  }

  lemma ClosedMember(w: World, r: World, ids: set<CallId>, id: CallId)
    requires ClosedExactly(w, r, ids) && id in w.desk.calls
    ensures if id in ids then id !in r.desk.calls && id in r.closed && r.closed[id] == Lapsed(w, id)
            else id in r.desk.calls && r.desk.calls[id] == w.desk.calls[id]
  {
    hide GivenBack, BookedFor, HeldBy, Holds, Lapsed;
  }

  lemma LapsedRecord(w: World, id: CallId)
    requires id in w.desk.calls
    ensures var c := w.desk.calls[id];
            var r := Lapsed(w, id);
            && (c.state in {Ringing, TelegramRinging} ==> r == c.(state := Voicemail, since := w.now))
            && (c.state in {ModemReserved, TelegramCalling} ==> r == c.(state := TelegramTimeout, since := w.now))
            && (c.state == Bridged ==> r == c.(state := HungUp, since := w.now))
  {
  }

  /** A conversation is counted from the event that bridged the call. */
  lemma BridgedSinceEntry(w0: World, events: seq<Event>, k: nat, id: CallId)
    requires Initial(w0) && k < |events| && EnteredBy(w0, events, k, id)
    requires Run(w0, events).desk.calls[id].state == Bridged
    ensures Run(w0, events).desk.calls[id].bridgedAt == Some(After(w0, events, k).now)
  {
    SinceIsEntry(w0, events, k, id);
    RunInv(w0, events);
    CallFacts(Run(w0, events), id);
    hide Inv, Initial, Run;
  }
}
