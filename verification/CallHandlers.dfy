/** What one handler does when nothing else interrupts it: the outcome reports and the
    timeout pass. */
module CallHandlers {
  import opened Options
  import opened Calls
  import opened Registry
  import opened Switchboard
  import opened CallSafety

  // -------------------------------------------------------------------------
  // Running a parked handler to its end
  // -------------------------------------------------------------------------

  /** Nothing was parked, or one handler with fewer than `n` calls left, under the next number. */
  predicate ParkedOnce(w: World, r: World, n: nat) {
    if r.nextTask == w.nextTask then r.tasks == w.tasks
    else r.nextTask == w.nextTask + 1 && w.nextTask in r.tasks
         && r.tasks == w.tasks[w.nextTask := r.tasks[w.nextTask]]
         && |r.tasks[w.nextTask].rest| < n
  }

  lemma NothingParked(w: World)
    ensures ParkedOnce(w, w, 0)
  {
  }

  lemma ParkShape(w: World, id: CallId, t: CallState, task: Task, n: nat)
    requires |task.rest| < n
    ensures ParkedOnce(w, Park(w, task), n) && ParkedOnce(w, Park(Go(w, id, t), task), n)
  {
    hide Move;
  }

  lemma ClosingParksNothing(w: World, id: CallId, t: CallState)
    ensures var r := Shut(Go(w, id, t), id);
            r.tasks == w.tasks && r.nextTask == w.nextTask
  {
    hide CanMove, Counted, Vacated;
  }

  lemma {:induction false} SweepShape(w: World, ids: seq<CallId>)
    ensures ParkedOnce(w, Sweep(w, ids), |ids|)
    decreases |ids|, 1
  {
    hide Move, Shut, Go, Park, ParkedOnce;
    if ids == [] {
      NothingParked(w);
    } else if !Known(w, ids[0]) {
      SweepRest(w, w, ids);
    } else {
      var id := ids[0];
      match All(w)[id].state
      case Ringing => ClosingParksNothing(w, id, Voicemail); SweepRest(w, Shut(Go(w, id, Voicemail), id), ids);
      case TelegramRinging => ClosingParksNothing(w, id, Voicemail); SweepRest(w, Shut(Go(w, id, Voicemail), id), ids);
      case ModemReserved => ParkShape(w, id, TelegramTimeout, Task(id, 1, CleanupOnly, ids[1..]), |ids|);
      case TelegramCalling => ParkShape(w, id, TelegramTimeout, Task(id, 1, CleanupOnly, ids[1..]), |ids|);
      case Bridged =>
        if Channels(All(w)[id]) == 0 {
          ClosingParksNothing(w, id, HungUp);
          SweepRest(w, Finished(w, id, HangupThenCleanup), ids);
        } else {
          ParkShape(w, id, HungUp, Task(id, Channels(All(w)[id]), HangupThenCleanup, ids[1..]), |ids|);
        }
      case _ => SweepRest(w, w, ids);
    }
  }

  lemma SweepRest(w: World, w': World, ids: seq<CallId>)
    requires ids != [] && w'.tasks == w.tasks && w'.nextTask == w.nextTask
    ensures ParkedOnce(w, Sweep(w', ids[1..]), |ids|)
    decreases |ids|, 0
  {
    SweepShape(w', ids[1..]);
  }

  /** The handler parked as `k` resumes again and again, with nothing in between. */
  ghost function Settle(w: World, k: nat): World
    decreases if k in w.tasks then |w.tasks[k].rest| + 1 else 0, if k in w.tasks then w.tasks[k].left else 0
  {
    if k !in w.tasks then w
    else
      var t := w.tasks[k];
      var w' := Resumed(w, k);
      if t.left > 1 then Settle(w', k)
      else
        SweepShape(Finished(w.(tasks := w.tasks - {k}), t.id, t.finish), t.rest);
        if w'.nextTask == w.nextTask then w' else Settle(w', w.nextTask)
  }

  /** `w1` is where a handler started in `w` got to before its first await. */
  ghost function Alone(w: World, w1: World): World {
    if w1.nextTask == w.nextTask then w1 else Settle(w1, w.nextTask)
  }

  /** A handler left to itself keeps the invariant to its end. */
  lemma {:induction false} SettleInv(w: World, k: nat)
    requires Inv(w)
    ensures Inv(Settle(w, k))
    decreases if k in w.tasks then |w.tasks[k].rest| + 1 else 0, if k in w.tasks then w.tasks[k].left else 0
  {
    if k in w.tasks {
      var t, w' := w.tasks[k], Resumed(w, k);
      hide Inv;
      ResumeInv(w, k);
      ResumedSmaller(w, k);
      hide Resumed, Sweep, Finished;
      if t.left > 1 { SettleInv(w', k); } else if w'.nextTask != w.nextTask { SettleInv(w', w.nextTask); }
    }
  }

  lemma ResumedSmaller(w: World, k: nat)
    requires k in w.tasks
    ensures var t, w' := w.tasks[k], Resumed(w, k);
            if t.left > 1 then k in w'.tasks && w'.tasks[k] == t.(left := t.left - 1)
            else w'.nextTask == w.nextTask
                 || (w.nextTask in w'.tasks && |w'.tasks[w.nextTask].rest| < |t.rest|)
  {
    var t, w1 := w.tasks[k], w.(tasks := w.tasks - {k});
    SweepShape(Finished(w1, t.id, t.finish), t.rest);
    ParksNothing(w1, t.id, t.finish);
    hide Sweep, Finished;
  }

  lemma ParksNothing(w: World, id: CallId, f: Finish)
    ensures Finished(w, id, f).nextTask == w.nextTask
  {
    hide Move, Remove;
  }

  lemma AloneInv(w: World, w1: World)
    requires Inv(w1)
    ensures Inv(Alone(w, w1))
  {
    hide Inv, Settle;
    SettleInv(w1, w.nextTask);
  }

  /** Task numbers are bookkeeping. */
  predicate SameBut(w: World, w': World) {
    w.(nextTask := 0) == w'.(nextTask := 0)
  }

  /** The last await returns: the handler finishes and goes on with the rest of its pass. */
  lemma LastAwait(w: World, t: Task)
    requires w.nextTask !in w.tasks && t.left == 1
    ensures Settle(Park(w, t), w.nextTask) == Alone(Numbered(w), Sweep(Finished(Numbered(w), t.id, t.finish), t.rest))
  {
    var k := w.nextTask;
    var w1 := Park(w, t);
    assert w1.(tasks := w1.tasks - {k}) == Numbered(w);
    hide Finished, Sweep;
  }

  lemma FirstAwait(w: World, id: CallId, f: Finish, rest: seq<CallId>)
    requires w.nextTask !in w.tasks
    ensures Settle(Park(w, Task(id, 2, f, rest)), w.nextTask) == Settle(Park(w, Task(id, 1, f, rest)), w.nextTask)
  {
    hide Finished, Sweep;
    var w1 := Park(w, Task(id, 2, f, rest));
    assert Resumed(w1, w.nextTask) == Park(w, Task(id, 1, f, rest));
  }

  lemma SettleHangup(w: World, id: CallId, n: nat, f: Finish, rest: seq<CallId>)
    requires w.nextTask !in w.tasks && 1 <= n <= 2
    ensures Settle(Park(w, Task(id, n, f, rest)), w.nextTask)
         == Alone(Numbered(w), Sweep(Finished(Numbered(w), id, f), rest))
  {
    hide Settle, Sweep, Alone, Park, Finished, Numbered;
    LastAwait(w, Task(id, 1, f, rest));
    if n == 2 { FirstAwait(w, id, f, rest); }
  }

  function Numbered(w: World): World {
    w.(nextTask := w.nextTask + 1)
  }

  // -------------------------------------------------------------------------
  // Outcome reports
  // -------------------------------------------------------------------------

  /** Where an outcome report takes a live call; `None` when it is refused. */
  function Verdict(d: Direction, s: CallState, status: Status): Option<CallState> {
    if s == Bridged then (if status == Answered then None else Some(HungUp))
    else match status
      case Answered =>
        if s in {Ringing, TelegramRinging, TelegramAccepted, GsmAnswered, GsmDialing} then Some(Bridged) else None
      case NoAnswer =>
        if s in {Ringing, TelegramRinging} then Some(Voicemail)
        else if s in {GsmDialing, GsmRinging} then Some(GsmNoAnswer) else None
      case BusyLine =>
        if s in {Ringing, TelegramRinging} then Some(Rejected)
        else if s == GsmDialing then Some(GsmBusy) else None
      case Failed =>
        if d.Incoming? then Some(HungUp)
        else if s in {GsmDialing, GsmRinging} then Some(GsmError) else None
      case _ =>
        if d.Incoming? || s in {UserAccepted, GsmDialing, GsmRinging, Connected} then Some(HungUp) else None
  }

  lemma ShutClosed(w: World, id: CallId, t: CallState)
    requires Moves(w.desk, id, t)
    ensures var r := Shut(Go(w, id, t), id);
            && r.desk.calls == w.desk.calls - {id}
            && r.desk.lines == Vacated(w.desk.lines, id, w.desk.calls[id])
            && r.desk.metrics == Counted(w.desk.metrics, Moved(w.desk.calls[id], t, w.now), w.now)
            && r.closed == w.closed[id := Moved(w.desk.calls[id], t, w.now)]
            && r.tasks == w.tasks && r.now == w.now && r.nextTask == w.nextTask
            && r.freed == (if Holds(w.desk.calls[id]) then w.freed + multiset{id} else w.freed)
  {
    var c, c' := w.desk.calls[id], Moved(w.desk.calls[id], t, w.now);
    assert Vacated(w.desk.lines, id, c') == Vacated(w.desk.lines, id, c);
    hide CanMove, Vacated, Counted;
    AllPopped(w.desk.calls, w.closed, id, c');
  }

  /** The report's result: refused (nothing changes), still live in a new state, or closed in
      that state with its modem given back. No other call is touched. */
  ghost predicate Reached(w: World, r: World, id: CallId, v: Option<CallState>)
    requires id in w.desk.calls
  {
    var c := w.desk.calls[id];
    match v
    case None => r.desk == w.desk && r.closed == w.closed && r.freed == w.freed
    case Some(t) =>
      if Terminal(t) then
        && r.desk.calls == w.desk.calls - {id}
        && r.desk.lines == Vacated(w.desk.lines, id, c)
        && r.closed == w.closed[id := Moved(c, t, w.now)]
        && r.freed == (if Holds(c) then w.freed + multiset{id} else w.freed)
      else
        && id in r.desk.calls && r.desk.calls[id].state == t && r.desk.calls[id].modem == c.modem
        && r.desk.calls - {id} == w.desk.calls - {id}
        && r.closed == w.closed && r.freed == w.freed && r.desk.lines == w.desk.lines
  }

  lemma HangupReached(w: World, id: CallId, f: Finish)
    requires Inv(w) && id in w.desk.calls && f != CleanupOnly
    requires f == HangupThenCleanup ==> w.desk.calls[id].state == Bridged
    ensures var r := Alone(w, HangupLegs(w, id, f));
            && r.tasks == w.tasks
            && Reached(w, r, id, if Moves(w.desk, id, HungUp) then Some(HungUp) else None)
  {
    hide Inv, CanMove, Alone, HangupLegs, Go, Shut;
    TaskFacts(w, 0);
    if w.desk.calls[id].state == Bridged { BridgedHangsUp(w.desk.calls[id]); }
    HangupEnds();
    HangupAlone(w, id, f);
    ShutNothing(w, id);
    var w0 := if Channels(w.desk.calls[id]) > 0 then Numbered(w) else w;
    if Moves(w.desk, id, HungUp) { ShutClosed(w0, id, HungUp); }
  }

  lemma HangupEnds()
    ensures Terminal(HungUp)
  {
  }

  lemma ShutNothing(w: World, id: CallId)
    ensures !Moves(w.desk, id, HungUp) ==> Go(w, id, HungUp) == w
  {
  }

  /** Undisturbed, a hangup ends as if its channels had been down at once. */
  lemma HangupAlone(w: World, id: CallId, f: Finish)
    requires w.nextTask !in w.tasks && id in w.desk.calls
    ensures var w0 := if Channels(w.desk.calls[id]) > 0 then Numbered(w) else w;
            Alone(w, HangupLegs(w, id, f)) == Finished(w0, id, f)
  {
    var n := Channels(w.desk.calls[id]);
    hide Finished, Settle, Channels;
    if n == 0 {
      ParksNothing(w, id, f);
    } else {
      assert n <= 2 by { AtMostTwo(w.desk.calls[id]); }
      SettleHangup(w, id, n, f, []);
      ParksNothing(Numbered(w), id, f);
      NothingLeft(Finished(Numbered(w), id, f));
      hide Sweep;
    }
  }

  lemma AtMostTwo(c: Call)
    ensures Channels(c) <= 2
  {
  }

  lemma NothingLeft(w: World)
    ensures Sweep(w, []) == w
  {
  }

  lemma RecordedSettles(w: World, id: CallId, t: CallState)
    requires w.nextTask !in w.tasks && Moves(w.desk, id, t)
    ensures Alone(w, Recorded(w, id, t)) == Numbered(Shut(Go(w, id, t), id))
  {
    var w1 := Go(w, id, t);
    SettleHangup(w1, id, 1, CleanupOnly, []);
    hide CanMove, Counted, Vacated;
    assert Finished(Numbered(w1), id, CleanupOnly) == Numbered(Shut(w1, id));
  }

  lemma RecordedReached(w: World, id: CallId, t: CallState)
    requires Inv(w) && id in w.desk.calls && t in {GsmNoAnswer, GsmBusy, GsmError}
    ensures var r := Alone(w, Recorded(w, id, t));
            && r.tasks == w.tasks
            && Reached(w, r, id, if Moves(w.desk, id, t) then Some(t) else None)
  {
    TaskFacts(w, 0);
    assert Terminal(t);
    if Moves(w.desk, id, t) {
      RecordedSettles(w, id, t);
      ShutClosed(w, id, t);
    }
    hide Inv, CanMove, Terminal, Go, Shut, Park;
  }

  lemma IncomingVerdict(c: Call, status: Status)
    requires Seated(c) && c.direction.Incoming? && c.state != Bridged && status != Answered
    ensures var t := match status case NoAnswer => Voicemail case BusyLine => Rejected case _ => HungUp;
            && Terminal(t)
            && Verdict(Incoming, c.state, status) == if CanMove(Incoming, c.state, t) then Some(t) else None
  {
  }

  lemma OutgoingVerdict(c: Call, status: Status)
    requires Seated(c) && c.direction.Outgoing? && c.state != Bridged && !Terminal(c.state) && status != Answered
    ensures var t := match status
                     case NoAnswer => GsmNoAnswer case BusyLine => GsmBusy case Failed => GsmError case _ => HungUp;
            Verdict(Outgoing, c.state, status) == if CanMove(Outgoing, c.state, t) then Some(t) else None
  {
  }

  /** Only the record of `id` moved on. */
  ghost predicate Onward(d: Desk, r: Desk, id: CallId) {
    && id in d.calls && id in r.calls && r.lines == d.lines
    && r.calls == d.calls[id := r.calls[id]]
    && r.calls[id].modem == d.calls[id].modem && r.calls[id].direction == d.calls[id].direction
  }

  lemma MoveOnward(d0: Desk, d: Desk, id: CallId, t: CallState, now: int)
    requires Onward(d0, d, id) && CanMove(d.calls[id].direction, d.calls[id].state, t)
    ensures Onward(d0, Move(d, id, t, now), id) && Move(d, id, t, now).calls[id].state == t
  {
    hide CanMove, Counted;
  }

  lemma StepOnward(d0: Desk, d: Desk, id: CallId, s: CallState, t: CallState, now: int)
    requires Onward(d0, d, id) && CanMove(d.calls[id].direction, s, t)
    ensures var r := Step(d, id, s, t, now);
            Onward(d0, r, id) && r.calls[id].state == if d.calls[id].state == s then t else d.calls[id].state
  {
    hide CanMove, Counted, Move;
    if d.calls[id].state == s { MoveOnward(d0, d, id, t, now); }
  }

  /** Fast-forward bridges an incoming call from each of its four source states, and changes
      nothing when it is in any other. */
  lemma FastForwardReaches(d: Desk, id: CallId, now: int)
    requires id in d.calls && d.calls[id].direction.Incoming?
    ensures if d.calls[id].state in {Ringing, TelegramRinging, TelegramAccepted, GsmAnswered}
            then Onward(d, FastForwarded(d, id, now), id) && FastForwarded(d, id, now).calls[id].state == Bridged
            else FastForwarded(d, id, now) == d
  {
    if d.calls[id].state in {Ringing, TelegramRinging, TelegramAccepted, GsmAnswered} {
      ChainReaches(d, id, now);
    }
    hide CanMove, Counted;
  }

  lemma ChainReaches(d: Desk, id: CallId, now: int)
    requires id in d.calls && d.calls[id].direction.Incoming?
    requires d.calls[id].state in {Ringing, TelegramRinging, TelegramAccepted, GsmAnswered}
    ensures Onward(d, FastForwarded(d, id, now), id) && FastForwarded(d, id, now).calls[id].state == Bridged
  {
    assert CanMove(Incoming, Ringing, TelegramRinging) && CanMove(Incoming, TelegramRinging, TelegramAccepted)
        && CanMove(Incoming, TelegramAccepted, GsmAnswered) && CanMove(Incoming, GsmAnswered, Bridged);
    hide Step, CanMove;
    var d1 := Step(d, id, Ringing, TelegramRinging, now);
    var d2 := Step(d1, id, TelegramRinging, TelegramAccepted, now);
    var d3 := Step(d2, id, TelegramAccepted, GsmAnswered, now);
    assert Onward(d, d, id);
    StepOnward(d, d, id, Ringing, TelegramRinging, now);
    StepOnward(d, d1, id, TelegramRinging, TelegramAccepted, now);
    StepOnward(d, d2, id, TelegramAccepted, GsmAnswered, now);
    StepOnward(d, d3, id, GsmAnswered, Bridged, now);
  }

  /** An answered dial bridges the outgoing call exactly from GSM_DIALING. */
  lemma DialAnswered(w: World, id: CallId)
    requires id in w.desk.calls && w.desk.calls[id].direction.Outgoing? && Moves(w.desk, id, GsmRinging)
    ensures var r := Go(Go(Go(w, id, GsmRinging), id, Connected), id, Bridged);
            && Onward(w.desk, r.desk, id) && r.desk.calls[id].state == Bridged
            && r == w.(desk := r.desk)
  {
    var d1 := Move(w.desk, id, GsmRinging, w.now);
    var d2 := Move(d1, id, Connected, w.now);
    assert Onward(w.desk, w.desk, id);
    assert CanMove(Outgoing, GsmRinging, Connected) && CanMove(Outgoing, Connected, Bridged);
    hide CanMove, Move;
    MoveOnward(w.desk, w.desk, id, GsmRinging, w.now);
    MoveOnward(w.desk, d1, id, Connected, w.now);
    MoveOnward(w.desk, d2, id, Bridged, w.now);
  }

  lemma AnsweredCases(c: Call)
    requires Seated(c) && !Terminal(c.state) && c.state != Bridged
    ensures c.direction.Incoming? ==> c.state in {Ringing, TelegramRinging, TelegramAccepted, GsmAnswered}
    ensures Verdict(c.direction, c.state, Answered)
         == if c.direction.Incoming? || CanMove(c.direction, c.state, GsmRinging) then Some(Bridged) else None
    ensures !Terminal(Bridged)
  {
  }

  lemma OnwardReached(w: World, r: World, id: CallId)
    requires Onward(w.desk, r.desk, id) && r.desk.calls[id].state == Bridged && r == w.(desk := r.desk)
    ensures Reached(w, r, id, Some(Bridged))
  {
  }

  lemma RefusedReached(w: World, id: CallId)
    requires id in w.desk.calls
    ensures Reached(w, w, id, None)
  {
  }

  lemma AnsweredReached(w: World, id: CallId)
    requires Inv(w) && id in w.desk.calls && !Terminal(w.desk.calls[id].state) && w.desk.calls[id].state != Bridged
    ensures var r := Completed(w, id, Answered);
            && r.tasks == w.tasks && r.nextTask == w.nextTask
            && Reached(w, r, id, Verdict(w.desk.calls[id].direction, w.desk.calls[id].state, Answered))
  {
    var c := w.desk.calls[id];
    CallFacts(w, id);
    AnsweredCases(c);
    hide Inv, CanMove, Terminal, Seated, Verdict, FastForwarded, Go, Onward, Reached;
    var r := Completed(w, id, Answered);
    RefusedReached(w, id);
    if c.direction.Incoming? {
      FastForwardReaches(w.desk, id, w.now);
      OnwardReached(w, r, id);
    } else if Moves(w.desk, id, GsmRinging) {
      DialAnswered(w, id);
      OnwardReached(w, r, id);
    }
  }

  lemma OutgoingReached(w: World, id: CallId, status: Status)
    requires Inv(w) && id in w.desk.calls && status != Answered
    ensures var r := Alone(w, CompletedOutgoing(w, id, status));
            var t := match status
                     case NoAnswer => GsmNoAnswer case BusyLine => GsmBusy case Failed => GsmError case _ => HungUp;
            r.tasks == w.tasks && Reached(w, r, id, if Moves(w.desk, id, t) then Some(t) else None)
  {
    hide Inv, CanMove, HangupLegs, Recorded, Reached;
    match status
    case NoAnswer => RecordedReached(w, id, GsmNoAnswer);
    case BusyLine => RecordedReached(w, id, GsmBusy);
    case Failed => RecordedReached(w, id, GsmError);
    case _ => HangupReached(w, id, HangupOrKeep);
  }

  lemma UnbridgedEffect(w: World, id: CallId, status: Status)
    requires Inv(w) && id in w.desk.calls && !Terminal(w.desk.calls[id].state) && w.desk.calls[id].state != Bridged
    requires status != Answered
    ensures var r := Alone(w, Next(w, Complete(id, status)));
            && r.tasks == w.tasks
            && Reached(w, r, id, Verdict(w.desk.calls[id].direction, w.desk.calls[id].state, status))
  {
    hide Inv, CanMove, Seated, Verdict, Terminal, CompletedIncoming, CompletedOutgoing, Reached, Alone, Next;
    var c := w.desk.calls[id];
    CallFacts(w, id);
    CompleteIs(w, id, status);
    if c.direction.Incoming? {
      IncomingReached(w, id, status);
      AloneSame(w, CompletedIncoming(w, id, status));
    } else {
      OutgoingVerdict(c, status);
      OutgoingReached(w, id, status);
    }
  }

  lemma CompleteIs(w: World, id: CallId, status: Status)
    ensures Next(w, Complete(id, status)) == Completed(w, id, status)
  {
  }

  lemma AloneSame(w: World, w1: World)
    requires w1.nextTask == w.nextTask
    ensures Alone(w, w1) == w1
  {
  }

  /** What every outcome report does to a live call, for every state it can find it in. */
  lemma CompleteEffect(w: World, id: CallId, status: Status)
    requires Inv(w) && id in w.desk.calls && !Terminal(w.desk.calls[id].state)
    ensures var r := Alone(w, Next(w, Complete(id, status)));
            && r.tasks == w.tasks
            && Reached(w, r, id, Verdict(w.desk.calls[id].direction, w.desk.calls[id].state, status))
  {
    hide Inv, CanMove, Seated, HangupLegs, Reached, Terminal, Alone, Next, CompletedIncoming, CompletedOutgoing;
    var c := w.desk.calls[id];
    CallFacts(w, id);
    CompleteIs(w, id, status);
    if status == Answered {
      if c.state == Bridged {
        AloneSame(w, w);
        RefusedReached(w, id);
      } else {
        AnsweredReached(w, id);
        AloneSame(w, Completed(w, id, Answered));
      }
    } else if c.state == Bridged {
      BridgedHangsUp(c);
      HangupReached(w, id, HangupThenCleanup);
    } else {
      hide Verdict, Completed;
      UnbridgedEffect(w, id, status);
    }
  }

  lemma IncomingReached(w: World, id: CallId, status: Status)
    requires Inv(w) && id in w.desk.calls && Seated(w.desk.calls[id])
    requires w.desk.calls[id].direction.Incoming? && w.desk.calls[id].state != Bridged && status != Answered
    ensures var r := CompletedIncoming(w, id, status);
            && r.tasks == w.tasks && r.nextTask == w.nextTask
            && Reached(w, r, id, Verdict(Incoming, w.desk.calls[id].state, status))
  {
    IncomingVerdict(w.desk.calls[id], status);
    hide Inv, CanMove, Terminal, Verdict, Seated;
    match status
    case NoAnswer => if Moves(w.desk, id, Voicemail) { ShutClosed(w, id, Voicemail); }
    case BusyLine => if Moves(w.desk, id, Rejected) { ShutClosed(w, id, Rejected); }
    case _ => if Moves(w.desk, id, HungUp) { ShutClosed(w, id, HungUp); }
  }

  // -------------------------------------------------------------------------
  // The other handlers
  // -------------------------------------------------------------------------

  /** A hangup, once its awaits returned, closes the call exactly when its state may hang up. */
  lemma HangupEffect(w: World, id: CallId)
    requires Inv(w) && id in w.desk.calls
    ensures var r := Alone(w, Next(w, Hangup(id)));
            && r.tasks == w.tasks
            && Reached(w, r, id, if w.desk.calls[id].state in HANGABLE then Some(HungUp) else None)
  {
    CallFacts(w, id);
    MayEnd(w.desk.calls[id]);
    HangupReached(w, id, HangupOrKeep);
    HangupIs(w, id);
    hide Next, Inv, CanMove, Reached, HangupLegs, Alone, HANGABLE;
  }

  lemma HangupIs(w: World, id: CallId)
    ensures id in w.desk.calls ==> Next(w, Hangup(id)) == HangupLegs(w, id, HangupOrKeep)
    ensures Next(w, Event.Reject(id)) == if Moves(w.desk, id, Rejected) then Shut(Go(w, id, Rejected), id) else w
  {
  }

  /** What the tables say about ending a live call. */
  lemma MayEnd(c: Call)
    requires Seated(c)
    ensures CanMove(c.direction, c.state, HungUp) <==> c.state in HANGABLE
    ensures CanMove(c.direction, c.state, Rejected)
            <==> c.state in {Ringing, TelegramRinging, ModemReserved, TelegramCalling}
  {
  }

  const HANGABLE: set<CallState> :=
    {Ringing, TelegramRinging, TelegramAccepted, GsmAnswered, UserAccepted, GsmDialing, GsmRinging, Connected, Bridged}

  /** A rejection closes exactly a call still ringing or still waiting for its user. */
  lemma RejectEffect(w: World, id: CallId)
    requires Inv(w) && id in w.desk.calls
    ensures Reached(w, Next(w, Event.Reject(id)), id,
                    if w.desk.calls[id].state in {Ringing, TelegramRinging, ModemReserved, TelegramCalling}
                    then Some(Rejected) else None)
  {
    CallFacts(w, id);
    MayEnd(w.desk.calls[id]);
    HangupIs(w, id);
    if Moves(w.desk, id, Rejected) { ShutClosed(w, id, Rejected); }
    assert Terminal(Rejected);
    hide Next, Inv, Go, Shut, CanMove, Terminal, HANGABLE;
  }

  /** A pending call can be accepted and dialled. */
  lemma AcceptChain(w: World, id: CallId, channel: string)
    requires Pending(w) == {id}
    ensures var w1 := if w.desk.calls[id].state == ModemReserved then Go(w, id, TelegramCalling) else w;
            var w2 := if channel != "" then WithBridgeLeg(w1, id, channel) else w1;
            && id in w.desk.calls && id in w1.desk.calls
            && Moves(w2.desk, id, UserAccepted) && Moves(Go(w2, id, UserAccepted).desk, id, GsmDialing)
  {
    assert id in Pending(w);
  }

  /** The world in which the accepted call is dialled: ringing was marked, the channel noted. */
  function Prepared(w: World, id: CallId, channel: string): World
    requires id in w.desk.calls
  {
    var w1 := if w.desk.calls[id].state == ModemReserved then Go(w, id, TelegramCalling) else w;
    if channel != "" then WithBridgeLeg(w1, id, channel) else w1
  }

  lemma PreparedKeeps(w: World, id: CallId, channel: string)
    requires id in w.desk.calls
    ensures var c, r := w.desk.calls[id], Prepared(w, id, channel);
            && id in r.desk.calls && r.desk.calls - {id} == w.desk.calls - {id}
            && r.desk.calls[id].modem == c.modem && r.desk.lines == w.desk.lines && r == w.(desk := r.desk)
            && r.desk.calls[id].bridgeChannel == if channel != "" then channel else c.bridgeChannel
  {
    GoKeeps(w, id, TelegramCalling);
    hide Go;
  }

  lemma DialKeeps(w: World, id: CallId)
    requires id in w.desk.calls
    requires Moves(w.desk, id, UserAccepted) && Moves(Go(w, id, UserAccepted).desk, id, GsmDialing)
    ensures var c, r := w.desk.calls[id], Go(Go(w, id, UserAccepted), id, GsmDialing);
            && id in r.desk.calls && r.desk.calls - {id} == w.desk.calls - {id}
            && r.desk.calls[id].state == GsmDialing && r.desk.calls[id].modem == c.modem
            && r.desk.calls[id].bridgeChannel == c.bridgeChannel
            && r.desk.lines == w.desk.lines && r == w.(desk := r.desk)
  {
    GoKeeps(w, id, UserAccepted);
    GoKeeps(Go(w, id, UserAccepted), id, GsmDialing);
    hide Go, CanMove;
  }

  /** An outgoing call that has its modem or rings its user, and has not been taken up yet. */
  ghost predicate Waiting(w: World, id: CallId) {
    && id in w.desk.calls && w.desk.calls[id].direction == Outgoing
    && (w.desk.calls[id].state == ModemReserved || w.desk.calls[id].state == TelegramCalling)
  }

  ghost predicate OnlyWaiting(w: World, id: CallId) {
    Waiting(w, id) && forall i :: Waiting(w, i) ==> i == id
  }

  lemma WaitingArePending(w: World, id: CallId)
    ensures forall i :: i in Pending(w) <==> Waiting(w, i)
    ensures Pending(w) == {id} <==> OnlyWaiting(w, id)
  {
    assert forall i :: i in Pending(w) <==> Waiting(w, i);
    hide Waiting, Pending;
    if OnlyWaiting(w, id) { assert Pending(w) == {id}; }
    if Pending(w) == {id} { assert id in Pending(w); }
  }

  /** The bridge's accept takes the only waiting call to its GSM dial and notes the channel; with
      none or several waiting, or for another id, nothing changes. */
  lemma AcceptEffect(w: World, id: CallId, channel: string)
    requires Inv(w)
    ensures var r := Next(w, OutgoingAccepted(id, channel));
            if !OnlyWaiting(w, id) then r == w
            else id in w.desk.calls && Reached(w, r, id, Some(GsmDialing))
                 && (channel != "" ==> r.desk.calls[id].bridgeChannel == channel)
                 && (channel == "" ==> r.desk.calls[id].bridgeChannel == w.desk.calls[id].bridgeChannel)
                 && r.tasks == w.tasks
  {
    AcceptIs(w, id, channel);
    WaitingArePending(w, id);
    assert !Terminal(GsmDialing);
    hide Inv, Next, Go, CanMove, Terminal, OnlyWaiting;
    if Pending(w) == {id} {
      assert id in Pending(w);
      AcceptChain(w, id, channel);
      PreparedKeeps(w, id, channel);
      DialKeeps(Prepared(w, id, channel), id);
      hide Prepared, Pending;
    }
  }

  lemma AcceptIs(w: World, id: CallId, channel: string)
    ensures if Pending(w) != {id} then Next(w, OutgoingAccepted(id, channel)) == w
            else id in w.desk.calls && Next(w, OutgoingAccepted(id, channel))
                                       == Go(Go(Prepared(w, id, channel), id, UserAccepted), id, GsmDialing)
  {
    if Pending(w) == {id} { assert id in Pending(w); }
    hide Go;
  }

  lemma GoKeeps(w: World, id: CallId, t: CallState)
    requires id in w.desk.calls
    ensures var r := Go(w, id, t);
            && id in r.desk.calls
            && r.desk.calls[id]
               == (if Moves(w.desk, id, t) then Moved(w.desk.calls[id], t, w.now) else w.desk.calls[id])
            && r.desk.calls - {id} == w.desk.calls - {id}
            && r.desk.lines == w.desk.lines
            && r == w.(desk := r.desk)
  {
    hide CanMove, Counted;
  }

  /** A new outgoing call rings its user and holds a modem no other call holds; when no modem can
      be had, nothing changes. A call to an internal extension needs and takes none. */
  lemma OpenEffect(w: World, id: CallId, modemRequired: bool, choice: string)
    requires Inv(w) && !Known(w, id)
    ensures var r := Next(w, Event.CallOutgoing(id, modemRequired, choice));
            if modemRequired && Reserved(w.desk.lines, choice).None? then r == w
            else
              && id in r.desk.calls && r.desk.calls - {id} == w.desk.calls
              && r.desk.calls[id].state == TelegramCalling && r.desk.calls[id].direction == Outgoing
              && Holds(r.desk.calls[id]) == modemRequired
              && (!modemRequired ==> r.desk.lines == w.desk.lines)
              && (modemRequired ==> forall i :: i in w.desk.calls && Holds(w.desk.calls[i]) ==>
                    w.desk.calls[i].modem != r.desk.calls[id].modem)
              && r.closed == w.closed && r.freed == w.freed && r.tasks == w.tasks
  {
    hide Inv, Reserved, Go, WithOutgoing, CanMove;
    var w1 := w.(desk := WithOutgoing(w.desk, id, modemRequired, choice, w.now));
    EnrolEffect(w.desk, id, modemRequired, choice, w.now);
    if modemRequired && Reserved(w.desk.lines, choice).Some? {
      ReservationsHold(w);
      ReservedUnheld(w.desk.lines, w.desk.calls, choice);
    }
    RingAllowed();
    if id in w1.desk.calls { GoKeeps(w1, id, TelegramCalling); }
    Refused(w, id, TelegramCalling);
    assert Next(w, Event.CallOutgoing(id, modemRequired, choice)) == Go(w1, id, TelegramCalling);
  }

  lemma ReservationsHold(w: World)
    requires Inv(w)
    ensures Conserved(w.desk.lines, w.desk.calls)
  {
  }

  lemma RingAllowed()
    ensures CanMove(Outgoing, ModemReserved, TelegramCalling)
  {
  }

  lemma EnrolEffect(d: Desk, id: CallId, modemRequired: bool, choice: string, now: int)
    requires id !in d.calls
    ensures var r := WithOutgoing(d, id, modemRequired, choice, now);
            if modemRequired && Reserved(d.lines, choice).None? then r == d
            else
              && id in r.calls && r.calls - {id} == d.calls
              && r.calls[id] == NewCall(Outgoing, if modemRequired then Reserved(d.lines, choice).value.1 else "",
                                        ModemReserved, "", now)
              && (!modemRequired ==> r.lines == d.lines)
  {
    hide Reserved;
  }

  lemma Refused(w: World, id: CallId, t: CallState)
    ensures !Moves(w.desk, id, t) ==> Go(w, id, t) == w
  {
  }

  lemma ReservedUnheld(l: Lines, calls: map<CallId, Call>, choice: string)
    requires Conserved(l, calls) && Reserved(l, choice).Some?
    ensures var m := Reserved(l, choice).value.1;
            m != "" && forall i :: i in calls && Holds(calls[i]) ==> calls[i].modem != m
  {
    match l
    case Direct(n) =>
      assert HoldingIds(calls) == {};
      forall i | i in calls ensures !Holds(calls[i]) { assert i !in HoldingIds(calls); }
    case Pooled(p, r) =>
      forall i | i in calls && Holds(calls[i]) ensures calls[i].modem != choice {
        assert calls[i].modem in HeldModems(calls);
      }
  }

  /** Each single-step event moves a call only from the state before it; bridging by hand needs an
      answered incoming or a connected outgoing call. */
  lemma StepEffect(w: World, id: CallId)
    requires Inv(w) && id in w.desk.calls
    ensures var c := w.desk.calls[id];
            && Reached(w, Next(w, TelegramRing(id)), id, if c.state == Ringing then Some(TelegramRinging) else None)
            && Reached(w, Next(w, Accept(id)), id, if c.state == TelegramRinging then Some(TelegramAccepted) else None)
            && Reached(w, Next(w, AnswerGsm(id)), id,
                       if c.state == TelegramAccepted && c.gsmChannel == "" then Some(GsmAnswered) else None)
            && Reached(w, Next(w, Event.Bridge(id)), id,
                       if c.state in {GsmAnswered, Connected} then Some(Bridged) else None)
  {
    CallFacts(w, id);
    StepSources(w.desk.calls[id]);
    StepIs(w, id);
    hide Inv, Next, CanMove, Terminal, Go, Seated;
    GoKeeps(w, id, TelegramRinging);
    GoKeeps(w, id, TelegramAccepted);
    GoKeeps(w, id, GsmAnswered);
    GoKeeps(w, id, Bridged);
    Refused(w, id, TelegramRinging);
    Refused(w, id, TelegramAccepted);
    Refused(w, id, GsmAnswered);
    Refused(w, id, Bridged);
  }

  lemma StepSources(c: Call)
    requires Seated(c)
    ensures CanMove(c.direction, c.state, TelegramRinging) <==> c.state == Ringing
    ensures CanMove(c.direction, c.state, TelegramAccepted) <==> c.state == TelegramRinging
    ensures CanMove(c.direction, c.state, GsmAnswered) <==> c.state == TelegramAccepted
    ensures CanMove(c.direction, c.state, Bridged) <==> c.state in {GsmAnswered, Connected}
    ensures !Terminal(TelegramRinging) && !Terminal(TelegramAccepted) && !Terminal(GsmAnswered) && !Terminal(Bridged)
  {
  }

  lemma StepIs(w: World, id: CallId)
    requires id in w.desk.calls
    ensures Next(w, TelegramRing(id)) == Go(w, id, TelegramRinging)
    ensures Next(w, Accept(id)) == Go(w, id, TelegramAccepted)
    ensures Next(w, AnswerGsm(id)) == if w.desk.calls[id].gsmChannel != "" then w else Go(w, id, GsmAnswered)
    ensures Next(w, Event.Bridge(id)) == Go(w, id, Bridged)
  {
    hide Go;
  }

  /** A new incoming call rings its user on the channel it came in on and takes no modem. */
  lemma RangEffect(w: World, id: CallId, modem: string, gsm: string)
    requires Inv(w) && !Known(w, id)
    ensures var r := Next(w, Event.CallIncoming(id, modem, gsm));
            && id in r.desk.calls && r.desk.calls - {id} == w.desk.calls && r.desk.lines == w.desk.lines
            && r.desk.calls[id] == Call(Incoming, modem, TelegramRinging, w.now, None, gsm, "")
            && !Holds(r.desk.calls[id])
            && r.closed == w.closed && r.freed == w.freed && r.tasks == w.tasks
  {
    hide Inv, Next, Go, CanMove;
    var w1 := w.(desk := Enrolled(w.desk, id, NewCall(Incoming, modem, Ringing, gsm, w.now)));
    RangIs(w, id, modem, gsm);
    GoKeeps(w1, id, TelegramRinging);
    assert w1.desk.calls - {id} == w.desk.calls;
  }

  lemma RangIs(w: World, id: CallId, modem: string, gsm: string)
    requires !Known(w, id)
    ensures Next(w, Event.CallIncoming(id, modem, gsm))
         == Go(w.(desk := Enrolled(w.desk, id, NewCall(Incoming, modem, Ringing, gsm, w.now))), id, TelegramRinging)
    ensures CanMove(Incoming, Ringing, TelegramRinging)
  {
    hide Go;
  }

  /** The two channel reports record one channel each and touch nothing else; a hangup then waits for one
      answer per channel recorded on the call: both, one, or none. */
  lemma EveryLegHungUp(w: World, id: CallId, gsm: string, bridge: string)
    requires id in w.desk.calls
    ensures var w1 := Next(Next(w, SetGsmChannel(id, gsm)), SetBridgeLeg(id, bridge));
            var r := Next(w1, Hangup(id));
            && w1 == w.(desk := w.desk.(calls := w.desk.calls[
                 id := w.desk.calls[id].(gsmChannel := gsm, bridgeChannel := bridge)]))
            && (gsm != "" && bridge != "" ==> r == Park(w1, Task(id, 2, HangupOrKeep, [])))
            && (gsm != "" && bridge == "" ==> r == Park(w1, Task(id, 1, HangupOrKeep, [])))
            && (gsm == "" && bridge != "" ==> r == Park(w1, Task(id, 1, HangupOrKeep, [])))
            && (gsm == "" && bridge == "" ==> r.tasks == w.tasks && r.nextTask == w.nextTask)
  {
    var w1 := WithBridgeLeg(WithGsmChannel(w, id, gsm), id, bridge);
    assert w1.desk.calls[id].gsmChannel == gsm && w1.desk.calls[id].bridgeChannel == bridge;
    HangupIs(w1, id);
    ClosingParksNothing(w1, id, HungUp);
    hide Go, Shut, CanMove;
  }
}
