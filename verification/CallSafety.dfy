/** What every reachable state of the switchboard satisfies. */
module CallSafety {
  import opened Options
  import opened Calls
  import opened Modems
  import opened Registry
  import opened Switchboard

  // -------------------------------------------------------------------------
  // The counters agree with the calls
  // -------------------------------------------------------------------------

  datatype Outcome = AnsweredIn | AnsweredOut | RejectedIn | ToVoicemail | TimedOutOut | FailedOut

  /** The outcome a call's record shows. */
  function OutcomeOf(c: Call): Option<Outcome> {
    if c.bridgedAt.Some? then Some(if c.direction.Incoming? then AnsweredIn else AnsweredOut)
    else match c.state
      case Rejected => if c.direction.Incoming? then Some(RejectedIn) else None
      case Voicemail => Some(ToVoicemail)
      case TelegramTimeout => Some(TimedOutOut)
      case GsmBusy => Some(FailedOut)
      case GsmNoAnswer => Some(FailedOut)
      case GsmError => Some(FailedOut)
      case _ => None
  }

  function CounterOf(m: Counters, o: Outcome): nat {
    match o
    case AnsweredIn => m.incomingAnswered
    case AnsweredOut => m.outgoingAnswered
    case RejectedIn => m.incomingRejected
    case ToVoicemail => m.incomingVoicemail
    case TimedOutOut => m.outgoingTimeout
    case FailedOut => m.outgoingFailed
  }

  function With(all: map<CallId, Call>, o: Outcome): set<CallId> {
    set id | id in all && OutcomeOf(all[id]) == Some(o)
  }

  /** The answered calls whose conversation is over. */
  function LeftBridge(all: map<CallId, Call>): set<CallId> {
    set id | id in all && all[id].bridgedAt.Some? && all[id].state != Bridged
  }

  // Sums of durations.

  ghost function Total(talks: map<CallId, int>): int
    decreases |talks|
  {
    if talks == map[] then 0
    else
      var id :| id in talks;
      Fewer(talks, id);
      talks[id] + Total(talks - {id})
  }

  lemma Fewer(talks: map<CallId, int>, id: CallId)
    requires id in talks
    ensures |talks - {id}| == |talks| - 1
  {
    assert (talks - {id}).Keys == talks.Keys - {id};
  }

  lemma {:induction false} TotalWithout(talks: map<CallId, int>, id: CallId)
    requires id in talks
    ensures Total(talks) == talks[id] + Total(talks - {id})
    decreases |talks|
  {
    var k :| k in talks && Total(talks) == talks[k] + Total(talks - {k});
    if k != id {
      Fewer(talks, k);
      TotalWithout(talks - {k}, id);
      TotalWithout(talks - {id}, k) by { Fewer(talks, id); }
      assert talks - {k} - {id} == talks - {id} - {k};
    }
  }

  /** A call that was hung up some time after it was bridged. */
  predicate Conversed(c: Call) {
    c.state == HungUp && c.bridgedAt.Some? && c.since - c.bridgedAt.value > 0
  }

  /** How long each finished conversation lasted. */
  function Conversations(all: map<CallId, Call>): map<CallId, int> {
    map id | id in all && Conversed(all[id]) :: all[id].since - all[id].bridgedAt.value
  }

  ghost predicate Tallied(m: Counters, all: map<CallId, Call>) {
    && (forall o :: CounterOf(m, o) == |With(all, o)|)
    && m.incomingTimeout == 0
    && m.answeredSeconds == Total(Conversations(all))
    && m.answeredCompleted == |Conversations(all)|
  }

  /** A record a live call can have: a state of its direction's table that the handlers leave
      in the registry, and while bridged, and only then, its entry time as the bridging time. */
  predicate Seated(c: Call) {
    && c.bridgedAt == (if c.state.Bridged? then Some(c.since) else None)
    && (match c.direction
        case Incoming => c.state in {Ringing, TelegramRinging, TelegramAccepted, GsmAnswered, Bridged}
        case Outgoing =>
          c.state in {ModemReserved, TelegramCalling, UserAccepted, GsmDialing, GsmRinging, Connected,
                      Bridged, TelegramTimeout, GsmBusy, GsmNoAnswer, GsmError})
  }

  lemma NewTallied(m: Counters, all: map<CallId, Call>, id: CallId, c: Call)
    requires Tallied(m, all) && id !in all && OutcomeOf(c).None? && c.bridgedAt.None?
    ensures Tallied(m, all[id := c])
  {
    forall o ensures With(all[id := c], o) == With(all, o) { }
    assert Conversations(all[id := c]) == Conversations(all);
  }

  /** A record change that the outcome does not show leaves the tally alone. */
  lemma SameTallied(m: Counters, all: map<CallId, Call>, id: CallId, c: Call)
    requires Tallied(m, all) && id in all && OutcomeOf(c) == OutcomeOf(all[id])
    requires !Conversed(c) && !Conversed(all[id])
    ensures Tallied(m, all[id := c])
  {
    forall o ensures With(all[id := c], o) == With(all, o) { }
    assert Conversations(all[id := c]) == Conversations(all);
  }

  lemma CountedIncrements(m: Counters, c: Call, t: CallState, now: int, o: Outcome)
    requires Seated(c) && CanMove(c.direction, c.state, t)
    ensures CounterOf(Counted(m, Moved(c, t, now), now), o)
         == CounterOf(m, o) + (if OutcomeOf(c).None? && OutcomeOf(Moved(c, t, now)) == Some(o) then 1 else 0)
    ensures OutcomeOf(c).Some? ==> OutcomeOf(Moved(c, t, now)) == OutcomeOf(c)
  {
  }

  /** A record change seen in the set of calls with outcome `o`. */
  lemma WithMoved(all: map<CallId, Call>, id: CallId, c': Call, o: Outcome)
    requires id in all && (OutcomeOf(all[id]).Some? ==> OutcomeOf(c') == OutcomeOf(all[id]))
    ensures |With(all[id := c'], o)|
         == |With(all, o)| + (if OutcomeOf(all[id]).None? && OutcomeOf(c') == Some(o) then 1 else 0)
  {
    hide OutcomeOf;
    var all' := all[id := c'];
    if OutcomeOf(all[id]).None? && OutcomeOf(c') == Some(o) {
      assert With(all', o) == With(all, o) + {id};
    } else {
      assert With(all', o) == With(all, o);
    }
  }

  lemma ConversationsMoved(all: map<CallId, Call>, id: CallId, c': Call)
    requires id in all && !Conversed(all[id])
    ensures var less, more := Conversations(all), Conversations(all[id := c']);
            if Conversed(c') then
              |more| == |less| + 1 && Total(more) == Total(less) + (c'.since - c'.bridgedAt.value)
            else more == less
  {
    var less, more := Conversations(all), Conversations(all[id := c']);
    hide Conversed;
    if Conversed(c') {
      assert id in more && more - {id} == less;
      hide Conversations;
      Fewer(more, id);
      TotalWithout(more, id);
    } else {
      assert more == less;
    }
  }

  lemma MoveTallied(m: Counters, all: map<CallId, Call>, id: CallId, t: CallState, now: int)
    requires Tallied(m, all) && id in all && Seated(all[id]) && CanMove(all[id].direction, all[id].state, t)
    ensures Tallied(Counted(m, Moved(all[id], t, now), now), all[id := Moved(all[id], t, now)])
  {
    var c, c' := all[id], Moved(all[id], t, now);
    DurationsCounted(m, c, t, now);
    hide Counted, Moved, CounterOf, With, Conversed, Conversations, Total, Seated, CanMove, OutcomeOf;
    ConversationsMoved(all, id, c');
    forall o ensures CounterOf(Counted(m, c', now), o) == |With(all[id := c'], o)| {
      CountedIncrements(m, c, t, now, o);
      WithMoved(all, id, c', o);
    }
  }

  /** A duration is booked exactly when a conversation ends, and is its length. */
  lemma DurationsCounted(m: Counters, c: Call, t: CallState, now: int)
    requires Seated(c) && CanMove(c.direction, c.state, t)
    ensures !Conversed(c)
    ensures var c' := Moved(c, t, now);
            var m' := Counted(m, c', now);
            && m'.incomingTimeout == m.incomingTimeout
            && m'.answeredCompleted == m.answeredCompleted + (if Conversed(c') then 1 else 0)
            && m'.answeredSeconds
               == m.answeredSeconds + (if Conversed(c') then c'.since - c'.bridgedAt.value else 0)
  {
  }

  // -------------------------------------------------------------------------
  // Modems are held by exactly the calls that reserved them
  // -------------------------------------------------------------------------

  function HoldingIds(calls: map<CallId, Call>): set<CallId> {
    set id | id in calls && Holds(calls[id])
  }

  function HeldModems(calls: map<CallId, Call>): set<string> {
    set id | id in calls && Holds(calls[id]) :: calls[id].modem
  }

  ghost predicate NoSharing(calls: map<CallId, Call>) {
    forall i, j :: (i in calls && j in calls && Holds(calls[i]) && Holds(calls[j])
                    && calls[i].modem == calls[j].modem) ==> i == j
  }

  ghost predicate PoolConserved(p: Pool, releasing: map<CallId, string>, calls: map<CallId, Call>) {
    && "" !in p.devices
    && p.reserved == HeldModems(calls) && NoSharing(calls)
    && (forall id :: id in releasing ==> id !in calls && releasing[id] !in p.reserved)
    && (forall i, j :: i in releasing && j in releasing && releasing[i] == releasing[j] ==> i == j)
    && (forall m :: m in p.reserved || m in releasing.Values ==> m in p.devices)
    && (forall m :: m in p.devices ==> Fresh(p.devices[m]))
    && (forall m :: m in p.devices ==>
          (p.devices[m].callActive <==> m in p.reserved || m in releasing.Values))
  }

  ghost predicate Conserved(l: Lines, calls: map<CallId, Call>) {
    match l
    case Pooled(p, r) => PoolConserved(p, r, calls)
    case Direct(n) => n == |HoldingIds(calls)| <= 1
  }

  lemma UpdateConserves(l: Lines, calls: map<CallId, Call>, id: CallId, c: Call)
    requires Conserved(l, calls) && id in calls
    requires c.direction == calls[id].direction && c.modem == calls[id].modem
    ensures Conserved(l, calls[id := c])
  {
    var calls' := calls[id := c];
    assert HoldingIds(calls') == HoldingIds(calls);
    assert HeldModems(calls') == HeldModems(calls) by {
      forall m | m in HeldModems(calls) ensures m in HeldModems(calls') {
        var i :| i in calls && Holds(calls[i]) && calls[i].modem == m;
        assert i in calls' && Holds(calls'[i]) && calls'[i].modem == m;
      }
    }
  }

  lemma IdleCallConserves(l: Lines, calls: map<CallId, Call>, id: CallId, c: Call)
    requires Conserved(l, calls) && id !in calls && !Holds(c)
    requires l.Pooled? ==> id !in l.releasing
    ensures Conserved(l, calls[id := c])
  {
    var calls' := calls[id := c];
    assert HoldingIds(calls') == HoldingIds(calls);
    assert HeldModems(calls') == HeldModems(calls) by {
      forall m | m in HeldModems(calls) ensures m in HeldModems(calls') {
        var i :| i in calls && Holds(calls[i]) && calls[i].modem == m;
        assert i in calls' && Holds(calls'[i]) && calls'[i].modem == m;
      }
    }
  }

  lemma NewHolder(calls: map<CallId, Call>, id: CallId, c: Call)
    requires id !in calls && Holds(c)
    ensures HeldModems(calls[id := c]) == HeldModems(calls) + {c.modem}
  {
    var calls' := calls[id := c];
    forall m | m in HeldModems(calls) + {c.modem} ensures m in HeldModems(calls') {
      if m == c.modem {
        assert id in calls' && Holds(calls'[id]) && calls'[id].modem == m;
      } else {
        var i :| i in calls && Holds(calls[i]) && calls[i].modem == m;
        assert i in calls' && Holds(calls'[i]) && calls'[i].modem == m;
      }
    }
  }

  /** A modem that can be chosen is idle, and choosing it touches no other. */
  lemma SelectedIdle(p: Pool, choice: string)
    requires choice in Available(p) && Fresh(p.devices[choice])
    ensures var p' := Selected(p, choice);
            && choice in p.devices && choice !in p.reserved && !p.devices[choice].callActive
            && p'.reserved == p.reserved + {choice} && p'.devices.Keys == p.devices.Keys
            && (forall m :: m in p.devices && m != choice ==> p'.devices[m] == p.devices[m])
            && Fresh(p'.devices[choice]) && p'.devices[choice].callActive
  {
    ReadyExactlyWhenIdle(p.devices[choice]);
  }

  lemma PoolReserves(p: Pool, r: map<CallId, string>, calls: map<CallId, Call>, id: CallId, choice: string, c: Call)
    requires PoolConserved(p, r, calls) && id !in calls && id !in r && choice in Available(p)
    requires c.direction.Outgoing? && c.modem == choice
    ensures PoolConserved(Selected(p, choice), r, calls[id := c]) && Holds(c)
  {
    SelectedIdle(p, choice);
    NewHolder(calls, id, c);
    hide Available, Selected, Fresh, HeldModems;
    assert choice !in r.Values;
    NoneShares(p, r, calls, id, c);
    forall i | i in r ensures r[i] != choice { assert r[i] in r.Values; }
  }

  lemma NoneShares(p: Pool, r: map<CallId, string>, calls: map<CallId, Call>, id: CallId, c: Call)
    requires PoolConserved(p, r, calls) && c.modem !in p.reserved
    ensures NoSharing(calls[id := c])
  {
    forall i | i in calls && Holds(calls[i]) ensures calls[i].modem != c.modem {
      assert calls[i].modem in HeldModems(calls);
    }
  }

  lemma ReserveConserves(l: Lines, calls: map<CallId, Call>, id: CallId, choice: string, c: Call)
    requires Conserved(l, calls) && id !in calls && Reserved(l, choice).Some?
    requires l.Pooled? ==> id !in l.releasing
    requires c.direction.Outgoing? && c.modem == Reserved(l, choice).value.1
    ensures Conserved(Reserved(l, choice).value.0, calls[id := c]) && Holds(c)
  {
    var calls' := calls[id := c];
    match l {
      case Direct(n) =>
        assert HoldingIds(calls') == HoldingIds(calls) + {id};
      case Pooled(p, r) =>
        hide PoolConserved, Available, Selected;
        PoolReserves(p, r, calls, id, choice, c);
    }
  }

  lemma VacateConserves(l: Lines, calls: map<CallId, Call>, id: CallId)
    requires Conserved(l, calls) && id in calls
    ensures Conserved(Vacated(l, id, calls[id]), calls - {id})
  {
    var c := calls[id];
    var calls' := calls - {id};
    if !Holds(c) {
      assert HoldingIds(calls') == HoldingIds(calls);
      assert HeldModems(calls') == HeldModems(calls) by {
        forall m | m in HeldModems(calls) ensures m in HeldModems(calls') {
          var i :| i in calls && Holds(calls[i]) && calls[i].modem == m;
          assert i in calls' && Holds(calls'[i]) && calls'[i].modem == m;
        }
      }
    } else {
      match l
      case Direct(n) =>
        assert HoldingIds(calls') == HoldingIds(calls) - {id};
        assert id in HoldingIds(calls);
      case Pooled(p, r) =>
        VacatePool(p, r, calls, id);
    }
  }

  lemma VacatePool(p: Pool, r: map<CallId, string>, calls: map<CallId, Call>, id: CallId)
    requires PoolConserved(p, r, calls) && id in calls && Holds(calls[id])
    ensures PoolConserved(Unreserved(p, calls[id].modem), r[id := calls[id].modem], calls - {id})
  {
    var m := calls[id].modem;
    var calls' := calls - {id};
    var r' := r[id := m];
    assert m in HeldModems(calls);
    assert HeldModems(calls') == HeldModems(calls) - {m} by {
      forall x | x in HeldModems(calls) - {m} ensures x in HeldModems(calls') {
        var i :| i in calls && Holds(calls[i]) && calls[i].modem == x;
        assert i in calls' && Holds(calls'[i]) && calls'[i].modem == x;
      }
    }
    assert r'.Values == r.Values + {m} by {
      forall x | x in r.Values ensures x in r'.Values {
        var i :| i in r && r[i] == x;
        assert i in r' && r'[i] == x;
      }
      assert id in r' && r'[id] == m;
    }
  }

  lemma SettleConserves(l: Lines, calls: map<CallId, Call>, id: CallId)
    requires Conserved(l, calls)
    ensures Conserved(Settled(l, id), calls)
  {
    hide HeldModems, NoSharing, HoldingIds;
    if l.Pooled? && id in l.releasing { FewerValues(l.releasing, id); }
  }

  lemma FewerValues(r: map<CallId, string>, id: CallId)
    requires id in r && forall i, j :: i in r && j in r && r[i] == r[j] ==> i == j
    ensures r[id] in r.Values && (r - {id}).Values == r.Values - {r[id]}
  {
    var r' := r - {id};
    forall x | x in r.Values - {r[id]} ensures x in r'.Values {
      var i :| i in r && r[i] == x;
      assert i in r' && r'[i] == x;
    }
  }

  // -------------------------------------------------------------------------
  // Parked handlers and the calls they answer for
  // -------------------------------------------------------------------------

  predicate Owes(t: Task, id: CallId) {
    t.finish == CleanupOnly && t.id == id
  }

  ghost predicate TaskFits(t: Task, calls: map<CallId, Call>, closed: map<CallId, Call>) {
    && (t.id in calls || t.id in closed)
    && (forall i :: i in t.rest ==> i in calls || i in closed)
    && (t.finish == CleanupOnly ==> t.id in calls && Terminal(calls[t.id].state))
    && (t.finish == HangupThenCleanup && t.id in calls ==> calls[t.id].state == Bridged)
  }

  /** Each recorded but not yet cleaned up outcome has exactly one handler on its way to
      clean it up. */
  ghost predicate Owned(calls: map<CallId, Call>, closed: map<CallId, Call>, tasks: map<nat, Task>) {
    && (forall k :: k in tasks ==> TaskFits(tasks[k], calls, closed))
    && (forall id :: id in calls && Terminal(calls[id].state) ==> HasOwner(tasks, id))
    && OneOwner(tasks)
  }

  ghost predicate HasOwner(tasks: map<nat, Task>, id: CallId) {
    exists k :: k in tasks && Owes(tasks[k], id)
  }

  ghost predicate OneOwner(tasks: map<nat, Task>) {
    forall j, k :: j in tasks && k in tasks && Owes(tasks[j], tasks[j].id) && Owes(tasks[k], tasks[j].id) ==> j == k
  }

  lemma OwnedLive(calls: map<CallId, Call>, closed: map<CallId, Call>, tasks: map<nat, Task>, id: CallId, c: Call)
    requires Owned(calls, closed, tasks) && !Terminal(c.state)
    requires if id in calls
             then !Terminal(calls[id].state) && (calls[id].state == Bridged ==> c.state == Bridged)
             else id !in closed
    ensures Owned(calls[id := c], closed, tasks)
  {
    forall k | k in tasks ensures TaskFits(tasks[k], calls[id := c], closed) {
      assert TaskFits(tasks[k], calls, closed);
    }
  }

  lemma OwnedRelabelled(calls: map<CallId, Call>, closed: map<CallId, Call>, tasks: map<nat, Task>, id: CallId, c: Call)
    requires Owned(calls, closed, tasks) && id in calls && c.state == calls[id].state
    ensures Owned(calls[id := c], closed, tasks)
  {
    forall k | k in tasks ensures TaskFits(tasks[k], calls[id := c], closed) {
      assert TaskFits(tasks[k], calls, closed);
    }
  }

  lemma OwnedClosed(calls: map<CallId, Call>, closed: map<CallId, Call>, tasks: map<nat, Task>, id: CallId, c: Call)
    requires Owned(calls, closed, tasks) && id in calls && !Terminal(calls[id].state)
    ensures Owned(calls - {id}, closed[id := c], tasks)
  {
    forall k | k in tasks ensures TaskFits(tasks[k], calls - {id}, closed[id := c]) {
      assert TaskFits(tasks[k], calls, closed);
    }
  }

  lemma OwnedAdded(calls: map<CallId, Call>, closed: map<CallId, Call>, tasks: map<nat, Task>, k: nat, t: Task)
    requires Owned(calls, closed, tasks) && k !in tasks
    requires TaskFits(t, calls, closed) && t.finish != CleanupOnly
    ensures Owned(calls, closed, tasks[k := t])
  {
    forall id | id in calls && Terminal(calls[id].state) ensures HasOwner(tasks[k := t], id) {
      var j :| j in tasks && Owes(tasks[j], id);
      assert Owes(tasks[k := t][j], id);
    }
  }

  lemma OwnedDropped(calls: map<CallId, Call>, closed: map<CallId, Call>, tasks: map<nat, Task>, k: nat)
    requires Owned(calls, closed, tasks) && k in tasks && tasks[k].finish != CleanupOnly
    ensures Owned(calls, closed, tasks - {k})
  {
    forall id | id in calls && Terminal(calls[id].state) ensures HasOwner(tasks - {k}, id) {
      var j :| j in tasks && Owes(tasks[j], id);
      assert Owes((tasks - {k})[j], id);
    }
  }

  lemma OwnedWaiting(calls: map<CallId, Call>, closed: map<CallId, Call>, tasks: map<nat, Task>, k: nat, left: nat)
    requires Owned(calls, closed, tasks) && k in tasks
    ensures Owned(calls, closed, tasks[k := tasks[k].(left := left)])
  {
    var tasks' := tasks[k := tasks[k].(left := left)];
    assert TaskFits(tasks[k], calls, closed);
    assert forall j, id :: j in tasks ==> (Owes(tasks'[j], id) <==> Owes(tasks[j], id)) && tasks'[j].id == tasks[j].id;
    forall id | id in calls && Terminal(calls[id].state) ensures HasOwner(tasks', id) {
      var j :| j in tasks && Owes(tasks[j], id);
      assert Owes(tasks'[j], id);
    }
  }

  lemma OwnedRecorded(calls: map<CallId, Call>, closed: map<CallId, Call>, tasks: map<nat, Task>,
                      k: nat, id: CallId, c: Call, rest: seq<CallId>)
    requires Owned(calls, closed, tasks) && k !in tasks
    requires id in calls && !Terminal(calls[id].state) && calls[id].state != Bridged && Terminal(c.state)
    requires forall i :: i in rest ==> i in calls || i in closed
    ensures Owned(calls[id := c], closed, tasks[k := Task(id, 1, CleanupOnly, rest)])
  {
    var t := Task(id, 1, CleanupOnly, rest);
    var tasks' := tasks[k := t];
    var calls' := calls[id := c];
    forall j | j in tasks ensures TaskFits(tasks[j], calls', closed) && !Owes(tasks[j], id) {
      assert TaskFits(tasks[j], calls, closed);
    }
    assert TaskFits(t, calls', closed);
    forall i | i in calls' && Terminal(calls'[i].state) ensures HasOwner(tasks', i) {
      if i == id {
        assert Owes(tasks'[k], i);
      } else {
        var j :| j in tasks && Owes(tasks[j], i);
        assert Owes(tasks'[j], i);
      }
    }
  }

  lemma OwnedDischarged(calls: map<CallId, Call>, closed: map<CallId, Call>, tasks: map<nat, Task>, k: nat, c: Call)
    requires Owned(calls, closed, tasks) && k in tasks && tasks[k].finish == CleanupOnly
    ensures Owned(calls - {tasks[k].id}, closed[tasks[k].id := c], tasks - {k})
  {
    var id := tasks[k].id;
    var tasks' := tasks - {k};
    forall j | j in tasks' ensures TaskFits(tasks'[j], calls - {id}, closed[id := c]) {
      assert TaskFits(tasks[j], calls, closed);
      assert TaskFits(tasks[k], calls, closed);
      assert Owes(tasks[k], id);
    }
    forall i | i in calls - {id} && Terminal(calls[i].state) ensures HasOwner(tasks', i) {
      var j :| j in tasks && Owes(tasks[j], i);
      assert Owes(tasks'[j], i);
    }
  }

  ghost predicate FreedOnce(closed: map<CallId, Call>, freed: multiset<CallId>) {
    forall id :: freed[id] == if id in closed && Holds(closed[id]) then 1 else 0
  }

  /** The records: a live call is seated, a closed one ended, and modem releases match. */
  ghost predicate Filed(calls: map<CallId, Call>, closed: map<CallId, Call>, lines: Lines, freed: multiset<CallId>) {
    && (forall id :: id in calls ==> id !in closed && Seated(calls[id]))
    && (forall id :: id in closed ==> Terminal(closed[id].state))
    && (lines.Pooled? ==> forall id :: id in lines.releasing ==> id in closed)
    && FreedOnce(closed, freed)
  }

  ghost predicate Inv(w: World) {
    && Filed(w.desk.calls, w.closed, w.desk.lines, w.freed)
    && Conserved(w.desk.lines, w.desk.calls)
    && Tallied(w.desk.metrics, All(w))
    && Owned(w.desk.calls, w.closed, w.tasks)
    && (forall k :: k in w.tasks ==> k < w.nextTask)
  }

  lemma InitialInv(w: World)
    requires Initial(w)
    ensures Inv(w)
  {
    forall o ensures With(All(w), o) == {} { }
    assert Conversations(All(w)) == map[];
    assert HeldModems(w.desk.calls) == {} && HoldingIds(w.desk.calls) == {};
  }

  // -------------------------------------------------------------------------
  // Building blocks of a handler
  // -------------------------------------------------------------------------

  /** Ids once known stay known. */
  ghost predicate Grows(w: World, w': World) {
    forall id :: Known(w, id) ==> Known(w', id)
  }

  lemma AllPopped(calls: map<CallId, Call>, closed: map<CallId, Call>, id: CallId, c: Call)
    ensures (calls - {id}) + closed[id := c] == (calls + closed)[id := c]
    ensures calls[id := c] - {id} == calls - {id}
  {
  }

  lemma AllUpdate(w: World, id: CallId, c: Call)
    requires id !in w.closed
    ensures w.desk.calls[id := c] + w.closed == All(w)[id := c]
  {
  }

  /** What the tables leave possible for a call in the registry. */
  lemma MoveFacts(c: Call, t: CallState, now: int)
    requires Seated(c) && CanMove(c.direction, c.state, t)
    ensures !Terminal(c.state) && (c.state == Bridged ==> t == HungUp)
    ensures !Terminal(t) || t in {TelegramTimeout, GsmBusy, GsmNoAnswer, GsmError} ==> Seated(Moved(c, t, now))
    ensures t in {TelegramTimeout, GsmBusy, GsmNoAnswer, GsmError} ==> Terminal(t)
  {
  }

  lemma CallFacts(w: World, id: CallId)
    requires Inv(w) && Known(w, id)
    ensures id in w.desk.calls ==>
              id !in w.closed && Seated(w.desk.calls[id]) && All(w)[id] == w.desk.calls[id]
    ensures id in w.closed ==>
              id !in w.desk.calls && Terminal(w.closed[id].state) && All(w)[id] == w.closed[id]
  {
  }

  lemma TaskFacts(w: World, k: nat)
    requires Inv(w)
    ensures w.nextTask !in w.tasks
    ensures k in w.tasks ==> TaskFits(w.tasks[k], w.desk.calls, w.closed)
  {
  }

  function Replaced(w: World, id: CallId, c: Call, m: Counters): World {
    w.(desk := Desk(w.desk.calls[id := c], w.desk.lines, m))
  }

  lemma FiledReplaced(calls: map<CallId, Call>, closed: map<CallId, Call>, lines: Lines, freed: multiset<CallId>,
                      id: CallId, c: Call)
    requires Filed(calls, closed, lines, freed) && Seated(c) && id !in closed
    ensures Filed(calls[id := c], closed, lines, freed)
  {
  }

  lemma FiledPopped(calls: map<CallId, Call>, closed: map<CallId, Call>, lines: Lines, freed: multiset<CallId>,
                    id: CallId, c: Call)
    requires Filed(calls, closed, lines, freed) && id in calls && Terminal(c.state)
    ensures Filed(calls - {id}, closed[id := c], Vacated(lines, id, c),
                  if Holds(c) then freed + multiset{id} else freed)
  {
  }

  lemma ReplacedInv(w: World, id: CallId, c: Call, m: Counters)
    requires Inv(w) && id in w.desk.calls && Seated(c) && !Terminal(c.state)
    requires !Terminal(w.desk.calls[id].state) && w.desk.calls[id].state != Bridged
    requires c.direction == w.desk.calls[id].direction && c.modem == w.desk.calls[id].modem
    requires Tallied(m, All(w)[id := c])
    ensures Inv(Replaced(w, id, c, m))
  {
    CallFacts(w, id);
    hide Filed, Conserved, Tallied, Owned, Terminal, Seated;
    AllUpdate(w, id, c);
    FiledReplaced(w.desk.calls, w.closed, w.desk.lines, w.freed, id, c);
    UpdateConserves(w.desk.lines, w.desk.calls, id, c);
    OwnedLive(w.desk.calls, w.closed, w.tasks, id, c);
  }

  function Popped(w: World, id: CallId, c: Call, m: Counters): World {
    w.(desk := Desk(w.desk.calls - {id}, Vacated(w.desk.lines, id, c), m),
       closed := w.closed[id := c],
       freed := if Holds(c) then w.freed + multiset{id} else w.freed)
  }

  lemma PoppedGrows(w: World, id: CallId, c: Call, m: Counters)
    ensures Grows(w, Popped(w, id, c, m))
  {
    hide Vacated, Holds;
  }

  lemma PoppedInv(w: World, id: CallId, c: Call, m: Counters)
    requires Inv(w) && id in w.desk.calls && Terminal(c.state) && !Terminal(w.desk.calls[id].state)
    requires c.direction == w.desk.calls[id].direction && c.modem == w.desk.calls[id].modem
    requires Tallied(m, All(w)[id := c])
    ensures Inv(Popped(w, id, c, m))
  {
    hide Filed, Conserved, Tallied, Owned, Terminal, Vacated, Holds;
    FiledPopped(w.desk.calls, w.closed, w.desk.lines, w.freed, id, c);
    UpdateConserves(w.desk.lines, w.desk.calls, id, c);
    VacateConserves(w.desk.lines, w.desk.calls[id := c], id);
    OwnedClosed(w.desk.calls, w.closed, w.tasks, id, c);
    AllPopped(w.desk.calls, w.closed, id, c);
  }

  lemma AdvanceInv(w: World, id: CallId, t: CallState)
    requires Inv(w) && !Terminal(t)
    ensures Inv(Go(w, id, t)) && Grows(w, Go(w, id, t))
  {
    hide Filed, Conserved, Tallied, Owned, Terminal, Seated, CanMove, Counted;
    if Moves(w.desk, id, t) {
      var c := w.desk.calls[id];
      CallFacts(w, id);
      MoveFacts(c, t, w.now);
      MoveTallied(w.desk.metrics, All(w), id, t, w.now);
      ReplacedInv(w, id, Moved(c, t, w.now), Counted(w.desk.metrics, Moved(c, t, w.now), w.now));
    }
  }

  /** Transition to a closing state and cleanup without an await in between. */
  lemma CloseInv(w: World, id: CallId, t: CallState)
    requires Inv(w) && Moves(w.desk, id, t) && Terminal(t)
    ensures Inv(Shut(Go(w, id, t), id)) && Grows(w, Shut(Go(w, id, t), id))
  {
    hide Filed, Conserved, Tallied, Owned, Terminal, Seated, CanMove, Counted, Vacated, Holds;
    var c := w.desk.calls[id];
    var c' := Moved(c, t, w.now);
    var m := Counted(w.desk.metrics, c', w.now);
    CallFacts(w, id);
    MoveFacts(c, t, w.now);
    MoveTallied(w.desk.metrics, All(w), id, t, w.now);
    PoppedInv(w, id, c', m);
    PoppedGrows(w, id, c', m);
    AllPopped(w.desk.calls, w.closed, id, c');
  }

  /** Record a failed outcome and park until the user was told. */
  lemma RecordInv(w: World, id: CallId, t: CallState, rest: seq<CallId>)
    requires Inv(w) && Moves(w.desk, id, t) && t in {TelegramTimeout, GsmBusy, GsmNoAnswer, GsmError}
    requires forall i :: i in rest ==> Known(w, i)
    ensures Inv(Park(Go(w, id, t), Task(id, 1, CleanupOnly, rest)))
  {
    hide Filed, Conserved, Tallied, Owned, Terminal, Seated, CanMove, Counted;
    var c := Moved(w.desk.calls[id], t, w.now);
    CallFacts(w, id);
    TaskFacts(w, 0);
    MoveFacts(w.desk.calls[id], t, w.now);
    AllUpdate(w, id, c);
    MoveTallied(w.desk.metrics, All(w), id, t, w.now);
    FiledReplaced(w.desk.calls, w.closed, w.desk.lines, w.freed, id, c);
    UpdateConserves(w.desk.lines, w.desk.calls, id, c);
    OwnedRecorded(w.desk.calls, w.closed, w.tasks, w.nextTask, id, c, rest);
  }

  lemma ParkInv(w: World, t: Task)
    requires Inv(w) && t.finish != CleanupOnly && Known(w, t.id) && forall i :: i in t.rest ==> Known(w, i)
    requires t.finish == HangupThenCleanup && t.id in w.desk.calls ==> w.desk.calls[t.id].state == Bridged
    ensures Inv(Park(w, t))
  {
    TaskFacts(w, 0);
    hide Filed, Conserved, Tallied, Owned;
    OwnedAdded(w.desk.calls, w.closed, w.tasks, w.nextTask, t);
  }

  function Dropped(w: World, k: nat): World {
    w.(tasks := w.tasks - {k})
  }

  lemma DropInv(w: World, k: nat)
    requires Inv(w) && k in w.tasks && w.tasks[k].finish != CleanupOnly
    ensures Inv(Dropped(w, k))
  {
    hide Filed, Conserved, Tallied, Owned;
    OwnedDropped(w.desk.calls, w.closed, w.tasks, k);
  }

  lemma WaitInv(w: World, k: nat, left: nat)
    requires Inv(w) && k in w.tasks
    ensures Inv(w.(tasks := w.tasks[k := w.tasks[k].(left := left)]))
  {
    hide Filed, Conserved, Tallied, Owned;
    OwnedWaiting(w.desk.calls, w.closed, w.tasks, k, left);
  }

  /** The one handler that owes a recorded call its cleanup performs it. */
  lemma DischargeInv(w: World, k: nat)
    requires Inv(w) && k in w.tasks && w.tasks[k].finish == CleanupOnly
    ensures Inv(Shut(Dropped(w, k), w.tasks[k].id))
    ensures Grows(w, Shut(Dropped(w, k), w.tasks[k].id))
  {
    TaskFacts(w, k);
    hide Filed, Conserved, Tallied, Owned, Vacated, Holds;
    var id := w.tasks[k].id;
    var c := w.desk.calls[id];
    CallFacts(w, id);
    FiledPopped(w.desk.calls, w.closed, w.desk.lines, w.freed, id, c);
    AllPopped(w.desk.calls, w.closed, id, c);
    assert All(w)[id := c] == All(w);
    VacateConserves(w.desk.lines, w.desk.calls, id);
    OwnedDischarged(w.desk.calls, w.closed, w.tasks, k, c);
    PoppedGrows(w, id, c, w.desk.metrics);
  }

  lemma BridgedHangsUp(c: Call)
    requires c.state == Bridged
    ensures CanMove(c.direction, c.state, HungUp) && Terminal(HungUp)
  {
  }

  /** A hangup that finds the call gone changes nothing, whoever closed it. */
  lemma HangupFinishInv(w: World, id: CallId, f: Finish)
    requires Inv(w) && Known(w, id) && f != CleanupOnly
    requires f == HangupThenCleanup && id in w.desk.calls ==> w.desk.calls[id].state == Bridged
    ensures Inv(Finished(w, id, f)) && Grows(w, Finished(w, id, f))
    ensures id !in w.desk.calls ==> Finished(w, id, f) == w
  {
    hide Filed, Conserved, Tallied, Owned, CanMove, Terminal, Remove, Moved, Counted;
    if id in w.desk.calls {
      if w.desk.calls[id].state == Bridged { BridgedHangsUp(w.desk.calls[id]); }
      if Moves(w.desk, id, HungUp) {
        assert Terminal(HungUp) by { BridgedHangsUp(w.desk.calls[id].(state := Bridged)); }
        CloseInv(w, id, HungUp);
      }
    }
  }

  lemma HangupLegsInv(w: World, id: CallId, f: Finish)
    requires Inv(w) && id in w.desk.calls && f != CleanupOnly
    requires f == HangupThenCleanup ==> w.desk.calls[id].state == Bridged
    ensures Inv(HangupLegs(w, id, f))
  {
    CallFacts(w, id);
    hide Filed, Conserved, Tallied, Owned;
    if Channels(w.desk.calls[id]) == 0 {
      HangupFinishInv(w, id, f);
    } else {
      ParkInv(w, Task(id, Channels(w.desk.calls[id]), f, []));
    }
  }

  lemma {:induction false} SweepInv(w: World, ids: seq<CallId>)
    requires Inv(w) && forall i :: i in ids ==> Known(w, i)
    ensures Inv(Sweep(w, ids))
    decreases |ids|
  {
    hide Filed, Conserved, Tallied, Owned, Move, Shut, Park;
    if ids != [] {
      var id := ids[0];
      assert Known(w, id);
      CallFacts(w, id);
      var c := All(w)[id];
      if id in w.closed {
        SweepInv(w, ids[1..]);
      } else if c.state in {Ringing, TelegramRinging} {
        CloseInv(w, id, Voicemail);
        SweepInv(Shut(Go(w, id, Voicemail), id), ids[1..]);
      } else if c.state in {ModemReserved, TelegramCalling} {
        RecordInv(w, id, TelegramTimeout, ids[1..]);
      } else if c.state == Bridged {
        if Channels(c) == 0 {
          HangupFinishInv(w, id, HangupThenCleanup);
          SweepInv(Finished(w, id, HangupThenCleanup), ids[1..]);
        } else {
          ParkInv(w, Task(id, Channels(c), HangupThenCleanup, ids[1..]));
        }
      } else {
        SweepInv(w, ids[1..]);
      }
    }
  }

  lemma ResumeInv(w: World, k: nat)
    requires Inv(w) && k in w.tasks
    ensures Inv(Resumed(w, k))
  {
    TaskFacts(w, k);
    hide Filed, Conserved, Tallied, Owned;
    var t := w.tasks[k];
    if t.left > 1 {
      WaitInv(w, k, t.left - 1);
    } else {
      if t.finish == CleanupOnly {
        DischargeInv(w, k);
      } else {
        DropInv(w, k);
        HangupFinishInv(Dropped(w, k), t.id, t.finish);
      }
      SweepInv(Finished(Dropped(w, k), t.id, t.finish), t.rest);
    }
  }

  predicate SameReleasing(l: Lines, l': Lines) {
    match (l, l')
    case (Pooled(_, r), Pooled(_, r')) => r == r'
    case (Direct(_), Direct(_)) => true
    case _ => false
  }

  lemma FiledEnrolled(calls: map<CallId, Call>, closed: map<CallId, Call>, lines: Lines, lines': Lines,
                      freed: multiset<CallId>, id: CallId, c: Call)
    requires Filed(calls, closed, lines, freed) && Seated(c) && id !in closed && SameReleasing(lines, lines')
    ensures Filed(calls[id := c], closed, lines', freed)
    ensures lines.Pooled? ==> id !in lines.releasing
  {
  }

  lemma EnrolledInv(w: World, id: CallId, c: Call, lines: Lines)
    requires Inv(w) && !Known(w, id) && Seated(c) && !Terminal(c.state)
    requires OutcomeOf(c).None? && c.bridgedAt.None?
    requires SameReleasing(w.desk.lines, lines) && Conserved(lines, w.desk.calls[id := c])
    ensures Inv(w.(desk := Desk(w.desk.calls[id := c], lines, w.desk.metrics)))
  {
    hide Filed, Conserved, Tallied, Owned, Seated, OutcomeOf, Terminal, SameReleasing;
    FiledEnrolled(w.desk.calls, w.closed, w.desk.lines, lines, w.freed, id, c);
    AllUpdate(w, id, c);
    NewTallied(w.desk.metrics, All(w), id, c);
    OwnedLive(w.desk.calls, w.closed, w.tasks, id, c);
  }

  lemma ReservedSameReleasing(l: Lines, choice: string)
    requires Reserved(l, choice).Some?
    ensures SameReleasing(l, Reserved(l, choice).value.0)
  {
  }

  lemma NewCallFacts(modem: string, gsm: string, now: int)
    ensures var c := NewCall(Outgoing, modem, ModemReserved, gsm, now);
            Seated(c) && !Terminal(c.state) && OutcomeOf(c).None? && c.bridgedAt.None?
    ensures var c := NewCall(Incoming, modem, Ringing, gsm, now);
            Seated(c) && !Terminal(c.state) && OutcomeOf(c).None? && c.bridgedAt.None? && !Holds(c)
    ensures !Terminal(TelegramCalling) && !Terminal(TelegramRinging)
  {
  }

  lemma CreatedInv(w: World, id: CallId, required: bool, choice: string)
    requires Inv(w) && !Known(w, id)
    ensures Inv(w.(desk := WithOutgoing(w.desk, id, required, choice, w.now)))
  {
    hide Conserved, Tallied, Owned, Seated, OutcomeOf, Terminal, SameReleasing, Reserved;
    assert w.desk.lines.Pooled? ==> id !in w.desk.lines.releasing;
    hide Filed;
    if !required {
      var c := NewCall(Outgoing, "", ModemReserved, "", w.now);
      NewCallFacts("", "", w.now);
      IdleCallConserves(w.desk.lines, w.desk.calls, id, c);
      assert SameReleasing(w.desk.lines, w.desk.lines) by { SameReleasingRefl(w.desk.lines); }
      EnrolledInv(w, id, c, w.desk.lines);
    } else if Reserved(w.desk.lines, choice).Some? {
      var r := Reserved(w.desk.lines, choice).value;
      var c := NewCall(Outgoing, r.1, ModemReserved, "", w.now);
      NewCallFacts(r.1, "", w.now);
      ReservedSameReleasing(w.desk.lines, choice);
      ReserveConserves(w.desk.lines, w.desk.calls, id, choice, c);
      EnrolledInv(w, id, c, r.0);
    }
  }

  lemma SameReleasingRefl(l: Lines)
    ensures SameReleasing(l, l)
  {
  }

  lemma OpenedInv(w: World, id: CallId, required: bool, choice: string)
    requires Inv(w)
    ensures Inv(Opened(w, id, required, choice))
  {
    hide Filed, Conserved, Tallied, Owned, WithOutgoing, Move;
    if !Known(w, id) {
      CreatedInv(w, id, required, choice);
      AdvanceInv(w.(desk := WithOutgoing(w.desk, id, required, choice, w.now)), id, TelegramCalling);
    }
  }

  lemma RangInv(w: World, id: CallId, modem: string, gsm: string)
    requires Inv(w)
    ensures Inv(Rang(w, id, modem, gsm))
  {
    hide Conserved, Tallied, Owned, Seated, OutcomeOf, Terminal, SameReleasing, Move;
    assert w.desk.lines.Pooled? && id in w.desk.lines.releasing ==> Known(w, id);
    hide Filed;
    if !Known(w, id) {
      var c := NewCall(Incoming, modem, Ringing, gsm, w.now);
      NewCallFacts(modem, gsm, w.now);
      IdleCallConserves(w.desk.lines, w.desk.calls, id, c);
      SameReleasingRefl(w.desk.lines);
      EnrolledInv(w, id, c, w.desk.lines);
      AdvanceInv(w.(desk := Enrolled(w.desk, id, c)), id, TelegramRinging);
    }
  }

  lemma RelabelFacts(c: Call, gsm: string, bridge: string)
    requires Seated(c)
    ensures Seated(c.(gsmChannel := gsm, bridgeChannel := bridge))
    ensures OutcomeOf(c.(gsmChannel := gsm, bridgeChannel := bridge)) == OutcomeOf(c)
  {
  }

  lemma RelabelledInv(w: World, id: CallId, c: Call)
    requires Inv(w) && id in w.desk.calls
    requires c == w.desk.calls[id].(gsmChannel := c.gsmChannel, bridgeChannel := c.bridgeChannel)
    ensures Inv(Replaced(w, id, c, w.desk.metrics))
  {
    hide Filed, Conserved, Tallied, Owned, Seated, OutcomeOf, Terminal;
    CallFacts(w, id);
    RelabelFacts(w.desk.calls[id], c.gsmChannel, c.bridgeChannel);
    AllUpdate(w, id, c);
    FiledReplaced(w.desk.calls, w.closed, w.desk.lines, w.freed, id, c);
    SameTallied(w.desk.metrics, All(w), id, c);
    UpdateConserves(w.desk.lines, w.desk.calls, id, c);
    OwnedRelabelled(w.desk.calls, w.closed, w.tasks, id, c);
  }

  lemma ChannelInv(w: World, id: CallId, bridge: string, gsm: string)
    requires Inv(w)
    ensures Inv(WithBridgeLeg(w, id, bridge)) && Inv(WithGsmChannel(w, id, gsm))
  {
    hide Filed, Conserved, Tallied, Owned;
    if id in w.desk.calls {
      RelabelledInv(w, id, w.desk.calls[id].(bridgeChannel := bridge));
      RelabelledInv(w, id, w.desk.calls[id].(gsmChannel := gsm));
    }
  }

  lemma AcceptedInv(w: World, id: CallId, channel: string)
    requires Inv(w)
    ensures Inv(AcceptedOutgoing(w, id, channel))
  {
    hide Inv, Go;
    if Pending(w) == {id} {
      assert id in Pending(w);
      var w1 := if w.desk.calls[id].state == ModemReserved then Go(w, id, TelegramCalling) else w;
      AdvanceInv(w, id, TelegramCalling);
      ChannelInv(w1, id, channel, channel);
      var w2 := if channel != "" then WithBridgeLeg(w1, id, channel) else w1;
      AdvanceInv(w2, id, UserAccepted);
      AdvanceInv(Go(w2, id, UserAccepted), id, GsmDialing);
    }
  }

  lemma FastForwardInv(w: World, id: CallId)
    requires Inv(w)
    ensures Inv(w.(desk := FastForwarded(w.desk, id, w.now)))
  {
    hide Inv, Step;
    var w1 := w.(desk := Step(w.desk, id, Ringing, TelegramRinging, w.now));
    var w2 := w.(desk := Step(w1.desk, id, TelegramRinging, TelegramAccepted, w.now));
    var w3 := w.(desk := Step(w2.desk, id, TelegramAccepted, GsmAnswered, w.now));
    StepInv(w, id, Ringing, TelegramRinging);
    StepInv(w1, id, TelegramRinging, TelegramAccepted);
    StepInv(w2, id, TelegramAccepted, GsmAnswered);
    StepInv(w3, id, GsmAnswered, Bridged);
  }

  lemma StepInv(w: World, id: CallId, source: CallState, target: CallState)
    requires Inv(w) && target in {TelegramRinging, TelegramAccepted, GsmAnswered, Bridged}
    ensures Inv(w.(desk := Step(w.desk, id, source, target, w.now)))
  {
    hide Inv, Move;
    assert !Terminal(target);
    hide Terminal;
    AdvanceInv(w, id, target);
  }

  lemma CompletedIncomingInv(w: World, id: CallId, status: Status)
    requires Inv(w) && id in w.desk.calls && w.desk.calls[id].direction.Incoming?
    requires w.desk.calls[id].state != Bridged
    ensures Inv(CompletedIncoming(w, id, status))
  {
    assert Terminal(Voicemail) && Terminal(Rejected);
    hide Inv, Go, Shut, Finished, CanMove, Terminal, FastForwarded;
    match status
    case Answered => FastForwardInv(w, id);
    case NoAnswer => if Moves(w.desk, id, Voicemail) { CloseInv(w, id, Voicemail); }
    case BusyLine => if Moves(w.desk, id, Rejected) { CloseInv(w, id, Rejected); }
    case _ => HangupFinishInv(w, id, HangupOrKeep);
  }

  lemma RecordedInv(w: World, id: CallId, t: CallState)
    requires Inv(w) && id in w.desk.calls && w.desk.calls[id].state != Bridged
    requires t in {GsmNoAnswer, GsmBusy, GsmError}
    ensures Inv(Recorded(w, id, t))
  {
    CallFacts(w, id);
    hide Inv, Go, Park, CanMove;
    if Moves(w.desk, id, t) { RecordInv(w, id, t, []); }
  }

  lemma CompletedOutgoingInv(w: World, id: CallId, status: Status)
    requires Inv(w) && id in w.desk.calls && w.desk.calls[id].state != Bridged
    ensures Inv(CompletedOutgoing(w, id, status))
  {
    assert !Terminal(GsmRinging) && !Terminal(Connected) && !Terminal(Bridged);
    hide Inv, Go, Recorded, HangupLegs, CanMove, Terminal;
    match status
    case Answered =>
      AdvanceInv(w, id, GsmRinging);
      AdvanceInv(Go(w, id, GsmRinging), id, Connected);
      AdvanceInv(Go(Go(w, id, GsmRinging), id, Connected), id, Bridged);
    case NoAnswer => RecordedInv(w, id, GsmNoAnswer);
    case BusyLine => RecordedInv(w, id, GsmBusy);
    case Failed => RecordedInv(w, id, GsmError);
    case _ => HangupLegsInv(w, id, HangupOrKeep);
  }

  lemma CompletedInv(w: World, id: CallId, status: Status)
    requires Inv(w)
    ensures Inv(Completed(w, id, status))
  {
    hide Inv, CompletedIncoming, CompletedOutgoing, HangupLegs, Terminal;
    if id in w.desk.calls && !Terminal(w.desk.calls[id].state) {
      if w.desk.calls[id].state == Bridged {
        if status != Answered { HangupLegsInv(w, id, HangupThenCleanup); }
      } else if w.desk.calls[id].direction.Incoming? {
        CompletedIncomingInv(w, id, status);
      } else {
        CompletedOutgoingInv(w, id, status);
      }
    }
  }

  lemma DeviceInv(w: World, m: string, d: Device)
    requires Inv(w) && Knows(w, m)
    requires Fresh(d) && d.callActive == w.desk.lines.pool.devices[m].callActive
    ensures Inv(WithDevice(w, m, d))
  {
    hide Tallied, Owned;
  }

  lemma SettledInv(w: World, id: CallId)
    requires Inv(w)
    ensures Inv(w.(desk := w.desk.(lines := Settled(w.desk.lines, id))))
  {
    hide Conserved, Tallied, Owned;
    SettleConserves(w.desk.lines, w.desk.calls, id);
  }

  lemma CheckInv(w: World, limits: Limits, order: seq<CallId>)
    requires Inv(w) && ListingOf(order, OverdueIds(w.desk.calls, limits, w.now))
    ensures Inv(Sweep(w, order))
  {
    hide Inv, Sweep, Overdue;
    SweepInv(w, order);
  }

  lemma PolledFresh(d: Device, r: Report, now: int)
    ensures Fresh(Reported(d, r, now)) && Reported(d, r, now).callActive == d.callActive
    ensures Fresh(Modems.Gone(d, now)) && Modems.Gone(d, now).callActive == d.callActive
  {
  }

  lemma TickInv(w: World, later: int)
    requires Inv(w)
    ensures Inv(w.(now := later))
  {
    hide Filed, Conserved, Tallied, Owned;
  }

  /** The events of a call's own life. */
  predicate OfOneCall(e: Event) {
    e.CallIncoming? || e.CallOutgoing? || e.OutgoingAccepted? || e.Complete? || e.TelegramRing? || e.Accept?
    || e.AnswerGsm? || e.Bridge? || e.SetBridgeLeg? || e.SetGsmChannel?
  }

  lemma CallEventInv(w: World, e: Event)
    requires Inv(w) && OfOneCall(e)
    ensures Inv(Next(w, e))
  {
    hide Inv, Go, Opened, Rang, Completed, AcceptedOutgoing, WithBridgeLeg, WithGsmChannel, Terminal;
    StepsGoOn();
    match e
    case CallIncoming(id, modem, gsm) => RangInv(w, id, modem, gsm);
    case CallOutgoing(id, required, choice) => OpenedInv(w, id, required, choice);
    case OutgoingAccepted(id, ch) => AcceptedInv(w, id, ch);
    case Complete(id, status) => CompletedInv(w, id, status);
    case TelegramRing(id) => AdvanceInv(w, id, TelegramRinging);
    case Accept(id) => AdvanceInv(w, id, TelegramAccepted);
    case AnswerGsm(id) => AdvanceInv(w, id, GsmAnswered);
    case Bridge(id) => AdvanceInv(w, id, Bridged);
    case SetBridgeLeg(id, ch) => ChannelInv(w, id, ch, ch);
    case SetGsmChannel(id, ch) => ChannelInv(w, id, ch, ch);
  }

  lemma StepsGoOn()
    ensures !Terminal(TelegramRinging) && !Terminal(TelegramAccepted) && !Terminal(GsmAnswered) && !Terminal(Bridged)
    ensures Terminal(Rejected)
  {
  }

  lemma OtherEventInv(w: World, e: Event)
    requires Inv(w) && !OfOneCall(e)
    ensures Inv(Next(w, e))
  {
    hide Inv, Go, Shut, Sweep, Resumed, HangupLegs, WithDevice, Terminal, CanMove, Settled, ListingOf, OverdueIds,
         Fresh, Reported, Modems.Gone;
    StepsGoOn();
    match e
    case Reject(id) => if Moves(w.desk, id, Rejected) { CloseInv(w, id, Rejected); }
    case Hangup(id) => if id in w.desk.calls { HangupLegsInv(w, id, HangupOrKeep); }
    case CheckTimeouts(limits, order) =>
      if ListingOf(order, OverdueIds(w.desk.calls, limits, w.now)) { CheckInv(w, limits, order); }
    case Resume(k) => if k in w.tasks { ResumeInv(w, k); }
    case FinishRelease(id) => SettledInv(w, id);
    case DeviceReport(m, r) =>
      if Knows(w, m) {
        PolledFresh(w.desk.lines.pool.devices[m], r, w.now);
        DeviceInv(w, m, Reported(w.desk.lines.pool.devices[m], r, w.now));
      }
    case DeviceGone(m) =>
      if Knows(w, m) {
        PolledFresh(w.desk.lines.pool.devices[m], Report(false, None, None, None), w.now);
        DeviceInv(w, m, Modems.Gone(w.desk.lines.pool.devices[m], w.now));
      }
    case Tick(later) => TickInv(w, later);
  }

  lemma NextInv(w: World, e: Event)
    requires Inv(w)
    ensures Inv(Next(w, e))
  {
    hide Inv, Next;
    if OfOneCall(e) { CallEventInv(w, e); } else { OtherEventInv(w, e); }
  }

  lemma {:induction false} RunInv(w: World, events: seq<Event>)
    requires Initial(w)
    ensures Inv(Run(w, events))
    decreases |events|
  {
    if events == [] {
      InitialInv(w);
    } else {
      RunInv(w, events[..|events| - 1]);
      NextInv(Run(w, events[..|events| - 1]), events[|events| - 1]);
    }
  }
}
