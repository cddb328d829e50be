/** The promises of call control, stated for every run of events and read off the invariant. */
module CallTheorems {
  import opened Options
  import opened Calls
  import opened Modems
  import opened Registry
  import opened Switchboard
  import opened CallSafety

  // -------------------------------------------------------------------------
  // Reservations
  // -------------------------------------------------------------------------

  /** With a pool: the reserved modems are exactly those of the outgoing calls holding one, no
      two calls share a modem, and a modem whose release is half done cannot be selected. */
  lemma PoolReservationsConserved(w0: World, events: seq<Event>)
    requires Initial(w0) && Run(w0, events).desk.lines.Pooled?
    ensures var w := Run(w0, events);
            var p := w.desk.lines.pool;
            && p.reserved == HeldModems(w.desk.calls)
            && NoSharing(w.desk.calls)
            && (forall id :: id in w.desk.lines.releasing ==> w.desk.lines.releasing[id] !in Available(p) + p.reserved)
            && (forall id :: id in w.desk.calls && Holds(w.desk.calls[id]) ==>
                  w.desk.calls[id].modem in p.devices && p.devices[w.desk.calls[id].modem].callActive)
  {
    RunInv(w0, events);
    var w := Run(w0, events);
    var l := w.desk.lines;
    forall id | id in l.releasing ensures l.releasing[id] !in Available(l.pool) {
      assert l.releasing[id] in l.releasing.Values;
      ReadyExactlyWhenIdle(l.pool.devices[l.releasing[id]]);
    }
    forall id | id in w.desk.calls && Holds(w.desk.calls[id]) ensures w.desk.calls[id].modem in l.pool.reserved {
      assert w.desk.calls[id].modem in HeldModems(w.desk.calls);
    }
  }

  /** Without a pool: the counter is the number of calls holding the modem, never above one. */
  lemma CounterConserved(w0: World, events: seq<Event>)
    requires Initial(w0) && Run(w0, events).desk.lines.Direct?
    ensures Run(w0, events).desk.lines.reserved == |HoldingIds(Run(w0, events).desk.calls)| <= 1
  {
    RunInv(w0, events);
  }

  /** The second half of a release, however late, never touches the modem of a live call. */
  lemma LateReleaseHarmless(l: Lines, calls: map<CallId, Call>, released: CallId, id: CallId)
    requires Conserved(l, calls) && l.Pooled? && id in calls && Holds(calls[id])
    ensures var m := calls[id].modem;
            var l' := Settled(l, released);
            && l'.Pooled? && m in l.pool.devices && m in l'.pool.devices
            && l'.pool.devices[m] == l.pool.devices[m]
            && m in l'.pool.reserved
  {
    assert calls[id].modem in HeldModems(calls);
  }

  // -------------------------------------------------------------------------
  // Exactly one release, no leak
  // -------------------------------------------------------------------------

  /** Every modem reservation is given back exactly once, when its call is cleaned up. */
  lemma ReleasedExactlyOnce(w0: World, events: seq<Event>, id: CallId)
    requires Initial(w0)
    ensures var w := Run(w0, events);
            && (id in w.desk.calls ==> id !in w.closed && w.freed[id] == 0)
            && (id in w.closed ==> w.freed[id] == if Holds(w.closed[id]) then 1 else 0)
            && (!Known(w, id) ==> w.freed[id] == 0)
  {
    RunInv(w0, events);
  }

  /** Once every handler has returned, the registry holds no ended call. While some are in
      flight, each ended call still in it has exactly one handler on its way to remove it. */
  lemma NoLeakedCalls(w0: World, events: seq<Event>, id: CallId)
    requires Initial(w0) && id in Run(w0, events).desk.calls && Terminal(Run(w0, events).desk.calls[id].state)
    ensures exists k :: Owner(Run(w0, events), k, id) && forall j :: Owner(Run(w0, events), j, id) ==> j == k
    ensures Run(w0, events).tasks != map[]
  {
    RunInv(w0, events);
    var w := Run(w0, events);
    assert HasOwner(w.tasks, id);
    var k :| k in w.tasks && Owes(w.tasks[k], id);
    assert Owner(w, k, id);
    forall j | Owner(w, j, id) ensures j == k {
      assert OneOwner(w.tasks);
    }
  }

  ghost predicate Owner(w: World, k: nat, id: CallId) {
    k in w.tasks && Owes(w.tasks[k], id)
  }

  /** A handler that comes back to find its call closed by another leaves it alone: between its awaits
      it only goes on waiting, behind the last one it only goes on with the rest of its pass. */
  lemma LateHandlerHarmless(w: World, k: nat)
    requires Inv(w) && k in w.tasks && w.tasks[k].id in w.closed
    ensures var t := w.tasks[k];
            Next(w, Resume(k)) == if t.left > 1 then w.(tasks := w.tasks[k := t.(left := t.left - 1)])
                                  else Sweep(w.(tasks := w.tasks - {k}), t.rest)
  {
    hide Inv, Sweep, Terminal, Seated, CanMove, Moved, Counted, Vacated;
    TaskFacts(w, k);
    CallFacts(w, w.tasks[k].id);
  }

  /** Outcome reports, hangups and rejections for a closed call change nothing. */
  lemma ClosedStaysClosed(w: World, id: CallId, status: Status)
    requires Inv(w) && id in w.closed
    ensures Next(w, Complete(id, status)) == w
    ensures Next(w, Hangup(id)) == w && Next(w, Reject(id)) == w && Next(w, Bridge(id)) == w
  {
    hide Inv, Next, Completed, HangupLegs, Go, Shut, CanMove, Seated, Terminal;
    CallFacts(w, id);
    EventsOf(w, id, status);
  }

  /** These events do nothing to an id that is not in the registry. */
  lemma EventsOf(w: World, id: CallId, status: Status)
    requires id !in w.desk.calls
    ensures Next(w, Complete(id, status)) == w
    ensures Next(w, Hangup(id)) == w && Next(w, Reject(id)) == w && Next(w, Bridge(id)) == w
  {
    hide CompletedIncoming, CompletedOutgoing, HangupLegs, CanMove, Counted, Moved;
  }

  // -------------------------------------------------------------------------
  // Metrics
  // -------------------------------------------------------------------------

  function WithAny(all: map<CallId, Call>): set<CallId> {
    set id | id in all && OutcomeOf(all[id]).Some?
  }

  function BridgedNow(calls: map<CallId, Call>): set<CallId> {
    set id | id in calls && calls[id].state == Bridged
  }

  lemma DisjointSum<T>(a: set<T>, b: set<T>)
    requires a !! b
    ensures |a + b| == |a| + |b|
  {
  }

  lemma OutcomesPartition(all: map<CallId, Call>)
    ensures |WithAny(all)| == |With(all, AnsweredIn)| + |With(all, AnsweredOut)| + |With(all, RejectedIn)|
                            + |With(all, ToVoicemail)| + |With(all, TimedOutOut)| + |With(all, FailedOut)|
  {
    hide OutcomeOf;
    var s1 := With(all, AnsweredIn) + With(all, AnsweredOut);
    var s2 := s1 + With(all, RejectedIn);
    var s3 := s2 + With(all, ToVoicemail);
    var s4 := s3 + With(all, TimedOutOut);
    var s5 := s4 + With(all, FailedOut);
    forall id | id in WithAny(all) ensures id in s5 {
      var o := OutcomeOf(all[id]).value;
      match o
      case AnsweredIn =>
      case AnsweredOut =>
      case RejectedIn =>
      case ToVoicemail =>
      case TimedOutOut =>
      case FailedOut =>
    }
    assert WithAny(all) == s5;
    DisjointSum(With(all, AnsweredIn), With(all, AnsweredOut));
    DisjointSum(s1, With(all, RejectedIn));
    DisjointSum(s2, With(all, ToVoicemail));
    DisjointSum(s3, With(all, TimedOutOut));
    DisjointSum(s4, With(all, FailedOut));
  }

  lemma AnsweredMeansBridged(c: Call)
    ensures OutcomeOf(c) == Some(AnsweredIn) || OutcomeOf(c) == Some(AnsweredOut) <==> c.bridgedAt.Some?
    ensures Seated(c) ==> (c.bridgedAt.Some? <==> c.state == Bridged)
    ensures Terminal(c.state) ==> c.state != Bridged
  {
  }

  ghost predicate Books(calls: map<CallId, Call>, closed: map<CallId, Call>) {
    && (forall id :: id in calls ==> id !in closed && Seated(calls[id]))
    && (forall id :: id in closed ==> Terminal(closed[id].state))
  }

  lemma AnsweredAt(calls: map<CallId, Call>, closed: map<CallId, Call>, id: CallId)
    requires Books(calls, closed)
    ensures id in With(calls + closed, AnsweredIn) + With(calls + closed, AnsweredOut)
       <==> id in BridgedNow(calls) + LeftBridge(closed)
    ensures id in LeftBridge(calls + closed) <==> id in LeftBridge(closed)
    ensures !(id in BridgedNow(calls) && id in LeftBridge(closed))
  {
    hide OutcomeOf, Seated, Terminal;
    if id in calls {
      AnsweredMeansBridged(calls[id]);
    } else if id in closed {
      AnsweredMeansBridged(closed[id]);
    }
  }

  lemma SameSum<T>(a: set<T>, b: set<T>, c: set<T>, d: set<T>)
    requires a !! b && c !! d && a + b == c + d
    ensures |a| + |b| == |c| + |d|
  {
    DisjointSum(a, b);
    DisjointSum(c, d);
  }

  lemma AnsweredSets(calls: map<CallId, Call>, closed: map<CallId, Call>)
    requires Books(calls, closed)
    ensures With(calls + closed, AnsweredIn) + With(calls + closed, AnsweredOut)
         == BridgedNow(calls) + LeftBridge(closed)
    ensures With(calls + closed, AnsweredIn) !! With(calls + closed, AnsweredOut)
    ensures BridgedNow(calls) !! LeftBridge(closed)
    ensures LeftBridge(calls + closed) == LeftBridge(closed)
  {
    assert With(calls + closed, AnsweredIn) !! With(calls + closed, AnsweredOut);
    hide OutcomeOf, Books, With, BridgedNow, LeftBridge;
    forall id { AnsweredAt(calls, closed, id); }
  }

  /** Only closed calls have finished their conversation, and only calls that left the bridge had one. */
  lemma ConversationsClosed(calls: map<CallId, Call>, closed: map<CallId, Call>)
    requires Books(calls, closed)
    ensures Conversations(calls + closed) == Conversations(closed)
    ensures |Conversations(closed)| <= |LeftBridge(closed)|
  {
    assert Conversations(calls + closed) == Conversations(closed);
    FewerThan(Conversations(closed).Keys, LeftBridge(closed));
    assert |Conversations(closed)| == |Conversations(closed).Keys|;
  }

  lemma {:induction false} FewerThan<T>(a: set<T>, b: set<T>)
    requires a <= b
    ensures |a| <= |b|
  {
    if a != {} {
      var x :| x in a;
      FewerThan(a - {x}, b - {x});
    }
  }

  /** The six outcome counters add up to the number of calls that have an outcome; the answered
      ones are the calls bridged now plus those that left the bridge; and the durations are those of
      the finished conversations, each once. */
  lemma MetricsConserved(w0: World, events: seq<Event>)
    requires Initial(w0)
    ensures var w := Run(w0, events);
            var m := w.desk.metrics;
            && m.incomingAnswered + m.outgoingAnswered + m.incomingRejected + m.incomingVoicemail
               + m.outgoingTimeout + m.outgoingFailed == |WithAny(All(w))|
            && m.incomingAnswered + m.outgoingAnswered == |BridgedNow(w.desk.calls)| + |LeftBridge(w.closed)|
            && m.answeredSeconds == Total(Conversations(w.closed))
            && m.answeredCompleted == |Conversations(w.closed)| <= |LeftBridge(w.closed)|
            && m.incomingTimeout == 0
  {
    RunInv(w0, events);
    var w := Run(w0, events);
    assert Books(w.desk.calls, w.closed);
    AnsweredSets(w.desk.calls, w.closed);
    SameSum(With(All(w), AnsweredIn), With(All(w), AnsweredOut), BridgedNow(w.desk.calls), LeftBridge(w.closed));
    ConversationsClosed(w.desk.calls, w.closed);
    hide Filed, Conserved, Owned, BridgedNow, LeftBridge, WithAny, Inv, OutcomeOf, Conversations, Total;
    CountersMatch(w.desk.metrics, All(w));
    OutcomesPartition(All(w));
  }

  lemma CountersMatch(m: Counters, all: map<CallId, Call>)
    requires Tallied(m, all)
    ensures m.incomingAnswered == |With(all, AnsweredIn)| && m.outgoingAnswered == |With(all, AnsweredOut)|
    ensures m.incomingRejected == |With(all, RejectedIn)| && m.incomingVoicemail == |With(all, ToVoicemail)|
    ensures m.outgoingTimeout == |With(all, TimedOutOut)| && m.outgoingFailed == |With(all, FailedOut)|
    ensures m.incomingTimeout == 0
    ensures m.answeredCompleted == |Conversations(all)| && m.answeredSeconds == Total(Conversations(all))
  {
    assert CounterOf(m, AnsweredIn) == |With(all, AnsweredIn)|;
    assert CounterOf(m, AnsweredOut) == |With(all, AnsweredOut)|;
    assert CounterOf(m, RejectedIn) == |With(all, RejectedIn)|;
    assert CounterOf(m, ToVoicemail) == |With(all, ToVoicemail)|;
    assert CounterOf(m, TimedOutOut) == |With(all, TimedOutOut)|;
    assert CounterOf(m, FailedOut) == |With(all, FailedOut)|;
  }
}
