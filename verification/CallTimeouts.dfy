/** The timeout pass: which calls it closes, and that running it again does nothing. */
module CallTimeouts {
  import opened Options
  import opened Calls
  import opened Modems
  import opened Registry
  import opened Switchboard
  import opened CallSafety
  import opened CallHandlers

  /** The closing state of an overdue call. */
  function Expiry(s: CallState): CallState {
    if s in {Ringing, TelegramRinging} then Voicemail
    else if s in {ModemReserved, TelegramCalling} then TelegramTimeout
    else HungUp
  }

  /** The states that can become overdue. */
  predicate Expirable(c: Call) {
    match c.direction
    case Incoming => c.state in {Ringing, TelegramRinging, Bridged}
    case Outgoing => c.state in {ModemReserved, TelegramCalling, Bridged}
  }

  lemma OverdueExpirable(c: Call, limits: Limits, now: int)
    requires Seated(c) && Overdue(c, limits, now)
    ensures Expirable(c)
  {
  }

  lemma ExpiryAllowed(c: Call)
    requires Expirable(c)
    ensures CanMove(c.direction, c.state, Expiry(c.state)) && Terminal(Expiry(c.state))
  {
  }

  /** The record with which an overdue call is closed. */
  function Lapsed(w: World, id: CallId): Call
    requires id in w.desk.calls
  {
    Moved(w.desk.calls[id], Expiry(w.desk.calls[id].state), w.now)
  }

  function Expired(w: World, id: CallId): World {
    if id in w.desk.calls then Shut(Go(w, id, Expiry(w.desk.calls[id].state)), id) else w
  }

  /** The pass as a plain loop: each call is closed on the spot. */
  function ExpiredAll(w: World, ids: seq<CallId>): World
    decreases |ids|
  {
    if ids == [] then w else ExpiredAll(Expired(w, ids[0]), ids[1..])
  }

  ghost predicate AllExpirable(w: World, ids: seq<CallId>) {
    && (forall i, j :: 0 <= i < j < |ids| ==> ids[i] != ids[j])
    && forall i :: 0 <= i < |ids| ==> ids[i] in w.desk.calls && Expirable(w.desk.calls[ids[i]])
  }

  lemma ExpiredOne(w: World, ids: seq<CallId>)
    requires AllExpirable(w, ids) && ids != []
    ensures var id := ids[0];
            var r := Expired(w, id);
            && AllExpirable(r, ids[1..]) && OneClosed(w, r, id) && r.nextTask == w.nextTask
  {
    var id := ids[0];
    ExpiryAllowed(w.desk.calls[id]);
    hide CanMove, Expirable, Expiry;
    ShutClosed(w, id, Expiry(w.desk.calls[id].state));
    var r := Expired(w, id);
    forall i | 0 <= i < |ids[1..]| ensures ids[1..][i] in r.desk.calls && Expirable(r.desk.calls[ids[1..][i]]) {
      assert ids[1..][i] == ids[i + 1];
    }
  }

  // -------------------------------------------------------------------------
  // The handler, awaits and all, does what the plain loop does
  // -------------------------------------------------------------------------

  lemma ExpiredNumbered(w: World, id: CallId)
    ensures Expired(Numbered(w), id) == Numbered(Expired(w, id))
  {
  }

  lemma {:induction false} ExpiredAllNumbered(w: World, ids: seq<CallId>)
    ensures SameBut(ExpiredAll(Numbered(w), ids), ExpiredAll(w, ids))
    decreases |ids|
  {
    if ids != [] {
      ExpiredNumbered(w, ids[0]);
      hide Expired;
      ExpiredAllNumbered(Expired(w, ids[0]), ids[1..]);
    }
  }

  function Parked(c: Call): nat {
    if c.state == Bridged then Channels(c) else if c.direction.Incoming? then 0 else 1
  }

  /** One turn of the pass: how the loop treats its first call, by that call's state. */
  lemma SweepTurn(w: World, ids: seq<CallId>)
    requires AllExpirable(w, ids) && ids != [] && ids[0] !in w.closed
    ensures var id := ids[0];
            var c := w.desk.calls[id];
            var parked := Parked(c);
            && parked <= 2
            && (parked == 0 ==> Sweep(w, ids) == Sweep(Expired(w, id), ids[1..]))
            && (parked > 0 && c.state == Bridged ==>
                  Sweep(w, ids) == Park(w, Task(id, parked, HangupThenCleanup, ids[1..])))
            && (parked > 0 && c.state != Bridged ==>
                  && parked == 1
                  && Sweep(w, ids) == Park(Go(w, id, Expiry(c.state)), Task(id, 1, CleanupOnly, ids[1..])))
  {
    hide Move, Remove;
    var id := ids[0];
    assert All(w)[id] == w.desk.calls[id];
  }

  lemma FinishIsExpiry(w: World, id: CallId)
    requires id in w.desk.calls && Expirable(w.desk.calls[id])
    ensures w.desk.calls[id].state == Bridged ==>
              Finished(Numbered(w), id, HangupThenCleanup) == Numbered(Expired(w, id))
    ensures Finished(Numbered(Go(w, id, Expiry(w.desk.calls[id].state))), id, CleanupOnly) == Numbered(Expired(w, id))
  {
    hide CanMove, Counted, Vacated, Holds, Expirable, Moved;
  }

  /** A turn that has to wait ends, once its awaits return, where a plain turn ends. */
  lemma ParkedTurn(w: World, ids: seq<CallId>)
    requires AllExpirable(w, ids) && ids != [] && ids[0] !in w.closed && w.nextTask !in w.tasks
    requires Parked(w.desk.calls[ids[0]]) > 0
    ensures var w2 := Numbered(Expired(w, ids[0]));
            Alone(w, Sweep(w, ids)) == Alone(w2, Sweep(w2, ids[1..]))
  {
    assert ids[0] in w.desk.calls && Expirable(w.desk.calls[ids[0]]);
    hide Sweep, Expired, Expirable, Finished, Expiry, Channels, Settle, Move, AllExpirable, OneClosed;
    var id, rest := ids[0], ids[1..];
    var c := w.desk.calls[id];
    SweepTurn(w, ids);
    FinishIsExpiry(w, id);
    ExpiredOne(w, ids);
    if c.state == Bridged {
      SettleHangup(w, id, Parked(c), HangupThenCleanup, rest);
    } else {
      SettleHangup(Go(w, id, Expiry(c.state)), id, 1, CleanupOnly, rest);
    }
  }

  lemma {:induction false} SweepIsExpiry(w: World, ids: seq<CallId>)
    requires AllExpirable(w, ids)
    requires forall i :: i in ids ==> i !in w.closed
    requires forall k :: k in w.tasks ==> k < w.nextTask
    ensures SameBut(Alone(w, Sweep(w, ids)), ExpiredAll(w, ids))
    decreases |ids|
  {
    if ids != [] {
      var id, rest := ids[0], ids[1..];
      SweepTurn(w, ids);
      ExpiredOne(w, ids);
      forall i | i in rest ensures i in ids && i != id { }
      if Parked(w.desk.calls[id]) == 0 {
        hide Sweep, Expired, Settle, AllExpirable;
        SweepIsExpiry(Expired(w, id), rest);
      } else {
        ParkedTurn(w, ids);
        hide Sweep, Expired, Settle, AllExpirable;
        SweepIsExpiry(Numbered(Expired(w, id)), rest);
        ExpiredAllNumbered(Expired(w, id), rest);
      }
    }
  }

  // -------------------------------------------------------------------------
  // What a pass closes
  // -------------------------------------------------------------------------

  function Members(ids: seq<CallId>): set<CallId> {
    set id | id in ids
  }

  /** The modems the calls `ids` hold. */
  function HeldBy(calls: map<CallId, Call>, ids: set<CallId>): map<CallId, string> {
    map id | id in ids && id in calls && Holds(calls[id]) :: calls[id].modem
  }

  /** The modem side when exactly `given` is given back: with a pool those modems are unreserved and
      wait for the second half of their release, and no device is touched; without one the counter
      goes down by as many. */
  function GivenBack(l: Lines, given: map<CallId, string>): Lines {
    match l
    case Pooled(p, r) => Pooled(p.(reserved := p.reserved - given.Values), r + given)
    case Direct(n) => if given == map[] then l else Direct(if n > |given| then n - |given| else 0)
  }

  function ClosingIn(calls: map<CallId, Call>, ids: set<CallId>, t: CallState): set<CallId> {
    set id | id in ids && id in calls && Expiry(calls[id].state) == t
  }

  /** How long the bridged ones among `ids` have talked. */
  function Talks(calls: map<CallId, Call>, ids: set<CallId>, now: int): map<CallId, int> {
    map id | id in ids && id in calls && Talked(calls[id], now) :: now - calls[id].bridgedAt.value
  }

  predicate Talked(c: Call, now: int) {
    Expiry(c.state) == HungUp && c.bridgedAt.Some? && now - c.bridgedAt.value > 0
  }

  /** The counters when exactly these calls have ended. */
  ghost function Booked(m: Counters, voicemails: nat, timeouts: nat, talks: map<CallId, int>): Counters {
    m.(incomingVoicemail := m.incomingVoicemail + voicemails,
       outgoingTimeout := m.outgoingTimeout + timeouts,
       answeredSeconds := m.answeredSeconds + Total(talks),
       answeredCompleted := m.answeredCompleted + |talks|)
  }

  ghost function BookedFor(w: World, ids: set<CallId>): Counters {
    Booked(w.desk.metrics, |ClosingIn(w.desk.calls, ids, Voicemail)|, |ClosingIn(w.desk.calls, ids, TelegramTimeout)|,
           Talks(w.desk.calls, ids, w.now))
  }

  /** `r` is `w` with the calls `ids` closed, each in its own closing state, their modems given back,
      their outcomes counted, and nothing else. */
  ghost predicate ClosedExactly(w: World, r: World, ids: set<CallId>) {
    && ClosedRecords(w, r, ids)
    && r.desk.lines == GivenBack(w.desk.lines, HeldBy(w.desk.calls, ids))
    && r.desk.metrics == BookedFor(w, ids)
  }

  ghost predicate ClosedRecords(w: World, r: World, ids: set<CallId>) {
    && r.desk.calls == w.desk.calls - ids
    && r.closed.Keys == w.closed.Keys + ids
    && (forall id :: id in ids && id in w.desk.calls ==>
          id in r.closed && r.closed[id] == Lapsed(w, id))
    && (forall id :: id in w.closed && id !in ids ==> id in r.closed && r.closed[id] == w.closed[id])
    && (forall id :: r.freed[id] == w.freed[id]
          + (if id in ids && id in w.desk.calls && Holds(w.desk.calls[id]) then 1 else 0))
    && r.tasks == w.tasks && r.now == w.now
  }

  lemma {:induction false} ExpiredAllCloses(w: World, ids: seq<CallId>)
    requires AllExpirable(w, ids)
    ensures ClosedExactly(w, ExpiredAll(w, ids), Members(ids))
    decreases |ids|
  {
    if ids == [] {
      NothingClosed(w);
    } else {
      var id, rest := ids[0], ids[1..];
      ExpiredOne(w, ids);
      assert id !in Members(rest);
      assert Members(ids) == {id} + Members(rest) by {
        assert ids == [id] + rest;
      }
      var w1 := Expired(w, id);
      assert Expirable(w.desk.calls[id]);
      hide AllExpirable, Expired, Expirable, OneClosed, ClosedExactly;
      ExpiredAllCloses(w1, rest);
      CloseOneMore(w, w1, ExpiredAll(w1, rest), id, Members(rest));
    }
  }

  lemma NothingClosed(w: World)
    ensures ClosedExactly(w, w, {})
  {
    var l := w.desk.lines;
    assert HeldBy(w.desk.calls, {}) == map[] && Talks(w.desk.calls, {}, w.now) == map[];
    assert ClosingIn(w.desk.calls, {}, Voicemail) == {} && ClosingIn(w.desk.calls, {}, TelegramTimeout) == {};
    if l.Pooled? { assert l.pool.reserved - {} == l.pool.reserved && l.releasing + map[] == l.releasing; }
  }

  lemma OneMoreGiven(l: Lines, id: CallId, c: Call, given: map<CallId, string>)
    requires id !in given
    ensures GivenBack(Vacated(l, id, c), given) == GivenBack(l, if Holds(c) then given[id := c.modem] else given)
  {
    if Holds(c) {
      OneMoreValue(given, id, c.modem);
      hide Holds;
      match l
      case Direct(n) =>
      case Pooled(p, r) => PooledOneMore(p, r, id, c.modem, given);
    }
  }

  lemma PooledOneMore(p: Pool, r: map<CallId, string>, id: CallId, m: string, given: map<CallId, string>)
    requires id !in given && given[id := m].Values == given.Values + {m}
    ensures Unreserved(p, m).reserved - given.Values == p.reserved - given[id := m].Values
    ensures r[id := m] + given == r + given[id := m]
  {
  }

  lemma OneMoreValue(given: map<CallId, string>, id: CallId, m: string)
    requires id !in given
    ensures given[id := m].Values == given.Values + {m} && |given[id := m]| == |given| + 1
  {
    var all := given[id := m];
    assert all.Keys == given.Keys + {id};
    assert all[id] == m;
    forall x | x in given.Values ensures x in all.Values {
      var i :| i in given && given[i] == x;
      assert i in all && all[i] == x;
    }
  }

  lemma OneMoreBooked(m: Counters, id: CallId, c: Call, now: int, v: nat, t: nat, talks: map<CallId, int>)
    requires Expirable(c) && id !in talks
    ensures Booked(Counted(m, Moved(c, Expiry(c.state), now), now), v, t, talks)
         == Booked(m, if Expiry(c.state) == Voicemail then v + 1 else v,
                   if Expiry(c.state) == TelegramTimeout then t + 1 else t,
                   if Talked(c, now) then talks[id := now - c.bridgedAt.value] else talks)
  {
    if Talked(c, now) {
      var all := talks[id := now - c.bridgedAt.value];
      TotalWithout(all, id);
      Fewer(all, id);
      assert all - {id} == talks;
    }
  }

  // What one more call adds to what the others hold and count.

  lemma OneMoreHeld(calls: map<CallId, Call>, id: CallId, rest: set<CallId>)
    requires id in calls && id !in rest
    ensures var less := HeldBy(calls - {id}, rest);
            && id !in less
            && HeldBy(calls, {id} + rest) == if Holds(calls[id]) then less[id := calls[id].modem] else less
  {
    hide Holds;
  }

  lemma OneMoreTalk(calls: map<CallId, Call>, id: CallId, rest: set<CallId>, now: int)
    requires id in calls && id !in rest
    ensures var less := Talks(calls - {id}, rest, now);
            && id !in less
            && Talks(calls, {id} + rest, now)
               == if Talked(calls[id], now) then less[id := now - calls[id].bridgedAt.value] else less
  {
    hide Expiry;
  }

  lemma OneMoreClosing(calls: map<CallId, Call>, id: CallId, rest: set<CallId>, t: CallState)
    requires id in calls && id !in rest
    ensures var n := |ClosingIn(calls - {id}, rest, t)|;
            |ClosingIn(calls, {id} + rest, t)| == if Expiry(calls[id].state) == t then n + 1 else n
  {
    hide Expiry;
    var less, all := ClosingIn(calls - {id}, rest, t), ClosingIn(calls, {id} + rest, t);
    assert forall x :: x in less <==> x in all && x != id;
    hide ClosingIn;
    OneMoreMember(less, all, id);
  }

  lemma OneMoreMember(less: set<CallId>, all: set<CallId>, id: CallId)
    requires forall x :: x in less <==> x in all && x != id
    ensures |all| == if id in all then |less| + 1 else |less|
  {
    assert less == all - {id};
  }

  /** `w1` is `w` with the one call `id` closed. */
  ghost predicate OneClosed(w: World, w1: World, id: CallId)
    requires id in w.desk.calls
  {
    && w1.desk.calls == w.desk.calls - {id}
    && w1.desk.lines == Vacated(w.desk.lines, id, w.desk.calls[id])
    && w1.desk.metrics == Counted(w.desk.metrics, Lapsed(w, id), w.now)
    && w1.closed == w.closed[id := Lapsed(w, id)]
    && w1.tasks == w.tasks && w1.now == w.now
    && w1.freed == (if Holds(w.desk.calls[id]) then w.freed + multiset{id} else w.freed)
  }

  lemma RecordOneMore(w: World, w1: World, r: World, id: CallId, rest: set<CallId>)
    requires id in w.desk.calls && id !in rest && OneClosed(w, w1, id) && ClosedRecords(w1, r, rest)
    ensures ClosedRecords(w, r, {id} + rest)
  {
    hide Holds, Counted, Vacated, Expiry, Moved;
    assert forall i :: i in w1.desk.calls ==> Lapsed(w1, i) == Lapsed(w, i);
    hide Lapsed;
    assert w.desk.calls - {id} - rest == w.desk.calls - ({id} + rest);
  }

  lemma GiveOneMore(w: World, w1: World, id: CallId, rest: set<CallId>)
    requires id in w.desk.calls && id !in rest && OneClosed(w, w1, id)
    ensures GivenBack(w1.desk.lines, HeldBy(w1.desk.calls, rest))
         == GivenBack(w.desk.lines, HeldBy(w.desk.calls, {id} + rest))
  {
    OneMoreHeld(w.desk.calls, id, rest);
    OneMoreGiven(w.desk.lines, id, w.desk.calls[id], HeldBy(w1.desk.calls, rest));
    hide Holds, GivenBack, Vacated, HeldBy;
  }

  lemma BookOneMore(w: World, w1: World, id: CallId, rest: set<CallId>)
    requires id in w.desk.calls && id !in rest && OneClosed(w, w1, id) && Expirable(w.desk.calls[id])
    ensures BookedFor(w1, rest) == BookedFor(w, {id} + rest)
  {
    hide Expiry, Moved, Holds, Booked, Vacated, Counted, Talked, Expirable, Talks, ClosingIn;
    var c, calls := w.desk.calls[id], w1.desk.calls;
    OneMoreTalk(w.desk.calls, id, rest, w.now);
    OneMoreClosing(w.desk.calls, id, rest, Voicemail);
    OneMoreClosing(w.desk.calls, id, rest, TelegramTimeout);
    OneMoreBooked(w.desk.metrics, id, c, w.now, |ClosingIn(calls, rest, Voicemail)|,
                  |ClosingIn(calls, rest, TelegramTimeout)|, Talks(calls, rest, w.now));
  }

  lemma CloseOneMore(w: World, w1: World, r: World, id: CallId, rest: set<CallId>)
    requires id in w.desk.calls && id !in rest && OneClosed(w, w1, id) && Expirable(w.desk.calls[id])
    requires ClosedExactly(w1, r, rest)
    ensures ClosedExactly(w, r, {id} + rest)
  {
    RecordOneMore(w, w1, r, id, rest);
    GiveOneMore(w, w1, id, rest);
    BookOneMore(w, w1, id, rest);
    hide ClosedRecords, GivenBack, BookedFor, HeldBy, OneClosed;
  }

  lemma OverdueAllExpirable(w: World, limits: Limits, order: seq<CallId>)
    requires Inv(w) && ListingOf(order, OverdueIds(w.desk.calls, limits, w.now))
    ensures AllExpirable(w, order)
    ensures forall i :: i in order ==> i !in w.closed
    ensures Members(order) == OverdueIds(w.desk.calls, limits, w.now)
  {
    forall i | 0 <= i < |order|
      ensures order[i] in w.desk.calls && Expirable(w.desk.calls[order[i]]) && order[i] !in w.closed
    {
      assert order[i] in order;
      CallFacts(w, order[i]);
      OverdueExpirable(w.desk.calls[order[i]], limits, w.now);
    }
  }

  lemma NoneOverdue(w: World, r: World, limits: Limits)
    requires ClosedExactly(w, r, OverdueIds(w.desk.calls, limits, w.now))
    ensures OverdueIds(r.desk.calls, limits, r.now) == {}
  {
    hide Overdue, Expiry, Moved, Holds;
    forall id ensures id !in OverdueIds(r.desk.calls, limits, r.now) {
      if id in r.desk.calls { assert r.desk.calls[id] == w.desk.calls[id]; }
    }
  }

  lemma IdlePass(r: World, limits: Limits, again: seq<CallId>)
    requires OverdueIds(r.desk.calls, limits, r.now) == {}
    ensures Next(r, CheckTimeouts(limits, again)) == r
  {
    hide OverdueIds;
    assert forall i :: 0 <= i < |again| ==> again[i] in again;
  }

  /** A pass that no other handler interrupts closes exactly the overdue calls, each in the
      state its kind of timeout calls for, gives back each one's modem once, leaves every other
      call alone, and finds nothing to do when run again at once. */
  lemma TimeoutPass(w: World, limits: Limits, order: seq<CallId>)
    requires Inv(w) && ListingOf(order, OverdueIds(w.desk.calls, limits, w.now))
    ensures var r := Alone(w, Next(w, CheckTimeouts(limits, order)));
            && ClosedExactly(w, r, OverdueIds(w.desk.calls, limits, w.now)) && Inv(r)
            && OverdueIds(r.desk.calls, limits, r.now) == {}
            && forall again :: Next(r, CheckTimeouts(limits, again)) == r
  {
    PassInv(w, limits, order);
    PassCloses(w, limits, order);
    hide Inv, ListingOf, OverdueIds, Alone, ClosedExactly, Next;
    var r := Alone(w, Next(w, CheckTimeouts(limits, order)));
    NoneOverdue(w, r, limits);
    forall again ensures Next(r, CheckTimeouts(limits, again)) == r {
      IdlePass(r, limits, again);
    }
  }

  lemma PassCloses(w: World, limits: Limits, order: seq<CallId>)
    requires Inv(w) && ListingOf(order, OverdueIds(w.desk.calls, limits, w.now))
    ensures ClosedExactly(w, Alone(w, Next(w, CheckTimeouts(limits, order))), OverdueIds(w.desk.calls, limits, w.now))
  {
    OverdueAllExpirable(w, limits, order);
    assert forall k :: k in w.tasks ==> k < w.nextTask;
    PassIs(w, limits, order);
    hide Inv, AllExpirable, OverdueIds, Next, ListingOf, Alone, ExpiredAll, Sweep, ClosedExactly, SameBut;
    SweepIsExpiry(w, order);
    ExpiredAllCloses(w, order);
    SameCloses(w, ExpiredAll(w, order), Alone(w, Sweep(w, order)), Members(order));
  }

  lemma PassIs(w: World, limits: Limits, order: seq<CallId>)
    requires ListingOf(order, OverdueIds(w.desk.calls, limits, w.now))
    ensures Next(w, CheckTimeouts(limits, order)) == Sweep(w, order)
  {
  }

  lemma PassInv(w: World, limits: Limits, order: seq<CallId>)
    requires Inv(w)
    ensures Inv(Alone(w, Next(w, CheckTimeouts(limits, order))))
  {
    NextInv(w, CheckTimeouts(limits, order));
    hide Inv, Next, Alone;
    AloneInv(w, Next(w, CheckTimeouts(limits, order)));
  }

  lemma SameCloses(w: World, r: World, r': World, ids: set<CallId>)
    requires ClosedExactly(w, r, ids) && SameBut(r', r)
    ensures ClosedExactly(w, r', ids)
  {
    hide Lapsed, Holds, HeldBy, GivenBack, Booked, Talks, ClosingIn;
  }
}
