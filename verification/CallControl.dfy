/** The call machine, the metrics collector and the call registry as the objects they are.
    Every method is proved against the value functions the switchboard is built from. */
module CallControl {
  import opened Options
  import opened Calls
  import opened Modems
  import opened Registry

  class MetricsCollector {
    var incomingAnswered: nat
    var incomingRejected: nat
    var incomingVoicemail: nat
    var incomingTimeout: nat
    var outgoingAnswered: nat
    var outgoingFailed: nat
    var outgoingTimeout: nat
    var answeredSeconds: int
    var answeredCompleted: nat

    constructor ()
      ensures View() == ZERO_COUNTERS
    {
      incomingAnswered, incomingRejected, incomingVoicemail, incomingTimeout := 0, 0, 0, 0;
      outgoingAnswered, outgoingFailed, outgoingTimeout := 0, 0, 0;
      answeredSeconds, answeredCompleted := 0, 0;
    }

    function View(): Counters
      reads this
    {
      Counters(incomingAnswered, incomingRejected, incomingVoicemail, incomingTimeout, outgoingAnswered,
               outgoingFailed, outgoingTimeout, answeredSeconds, answeredCompleted)
    }

    method CallAnswered(d: Direction)
      modifies this
      ensures View() == if d.Incoming?
                        then old(View()).(incomingAnswered := old(incomingAnswered) + 1)
                        else old(View()).(outgoingAnswered := old(outgoingAnswered) + 1)
    {
      if d.Incoming? {
        incomingAnswered := incomingAnswered + 1;
      } else {
        outgoingAnswered := outgoingAnswered + 1;
      }
    }

    /** Rejected outgoing calls are not counted. */
    method CallRejected(d: Direction)
      modifies this
      ensures View() == if d.Incoming?
                        then old(View()).(incomingRejected := old(incomingRejected) + 1)
                        else old(View())
    {
      if d.Incoming? {
        incomingRejected := incomingRejected + 1;
      }
    }

    method CallTimedOut(d: Direction)
      modifies this
      ensures View() == if d.Incoming?
                        then old(View()).(incomingTimeout := old(incomingTimeout) + 1)
                        else old(View()).(outgoingTimeout := old(outgoingTimeout) + 1)
    {
      if d.Incoming? {
        incomingTimeout := incomingTimeout + 1;
      } else {
        outgoingTimeout := outgoingTimeout + 1;
      }
    }

    method RecordAnsweredDuration(seconds: int)
      modifies this
      ensures View() == if seconds > 0
                        then old(View()).(answeredSeconds := old(answeredSeconds) + seconds,
                                          answeredCompleted := old(answeredCompleted) + 1)
                        else old(View())
    {
      if seconds > 0 {
        answeredSeconds := answeredSeconds + seconds;
        answeredCompleted := answeredCompleted + 1;
      }
    }
  }

  class CallMachine {
    const direction: Direction
    const modem: string
    var state: CallState
    var updatedAt: int
    var bridgedAt: Option<int>
    var gsmChannel: string
    var bridgeChannel: string
    const metrics: MetricsCollector

    constructor (direction: Direction, modem: string, gsmChannel: string, now: int, metrics: MetricsCollector)
      ensures View() == NewCall(direction, modem, Idle, gsmChannel, now) && this.metrics == metrics
    {
      this.direction := direction;
      this.modem := modem;
      state := Idle;
      updatedAt := now;
      bridgedAt := None;
      this.gsmChannel := gsmChannel;
      bridgeChannel := "";
      this.metrics := metrics;
    }

    function View(): Call
      reads this
    {
      Call(direction, modem, state, updatedAt, bridgedAt, gsmChannel, bridgeChannel)
    }

    /** The registry's hook, run after every transition. */
    method MetricsHook(now: int)
      modifies metrics
      ensures metrics.View() == Counted(old(metrics.View()), View(), now)
    {
      match state {
        case Bridged => metrics.CallAnswered(direction);
        case Rejected => metrics.CallRejected(direction);
        case Voicemail => metrics.incomingVoicemail := metrics.incomingVoicemail + 1;
        case TelegramTimeout => metrics.CallTimedOut(Outgoing);
        case GsmBusy => metrics.outgoingFailed := metrics.outgoingFailed + 1;
        case GsmNoAnswer => metrics.outgoingFailed := metrics.outgoingFailed + 1;
        case GsmError => metrics.outgoingFailed := metrics.outgoingFailed + 1;
        case HungUp =>
          if bridgedAt.Some? {
            metrics.RecordAnsweredDuration(now - bridgedAt.value);
          }
        case _ =>
      }
    }

    /** A transition the table does not allow is refused and changes nothing. */
    method Transition(target: CallState, now: int) returns (ok: bool)
      modifies this, metrics
      ensures ok == CanMove(old(View()).direction, old(state), target)
      ensures ok ==> View() == Moved(old(View()), target, now)
      ensures ok ==> metrics.View() == Counted(old(metrics.View()), View(), now)
      ensures !ok ==> View() == old(View()) && metrics.View() == old(metrics.View())
    {
      var allowed := if direction == Outgoing then OutgoingSuccessors(state) else IncomingSuccessors(state);
      if target !in allowed { return false; }
      state := target;
      updatedAt := now;
      if target == Bridged {
        bridgedAt := Some(updatedAt);
      }
      MetricsHook(now);
      return true;
    }
  }

  class CallRegistry {
    var calls: map<CallId, CallMachine>
    var modemsReserved: int
    const pool: ModemPool?
    const metrics: MetricsCollector

    constructor (pool: ModemPool?, metrics: MetricsCollector)
      ensures Valid() && calls == map[] && modemsReserved == 0 && this.pool == pool && this.metrics == metrics
    {
      calls := map[];
      modemsReserved := 0;
      this.pool := pool;
      this.metrics := metrics;
    }

    function Machines(): set<CallMachine>
      reads this
    {
      set id | id in calls :: calls[id]
    }

    /** No two ids share a machine, and every machine reports to this registry's collector. */
    ghost predicate Valid()
      reads this, Machines()
    {
      && (forall i, j :: i in calls && j in calls && calls[i] == calls[j] ==> i == j)
      && (forall id :: id in calls ==> calls[id].metrics == metrics)
    }

    function Records(): map<CallId, Call>
      reads this, Machines()
    {
      map id | id in calls :: calls[id].View()
    }

    /** The modem side; between two operations no release is half done. */
    ghost function LinesView(): Lines
      reads this, pool, if pool == null then {} else {pool.provider}
    {
      if pool == null then Direct(modemsReserved) else Pooled(pool.View(), map[])
    }

    ghost function View(): Desk
      reads this, Machines(), metrics, pool, if pool == null then {} else {pool.provider}
    {
      Desk(Records(), LinesView(), metrics.View())
    }

    /** Everything an operation of this registry may change. */
    function Foot(): set<object>
      reads this
    {
      {this, metrics} + Machines() + if pool == null then {} else {pool, pool.provider, pool.strategy}
    }

    /** One machine moved and the registry's record of it moved with it. */
    twostate lemma OneMoved(id: CallId)
      requires old(Valid()) && calls == old(calls) && id in calls
      requires forall m :: m in Machines() && m != calls[id] ==> m.View() == old(m.View())
      ensures Records() == old(Records())[id := calls[id].View()]
    {
    }

    method Transition(id: CallId, target: CallState, now: int) returns (ok: bool)
      requires Valid()
      modifies Machines(), metrics
      ensures Valid() && calls == old(calls) && ok == old(Moves(View(), id, target))
      ensures View() == Move(old(View()), id, target, now)
    {
      hide CanMove, Moved, Counted, LinesView;
      ghost var d := View();
      if id !in calls { return false; }
      assert d.calls[id] == calls[id].View();
      ok := calls[id].Transition(target, now);
      OneMoved(id);
      hide Records;
      assert LinesView() == d.lines;
    }

    /** Both halves of a release, one after the other; an internal call holds nothing. */
    method GiveBack(ghost id: CallId, call: CallMachine)
      modifies this`modemsReserved, pool, if pool == null then {} else {pool.provider}
      ensures LinesView() == Settled(Vacated(old(LinesView()), id, old(call.View())), id)
    {
      if pool != null { WholeRelease(pool.View(), id, call.View()); }
      if call.direction == Outgoing && call.modem != "" {
        if pool != null {
          pool.Release(call.modem);
        } else {
          modemsReserved := if modemsReserved - 1 > 0 then modemsReserved - 1 else 0;
        }
      }
    }

    /** Pops the call and gives its modem back; a call already popped changes nothing. */
    method CleanUp(id: CallId)
      requires Valid()
      modifies this, pool, if pool == null then {} else {pool.provider}
      ensures Valid() && calls == old(calls) - {id}
      ensures View() == old(Remove(View(), id)).(lines := Settled(old(Remove(View(), id)).lines, id))
    {
      ghost var d := View();
      if id !in calls { NothingToClean(d, id); }
      hide Settled, Vacated;
      if id !in calls { return; }
      assert d.calls[id] == calls[id].View();
      var call := calls[id];
      calls := calls - {id};
      GiveBack(id, call);
      assert Records() == d.calls - {id};
    }

    /** The modem part of `create_outgoing`: what the pool's strategy picks, or the only modem;
        an internal call needs none. */
    method Reserve(modemRequired: bool) returns (ok: bool, selected: string)
      modifies this`modemsReserved, pool, if pool == null then {} else {pool.provider, pool.strategy}
      ensures ok == !(modemRequired && old(if pool == null then modemsReserved > 0 else Available(pool.View()) == {}))
      ensures ok && modemRequired ==> Reserved(old(LinesView()), selected) == Some((LinesView(), selected))
      ensures !(ok && modemRequired) ==> LinesView() == old(LinesView()) && selected == ""
    {
      if !modemRequired { return true, ""; }
      if pool != null {
        var chosen := pool.SelectForCall();
        if chosen.None? { return false, ""; }
        return true, chosen.value;
      } else {
        if modemsReserved > 0 { return false, ""; }
        modemsReserved := modemsReserved + 1;
        return true, DEFAULT_MODEM;
      }
    }

    /** A new machine taken to MODEM_RESERVED: the access check and the reservation precede it. */
    method Started(modem: string, now: int) returns (call: CallMachine)
      modifies metrics
      ensures fresh(call) && call.metrics == metrics && metrics.View() == old(metrics.View())
      ensures call.View() == NewCall(Outgoing, modem, ModemReserved, "", now)
    {
      call := new CallMachine(Outgoing, modem, "", now, metrics);
      var ok := call.Transition(Requested, now);
      ok := call.Transition(AclChecked, now);
      ok := call.Transition(ModemReserved, now);
    }

    method Enroll(id: CallId, call: CallMachine)
      requires Valid() && id !in calls && call !in Machines() && call.metrics == metrics
      modifies this`calls
      ensures Valid() && calls == old(calls)[id := call]
      ensures View() == Enrolled(old(View()), id, call.View())
    {
      calls := calls[id := call];
      assert Records() == old(Records())[id := call.View()];
    }

    /** Creates the call under the fresh `id`, or reports the busy/offline error. */
    method CreateOutgoing(id: CallId, modemRequired: bool, now: int) returns (ok: bool, selected: string)
      requires Valid() && id !in calls
      modifies this, metrics, pool, if pool == null then {} else {pool.provider, pool.strategy}
      ensures Valid()
      ensures ok == !(modemRequired && old(if pool == null then modemsReserved > 0 else Available(pool.View()) == {}))
      ensures View() == WithOutgoing(old(View()), id, modemRequired, selected, now)
      ensures ok ==> id in calls && fresh(calls[id]) && calls == old(calls)[id := calls[id]]
      ensures !ok ==> calls == old(calls)
    {
      ok, selected := Reserve(modemRequired);
      assert Records() == old(Records());
      if !ok { return; }
      var call := Started(selected, now);
      assert Records() == old(Records());
      Enroll(id, call);
    }

    method CreateIncoming(id: CallId, modem: string, gsmChannel: string, now: int)
      requires Valid() && id !in calls
      modifies this, metrics
      ensures Valid() && id in calls && fresh(calls[id]) && calls == old(calls)[id := calls[id]]
      ensures View() == Enrolled(old(View()), id, NewCall(Incoming, modem, Ringing, gsmChannel, now))
    {
      var call := new CallMachine(Incoming, modem, gsmChannel, now, metrics);
      var ok := call.Transition(Ringing, now);
      assert Records() == old(Records());
      Enroll(id, call);
    }

    /** An answered report: apply the remaining steps of the answer chain. */
    method FastForwardBridged(id: CallId, now: int) returns (bridged: bool)
      requires Valid()
      modifies Machines(), metrics
      ensures Valid() && calls == old(calls)
      ensures View() == FastForwarded(old(View()), id, now)
      ensures bridged <==> id in View().calls && View().calls[id].state == Bridged
    {
      if id !in calls { return false; }
      hide Move, LinesView, Chain;
      ghost var d0 := View();
      var steps := [(Ringing, TelegramRinging), (TelegramRinging, TelegramAccepted),
                    (TelegramAccepted, GsmAnswered), (GsmAnswered, Bridged)];
      for k := 0 to |steps|
        invariant Valid() && id in calls && calls == old(calls)
        invariant View() == Chain(d0, id, steps[..k], now)
      {
        assert View().calls[id].state == calls[id].state;
        ChainStep(d0, id, steps, k, now);
        if calls[id].state == steps[k].0 {
          var ok := Transition(id, steps[k].1, now);
        }
      }
      assert steps[..4] == steps;
      ChainIsFastForward(d0, id, now);
      assert View().calls[id].state == calls[id].state;
      return calls[id].state == Bridged;
    }

    method SetBridgeLeg(id: CallId, channel: string) returns (found: bool)
      requires Valid()
      modifies Machines()
      ensures Valid() && calls == old(calls) && found == (id in calls)
      ensures found ==>
                View() == old(View()).(calls := old(Records())[id := old(calls[id].View()).(bridgeChannel := channel)])
      ensures !found ==> View() == old(View())
    {
      if id !in calls { return false; }
      calls[id].bridgeChannel := channel;
      OneMoved(id);
      return true;
    }

    method SetGsmChannel(id: CallId, channel: string) returns (found: bool)
      requires Valid()
      modifies Machines()
      ensures Valid() && calls == old(calls) && found == (id in calls)
      ensures found ==>
                View() == old(View()).(calls := old(Records())[id := old(calls[id].View()).(gsmChannel := channel)])
      ensures !found ==> View() == old(View())
    {
      if id !in calls { return false; }
      calls[id].gsmChannel := channel;
      OneMoved(id);
      return true;
    }

    /** The ids of the overdue calls, each once. */
    method GetTimedOutCalls(limits: Limits, now: int) returns (ids: seq<CallId>)
      requires Valid()
      ensures forall i, j :: 0 <= i < j < |ids| ==> ids[i] != ids[j]
      ensures forall id :: id in ids <==> id in OverdueIds(Records(), limits, now)
      ensures forall id :: id in ids <==>
        && id in calls
        && var s, elapsed := calls[id].state, now - calls[id].updatedAt;
           || (s in {Ringing, TelegramRinging} && elapsed > limits.ringWait)
           || (s in {ModemReserved, TelegramCalling} && elapsed > limits.tgRing)
           || (s == Bridged && elapsed > limits.maxCall)
    {
      hide Overdue;
      ids := [];
      var rest := calls.Keys;
      while rest != {}
        invariant rest <= calls.Keys
        invariant forall i, j :: 0 <= i < j < |ids| ==> ids[i] != ids[j]
        invariant forall id :: id in ids <==> id in OverdueIds(Records(), limits, now) && id !in rest
        decreases |rest|
      {
        var id :| id in rest;
        rest := rest - {id};
        var call := calls[id];
        var elapsed := now - call.updatedAt;
        var overdue := false;
        if !Terminal(call.state) {
          if call.state in {Ringing, TelegramRinging} {
            overdue := elapsed > limits.ringWait;
          } else if call.state in {ModemReserved, TelegramCalling} {
            overdue := elapsed > limits.tgRing;
          } else if call.state == Bridged {
            overdue := elapsed > limits.maxCall;
          }
        }
        OverdueCases(call.View(), limits, now);
        if overdue {
          assert id !in ids;
          ids := ids + [id];
        }
      }
      forall id | id in calls { OverdueCases(calls[id].View(), limits, now); }
    }
  }

  lemma OverdueCases(c: Call, limits: Limits, now: int)
    ensures Overdue(c, limits, now) <==>
      || (c.state in {Ringing, TelegramRinging} && now - c.since > limits.ringWait)
      || (c.state in {ModemReserved, TelegramCalling} && now - c.since > limits.tgRing)
      || (c.state == Bridged && now - c.since > limits.maxCall)
    ensures Terminal(c.state) ==> !Overdue(c, limits, now)
  {
  }

  lemma NothingToClean(d: Desk, id: CallId)
    requires id !in d.calls && (d.lines.Pooled? ==> id !in d.lines.releasing)
    ensures Remove(d, id).(lines := Settled(Remove(d, id).lines, id)) == d
  {
  }

  lemma WholeRelease(p: Pool, id: CallId, c: Call)
    ensures Settled(Vacated(Pooled(p, map[]), id, c), id)
         == Pooled(if Holds(c) then Released(p, c.modem) else p, map[])
  {
    assert map[][id := c.modem] - {id} == map[];
  }

  function Chain(d: Desk, id: CallId, steps: seq<(CallState, CallState)>, now: int): Desk {
    if steps == [] then d
    else
      var k := |steps| - 1;
      Step(Chain(d, id, steps[..k], now), id, steps[k].0, steps[k].1, now)
  }

  lemma ChainStep(d: Desk, id: CallId, steps: seq<(CallState, CallState)>, k: nat, now: int)
    requires k < |steps|
    ensures Chain(d, id, steps[..k + 1], now) == Step(Chain(d, id, steps[..k], now), id, steps[k].0, steps[k].1, now)
  {
    assert steps[..k + 1][..k] == steps[..k];
  }

  lemma ChainIsFastForward(d: Desk, id: CallId, now: int)
    ensures Chain(d, id, [(Ringing, TelegramRinging), (TelegramRinging, TelegramAccepted),
                          (TelegramAccepted, GsmAnswered), (GsmAnswered, Bridged)], now)
         == FastForwarded(d, id, now)
  {
    hide Step;
    var s1 := [(Ringing, TelegramRinging)];
    var s2 := [(Ringing, TelegramRinging), (TelegramRinging, TelegramAccepted)];
    var s3 := [(Ringing, TelegramRinging), (TelegramRinging, TelegramAccepted), (TelegramAccepted, GsmAnswered)];
    var s4 := [(Ringing, TelegramRinging), (TelegramRinging, TelegramAccepted),
               (TelegramAccepted, GsmAnswered), (GsmAnswered, Bridged)];
    assert s1[..0] == [] && s2[..1] == s1 && s3[..2] == s2 && s4[..3] == s3;
    ChainSnoc(d, id, s1, now);
    ChainSnoc(d, id, s2, now);
    ChainSnoc(d, id, s3, now);
    ChainSnoc(d, id, s4, now);
  }

  lemma ChainSnoc(d: Desk, id: CallId, steps: seq<(CallState, CallState)>, now: int)
    requires steps != []
    ensures var k := |steps| - 1;
            Chain(d, id, steps, now) == Step(Chain(d, id, steps[..k], now), id, steps[k].0, steps[k].1, now)
  {
  }
}
