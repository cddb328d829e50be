/** Reconnection with bounded backoff, and the wrapper that starts it: any error of any caller
    kicks, but only one retry loop may be at work. */
module Recovery {

  datatype Policy = Policy(minDelay: real, maxDelay: real, maxRetries: int)

  function Min(a: real, b: real): real {
    if a <= b then a else b
  }

  /** The most attempts one episode makes: the limit is looked at after an attempt. */
  function Budget(p: Policy): nat {
    if p.maxRetries <= 1 then 1 else p.maxRetries
  }

  /** The wait after attempt `k`: doubled each time and capped, but never capped the first time. */
  function Wait(p: Policy, k: nat): real
    requires k >= 1
  {
    if k == 1 then p.minDelay else Min(2.0 * Wait(p, k - 1), p.maxDelay)
  }

  function Pow2(n: nat): (r: real)
    ensures r >= 1.0
  {
    if n == 0 then 1.0 else 2.0 * Pow2(n - 1)
  }

  function Formula(p: Policy, k: nat): real
    requires k >= 1
  {
    Min(p.minDelay * Pow2(k - 1), p.maxDelay)
  }

  lemma {:induction false} LaterWaits(p: Policy, k: nat)
    requires 0.0 <= p.minDelay && 0.0 <= p.maxDelay
    requires k >= 2
    ensures Wait(p, k) == Formula(p, k)
  {
    var grown := p.minDelay * Pow2(k - 2);
    assert p.minDelay * Pow2(k - 1) == 2.0 * grown;
    if k > 2 { LaterWaits(p, k - 1); }
  }

  /** The waits are `min(minDelay * 2^(k-1), maxDelay)` exactly when the minimum is not above the
      maximum; otherwise the first wait exceeds the cap. */
  lemma WaitsFollowFormula(p: Policy)
    requires 0.0 <= p.minDelay && 0.0 <= p.maxDelay
    ensures (forall k: nat | k >= 1 :: Wait(p, k) == Formula(p, k)) <==> p.minDelay <= p.maxDelay
  {
    forall k: nat | k >= 2
      ensures Wait(p, k) == Formula(p, k)
    {
      LaterWaits(p, k);
    }
    assert Wait(p, 1) == p.minDelay && Formula(p, 1) == Min(p.minDelay, p.maxDelay);
  }

  /** For one: a minimum of 2 under a maximum of 1 is waited in full. */
  lemma FirstWaitNotCapped()
    ensures Wait(Policy(2.0, 1.0, 3), 1) == 2.0 && Formula(Policy(2.0, 1.0, 3), 1) == 1.0
  {
    assert Pow2(0) == 1.0;
  }

  // -------------------------------------------------------------------------
  // One episode
  // -------------------------------------------------------------------------

  /** How an await of the operation ends; `Stopped` is the cancellation that `stop` brings. */
  datatype Outcome = Works | Fails | Stopped

  datatype Ending = Succeeded | GaveUp | Cancelled

  /** The retry loop. Attempt `k` ends as `attempt(k)` says; the wait after it is slept through
      unless `slept(k)` is false, and the closing callback runs through if `closes`. */
  method RetryLoop(p: Policy, attempt: nat -> Outcome, slept: nat -> bool, closes: bool)
    returns (end: Ending, attempts: nat, waits: seq<real>, giveUps: nat)
    ensures 1 <= attempts <= Budget(p)
    ensures attempts == 1 || attempts <= p.maxRetries
    ensures giveUps == 1 <==> attempt(attempts) == Fails && attempts >= p.maxRetries
    ensures forall k :: 1 <= k < attempts ==> attempt(k) == Fails && slept(k)
    ensures end == Succeeded <==> attempt(attempts) == Works && closes
    ensures end == GaveUp <==> attempt(attempts) == Fails && attempts == Budget(p) && closes
    ensures giveUps == if attempt(attempts) == Fails && attempts == Budget(p) then 1 else 0
    ensures ((forall k :: attempt(k) != Stopped && slept(k)) && closes) ==>
              (end == GaveUp <==> forall k :: 1 <= k <= Budget(p) ==> attempt(k) == Fails)
              && (end == Succeeded <==> end != GaveUp)
    ensures attempt(attempts) == Fails && attempts < Budget(p) ==> end == Cancelled && !slept(attempts)
    ensures |waits| == if attempt(attempts) == Fails && attempts < Budget(p) then attempts else attempts - 1
    ensures forall k :: 0 <= k < |waits| ==> waits[k] == Wait(p, k + 1)
  {
    attempts, waits, giveUps := 0, [], 0;
    var delay := p.minDelay;
    var running := true;
    while running
      invariant running && attempts < Budget(p) && giveUps == 0
      invariant |waits| == attempts && delay == Wait(p, attempts + 1)
      invariant forall k :: 1 <= k <= attempts ==> attempt(k) == Fails && slept(k)
      invariant forall k :: 0 <= k < |waits| ==> waits[k] == Wait(p, k + 1)
      decreases Budget(p) - attempts
    {
      attempts := attempts + 1;
      match attempt(attempts) {
        case Works =>
          if !closes { return Cancelled, attempts, waits, giveUps; }
          running := false;
          return Succeeded, attempts, waits, giveUps;
        case Fails =>
          if attempts >= p.maxRetries {
            giveUps := giveUps + 1;
            if !closes { return Cancelled, attempts, waits, giveUps; }
            running := false;
            return GaveUp, attempts, waits, giveUps;
          }
          waits := waits + [delay];
          if !slept(attempts) { return Cancelled, attempts, waits, giveUps; }
          delay := Min(delay * 2.0, p.maxDelay);
        case Stopped =>
          return Cancelled, attempts, waits, giveUps;
      }
    }
    assert false;
  }

  // -------------------------------------------------------------------------
  // Kicks, tasks and loops, interleaved
  // -------------------------------------------------------------------------

  /** Where a retry loop waits: in the operation, asleep, in its closing callback; or it is over. */
  datatype Phase = Attempting | Sleeping | Closing(ok: bool) | Over(ok: bool)

  /** `cancelled`: a stop has asked for the end; the loop's next step will be that end. */
  datatype Loop = Loop(phase: Phase, attempt: nat, delay: real, waits: seq<real>, giveUps: nat, cancelled: bool)

  /** A task made by a kick: not begun, waiting for the loop it started, or finished. */
  datatype Kicker = Pending | Awaiting(loop: nat) | Finished

  /** Every task ever made; the last of each list is the one the objects remember. */
  datatype State = State(loops: seq<Loop>, running: bool, kickers: seq<Kicker>)

  datatype Event =
    | Kick                    // some caller saw the connection fail
    | KickerRuns(k: nat)      // a task made by a kick gets to call start
    | KickerWakes(k: nat)     // the loop it waited for is over
    | OtherStart              // start called by anyone else
    | AttemptSucceeds(i: nat)
    | AttemptFails(i: nat)
    | SleepOver(i: nat)
    | CallbackOver(i: nat)
    | Stop
    | CancelArrives(i: nat)

  const NO_TASKS := State([], false, [])

  function NewLoop(p: Policy): Loop {
    Loop(Attempting, 1, p.minDelay, [], 0, false)
  }

  predicate AtWork(s: State, i: int) {
    0 <= i < |s.loops| && !s.loops[i].phase.Over?
  }

  predicate LoopInFlight(s: State) {
    s.loops != [] && !s.loops[|s.loops| - 1].phase.Over?
  }

  predicate KickInFlight(s: State) {
    s.kickers != [] && s.kickers[|s.kickers| - 1] != Finished
  }

  function Started(p: Policy, s: State): State {
    if LoopInFlight(s) then s else s.(loops := s.loops + [NewLoop(p)], running := true)
  }

  function Kicked(s: State): State {
    if KickInFlight(s) then s else s.(kickers := s.kickers + [Pending])
  }

  function KickerRun(p: Policy, s: State, k: nat): State
    requires k < |s.kickers|
  {
    if LoopInFlight(s) then s.(kickers := s.kickers[k := Finished])
    else Started(p, s).(kickers := s.kickers[k := Awaiting(|s.loops|)])
  }

  function Failed(p: Policy, l: Loop): Loop {
    if l.attempt >= p.maxRetries then l.(phase := Closing(false), giveUps := l.giveUps + 1)
    else l.(phase := Sleeping, waits := l.waits + [l.delay])
  }

  /** After the sleep the loop looks at the flag all loops share. */
  function Woken(p: Policy, l: Loop, running: bool): Loop {
    if running then l.(phase := Attempting, attempt := l.attempt + 1, delay := Min(l.delay * 2.0, p.maxDelay))
    else l.(phase := Over(false))
  }

  predicate At(s: State, i: nat, phase: Phase) {
    i < |s.loops| && s.loops[i].phase == phase && !s.loops[i].cancelled
  }

  function Stopping(s: State): State {
    if LoopInFlight(s) then
      var i := |s.loops| - 1;
      s.(loops := s.loops[i := s.loops[i].(cancelled := true)], running := false)
    else s.(running := false)
  }

  /** One step; an event that cannot happen now changes nothing. */
  function Next(p: Policy, s: State, e: Event): State {
    match e
    case Kick => Kicked(s)
    case KickerRuns(k) => if k < |s.kickers| && s.kickers[k] == Pending then KickerRun(p, s, k) else s
    case KickerWakes(k) =>
      if k < |s.kickers| && s.kickers[k].Awaiting? && s.kickers[k].loop < |s.loops|
         && s.loops[s.kickers[k].loop].phase.Over?
      then s.(kickers := s.kickers[k := Finished]) else s
    case OtherStart => Started(p, s)
    case AttemptSucceeds(i) =>
      if At(s, i, Attempting) then s.(loops := s.loops[i := s.loops[i].(phase := Closing(true))]) else s
    case AttemptFails(i) =>
      if At(s, i, Attempting) then s.(loops := s.loops[i := Failed(p, s.loops[i])]) else s
    case SleepOver(i) =>
      if At(s, i, Sleeping) then s.(loops := s.loops[i := Woken(p, s.loops[i], s.running)]) else s
    case CallbackOver(i) =>
      if i < |s.loops| && s.loops[i].phase.Closing? && !s.loops[i].cancelled
      then s.(loops := s.loops[i := s.loops[i].(phase := Over(s.loops[i].phase.ok))], running := false)
      else s
    case Stop => Stopping(s)
    case CancelArrives(i) =>
      if i < |s.loops| && !s.loops[i].phase.Over? && s.loops[i].cancelled
      then s.(loops := s.loops[i := s.loops[i].(phase := Over(false))]) else s
  }

  function Run(p: Policy, s: State, events: seq<Event>): State
    decreases |events|
  {
    if events == [] then s else Run(p, Next(p, s, events[0]), events[1..])
  }

  /** What one loop has done so far agrees with its policy. */
  predicate LoopInv(p: Policy, l: Loop) {
    && 1 <= l.attempt <= Budget(p)
    && l.delay == Wait(p, l.attempt)
    && l.attempt - 1 <= |l.waits| <= l.attempt
    && (l.phase == Sleeping ==> |l.waits| == l.attempt)
    && (l.phase != Sleeping && !(l.phase.Over? && l.cancelled) ==> |l.waits| == l.attempt - 1)
    && (forall k :: 0 <= k < |l.waits| ==> l.waits[k] == Wait(p, k + 1))
    && (l.phase == Sleeping ==> l.attempt < p.maxRetries)
    && l.giveUps <= 1
    && (l.giveUps == 1 ==> l.attempt == Budget(p) && l.phase in {Closing(false), Over(false)})
    && (l.phase == Closing(false) || (l.phase == Over(false) && !l.cancelled) ==> l.giveUps == 1)
  }

  predicate Inv(p: Policy, s: State) {
    && (forall i :: 0 <= i < |s.loops| ==> LoopInv(p, s.loops[i]))
    && (forall i :: 0 <= i < |s.loops| - 1 ==> s.loops[i].phase.Over?)
    && s.running == (LoopInFlight(s) && !s.loops[|s.loops| - 1].cancelled)
    && (forall k :: 0 <= k < |s.kickers| - 1 ==> s.kickers[k] == Finished)
    && (forall k :: 0 <= k < |s.kickers| && s.kickers[k].Awaiting? ==> s.kickers[k].loop < |s.loops|)
  }

  lemma KickerInv(p: Policy, s: State, e: Event)
    requires Inv(p, s) && (e.Kick? || e.KickerRuns? || e.KickerWakes? || e.OtherStart?)
    ensures Inv(p, Next(p, s, e))
  {
    assert LoopInv(p, NewLoop(p));
    hide LoopInv, NewLoop;
    assert !NewLoop(p).phase.Over? && !NewLoop(p).cancelled by { NewLoopRuns(p); }
  }

  lemma NewLoopRuns(p: Policy)
    ensures !NewLoop(p).phase.Over? && !NewLoop(p).cancelled
  {
  }

  lemma NextInv(p: Policy, s: State, e: Event)
    requires Inv(p, s)
    ensures Inv(p, Next(p, s, e))
  {
    match e
    case Kick => KickerInv(p, s, e);
    case KickerRuns(k) => KickerInv(p, s, e);
    case KickerWakes(k) => KickerInv(p, s, e);
    case OtherStart => KickerInv(p, s, e);
    case AttemptSucceeds(i) =>
      if At(s, i, Attempting) { LoopMoves(p, s, i, s.loops[i].(phase := Closing(true)), s.running); }
    case AttemptFails(i) =>
      if At(s, i, Attempting) { LoopMoves(p, s, i, Failed(p, s.loops[i]), s.running); }
    case SleepOver(i) =>
      if At(s, i, Sleeping) {
        WokenInv(p, s.loops[i]);
        LoopMoves(p, s, i, Woken(p, s.loops[i], true), true);
      }
    case CallbackOver(i) =>
      if i < |s.loops| && s.loops[i].phase.Closing? && !s.loops[i].cancelled {
        LoopMoves(p, s, i, s.loops[i].(phase := Over(s.loops[i].phase.ok)), false);
      }
    case Stop =>
      if LoopInFlight(s) {
        LoopMoves(p, s, |s.loops| - 1, s.loops[|s.loops| - 1].(cancelled := true), false);
      }
    case CancelArrives(i) =>
      if i < |s.loops| && !s.loops[i].phase.Over? && s.loops[i].cancelled {
        LoopMoves(p, s, i, s.loops[i].(phase := Over(false)), false);
      }
  }

  /** Only the last loop can still move. */
  lemma LoopMoves(p: Policy, s: State, i: nat, l: Loop, running: bool)
    requires Inv(p, s) && i < |s.loops| && !s.loops[i].phase.Over?
    requires LoopInv(p, l) && running == (!l.phase.Over? && !l.cancelled)
    ensures s.running == !s.loops[i].cancelled && i == |s.loops| - 1
    ensures Inv(p, s.(loops := s.loops[i := l], running := running))
  {
    hide LoopInv;
  }

  lemma WokenInv(p: Policy, l: Loop)
    requires LoopInv(p, l) && l.phase == Sleeping && !l.cancelled
    ensures LoopInv(p, Woken(p, l, true))
  {
    assert l.delay * 2.0 == 2.0 * l.delay;
  }

  lemma {:induction false} RunInv(p: Policy, s: State, events: seq<Event>)
    requires Inv(p, s)
    ensures Inv(p, Run(p, s, events))
    decreases |events|
  {
    if events != [] {
      NextInv(p, s, events[0]);
      RunInv(p, Next(p, s, events[0]), events[1..]);
    }
  }

  /** Whatever kicks, starts and stops come, two loops are never at work together; each loop keeps to
      its budget, waits as its policy says, and unless it is stopped gives up once exactly when it
      ends without success. */
  lemma OneLoopAtATime(p: Policy, events: seq<Event>)
    ensures var s := Run(p, NO_TASKS, events);
            && (forall i, j :: AtWork(s, i) && AtWork(s, j) ==> i == j)
            && (forall i :: 0 <= i < |s.loops| ==> LoopInv(p, s.loops[i]))
  {
    RunInv(p, NO_TASKS, events);
  }

  predicate Ends(e: Event) {
    e.CallbackOver? || e.CancelArrives?
  }

  /** Until the loop at work is over, stopped or not, no number of kicks or starts begins another. */
  lemma {:induction false} EpisodeStaysAlone(p: Policy, s: State, events: seq<Event>)
    requires Inv(p, s) && LoopInFlight(s)
    requires forall i :: 0 <= i < |events| ==> !Ends(events[i])
    ensures var s' := Run(p, s, events);
            |s'.loops| == |s.loops| && LoopInFlight(s')
    decreases |events|
  {
    if events != [] {
      NextInv(p, s, events[0]);
      EpisodeStaysAlone(p, Next(p, s, events[0]), events[1..]);
    }
  }

  /** A kick with nothing in flight leads to a new loop as soon as its task runs. */
  lemma KickStartsLoop(p: Policy, s: State)
    requires Inv(p, s) && !LoopInFlight(s) && !KickInFlight(s)
    ensures var s' := Next(p, Next(p, s, Kick), KickerRuns(|s.kickers|));
            s'.loops == s.loops + [NewLoop(p)] && KickInFlight(s') && LoopInFlight(s')
  {
  }

  // -------------------------------------------------------------------------
  // The two objects
  // -------------------------------------------------------------------------

  class BackoffReconnector {
    const policy: Policy
    var loops: seq<Loop>
    var running: bool

    constructor (policy: Policy)
      ensures this.policy == policy && loops == [] && !running
    {
      this.policy := policy;
      loops, running := [], false;
    }

    /** `created` is false when a loop was in flight and the call returns at once. */
    method Start() returns (created: bool)
      modifies this
      ensures created == !LoopInFlight(State(old(loops), old(running), []))
      ensures State(loops, running, []) == Started(policy, State(old(loops), old(running), []))
    {
      if loops != [] && !loops[|loops| - 1].phase.Over? {
        return false;
      }
      running := true;
      loops := loops + [NewLoop(policy)];
      return true;
    }

    method StopLoop()
      modifies this
      ensures State(loops, running, []) == Stopping(State(old(loops), old(running), []))
    {
      running := false;
      if loops != [] && !loops[|loops| - 1].phase.Over? {
        loops := loops[|loops| - 1 := loops[|loops| - 1].(cancelled := true)];
      }
    }
  }

  class AMIReconnect {
    const reconnector: BackoffReconnector
    var kickers: seq<Kicker>

    ghost function View(): State
      reads this, reconnector
    {
      State(reconnector.loops, reconnector.running, kickers)
    }

    constructor (reconnector: BackoffReconnector)
      ensures this.reconnector == reconnector && kickers == []
    {
      this.reconnector := reconnector;
      kickers := [];
    }

    method Kick()
      modifies this
      ensures View() == Next(reconnector.policy, old(View()), Event.Kick)
    {
      if kickers != [] && kickers[|kickers| - 1] != Finished {
        return;
      }
      kickers := kickers + [Pending];
    }

    /** The task a kick made gets to run. */
    method RunTask(k: nat)
      requires k < |kickers| && kickers[k] == Pending
      modifies this, reconnector
      ensures View() == Next(reconnector.policy, old(View()), KickerRuns(k))
    {
      var created := reconnector.Start();
      kickers := kickers[k := if created then Awaiting(|reconnector.loops| - 1) else Finished];
    }
  }
}
