/** The life of one voice call: states, the per-direction transition tables, the
    effect of a transition on the record and on the metrics counters. */
module Calls {
  import opened Options

  type CallId = string

  datatype Direction = Incoming | Outgoing

  datatype CallState =
    | Idle | HungUp | Cleanup | Rejected
    | Ringing | TelegramRinging | TelegramAccepted | GsmAnswered | Voicemail
    | Requested | AclChecked | AclDenied | ModemReserved | TelegramCalling | UserAccepted
    | GsmDialing | GsmRinging | GsmBusy | GsmNoAnswer | GsmError | Connected | TelegramTimeout
    | Bridged

  /** `since` is the entry time of the current state; an empty channel name means no channel. */
  datatype Call = Call(
    direction: Direction,
    modem: string,
    state: CallState,
    since: int,
    bridgedAt: Option<int>,
    gsmChannel: string,
    bridgeChannel: string)

  function IncomingSuccessors(s: CallState): set<CallState> {
    match s
    case Idle => {Ringing}
    case Ringing => {TelegramRinging, Rejected, HungUp, Voicemail}
    case TelegramRinging => {TelegramAccepted, Rejected, HungUp, Voicemail}
    case TelegramAccepted => {GsmAnswered, HungUp}
    case GsmAnswered => {Bridged, HungUp}
    case Bridged => {HungUp}
    case HungUp => {Cleanup}
    case Voicemail => {HungUp}
    case _ => {}
  }

  function OutgoingSuccessors(s: CallState): set<CallState> {
    match s
    case Idle => {Requested}
    case Requested => {AclChecked, Rejected}
    case AclChecked => {AclDenied, ModemReserved}
    case ModemReserved => {TelegramCalling, Rejected, TelegramTimeout}
    case TelegramCalling => {UserAccepted, Rejected, TelegramTimeout}
    case UserAccepted => {GsmDialing, HungUp}
    case GsmDialing => {GsmRinging, GsmBusy, GsmNoAnswer, GsmError, HungUp}
    case GsmRinging => {Connected, GsmNoAnswer, GsmError, HungUp}
    case Connected => {Bridged, HungUp}
    case Bridged => {HungUp}
    case HungUp => {Cleanup}
    case _ => {}
  }

  predicate CanMove(d: Direction, s: CallState, t: CallState) {
    t in (if d.Outgoing? then OutgoingSuccessors(s) else IncomingSuccessors(s))
  }

  predicate Terminal(s: CallState) {
    s in {Cleanup, Rejected, HungUp, Voicemail, AclDenied, TelegramTimeout, GsmBusy, GsmNoAnswer, GsmError}
  }

  /** The record after an allowed transition to `t` at time `now`. */
  function Moved(c: Call, t: CallState, now: int): Call {
    c.(state := t, since := now, bridgedAt := if t.Bridged? then Some(now) else c.bridgedAt)
  }

  /** An outgoing call to an in-network extension carries no modem. */
  predicate Holds(c: Call) {
    c.direction.Outgoing? && c.modem != ""
  }

  function Channels(c: Call): nat {
    (if c.gsmChannel != "" then 1 else 0) + (if c.bridgeChannel != "" then 1 else 0)
  }

  // -------------------------------------------------------------------------
  // Metrics
  // -------------------------------------------------------------------------

  datatype Counters = Counters(
    incomingAnswered: nat,
    incomingRejected: nat,
    incomingVoicemail: nat,
    incomingTimeout: nat,
    outgoingAnswered: nat,
    outgoingFailed: nat,
    outgoingTimeout: nat,
    answeredSeconds: int,
    answeredCompleted: nat)

  const ZERO_COUNTERS := Counters(0, 0, 0, 0, 0, 0, 0, 0, 0)

  /** The transition hook: `c` is the record after the transition. */
  function Counted(m: Counters, c: Call, now: int): Counters {
    match c.state
    case Bridged =>
      if c.direction.Incoming? then m.(incomingAnswered := m.incomingAnswered + 1)
      else m.(outgoingAnswered := m.outgoingAnswered + 1)
    case Rejected =>
      if c.direction.Incoming? then m.(incomingRejected := m.incomingRejected + 1) else m
    case Voicemail => m.(incomingVoicemail := m.incomingVoicemail + 1)
    case TelegramTimeout => m.(outgoingTimeout := m.outgoingTimeout + 1)
    case GsmBusy => m.(outgoingFailed := m.outgoingFailed + 1)
    case GsmNoAnswer => m.(outgoingFailed := m.outgoingFailed + 1)
    case GsmError => m.(outgoingFailed := m.outgoingFailed + 1)
    case HungUp =>
      if c.bridgedAt.Some? && now - c.bridgedAt.value > 0 then
        m.(answeredSeconds := m.answeredSeconds + (now - c.bridgedAt.value),
           answeredCompleted := m.answeredCompleted + 1)
      else m
    case _ => m
  }

  // -------------------------------------------------------------------------
  // Bounded lives
  // -------------------------------------------------------------------------

  /** A height in the transition graph of each direction. */
  function Rank(d: Direction, s: CallState): nat {
    match d
    case Incoming => (
      match s
      case Idle => 0
      case Ringing => 1
      case TelegramRinging => 2
      case TelegramAccepted => 3
      case GsmAnswered => 4
      case Bridged => 5
      case Voicemail => 5
      case HungUp => 6
      case _ => 7)
    case Outgoing => (
      match s
      case Idle => 0
      case Requested => 1
      case AclChecked => 2
      case ModemReserved => 3
      case TelegramCalling => 4
      case UserAccepted => 5
      case GsmDialing => 6
      case GsmRinging => 7
      case Connected => 8
      case Bridged => 9
      case HungUp => 10
      case _ => 11)
  }

  function MaxMoves(d: Direction): nat {
    if d.Incoming? then 7 else 11
  }

  /** The states a call goes through, one transition at a time. */
  ghost predicate Trail(d: Direction, p: seq<CallState>) {
    && |p| > 0
    && p[0] == Idle
    && forall i :: 0 < i < |p| ==> CanMove(d, p[i - 1], p[i])
  }

  lemma RankRises(d: Direction, s: CallState, t: CallState)
    requires CanMove(d, s, t)
    ensures Rank(d, s) < Rank(d, t) <= MaxMoves(d)
  {
  }

  lemma {:induction false} TrailClimbs(d: Direction, p: seq<CallState>, i: nat, j: nat)
    requires Trail(d, p) && i < j < |p|
    ensures Rank(d, p[i]) + (j - i) <= Rank(d, p[j])
    decreases j
  {
    assert CanMove(d, p[j - 1], p[j]);
    RankRises(d, p[j - 1], p[j]);
    if i < j - 1 {
      TrailClimbs(d, p, i, j - 1);
    }
  }

  /** A longest life for each direction. */
  function LongestTrail(d: Direction): seq<CallState> {
    match d
    case Incoming =>
      [Idle, Ringing, TelegramRinging, TelegramAccepted, GsmAnswered, Bridged, HungUp, Cleanup]
    case Outgoing =>
      [Idle, Requested, AclChecked, ModemReserved, TelegramCalling, UserAccepted, GsmDialing,
       GsmRinging, Connected, Bridged, HungUp, Cleanup]
  }

  /** Every call makes at most 7 (incoming) or 11 (outgoing) transitions, never enters a state
      twice, and the bound is reached. */
  lemma TrailBounded(d: Direction, p: seq<CallState>)
    requires Trail(d, p)
    ensures |p| - 1 <= MaxMoves(d)
    ensures forall i, j :: 0 <= i < j < |p| ==> p[i] != p[j]
    ensures Trail(d, LongestTrail(d)) && |LongestTrail(d)| - 1 == MaxMoves(d)
  {
    if |p| > 1 {
      TrailClimbs(d, p, 0, |p| - 1);
      RankRises(d, p[|p| - 2], p[|p| - 1]);
    }
    forall i, j | 0 <= i < j < |p| ensures p[i] != p[j] {
      TrailClimbs(d, p, i, j);
    }
  }

  /** The states whose entry the transition hook turns into an outcome counter. */
  predicate OutcomeState(s: CallState) {
    s in {Bridged, Rejected, Voicemail, TelegramTimeout, GsmBusy, GsmNoAnswer, GsmError}
  }

  lemma {:induction false} AfterOutcome(d: Direction, p: seq<CallState>, i: nat, j: nat)
    requires Trail(d, p) && i < j < |p| && OutcomeState(p[i])
    ensures p[j] in {HungUp, Cleanup}
    decreases j
  {
    assert CanMove(d, p[j - 1], p[j]);
    if i < j - 1 {
      AfterOutcome(d, p, i, j - 1);
    }
  }

  /** No life enters two outcome states, whatever drives the transitions. */
  lemma AtMostOneOutcome(d: Direction, p: seq<CallState>, i: nat, j: nat)
    requires Trail(d, p) && i < |p| && j < |p|
    requires OutcomeState(p[i]) && OutcomeState(p[j])
    ensures i == j
  {
    if i < j {
      AfterOutcome(d, p, i, j);
    } else if j < i {
      AfterOutcome(d, p, j, i);
    }
  }

  // -------------------------------------------------------------------------
  // No step is skipped
  // -------------------------------------------------------------------------

  /** The states on the way to a bridged call, in their only possible order. */
  function Way(d: Direction): seq<CallState> {
    match d
    case Incoming => [Idle, Ringing, TelegramRinging, TelegramAccepted, GsmAnswered, Bridged]
    case Outgoing =>
      [Idle, Requested, AclChecked, ModemReserved, TelegramCalling, UserAccepted, GsmDialing, GsmRinging,
       Connected, Bridged]
  }

  lemma WayStep(d: Direction, s: CallState, i: nat)
    requires 0 < i < |Way(d)|
    ensures CanMove(d, s, Way(d)[i]) <==> s == Way(d)[i - 1]
  {
  }

  lemma WayStart(d: Direction, s: CallState)
    ensures !CanMove(d, s, Idle) && Way(d)[0] == Idle
  {
  }

  /** A life that is at the i-th state of the way went through all the earlier ones, in order and
      through nothing else. */
  lemma {:induction false} NoStepSkipped(d: Direction, p: seq<CallState>, i: nat)
    requires Trail(d, p) && i < |Way(d)| && p[|p| - 1] == Way(d)[i]
    ensures p == Way(d)[..i + 1]
    decreases |p|
  {
    var n := |p| - 1;
    WayStart(d, if n > 0 then p[n - 1] else Idle);
    if n == 0 {
      if i > 0 { WayStep(d, Idle, i); WayDistinct(d, i); }
    } else {
      assert CanMove(d, p[n - 1], p[n]);
      WayStep(d, p[n - 1], i);
      assert p[..n][|p[..n]| - 1] == p[n - 1];
      NoStepSkipped(d, p[..n], i - 1);
      assert p == p[..n] + [p[n]];
    }
  }

  lemma WayDistinct(d: Direction, i: nat)
    requires 0 < i < |Way(d)|
    ensures Way(d)[i] != Idle
  {
  }

  /** From where each way of ending is open: the tables read backwards. */
  lemma EndsFrom(d: Direction, s: CallState)
    ensures CanMove(d, s, HungUp) <==>
      if d.Incoming? then s in {Ringing, TelegramRinging, TelegramAccepted, GsmAnswered, Bridged, Voicemail}
      else s in {UserAccepted, GsmDialing, GsmRinging, Connected, Bridged}
    ensures CanMove(d, s, Rejected) <==>
      if d.Incoming? then s in {Ringing, TelegramRinging} else s in {Requested, ModemReserved, TelegramCalling}
    ensures CanMove(d, s, Voicemail) <==> d.Incoming? && s in {Ringing, TelegramRinging}
    ensures CanMove(d, s, TelegramTimeout) <==> d.Outgoing? && s in {ModemReserved, TelegramCalling}
    ensures CanMove(d, s, AclDenied) <==> d.Outgoing? && s == AclChecked
    ensures CanMove(d, s, GsmBusy) <==> d.Outgoing? && s == GsmDialing
    ensures CanMove(d, s, GsmNoAnswer) || CanMove(d, s, GsmError) <==> d.Outgoing? && s in {GsmDialing, GsmRinging}
    ensures CanMove(d, s, GsmNoAnswer) <==> CanMove(d, s, GsmError)
    ensures CanMove(d, s, Cleanup) <==> s == HungUp
  {
  }

  /** A call has ended when nothing but hanging up and cleaning up can follow, a conversation excepted. */
  lemma TerminalExactly(s: CallState)
    ensures Terminal(s) <==> s != Bridged && forall d, t :: CanMove(d, s, t) ==> t in {HungUp, Cleanup}
  {
    if !Terminal(s) && s != Bridged {
      var d := if CanMove(Incoming, s, NextOnWay(Incoming, s)) then Incoming else Outgoing;
      assert CanMove(d, s, NextOnWay(d, s));
    }
  }

  /** The state behind `s` on the way to the bridge. */
  function NextOnWay(d: Direction, s: CallState): CallState {
    match d
    case Incoming =>
      (match s case Idle => Ringing case Ringing => TelegramRinging case TelegramRinging => TelegramAccepted
               case TelegramAccepted => GsmAnswered case _ => Bridged)
    case Outgoing =>
      (match s case Idle => Requested case Requested => AclChecked case AclChecked => ModemReserved
               case ModemReserved => TelegramCalling case TelegramCalling => UserAccepted
               case UserAccepted => GsmDialing case GsmDialing => GsmRinging case GsmRinging => Connected
               case _ => Bridged)
  }
}
