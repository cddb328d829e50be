/** What a modem provider knows about a modem, read off the list of what happened to the modem. */
module ModemHistory {
  import opened Options
  import opened Modems
  import opened History

  datatype Happening =
    | Told(report: Report, at: int)
    | Vanished(at: int)
    | CallFlag(up: bool)
    | SmsFlag(up: bool)

  function Struck(d: Device, h: Happening): Device {
    match h
    case Told(r, at) => Reported(d, r, at)
    case Vanished(at) => Gone(d, at)
    case CallFlag(up) => WithCall(d, up)
    case SmsFlag(up) => WithSms(d, up)
  }

  function After(start: int, hs: seq<Happening>): Device
    decreases |hs|
  {
    if hs == [] then NewDevice(start) else Struck(After(start, hs[..|hs| - 1]), hs[|hs| - 1])
  }

  // -------------------------------------------------------------------------
  // The last word on each field
  // -------------------------------------------------------------------------

  function OnRegistration(h: Happening): Option<bool> {
    match h
    case Told(r, _) => Some(r.registered)
    case Vanished(_) => Some(false)
    case _ => None
  }

  /** A report without the field is silent about it; a disappearance withdraws it. */
  function OnSignal(h: Happening): Option<Option<int>> {
    match h
    case Told(r, _) => if r.signal.Some? then Some(r.signal) else None
    case Vanished(_) => Some(None)
    case _ => None
  }

  function OnOperator(h: Happening): Option<Option<string>> {
    match h
    case Told(r, _) => if r.operator.Some? then Some(r.operator) else None
    case Vanished(_) => Some(None)
    case _ => None
  }

  function OnError(h: Happening): Option<Option<string>> {
    match h
    case Told(r, _) => if r.error.Some? then Some(r.error) else None
    case Vanished(_) => Some(None)
    case _ => None
  }

  function OnCall(h: Happening): Option<bool> {
    if h.CallFlag? then Some(h.up) else None
  }

  function OnSms(h: Happening): Option<bool> {
    if h.SmsFlag? then Some(h.up) else None
  }

  function OnSighting(h: Happening): Option<int> {
    if h.Told? || h.Vanished? then Some(h.at) else None
  }

  ghost predicate Remembers(d: Device, start: int, hs: seq<Happening>) {
    && LastWord(hs, OnRegistration, false, d.registered)
    && LastWord(hs, OnSignal, None, d.signal)
    && LastWord(hs, OnOperator, None, d.operator)
    && LastWord(hs, OnError, None, d.error)
    && LastWord(hs, OnCall, false, d.callActive)
    && LastWord(hs, OnSms, false, d.smsActive)
    && LastWord(hs, OnSighting, start, d.lastSeen)
  }

  lemma StruckSays(d: Device, h: Happening)
    ensures var r := Struck(d, h);
            && r.registered == (if OnRegistration(h).Some? then OnRegistration(h).value else d.registered)
            && r.signal == (if OnSignal(h).Some? then OnSignal(h).value else d.signal)
            && r.operator == (if OnOperator(h).Some? then OnOperator(h).value else d.operator)
            && r.error == (if OnError(h).Some? then OnError(h).value else d.error)
            && r.callActive == (if OnCall(h).Some? then OnCall(h).value else d.callActive)
            && r.smsActive == (if OnSms(h).Some? then OnSms(h).value else d.smsActive)
            && r.lastSeen == (if OnSighting(h).Some? then OnSighting(h).value else d.lastSeen)
            && r.state == DerivedState(r)
  {
  }

  /** Every field of the provider's record is the last word on it. */
  lemma {:induction false} RecordsLastWords(start: int, hs: seq<Happening>)
    ensures Remembers(After(start, hs), start, hs)
    decreases |hs|
  {
    if hs != [] {
      var less, h := hs[..|hs| - 1], hs[|hs| - 1];
      var d := After(start, less);
      RecordsLastWords(start, less);
      StruckSays(d, h);
      assert hs == less + [h];
      hide Struck, LastWord, OnRegistration, OnSignal, OnOperator, OnError, OnCall, OnSms, OnSighting;
      WordKept(less, h, OnRegistration, false, d.registered);
      WordKept(less, h, OnSignal, None, d.signal);
      WordKept(less, h, OnOperator, None, d.operator);
      WordKept(less, h, OnError, None, d.error);
      WordKept(less, h, OnCall, false, d.callActive);
      WordKept(less, h, OnSms, false, d.smsActive);
      WordKept(less, h, OnSighting, start, d.lastSeen);
    }
  }

  // -------------------------------------------------------------------------
  // When a modem can be selected
  // -------------------------------------------------------------------------

  /** Since happening number `k` no report and no disappearance. */
  ghost predicate LastSighting(hs: seq<Happening>, k: int) {
    0 <= k < |hs| && (hs[k].Told? || hs[k].Vanished?) && forall j :: k < j < |hs| ==> !hs[j].Told? && !hs[j].Vanished?
  }

  ghost predicate LastCallFlag(hs: seq<Happening>, k: int) {
    0 <= k < |hs| && hs[k].CallFlag? && forall j :: k < j < |hs| ==> !hs[j].CallFlag?
  }

  ghost predicate LastSmsFlag(hs: seq<Happening>, k: int) {
    0 <= k < |hs| && hs[k].SmsFlag? && forall j :: k < j < |hs| ==> !hs[j].SmsFlag?
  }

  /** A report with an error text that no later report replaced and no disappearance withdrew. */
  ghost predicate StandingError(hs: seq<Happening>, k: int) {
    && 0 <= k < |hs| && hs[k].Told? && hs[k].report.error.Some? && hs[k].report.error.value != ""
    && forall j :: k < j < |hs| ==> !hs[j].Vanished? && (hs[j].Told? ==> hs[j].report.error.None?)
  }

  ghost predicate OnNetwork(hs: seq<Happening>) {
    exists k :: LastSighting(hs, k) && hs[k].Told? && hs[k].report.registered
  }

  ghost predicate Faulty(hs: seq<Happening>) {
    exists k :: StandingError(hs, k)
  }

  ghost predicate OnCallNow(hs: seq<Happening>) {
    exists k :: LastCallFlag(hs, k) && hs[k].up
  }

  ghost predicate SendingNow(hs: seq<Happening>) {
    exists k :: LastSmsFlag(hs, k) && hs[k].up
  }

  lemma RegistrationRead(hs: seq<Happening>, value: bool)
    requires LastWord(hs, OnRegistration, false, value)
    ensures value <==> OnNetwork(hs)
  {
    if value {
      var k :| 0 <= k < |hs| && OnRegistration(hs[k]) == Some(value)
               && forall j :: k < j < |hs| ==> OnRegistration(hs[j]).None?;
      assert LastSighting(hs, k);
    }
    if OnNetwork(hs) {
      var k :| LastSighting(hs, k) && hs[k].Told? && hs[k].report.registered;
      assert OnRegistration(hs[k]) == Some(true);
      assert LastWord(hs, OnRegistration, false, true);
    }
  }

  lemma ErrorRead(hs: seq<Happening>, value: Option<string>)
    requires LastWord(hs, OnError, None, value)
    ensures value.Some? && value.value != "" <==> Faulty(hs)
  {
    if value.Some? && value.value != "" {
      var k :| 0 <= k < |hs| && OnError(hs[k]) == Some(value)
               && forall j :: k < j < |hs| ==> OnError(hs[j]).None?;
      assert StandingError(hs, k);
    }
  }

  lemma FlagsRead(hs: seq<Happening>, call: bool, sms: bool)
    requires LastWord(hs, OnCall, false, call) && LastWord(hs, OnSms, false, sms)
    ensures call <==> OnCallNow(hs)
    ensures sms <==> SendingNow(hs)
  {
    if call {
      var k :| 0 <= k < |hs| && OnCall(hs[k]) == Some(call) && forall j :: k < j < |hs| ==> OnCall(hs[j]).None?;
      assert LastCallFlag(hs, k);
    }
    if OnCallNow(hs) {
      var k :| LastCallFlag(hs, k) && hs[k].up;
      assert OnCall(hs[k]) == Some(true);
      assert LastWord(hs, OnCall, false, true);
    }
    if sms {
      var k :| 0 <= k < |hs| && OnSms(hs[k]) == Some(sms) && forall j :: k < j < |hs| ==> OnSms(hs[j]).None?;
      assert LastSmsFlag(hs, k);
    }
    if SendingNow(hs) {
      var k :| LastSmsFlag(hs, k) && hs[k].up;
      assert OnSms(hs[k]) == Some(true);
      assert LastWord(hs, OnSms, false, true);
    }
  }

  /** After anything that happened, a modem is ready exactly when the last time it was seen it was
      registered, no error stands, and neither activity flag is up. */
  lemma ReadyByHistory(start: int, hs: seq<Happening>)
    ensures After(start, hs).state == Ready
            <==> OnNetwork(hs) && !Faulty(hs) && !OnCallNow(hs) && !SendingNow(hs)
  {
    var d := After(start, hs);
    RecordsLastWords(start, hs);
    RegistrationRead(hs, d.registered);
    ErrorRead(hs, d.error);
    FlagsRead(hs, d.callActive, d.smsActive);
    hide LastWord, OnNetwork, Faulty, OnCallNow, SendingNow;
    if hs != [] { StruckSays(After(start, hs[..|hs| - 1]), hs[|hs| - 1]); }
  }

  /** The pool offers a modem exactly when it is unreserved and ready by its history. */
  lemma SelectableByHistory(p: Pool, m: string, start: int, hs: seq<Happening>)
    requires m in p.devices && p.devices[m] == After(start, hs)
    ensures m in Available(p)
            <==> m !in p.reserved && OnNetwork(hs) && !Faulty(hs) && !OnCallNow(hs) && !SendingNow(hs)
  {
    ReadyByHistory(start, hs);
    hide After, OnNetwork, Faulty, OnCallNow, SendingNow;
  }

  // -------------------------------------------------------------------------
  // The optional fields and the other states
  // -------------------------------------------------------------------------

  ghost predicate StandingSignal(hs: seq<Happening>, k: int, percent: int) {
    && 0 <= k < |hs| && hs[k].Told? && hs[k].report.signal == Some(percent)
    && forall j :: k < j < |hs| ==> !hs[j].Vanished? && (hs[j].Told? ==> hs[j].report.signal.None?)
  }

  ghost predicate StandingOperator(hs: seq<Happening>, k: int, name: string) {
    && 0 <= k < |hs| && hs[k].Told? && hs[k].report.operator == Some(name)
    && forall j :: k < j < |hs| ==> !hs[j].Vanished? && (hs[j].Told? ==> hs[j].report.operator.None?)
  }

  /** The signal is the last one reported since the modem was last gone, or none. */
  lemma SignalByHistory(start: int, hs: seq<Happening>, percent: int)
    ensures After(start, hs).signal == Some(percent) <==> exists k :: StandingSignal(hs, k, percent)
  {
    var d := After(start, hs);
    RecordsLastWords(start, hs);
    hide After;
    if d.signal == Some(percent) {
      var k :| 0 <= k < |hs| && OnSignal(hs[k]) == Some(d.signal)
               && forall j :: k < j < |hs| ==> OnSignal(hs[j]).None?;
      assert StandingSignal(hs, k, percent);
    }
    forall k | StandingSignal(hs, k, percent) ensures d.signal == Some(percent) {
      assert OnSignal(hs[k]) == Some(Some(percent));
      assert LastWord(hs, OnSignal, None, Some(percent));
      OneLastWord(hs, OnSignal, None, d.signal, Some(percent));
    }
  }

  /** So is the operator. */
  lemma OperatorByHistory(start: int, hs: seq<Happening>, name: string)
    ensures After(start, hs).operator == Some(name) <==> exists k :: StandingOperator(hs, k, name)
  {
    var d := After(start, hs);
    RecordsLastWords(start, hs);
    hide After;
    if d.operator == Some(name) {
      var k :| 0 <= k < |hs| && OnOperator(hs[k]) == Some(d.operator)
               && forall j :: k < j < |hs| ==> OnOperator(hs[j]).None?;
      assert StandingOperator(hs, k, name);
    }
    forall k | StandingOperator(hs, k, name) ensures d.operator == Some(name) {
      assert OnOperator(hs[k]) == Some(Some(name));
      assert LastWord(hs, OnOperator, None, Some(name));
      OneLastWord(hs, OnOperator, None, d.operator, Some(name));
    }
  }

  /** The other states, on a clock that shows positive times. */
  lemma StateByHistory(start: int, hs: seq<Happening>)
    requires start > 0 && forall i :: 0 <= i < |hs| && (hs[i].Told? || hs[i].Vanished?) ==> hs[i].at > 0
    ensures var d := After(start, hs);
            var lost := !Faulty(hs) && !OnNetwork(hs);
            && (d.state == Error <==> Faulty(hs))
            && (d.state == CallBusy <==> !Faulty(hs) && OnNetwork(hs) && OnCallNow(hs))
            && (d.state == SmsBusy <==> !Faulty(hs) && OnNetwork(hs) && !OnCallNow(hs) && SendingNow(hs))
            && (d.state == Initializing <==> hs != [] && lost && d.signal.Some?)
            && (d.state == Offline <==> hs == [] || (lost && d.signal.None?))
  {
    var d := After(start, hs);
    RecordsLastWords(start, hs);
    RegistrationRead(hs, d.registered);
    ErrorRead(hs, d.error);
    FlagsRead(hs, d.callActive, d.smsActive);
    assert d.lastSeen > 0;
    hide LastWord, OnNetwork, Faulty, OnCallNow, SendingNow;
    if hs != [] { StruckSays(After(start, hs[..|hs| - 1]), hs[|hs| - 1]); }
  }
}
