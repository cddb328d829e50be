/** The AMI client as a shared stream: any number of coroutines connect, send commands and
    close, each suspended at its awaits while the others run. */
module AmiStream {
  import opened Options

  type StreamId = nat

  datatype Operation = Connect | Command | Close

  /** Where a coroutine is suspended. All but the first hold the transaction lock. */
  datatype Point =
    | AtLock(op: Operation, valid: bool)   // `valid`: no newline in the command's fields
    | AtOpen
    | AtGreeting
    | AtLoginWrite
    | AtLoginRead
    | AtCommandWrite
    | AtCommandRead
    | AtClosed

  /** What passes over the sockets, in order. */
  datatype Traffic =
    | Opened(s: StreamId)
    | LoginSent(s: StreamId)
    | LoginAccepted(s: StreamId)
    | CommandSent(s: StreamId)

  /** How an await ends: normally, by an exception or cancellation, or by the read timeout. */
  datatype Result = Returned | Raised | TimedOut

  datatype Client = Client(
    reader: Option<StreamId>,
    writer: Option<StreamId>,
    lock: Option<nat>,
    points: map<nat, Point>,
    nextStream: StreamId,
    traffic: seq<Traffic>)

  const FRESH_CLIENT := Client(None, None, None, map[], 0, [])

  datatype Event =
    | Start(k: nat, op: Operation, valid: bool)
    | Acquire(k: nat)
    | Abandon(k: nat)                                   // cancelled while waiting for the lock
    | OpenReturns(k: nat, r: Result)
    | GreetingReturns(k: nat, r: Result, empty: bool)
    | LoginWritten(k: nat, r: Result)
    | LoginLine(k: nat, r: Result, complete: bool, accepted: bool)
    | CommandWritten(k: nat, r: Result)
    | CommandLine(k: nat, r: Result, complete: bool)
    | CloseReturns(k: nat)

  /** Leaving the `async with` block. */
  function Left(c: Client, k: nat): Client {
    c.(lock := None, points := c.points - {k})
  }

  function Dropped(c: Client): Client {
    c.(reader := None, writer := None)
  }

  function At(c: Client, k: nat, p: Point): Client {
    c.(points := c.points[k := p])
  }

  function Sent(c: Client, t: Traffic): Client {
    c.(traffic := c.traffic + [t])
  }

  /** The lock is taken and the operation runs up to its next await. */
  function Entered(c: Client, k: nat, op: Operation, valid: bool): Client {
    var c1 := c.(lock := Some(k));
    match op
    case Connect => At(c1, k, AtOpen)
    case Command =>
      if c.writer.None? || !valid then Left(c1, k)
      else At(Sent(c1, CommandSent(c.writer.value)), k, AtCommandWrite)
    case Close =>
      if c.writer.None? then Left(Dropped(c1), k) else At(Dropped(c1), k, AtClosed)
  }

  predicate IsAt(c: Client, k: nat, p: Point) {
    k in c.points && c.points[k] == p
  }

  /** One event; an event that does not fit leaves the client unchanged. */
  function Next(c: Client, e: Event): Client {
    match e
    case Start(k, op, valid) => if k in c.points then c else At(c, k, AtLock(op, valid))
    case Acquire(k) =>
      if c.lock.None? && k in c.points && c.points[k].AtLock?
      then Entered(c, k, c.points[k].op, c.points[k].valid) else c
    case Abandon(k) =>
      if k in c.points && c.points[k].AtLock? then c.(points := c.points - {k}) else c
    case OpenReturns(k, r) =>
      if !IsAt(c, k, AtOpen) then c
      else if r != Returned then Left(c, k)
      else
        var s := c.nextStream;
        At(Sent(c.(reader := Some(s), writer := Some(s), nextStream := s + 1), Opened(s)), k, AtGreeting)
    case GreetingReturns(k, r, empty) =>
      if !IsAt(c, k, AtGreeting) then c
      else if r != Returned || empty || c.writer.None? then Left(Dropped(c), k)
      else At(Sent(c, LoginSent(c.writer.value)), k, AtLoginWrite)
    case LoginWritten(k, r) =>
      if !IsAt(c, k, AtLoginWrite) then c
      else if r != Returned || c.reader.None? then Left(Dropped(c), k)
      else At(c, k, AtLoginRead)
    case LoginLine(k, r, complete, accepted) =>
      if !IsAt(c, k, AtLoginRead) then c
      else if r != Returned || c.reader.None? then Left(Dropped(c), k)
      else if !complete then c
      else if accepted then Left(Sent(c, LoginAccepted(c.reader.value)), k)
      else Left(Dropped(c), k)
    case CommandWritten(k, r) =>
      if !IsAt(c, k, AtCommandWrite) then c
      else if r != Returned || c.reader.None? then Left(c, k)
      else At(c, k, AtCommandRead)
    case CommandLine(k, r, complete) =>
      if !IsAt(c, k, AtCommandRead) then c
      else if r == TimedOut then Left(Dropped(c), k)
      else if r == Raised || complete then Left(c, k)
      else c
    case CloseReturns(k) => if IsAt(c, k, AtClosed) then Left(c, k) else c
  }

  function Run(c: Client, events: seq<Event>): Client
    decreases |events|
  {
    if events == [] then c else Next(Run(c, events[..|events| - 1]), events[|events| - 1])
  }

  // -------------------------------------------------------------------------
  // Safety
  // -------------------------------------------------------------------------

  predicate PastLock(c: Client, k: nat) {
    k in c.points && !c.points[k].AtLock?
  }

  predicate Reading(p: Point) {
    p in {AtGreeting, AtLoginRead, AtCommandRead}
  }

  /** Absent, or present and logged in. */
  ghost predicate Settled(c: Client) {
    && c.reader == c.writer
    && (c.reader.Some? ==> LoginAccepted(c.reader.value) in c.traffic)
  }

  /** The streams, seen from where the lock's holder is. */
  ghost predicate Consistent(c: Client, p: Point) {
    match p
    case AtOpen => Settled(c)
    case AtGreeting => c.reader == c.writer && c.reader.Some?
    case AtLoginWrite => c.reader == c.writer && c.reader.Some? && LoginSent(c.reader.value) in c.traffic
    case AtLoginRead => c.reader == c.writer && c.reader.Some? && LoginSent(c.reader.value) in c.traffic
    case AtCommandWrite => Settled(c) && c.reader.Some?
    case AtCommandRead => Settled(c) && c.reader.Some?
    case AtClosed => c.reader.None? && c.writer.None?
    case AtLock(_, _) => false
  }

  /** Every command went out on a stream whose login had been accepted, and every accepted
      login had been sent. */
  ghost predicate Authenticated(t: seq<Traffic>) {
    && (forall i :: 0 <= i < |t| && t[i].CommandSent? ==> LoginAccepted(t[i].s) in t[..i])
    && (forall i :: 0 <= i < |t| && t[i].LoginAccepted? ==> LoginSent(t[i].s) in t[..i])
  }

  ghost predicate Inv(c: Client) {
    && (forall k :: k in c.points && c.lock != Some(k) ==> c.points[k].AtLock?)
    && Authenticated(c.traffic)
    && (match c.lock
        case None => Settled(c)
        case Some(k) => k in c.points && Consistent(c, c.points[k]))
  }

  lemma SentAuthenticated(t: seq<Traffic>, x: Traffic)
    requires Authenticated(t)
    requires x.CommandSent? ==> LoginAccepted(x.s) in t
    requires x.LoginAccepted? ==> LoginSent(x.s) in t
    ensures Authenticated(t + [x])
    ensures forall y :: y in t + [x] <==> y in t || y == x
  {
    forall i | 0 <= i < |t + [x]| ensures (t + [x])[..i] == t[..i] { }
    assert t[..|t|] == t;
  }

  lemma AcquireInv(c: Client, k: nat)
    requires Inv(c)
    ensures Inv(Next(c, Acquire(k)))
  {
    hide Authenticated;
    if c.lock.None? && k in c.points && c.points[k].AtLock? {
      EnteredInv(c, k, c.points[k].op, c.points[k].valid);
    }
  }

  lemma EnteredInv(c: Client, k: nat, op: Operation, valid: bool)
    requires Inv(c) && c.lock.None? && k in c.points
    ensures Inv(Entered(c, k, op, valid))
  {
    match op
    case Connect => hide Authenticated;
    case Command => CommandInv(c, k, valid);
    case Close => hide Authenticated;
  }

  lemma CommandInv(c: Client, k: nat, valid: bool)
    requires Inv(c) && c.lock.None? && k in c.points
    ensures Inv(Entered(c, k, Command, valid))
  {
    if c.writer.Some? && valid {
      CommandGoesOut(c, k);
    } else {
      hide Authenticated, Settled;
    }
  }

  lemma CommandGoesOut(c: Client, k: nat)
    requires Inv(c) && c.lock.None? && k in c.points && c.writer.Some?
    ensures Inv(At(Sent(c.(lock := Some(k)), CommandSent(c.writer.value)), k, AtCommandWrite))
  {
    SentAuthenticated(c.traffic, CommandSent(c.writer.value));
    hide Authenticated;
  }

  lemma NextInv(c: Client, e: Event)
    requires Inv(c)
    ensures Inv(Next(c, e))
  {
    var t := c.traffic;
    hide Authenticated;
    match e
    case Acquire(k) => AcquireInv(c, k);
    case OpenReturns(k, r) => SentAuthenticated(t, Opened(c.nextStream));
    case GreetingReturns(k, r, empty) =>
      if c.writer.Some? { SentAuthenticated(t, LoginSent(c.writer.value)); }
    case LoginLine(k, r, complete, accepted) =>
      if IsAt(c, k, AtLoginRead) { SentAuthenticated(t, LoginAccepted(c.reader.value)); }
    case _ =>
  }

  lemma {:induction false} RunInv(events: seq<Event>)
    ensures Inv(Run(FRESH_CLIENT, events))
    decreases |events|
  {
    if events != [] {
      RunInv(events[..|events| - 1]);
      NextInv(Run(FRESH_CLIENT, events[..|events| - 1]), events[|events| - 1]);
    }
  }

  /** Whatever the interleaving, the timeouts and the cancellations: at most one coroutine is
      past the lock, so at most one reads the stream; whenever the lock is free the streams are
      both absent or both present and logged in. */
  lemma OneReaderAndNoHalfOpenSocket(events: seq<Event>)
    ensures var c := Run(FRESH_CLIENT, events);
            && (forall j, k :: PastLock(c, j) && PastLock(c, k) ==> j == k)
            && (forall k :: k in c.points && Reading(c.points[k]) ==> PastLock(c, k))
            && (forall k :: k in c.points && Reading(c.points[k]) ==> c.reader.Some?)
            && (c.lock.None? ==>
                  c.reader == c.writer && (c.reader.Some? ==> LoginAccepted(c.reader.value) in c.traffic))
  {
    RunInv(events);
  }

  /** No command is ever sent on a stream whose login was not accepted before. */
  lemma NoCommandBeforeLogin(events: seq<Event>, i: nat)
    requires i < |Run(FRESH_CLIENT, events).traffic| && Run(FRESH_CLIENT, events).traffic[i].CommandSent?
    ensures var t := Run(FRESH_CLIENT, events).traffic;
            exists j, l :: 0 <= l < j < i && t[j] == LoginAccepted(t[i].s) && t[l] == LoginSent(t[i].s)
  {
    RunInv(events);
    var t := Run(FRESH_CLIENT, events).traffic;
    var j :| 0 <= j < i && t[j] == LoginAccepted(t[i].s);
    assert LoginSent(t[j].s) in t[..j];
    var l :| 0 <= l < j && t[l] == LoginSent(t[j].s);
  }

  // -------------------------------------------------------------------------
  // What an undisturbed operation does
  // -------------------------------------------------------------------------

  /** A connection attempt that finds the lock free opens a new stream and logs in on it; the client
      ends up with that stream if the login was accepted, and with none if it was refused. */
  lemma ConnectRuns(c: Client, k: nat, accepted: bool)
    requires c.lock.None? && k !in c.points
    ensures var c1 := Next(Next(c, Start(k, Connect, true)), Acquire(k));
            var c2 := Next(Next(c1, OpenReturns(k, Returned)), GreetingReturns(k, Returned, false));
            var r := Next(Next(c2, LoginWritten(k, Returned)), LoginLine(k, Returned, true, accepted));
            var s := c.nextStream;
            && r.lock.None? && r.points == c.points && r.nextStream == s + 1
            && (if accepted
                then r.reader == Some(s) && r.writer == Some(s)
                     && r.traffic == c.traffic + [Opened(s), LoginSent(s), LoginAccepted(s)]
                else r.reader.None? && r.writer.None? && r.traffic == c.traffic + [Opened(s), LoginSent(s)])
  {
    OpensStream(c, k);
    hide Next;
    LogsIn(Greeted(c, k), k, c.nextStream, accepted);
    assert c.points[k := AtLoginWrite] - {k} == c.points;
    assert c.traffic + [Opened(c.nextStream), LoginSent(c.nextStream)] + [LoginAccepted(c.nextStream)]
        == c.traffic + [Opened(c.nextStream), LoginSent(c.nextStream), LoginAccepted(c.nextStream)];
  }

  /** The new stream is greeted and the login is on its way. */
  function Greeted(c: Client, k: nat): Client {
    var s := c.nextStream;
    Client(Some(s), Some(s), Some(k), c.points[k := AtLoginWrite], s + 1, c.traffic + [Opened(s), LoginSent(s)])
  }

  lemma OpensStream(c: Client, k: nat)
    requires c.lock.None? && k !in c.points
    ensures var c1 := Next(Next(c, Start(k, Connect, true)), Acquire(k));
            Next(Next(c1, OpenReturns(k, Returned)), GreetingReturns(k, Returned, false)) == Greeted(c, k)
  {
    var c1 := Next(Next(c, Start(k, Connect, true)), Acquire(k));
    assert c1 == At(c.(lock := Some(k)), k, AtOpen);
  }

  lemma LogsIn(c: Client, k: nat, s: StreamId, accepted: bool)
    requires IsAt(c, k, AtLoginWrite) && c.reader == Some(s) && c.writer == Some(s)
    ensures Next(Next(c, LoginWritten(k, Returned)), LoginLine(k, Returned, true, accepted))
         == (if accepted then c.(traffic := c.traffic + [LoginAccepted(s)]) else Dropped(c))
            .(lock := None, points := c.points - {k})
  {
  }

  /** A command that finds the lock free goes out once on the stream at hand and keeps it, unless the
      answer does not come in time: then the stream is given up. */
  lemma CommandRuns(c: Client, k: nat, s: StreamId, late: bool)
    requires c.lock.None? && k !in c.points && c.reader == Some(s) && c.writer == Some(s)
    ensures var c1 := Next(Next(c, Start(k, Command, true)), Acquire(k));
            var r := Next(Next(c1, CommandWritten(k, Returned)),
                          CommandLine(k, if late then TimedOut else Returned, true));
            && r.lock.None? && r.points == c.points && r.traffic == c.traffic + [CommandSent(s)]
            && (if late then r.reader.None? && r.writer.None? else r.reader == Some(s) && r.writer == Some(s))
  {
    var c1 := Next(Next(c, Start(k, Command, true)), Acquire(k));
    assert c1.points == c.points[k := AtCommandWrite];
  }

  /** Without a stream, or with a line break in a field, nothing is sent and nothing changes. */
  lemma CommandRefused(c: Client, k: nat, valid: bool)
    requires c.lock.None? && k !in c.points && (c.writer.None? || !valid)
    ensures Next(Next(c, Start(k, Command, valid)), Acquire(k)) == c
  {
    var c1 := Next(c, Start(k, Command, valid));
    assert c1.points - {k} == c.points;
  }

  /** An await that ends with an exception, a cancellation or a timeout lets go of the lock, wherever the
      holder is, so the next in line can go on. */
  lemma FailureReleases(c: Client, k: nat, e: Event)
    requires Inv(c) && c.lock == Some(k) && FailsAt(c.points[k], k, e)
    ensures var r := Next(c, e);
            r.lock.None? && r.points == c.points - {k} && r.traffic == c.traffic
  {
  }

  /** The event ends the await at which the coroutine `k` is suspended, and not normally. */
  predicate FailsAt(p: Point, k: nat, e: Event) {
    match e
    case OpenReturns(j, r) => j == k && p == AtOpen && r != Returned
    case GreetingReturns(j, r, empty) => j == k && p == AtGreeting && (r != Returned || empty)
    case LoginWritten(j, r) => j == k && p == AtLoginWrite && r != Returned
    case LoginLine(j, r, complete, accepted) =>
      j == k && p == AtLoginRead && (r != Returned || (complete && !accepted))
    case CommandWritten(j, r) => j == k && p == AtCommandWrite && r != Returned
    case CommandLine(j, r, complete) => j == k && p == AtCommandRead && r != Returned
    case _ => false
  }

  /** A stream at hand is given up by a close, by any failure between the greeting and the accepted login,
      and by a command whose answer does not come in time: by nothing else. */
  lemma WhatDrops(c: Client, e: Event)
    requires Inv(c) && c.reader.Some?
    ensures Next(c, e).reader.None? <==>
      || (e.Acquire? && c.lock.None? && e.k in c.points && c.points[e.k].AtLock? && c.points[e.k].op == Close)
      || (c.lock.Some? && FailsAt(c.points[c.lock.value], c.lock.value, e)
          && (e.GreetingReturns? || e.LoginWritten? || e.LoginLine? || (e.CommandLine? && e.r == TimedOut)))
  {
    hide Authenticated, Settled;
    WriterToo(c);
  }

  lemma WriterToo(c: Client)
    requires Inv(c)
    ensures c.writer == c.reader
  {
  }

  /** Closing gives the streams up and leaves the lock free; while the lock is held, everyone waits. */
  lemma CloseRuns(c: Client, k: nat)
    requires k !in c.points
    ensures var c1 := Next(Next(c, Start(k, Close, true)), Acquire(k));
            var r := Next(c1, CloseReturns(k));
            if c.lock.None? then r == c.(reader := None, writer := None)
            else c1 == Next(c, Start(k, Close, true))
  {
    var c1 := Next(c, Start(k, Close, true));
    assert c1.points - {k} == c.points && c.points[k := AtClosed] - {k} == c.points;
  }

  // -------------------------------------------------------------------------
  // The client object
  // -------------------------------------------------------------------------

  /** The fields of the client and of the coroutines inside it; each method is one stretch of
      code between two awaits. */
  class AMIClient {
    var reader: Option<StreamId>
    var writer: Option<StreamId>
    var lock: Option<nat>
    var points: map<nat, Point>
    var nextStream: StreamId
    ghost var traffic: seq<Traffic>

    constructor ()
      ensures View() == FRESH_CLIENT
    {
      reader, writer, lock, points, nextStream := None, None, None, map[], 0;
      traffic := [];
    }

    ghost function View(): Client
      reads this
    {
      Client(reader, writer, lock, points, nextStream, traffic)
    }

    method Drop()
      modifies this`reader, this`writer
      ensures reader.None? && writer.None?
    {
      writer := None;
      reader := None;
    }

    method Release(k: nat)
      modifies this`lock, this`points
      ensures lock.None? && points == old(points) - {k}
    {
      lock := None;
      points := points - {k};
    }

    method StartOperation(k: nat, op: Operation, valid: bool)
      requires k !in points
      modifies this
      ensures View() == Next(old(View()), Start(k, op, valid))
    {
      points := points[k := AtLock(op, valid)];
    }

    method AcquireLock(k: nat)
      requires k in points && points[k].AtLock? && lock.None?
      modifies this
      ensures View() == Next(old(View()), Acquire(k))
    {
      var op, valid := points[k].op, points[k].valid;
      lock := Some(k);
      match op {
        case Connect => points := points[k := AtOpen];
        case Command =>
          if writer.None? || !valid {
            Release(k);
          } else {
            traffic := traffic + [CommandSent(writer.value)];
            points := points[k := AtCommandWrite];
          }
        case Close =>
          var w := writer;
          reader := None;
          writer := None;
          if w.Some? {
            points := points[k := AtClosed];
          } else {
            Release(k);
          }
      }
    }

    method OpenDone(k: nat, r: Result)
      requires IsAt(View(), k, AtOpen)
      modifies this
      ensures View() == Next(old(View()), OpenReturns(k, r))
    {
      if r != Returned { Release(k); return; }
      reader, writer := Some(nextStream), Some(nextStream);
      traffic := traffic + [Opened(nextStream)];
      nextStream := nextStream + 1;
      points := points[k := AtGreeting];
    }

    method GreetingDone(k: nat, r: Result, empty: bool)
      requires IsAt(View(), k, AtGreeting)
      modifies this
      ensures View() == Next(old(View()), GreetingReturns(k, r, empty))
    {
      if r != Returned || empty || writer.None? {
        Drop();
        Release(k);
        return;
      }
      traffic := traffic + [LoginSent(writer.value)];
      points := points[k := AtLoginWrite];
    }

    method LoginWriteDone(k: nat, r: Result)
      requires IsAt(View(), k, AtLoginWrite)
      modifies this
      ensures View() == Next(old(View()), LoginWritten(k, r))
    {
      if r != Returned || reader.None? {
        Drop();
        Release(k);
        return;
      }
      points := points[k := AtLoginRead];
    }

    method LoginReadDone(k: nat, r: Result, complete: bool, accepted: bool)
      requires IsAt(View(), k, AtLoginRead)
      modifies this
      ensures View() == Next(old(View()), LoginLine(k, r, complete, accepted))
    {
      if r != Returned || reader.None? {
        Drop();
        Release(k);
      } else if complete {
        if accepted {
          traffic := traffic + [LoginAccepted(reader.value)];
        } else {
          Drop();
        }
        Release(k);
      }
    }

    method CommandWriteDone(k: nat, r: Result)
      requires IsAt(View(), k, AtCommandWrite)
      modifies this
      ensures View() == Next(old(View()), CommandWritten(k, r))
    {
      if r != Returned || reader.None? {
        Release(k);
        return;
      }
      points := points[k := AtCommandRead];
    }

    method CommandReadDone(k: nat, r: Result, complete: bool)
      requires IsAt(View(), k, AtCommandRead)
      modifies this
      ensures View() == Next(old(View()), CommandLine(k, r, complete))
    {
      if r == TimedOut {
        Drop();
        Release(k);
      } else if r == Raised || complete {
        Release(k);
      }
    }
  }
}
