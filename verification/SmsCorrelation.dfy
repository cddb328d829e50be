/** The SMS correlation store: an ordered map in memory, an append-only log behind it, and the
    matching of carrier delivery reports to pending messages. */
module SmsCorrelation {
  import opened Options
  import opened Text

  datatype SubmitStatus = NotSubmitted | Submitted | SubmitFailed
  datatype DeliveryStatus = Undelivered | Delivered | DeliveryFailed

  datatype Record = Record(
    smsId: string,
    user: int,
    message: Option<int>,
    phone: string,
    modem: string,
    text: string,
    submit: SubmitStatus,
    delivery: DeliveryStatus,
    submittedAt: Option<int>,
    deliveredAt: Option<int>,
    error: Option<string>,
    createdAt: int)

  /** A dictionary with its insertion order. */
  datatype Store = Store(order: seq<string>, records: map<string, Record>)

  /** A log line holds a full record, or cannot be parsed and is skipped, or is not even text: a
      line torn inside a character makes reading the file fail. */
  datatype Line = Entry(record: Record) | Unreadable | Undecodable

  const EMPTY_STORE := Store([], map[])

  ghost predicate WellFormed(s: Store) {
    && (forall i, j :: 0 <= i < j < |s.order| ==> s.order[i] != s.order[j])
    && (forall id :: id in s.order <==> id in s.records)
    && (forall id :: id in s.records ==> s.records[id].smsId == id)
  }

  /** Assigning to an existing key keeps its place. */
  function Put(s: Store, r: Record): Store {
    Store(if r.smsId in s.records then s.order else s.order + [r.smsId], s.records[r.smsId := r])
  }

  function Replayed(s: Store, line: Line): Store {
    match line
    case Entry(r) => Put(s, r)
    case _ => s
  }

  function Replay(lines: seq<Line>): Store
    decreases |lines|
  {
    if lines == [] then EMPTY_STORE else Replayed(Replay(lines[..|lines| - 1]), lines[|lines| - 1])
  }

  /** The log file: its finished lines, and what stands behind the last line break, if anything but
      whitespace does. A torn write leaves such a rest; it may or may not be a whole record. */
  datatype Log = Log(lines: seq<Line>, rest: Option<Line>)

  /** What a restart reads: the rest is read like a line. */
  function AllLines(log: Log): seq<Line> {
    if log.rest.Some? then log.lines + [log.rest.value] else log.lines
  }

  predicate Decodes(lines: seq<Line>) {
    Undecodable !in lines
  }

  /** The store a restart makes of the log, or `None` when the file cannot be read as text. */
  function Reload(log: Log): Option<Store> {
    if Decodes(AllLines(log)) then Some(Replay(AllLines(log))) else None
  }

  /** Appending writes a record and a line break, but no line break before it: behind a rest, both
      become one line that nothing can parse. */
  function Appended(log: Log, r: Record): Log {
    Log(log.lines + [if log.rest.None? then Entry(r) else Unreadable], None)
  }

  lemma ReplayAppend(lines: seq<Line>, line: Line)
    ensures Replay(lines + [line]) == Replayed(Replay(lines), line)
  {
    assert (lines + [line])[..|lines|] == lines;
  }

  lemma PutWellFormed(s: Store, r: Record)
    requires WellFormed(s)
    ensures WellFormed(Put(s, r))
  {
  }

  lemma {:induction false} ReplayWellFormed(lines: seq<Line>)
    ensures WellFormed(Replay(lines))
    decreases |lines|
  {
    if lines != [] {
      ReplayWellFormed(lines[..|lines| - 1]);
      if lines[|lines| - 1].Entry? {
        PutWellFormed(Replay(lines[..|lines| - 1]), lines[|lines| - 1].record);
      }
    }
  }

  // -------------------------------------------------------------------------
  // The marks
  // -------------------------------------------------------------------------

  function NewRecord(id: string, user: int, phone: string, text: string, message: Option<int>, modem: string,
                     now: int): Record {
    Record(id, user, message, phone, modem, text, NotSubmitted, Undelivered, None, None, None, now)
  }

  function AsSubmitted(r: Record, now: int): Record {
    r.(submit := Submitted, submittedAt := Some(now))
  }

  function AsDelivered(r: Record, now: int): Record {
    r.(delivery := Delivered, deliveredAt := Some(now))
  }

  function AsFailed(r: Record, error: string, submitFailed: bool): Record {
    if submitFailed then r.(error := Some(error), submit := SubmitFailed)
    else r.(error := Some(error), delivery := DeliveryFailed)
  }

  // -------------------------------------------------------------------------
  // Newest first, ties in insertion order
  // -------------------------------------------------------------------------

  datatype Key = ByCreation | ByTime

  /** A report is matched by submission time, or creation time when that is missing. */
  function KeyOf(r: Record, k: Key): int {
    match k
    case ByCreation => r.createdAt
    case ByTime => if r.submittedAt.Some? then r.submittedAt.value else r.createdAt
  }

  function InsertDesc(x: Record, s: seq<Record>, k: Key): (r: seq<Record>)
    ensures |r| == |s| + 1
  {
    if s == [] || KeyOf(x, k) >= KeyOf(s[0], k) then [x] + s else [s[0]] + InsertDesc(x, s[1..], k)
  }

  /** `sort(key, reverse=True)`: descending and stable. */
  function SortDesc(s: seq<Record>, k: Key): (r: seq<Record>)
    ensures |r| == |s|
  {
    if s == [] then [] else InsertDesc(s[0], SortDesc(s[1..], k), k)
  }

  ghost predicate Descending(s: seq<Record>, k: Key) {
    forall i, j :: 0 <= i < j < |s| ==> KeyOf(s[i], k) >= KeyOf(s[j], k)
  }

  /** The entries with key `v`, in order. */
  function Tied(s: seq<Record>, k: Key, v: int): seq<Record> {
    if s == [] then []
    else if KeyOf(s[0], k) == v then [s[0]] + Tied(s[1..], k, v)
    else Tied(s[1..], k, v)
  }

  lemma {:induction false} InsertDescContents(x: Record, s: seq<Record>, k: Key)
    ensures multiset(InsertDesc(x, s, k)) == multiset(s) + multiset{x}
    ensures forall y :: y in InsertDesc(x, s, k) ==> y == x || y in s
  {
    hide KeyOf;
    if s != [] {
      InsertDescContents(x, s[1..], k);
      assert s == [s[0]] + s[1..];
    }
  }

  lemma {:induction false} InsertDescOrdered(x: Record, s: seq<Record>, k: Key)
    requires Descending(s, k)
    ensures Descending(InsertDesc(x, s, k), k)
  {
    hide KeyOf;
    if s != [] && KeyOf(x, k) < KeyOf(s[0], k) {
      InsertDescOrdered(x, s[1..], k);
      InsertDescContents(x, s[1..], k);
      var r := InsertDesc(x, s[1..], k);
      forall j | 0 <= j < |r| ensures KeyOf(s[0], k) >= KeyOf(r[j], k) {
        assert r[j] in r;
      }
    }
  }

  lemma {:induction false} InsertDescTied(x: Record, s: seq<Record>, k: Key, v: int)
    requires Descending(s, k)
    ensures Tied(InsertDesc(x, s, k), k, v) == (if KeyOf(x, k) == v then [x] else []) + Tied(s, k, v)
  {
    if s != [] && KeyOf(x, k) < KeyOf(s[0], k) {
      InsertDescTied(x, s[1..], k, v);
      if KeyOf(x, k) == v { assert KeyOf(s[0], k) != v; }
    }
  }

  /** The sort is descending, a permutation, and stable: entries with equal keys keep their order. */
  lemma {:induction false} SortDescCorrect(s: seq<Record>, k: Key)
    ensures Descending(SortDesc(s, k), k)
    ensures multiset(SortDesc(s, k)) == multiset(s)
    ensures forall v :: Tied(SortDesc(s, k), k, v) == Tied(s, k, v)
  {
    if s != [] {
      SortDescCorrect(s[1..], k);
      InsertDescOrdered(s[0], SortDesc(s[1..], k), k);
      InsertDescContents(s[0], SortDesc(s[1..], k), k);
      assert s == [s[0]] + s[1..];
      forall v ensures Tied(SortDesc(s, k), k, v) == Tied(s, k, v) {
        InsertDescTied(s[0], SortDesc(s[1..], k), k, v);
      }
    }
  }

  // -------------------------------------------------------------------------
  // Queries
  // -------------------------------------------------------------------------

  /** The records in insertion order. */
  function Values(s: Store): seq<Record>
    requires forall id :: id in s.order ==> id in s.records
  {
    seq(|s.order|, i requires 0 <= i < |s.order| => assert s.order[i] in s.order; s.records[s.order[i]])
  }

  predicate Candidate(r: Record, modem: string) {
    r.submit == Submitted && r.delivery == Undelivered && r.modem == modem
  }

  /** The digit forms of a number a report may carry. */
  function PhoneVariants(phone: string): seq<string> {
    var digits := Digits(phone);
    if digits == [] then []
    else if digits[0] == '7' then [digits, ['8'] + digits[1..]]
    else [digits]
  }

  predicate NamedIn(r: Record, report: string) {
    exists v :: v in PhoneVariants(r.phone) && Contains(Digits(report), v)
  }

  function Candidates(rs: seq<Record>, modem: string): seq<Record> {
    if rs == [] then []
    else (if Candidate(rs[0], modem) then [rs[0]] else []) + Candidates(rs[1..], modem)
  }

  function Named(rs: seq<Record>, report: string): seq<Record> {
    if rs == [] then []
    else (if NamedIn(rs[0], report) then [rs[0]] else []) + Named(rs[1..], report)
  }

  /** The named candidates if there are any, else all of them. */
  function ReportPool(rs: seq<Record>, modem: string, report: string): seq<Record> {
    var all := Candidates(rs, modem);
    if Named(all, report) != [] then Named(all, report) else all
  }

  function Matched(rs: seq<Record>, modem: string, report: string): Option<Record> {
    var pool := ReportPool(rs, modem, report);
    if pool == [] then None else Some(SortDesc(pool, ByTime)[0])
  }

  lemma {:induction false} CandidatesExact(rs: seq<Record>, modem: string)
    ensures forall r :: r in Candidates(rs, modem) <==> r in rs && Candidate(r, modem)
  {
    if rs != [] {
      CandidatesExact(rs[1..], modem);
      assert rs == [rs[0]] + rs[1..];
    }
  }

  lemma {:induction false} NamedExact(rs: seq<Record>, report: string)
    ensures forall r :: r in Named(rs, report) <==> r in rs && NamedIn(r, report)
  {
    if rs != [] {
      hide NamedIn;
      NamedExact(rs[1..], report);
      assert rs == [rs[0]] + rs[1..];
    }
  }

  /** `r` is the newest of `pool`, and of several equally new ones the first. */
  ghost predicate NewestFirst(r: Record, pool: seq<Record>) {
    exists i :: 0 <= i < |pool| && pool[i] == r
      && (forall j :: 0 <= j < |pool| ==> KeyOf(pool[j], ByTime) <= KeyOf(r, ByTime))
      && (forall j :: 0 <= j < i ==> KeyOf(pool[j], ByTime) < KeyOf(r, ByTime))
  }

  lemma {:induction false} TiedHead(s: seq<Record>, k: Key, v: int)
    requires Tied(s, k, v) != []
    ensures exists i :: 0 <= i < |s| && s[i] == Tied(s, k, v)[0] && KeyOf(s[i], k) == v
                        && forall j :: 0 <= j < i ==> KeyOf(s[j], k) != v
  {
    if KeyOf(s[0], k) != v {
      TiedHead(s[1..], k, v);
      var i :| 0 <= i < |s[1..]| && s[1..][i] == Tied(s[1..], k, v)[0] && KeyOf(s[1..][i], k) == v
               && forall j :: 0 <= j < i ==> KeyOf(s[1..][j], k) != v;
      assert s[i + 1] == Tied(s, k, v)[0];
      forall j | 0 <= j < i + 1 ensures KeyOf(s[j], k) != v {
        if j > 0 { assert s[j] == s[1..][j - 1]; }
      }
    } else {
      assert s[0] == Tied(s, k, v)[0];
    }
  }

  lemma SortHeadIsNewest(pool: seq<Record>)
    requires pool != []
    ensures NewestFirst(SortDesc(pool, ByTime)[0], pool)
  {
    SortDescCorrect(pool, ByTime);
    var sorted := SortDesc(pool, ByTime);
    var r := sorted[0];
    var v := KeyOf(r, ByTime);
    assert Tied(sorted, ByTime, v)[0] == r;
    TiedHead(pool, ByTime, v);
    forall j | 0 <= j < |pool| ensures KeyOf(pool[j], ByTime) <= v {
      assert pool[j] in multiset(sorted);
      var i :| 0 <= i < |sorted| && sorted[i] == pool[j];
    }
  }

  /** A report resolves to a submitted, still pending message of its modem. If the report names
      the number of such a message, the result is one it names. Among those it is the newest,
      and of equally new ones the one created first. No candidate is the only reason for none. */
  lemma ReportMatching(rs: seq<Record>, modem: string, report: string)
    ensures Matched(rs, modem, report).None? <==> forall r :: r in rs ==> !Candidate(r, modem)
    ensures Matched(rs, modem, report).Some? ==>
              var r := Matched(rs, modem, report).value;
              && r in rs && Candidate(r, modem)
              && ((exists c :: c in rs && Candidate(c, modem) && NamedIn(c, report)) ==> NamedIn(r, report))
              && NewestFirst(r, ReportPool(rs, modem, report))
  {
    CandidatesExact(rs, modem);
    var all := Candidates(rs, modem);
    NamedExact(all, report);
    var pool := ReportPool(rs, modem, report);
    hide NamedIn, Candidate;
    if pool != [] {
      SortHeadIsNewest(pool);
      var r := SortDesc(pool, ByTime)[0];
      assert r in pool;
      if c :| c in rs && Candidate(c, modem) && NamedIn(c, report) {
        assert c in Named(all, report);
      }
    } else {
      assert all == [];
      forall r | r in rs ensures !Candidate(r, modem) { assert r !in all; }
    }
    if r :| r in rs && Candidate(r, modem) { assert r in all; }
  }

  /** The latest created record for a Telegram message. */
  function FoundByMessage(rs: seq<Record>, user: int, message: int): Option<Record> {
    if rs == [] then None
    else
      var r := rs[|rs| - 1];
      if r.user == user && r.message == Some(message) then Some(r)
      else FoundByMessage(rs[..|rs| - 1], user, message)
  }

  /** A reply finds the last created record of its Telegram message, and nothing only when there
      is none. */
  lemma {:induction false} FoundIsLatest(rs: seq<Record>, user: int, message: int)
    ensures match FoundByMessage(rs, user, message)
            case None => forall r :: r in rs ==> !ForMessage(r, user, message)
            case Some(r) => exists i :: LatestAt(rs, i, user, message) && rs[i] == r
    decreases |rs|
  {
    if rs != [] {
      var n := |rs| - 1;
      var front := rs[..n];
      assert rs == front + [rs[n]];
      if ForMessage(rs[n], user, message) {
        assert LatestAt(rs, n, user, message);
      } else {
        FoundIsLatest(front, user, message);
        if FoundByMessage(front, user, message).Some? {
          hide FoundByMessage, ForMessage;
          var i :| LatestAt(front, i, user, message) && Some(front[i]) == FoundByMessage(front, user, message);
          LatestOfMore(front, rs[n], i, user, message);
        }
      }
    }
  }

  predicate ForMessage(r: Record, user: int, message: int) {
    r.user == user && r.message == Some(message)
  }

  /** `rs[i]` is for that message and no later record is. */
  ghost predicate LatestAt(rs: seq<Record>, i: int, user: int, message: int) {
    && 0 <= i < |rs| && ForMessage(rs[i], user, message)
    && forall j :: i < j < |rs| ==> !ForMessage(rs[j], user, message)
  }

  lemma LatestOfMore(rs: seq<Record>, r: Record, i: int, user: int, message: int)
    requires LatestAt(rs, i, user, message) && !ForMessage(r, user, message)
    ensures LatestAt(rs + [r], i, user, message) && (rs + [r])[i] == rs[i]
  {
    hide ForMessage;
  }

  function OfUser(rs: seq<Record>, user: int): seq<Record> {
    if rs == [] then []
    else (if rs[0].user == user then [rs[0]] else []) + OfUser(rs[1..], user)
  }

  function RecentOf(rs: seq<Record>, user: int, limit: nat): seq<Record> {
    var sorted := SortDesc(OfUser(rs, user), ByCreation);
    if limit < |sorted| then sorted[..limit] else sorted
  }

  // -------------------------------------------------------------------------
  // Crash and replay
  // -------------------------------------------------------------------------

  datatype Change =
    | Created(record: Record)
    | MarkedSubmitted(id: string, now: int)
    | MarkedDelivered(id: string, now: int)
    | MarkedFailed(id: string, error: string, submitFailed: bool)

  /** The record a change writes, if it writes one: an unknown id is answered with false. */
  function Written(s: Store, c: Change): Option<Record> {
    match c
    case Created(r) => Some(r)
    case MarkedSubmitted(id, now) => if id in s.records then Some(AsSubmitted(s.records[id], now)) else None
    case MarkedDelivered(id, now) => if id in s.records then Some(AsDelivered(s.records[id], now)) else None
    case MarkedFailed(id, e, sub) => if id in s.records then Some(AsFailed(s.records[id], e, sub)) else None
  }

  function Changed(s: Store, c: Change): Store {
    var r := Written(s, c);
    if r.Some? then Put(s, r.value) else s
  }

  function Logged(s: Store, log: Log, c: Change): Log {
    var r := Written(s, c);
    if r.Some? then Appended(log, r.value) else log
  }

  function RunStore(s: Store, cs: seq<Change>): Store
    decreases |cs|
  {
    if cs == [] then s else Changed(RunStore(s, cs[..|cs| - 1]), cs[|cs| - 1])
  }

  function RunLog(s: Store, log: Log, cs: seq<Change>): Log
    decreases |cs|
  {
    if cs == [] then log
    else Logged(RunStore(s, cs[..|cs| - 1]), RunLog(s, log, cs[..|cs| - 1]), cs[|cs| - 1])
  }

  /** Start from any readable log that ends in a line break, damaged lines included, apply any creations
      and marks, crash between any two of them: the reloaded store is the one in memory, insertion
      order included, so every query answers as before, ties and all. */
  lemma {:induction false} CrashReplay(log: Log, cs: seq<Change>)
    requires log.rest.None? && Reload(log).Some?
    ensures var after := RunLog(Reload(log).value, log, cs);
            after.rest.None? && Reload(after) == Some(RunStore(Reload(log).value, cs))
    decreases |cs|
  {
    if cs != [] {
      var before := cs[..|cs| - 1];
      CrashReplay(log, before);
      var r := Written(RunStore(Reload(log).value, before), cs[|cs| - 1]);
      if r.Some? { ReplayAppend(RunLog(Reload(log).value, log, before).lines, Entry(r.value)); }
    }
  }

  /** What a crash in the middle of an append can leave behind the last line break. */
  predicate TornPart(rest: Option<Line>, r: Record) {
    rest == None || rest == Some(Entry(r)) || rest == Some(Unreadable) || rest == Some(Undecodable)
  }

  /** A crash inside an append leaves the store from before or from after it, unless it tears a
      character: then, and only then, the log can no longer be loaded. */
  lemma CrashInsideAppend(log: Log, r: Record, rest: Option<Line>)
    requires log.rest.None? && Reload(log).Some? && TornPart(rest, r)
    ensures var torn := Log(log.lines, rest);
            && (Reload(torn).None? <==> rest == Some(Undecodable))
            && (Reload(torn).Some? ==>
                  Reload(torn) == Reload(log) || Reload(torn) == Some(Put(Reload(log).value, r)))
  {
    if rest.Some? { ReplayAppend(log.lines, rest.value); }
  }

  /** The first record a run writes. */
  function FirstWritten(s: Store, cs: seq<Change>): Option<Record>
    decreases |cs|
  {
    if cs == [] then None
    else
      var before := FirstWritten(s, cs[..|cs| - 1]);
      if before.Some? then before else Written(RunStore(s, cs[..|cs| - 1]), cs[|cs| - 1])
  }

  lemma {:induction false} NothingWritten(s: Store, log: Log, cs: seq<Change>)
    requires FirstWritten(s, cs).None?
    ensures RunStore(s, cs) == s && RunLog(s, log, cs) == log
    decreases |cs|
  {
    if cs != [] { NothingWritten(s, log, cs[..|cs| - 1]); }
  }

  /** At every point of the run a restart finds what was in memory. */
  ghost predicate SurvivesEveryCrash(log: Log, cs: seq<Change>)
    requires Reload(log).Some?
  {
    forall n :: 0 <= n <= |cs| ==> SameAfter(log, cs[..n])
  }

  ghost predicate SameAfter(log: Log, cs: seq<Change>)
    requires Reload(log).Some?
  {
    Reload(RunLog(Reload(log).value, log, cs)) == Some(RunStore(Reload(log).value, cs))
  }

  /** The rest and the record glued to it tell nothing that the finished lines do not. */
  ghost predicate NothingLost(log: Log, r: Record)
    requires Reload(log).Some?
  {
    Put(Reload(log).value, r) == Replay(log.lines)
  }

  lemma SurvivesPrefix(log: Log, cs: seq<Change>)
    requires cs != [] && Reload(log).Some?
    ensures SurvivesEveryCrash(log, cs) <==> SurvivesEveryCrash(log, cs[..|cs| - 1]) && SameAfter(log, cs)
  {
    hide SameAfter;
    var before := cs[..|cs| - 1];
    assert cs[..|cs|] == cs;
    forall n | 0 <= n <= |before| ensures before[..n] == cs[..n] { }
    if SurvivesEveryCrash(log, cs) {
      assert SameAfter(log, cs[..|cs|]);
      forall n | 0 <= n <= |before| ensures SameAfter(log, before[..n]) {
        assert SameAfter(log, cs[..n]);
      }
    }
    if SurvivesEveryCrash(log, before) && SameAfter(log, cs) {
      forall n | 0 <= n <= |cs| ensures SameAfter(log, cs[..n]) {
        if n < |cs| { assert SameAfter(log, before[..n]); }
      }
    }
  }

  lemma GluedLine(log: Log, r: Record)
    requires log.rest.Some? && Reload(log).Some?
    ensures Appended(log, r).rest.None? && Reload(Appended(log, r)) == Some(Replay(log.lines))
  {
    ReplayAppend(log.lines, Unreadable);
  }

  /** Behind a rest, the first write decides: from then on memory and log change alike. */
  lemma {:induction false} BehindRest(log: Log, cs: seq<Change>)
    requires log.rest.Some? && Reload(log).Some? && FirstWritten(Reload(log).value, cs).Some?
    ensures RunLog(Reload(log).value, log, cs).rest.None?
    ensures SurvivesEveryCrash(log, cs) <==> NothingLost(log, FirstWritten(Reload(log).value, cs).value)
    ensures SurvivesEveryCrash(log, cs) ==> SameAfter(log, cs)
    decreases |cs|
  {
    var s, before, c := Reload(log).value, cs[..|cs| - 1], cs[|cs| - 1];
    SurvivesPrefix(log, cs);
    if FirstWritten(s, before).Some? {
      BehindRest(log, before);
      var r := Written(RunStore(s, before), c);
      if r.Some? { ReplayAppend(RunLog(s, log, before).lines, Entry(r.value)); }
      hide Replay, SurvivesEveryCrash, NothingLost;
    } else {
      NothingWritten(s, log, before);
      IdleSurvives(log, before);
      GluedLine(log, FirstWritten(s, cs).value);
      hide Replay, SurvivesEveryCrash;
    }
  }

  lemma {:induction false} IdleSurvives(log: Log, cs: seq<Change>)
    requires Reload(log).Some? && FirstWritten(Reload(log).value, cs).None?
    ensures SurvivesEveryCrash(log, cs)
    decreases |cs|
  {
    NothingWritten(Reload(log).value, log, cs);
    if cs != [] {
      IdleSurvives(log, cs[..|cs| - 1]);
      SurvivesPrefix(log, cs);
    }
  }

  /** For every log that can be loaded, a run survives a crash between any two of its changes if and
      only if the log ended in a line break, or nothing was written, or nothing was lost by gluing the first
      record written to the rest. */
  lemma {:induction false} CrashReplayExactly(log: Log, cs: seq<Change>)
    requires Reload(log).Some?
    ensures SurvivesEveryCrash(log, cs)
            <==> || log.rest.None?
                 || FirstWritten(Reload(log).value, cs).None?
                 || NothingLost(log, FirstWritten(Reload(log).value, cs).value)
  {
    if log.rest.None? {
      forall n | 0 <= n <= |cs| ensures SameAfter(log, cs[..n]) {
        CrashReplay(log, cs[..n]);
      }
    } else if FirstWritten(Reload(log).value, cs).None? {
      IdleSurvives(log, cs);
    } else {
      BehindRest(log, cs);
    }
  }

  /** A new message behind a rest is always lost. */
  lemma NewMessageBehindRest(log: Log, r: Record)
    requires log.rest.Some? && Reload(log).Some? && r.smsId !in Reload(log).value.records
    ensures Reload(Appended(log, r)).Some? && r.smsId !in Reload(Appended(log, r)).value.records
    ensures !SurvivesEveryCrash(log, [Created(r)])
  {
    GluedLine(log, r);
    ReplayAppend(log.lines, log.rest.value);
    var cs := [Created(r)];
    assert cs[..0] == [];
    assert FirstWritten(Reload(log).value, cs) == Some(r);
    CrashReplayExactly(log, cs);
    assert r.smsId in Put(Reload(log).value, r).records;
  }

  const TORN := Log([], Some(Unreadable))

  /** For one: the half-written first line of an otherwise empty log swallows the first message. */
  lemma TornLogExample(r: Record)
    ensures Reload(TORN).Some? && Reload(Appended(TORN, r)) == Some(EMPTY_STORE)
    ensures !SurvivesEveryCrash(TORN, [Created(r)])
  {
    assert AllLines(TORN) == [Unreadable];
    assert [Unreadable][..0] == [];
    assert Reload(TORN) == Some(EMPTY_STORE);
    GluedLine(TORN, r);
    NewMessageBehindRest(TORN, r);
  }

  // -------------------------------------------------------------------------
  // The report route resolves each message once
  // -------------------------------------------------------------------------

  /** What the agent does with a message when reports come only through the report route.
      `failed` is what the report's wording says. */
  datatype Step =
    | Create(record: Record)
    | Submit(id: string, now: int)
    | FailSubmit(id: string, error: string)
    | Report(modem: string, text: string, failed: bool, now: int)

  datatype Desk = Desk(store: Store, resolved: multiset<string>)

  ghost function Stepped(d: Desk, e: Step): Desk
    requires WellFormed(d.store)
  {
    match e
    case Create(r) =>
      if r.smsId in d.store.records || r.delivery != Undelivered then d else d.(store := Put(d.store, r))
    case Submit(id, now) => d.(store := Changed(d.store, MarkedSubmitted(id, now)))
    case FailSubmit(id, error) => d.(store := Changed(d.store, MarkedFailed(id, error, true)))
    case Report(modem, text, failed, now) =>
      var m := Matched(Values(d.store), modem, text);
      if m.None? then d
      else
        var id := m.value.smsId;
        Desk(Changed(d.store, if failed then MarkedFailed(id, text, false) else MarkedDelivered(id, now)),
             d.resolved + multiset{id})
  }

  ghost predicate ResolvedOnce(d: Desk) {
    && WellFormed(d.store)
    && forall id :: d.resolved[id]
                 == if id in d.store.records && d.store.records[id].delivery != Undelivered then 1 else 0
  }

  lemma MatchedKnown(s: Store, modem: string, text: string)
    requires WellFormed(s) && Matched(Values(s), modem, text).Some?
    ensures var r := Matched(Values(s), modem, text).value;
            r.smsId in s.records && s.records[r.smsId] == r && r.delivery == Undelivered
  {
    ReportMatching(Values(s), modem, text);
    hide Matched;
    var r := Matched(Values(s), modem, text).value;
    var i :| 0 <= i < |Values(s)| && Values(s)[i] == r;
    assert s.order[i] in s.order;
  }

  lemma KeptResolvedOnce(d: Desk, r: Record)
    requires ResolvedOnce(d)
    requires (r.delivery == Undelivered)
             == (r.smsId in d.store.records ==> d.store.records[r.smsId].delivery == Undelivered)
    ensures ResolvedOnce(d.(store := Put(d.store, r)))
  {
    PutWellFormed(d.store, r);
    hide WellFormed;
  }

  lemma NewlyResolvedOnce(d: Desk, r: Record)
    requires ResolvedOnce(d) && r.smsId in d.store.records
    requires d.store.records[r.smsId].delivery == Undelivered && r.delivery != Undelivered
    ensures ResolvedOnce(Desk(Put(d.store, r), d.resolved + multiset{r.smsId}))
  {
    PutWellFormed(d.store, r);
    hide WellFormed;
  }

  function Resolved(r: Record, text: string, failed: bool, now: int): Record {
    if failed then AsFailed(r, text, false) else AsDelivered(r, now)
  }

  lemma ReportIs(d: Desk, modem: string, text: string, failed: bool, now: int)
    requires WellFormed(d.store)
    ensures var m := Matched(Values(d.store), modem, text);
            var d' := Stepped(d, Report(modem, text, failed, now));
            if m.None? then d' == d
            else d' == Desk(Put(d.store, Resolved(m.value, text, failed, now)), d.resolved + multiset{m.value.smsId})
  {
    hide Matched, Values, Put;
    if Matched(Values(d.store), modem, text).Some? {
      MatchedKnown(d.store, modem, text);
      hide WellFormed;
    }
  }

  lemma ReportResolvedOnce(d: Desk, modem: string, text: string, failed: bool, now: int)
    requires ResolvedOnce(d)
    ensures ResolvedOnce(Stepped(d, Report(modem, text, failed, now)))
  {
    ReportIs(d, modem, text, failed, now);
    if Matched(Values(d.store), modem, text).Some? {
      MatchedKnown(d.store, modem, text);
      var r := Matched(Values(d.store), modem, text).value;
      assert Resolved(r, text, failed, now).smsId == r.smsId;
      hide Stepped, Put, WellFormed, Matched, Values;
      NewlyResolvedOnce(d, Resolved(r, text, failed, now));
    }
  }

  /** What a step other than a report writes, if anything. */
  function Unresolved(s: Store, e: Step): Option<Record>
    requires !e.Report?
  {
    match e
    case Create(r) => if r.smsId in s.records || r.delivery != Undelivered then None else Some(r)
    case Submit(id, now) => if id in s.records then Some(AsSubmitted(s.records[id], now)) else None
    case FailSubmit(id, error) => if id in s.records then Some(AsFailed(s.records[id], error, true)) else None
  }

  lemma StepIs(d: Desk, e: Step)
    requires WellFormed(d.store) && !e.Report?
    ensures var r := Unresolved(d.store, e);
            Stepped(d, e) == if r.Some? then d.(store := Put(d.store, r.value)) else d
  {
    hide Put, WellFormed;
  }

  lemma UnresolvedKeeps(s: Store, e: Step)
    requires WellFormed(s) && !e.Report? && Unresolved(s, e).Some?
    ensures var r := Unresolved(s, e).value;
            (r.delivery == Undelivered) == (r.smsId in s.records ==> s.records[r.smsId].delivery == Undelivered)
  {
  }

  lemma SteppedResolvedOnce(d: Desk, e: Step)
    requires ResolvedOnce(d)
    ensures ResolvedOnce(Stepped(d, e))
  {
    if e.Report? {
      hide Stepped;
      ReportResolvedOnce(d, e.modem, e.text, e.failed, e.now);
    } else {
      StepIs(d, e);
      hide Stepped, Unresolved, Put, WellFormed;
      if Unresolved(d.store, e).Some? {
        UnresolvedKeeps(d.store, e);
        KeptResolvedOnce(d, Unresolved(d.store, e).value);
      }
    }
  }

  ghost function RunDesk(d: Desk, steps: seq<Step>): Desk
    requires ResolvedOnce(d)
    ensures ResolvedOnce(RunDesk(d, steps))
    decreases |steps|
  {
    if steps == [] then d
    else
      SteppedResolvedOnce(RunDesk(d, steps[..|steps| - 1]), steps[|steps| - 1]);
      Stepped(RunDesk(d, steps[..|steps| - 1]), steps[|steps| - 1])
  }

  /** Over any run, no message is resolved twice, and the resolved ones are exactly those no
      longer pending. */
  lemma NoDoubleResolution(steps: seq<Step>, id: string)
    ensures var d0 := Desk(EMPTY_STORE, multiset{});
            && ResolvedOnce(d0)
            && RunDesk(d0, steps).resolved[id] <= 1
            && (RunDesk(d0, steps).resolved[id] == 1 <==>
                  id in RunDesk(d0, steps).store.records
                  && RunDesk(d0, steps).store.records[id].delivery != Undelivered)
  {
    assert ResolvedOnce(Desk(EMPTY_STORE, multiset{}));
    assert ResolvedOnce(RunDesk(Desk(EMPTY_STORE, multiset{}), steps));
  }

  // -------------------------------------------------------------------------
  // The store object
  // -------------------------------------------------------------------------

  class SMSCorrelationStore {
    var order: seq<string>
    var records: map<string, Record>
    var log: Log

    ghost predicate Valid()
      reads this
    {
      WellFormed(View())
    }

    function View(): Store
      reads this
    {
      Store(order, records)
    }

    /** Reloads the log; the last line of an id wins, lines that cannot be parsed are skipped. */
    constructor (file: Log)
      requires Decodes(AllLines(file))
      ensures Valid() && log == file && Some(View()) == Reload(file)
    {
      order, records, log := [], map[], file;
      new;
      var lines := AllLines(file);
      for i := 0 to |lines|
        invariant View() == Replay(lines[..i]) && log == file
      {
        assert lines[..i + 1] == lines[..i] + [lines[i]];
        ReplayAppend(lines[..i], lines[i]);
        match lines[i] {
          case Entry(r) => Keep(r);
          case Unreadable =>
          case Undecodable =>
        }
      }
      assert lines[..|lines|] == lines;
      ReplayWellFormed(lines);
    }

    /** The store on a log file, or null when reading the file fails. */
    static method Open(file: Log) returns (store: SMSCorrelationStore?)
      ensures store == null <==> Reload(file).None?
      ensures store != null ==>
                fresh(store) && store.Valid() && store.log == file && Some(store.View()) == Reload(file)
    {
      var lines := AllLines(file);
      for i := 0 to |lines|
        invariant Decodes(lines[..i])
      {
        if lines[i] == Undecodable { return null; }
      }
      assert lines[..|lines|] == lines;
      store := new SMSCorrelationStore(file);
    }

    method Keep(r: Record)
      modifies this`order, this`records
      ensures View() == Put(old(View()), r)
    {
      if r.smsId !in records {
        order := order + [r.smsId];
      }
      records := records[r.smsId := r];
    }

    /** Keeps the record and appends it to the log. */
    method Persist(r: Record)
      requires Valid()
      modifies this
      ensures Valid()
      ensures View() == Put(old(View()), r) && log == Appended(old(log), r)
    {
      PutWellFormed(View(), r);
      Keep(r);
      log := Appended(log, r);
    }

    method CreateRecord(id: string, user: int, phone: string, text: string, message: Option<int>, modem: string,
                        now: int) returns (r: Record)
      requires Valid() && id !in records
      modifies this
      ensures Valid() && r == NewRecord(id, user, phone, text, message, modem, now)
      ensures View() == Changed(old(View()), Created(r)) && log == Logged(old(View()), old(log), Created(r))
    {
      r := NewRecord(id, user, phone, text, message, modem, now);
      Persist(r);
    }

    method MarkSubmitted(id: string, now: int) returns (found: bool)
      requires Valid()
      modifies this
      ensures Valid() && found == (id in old(records))
      ensures View() == Changed(old(View()), MarkedSubmitted(id, now))
      ensures log == Logged(old(View()), old(log), MarkedSubmitted(id, now))
    {
      if id !in records { return false; }
      var rec := records[id].(submit := Submitted);
      rec := rec.(submittedAt := Some(now));
      Persist(rec);
      return true;
    }

    method MarkDelivered(id: string, now: int) returns (found: bool)
      requires Valid()
      modifies this
      ensures Valid() && found == (id in old(records))
      ensures View() == Changed(old(View()), MarkedDelivered(id, now))
      ensures log == Logged(old(View()), old(log), MarkedDelivered(id, now))
    {
      if id !in records { return false; }
      var rec := records[id].(delivery := Delivered);
      rec := rec.(deliveredAt := Some(now));
      Persist(rec);
      return true;
    }

    method MarkFailed(id: string, error: string, submitFailed: bool) returns (found: bool)
      requires Valid()
      modifies this
      ensures Valid() && found == (id in old(records))
      ensures View() == Changed(old(View()), MarkedFailed(id, error, submitFailed))
      ensures log == Logged(old(View()), old(log), MarkedFailed(id, error, submitFailed))
    {
      if id !in records { return false; }
      var rec := records[id].(error := Some(error));
      if submitFailed {
        rec := rec.(submit := SubmitFailed);
      } else {
        rec := rec.(delivery := DeliveryFailed);
      }
      Persist(rec);
      return true;
    }

    method FindByTelegramMessage(user: int, message: int) returns (r: Option<Record>)
      requires Valid()
      ensures r == FoundByMessage(Values(View()), user, message)
    {
      var rs := Values(View());
      var i := |rs|;
      assert rs[..i] == rs;
      while i > 0
        invariant 0 <= i <= |rs|
        invariant FoundByMessage(rs, user, message) == FoundByMessage(rs[..i], user, message)
      {
        i := i - 1;
        assert rs[..i + 1][..i] == rs[..i];
        if rs[i].user == user && rs[i].message == Some(message) { return Some(rs[i]); }
      }
      return None;
    }

    static method SelectUser(rs: seq<Record>, user: int) returns (mine: seq<Record>)
      ensures mine == OfUser(rs, user)
    {
      mine := [];
      for i := 0 to |rs|
        invariant OfUser(rs, user) == mine + OfUser(rs[i..], user)
      {
        assert rs[i..][1..] == rs[i + 1..];
        if rs[i].user == user { mine := mine + [rs[i]]; }
      }
    }

    static method SelectCandidates(rs: seq<Record>, modem: string) returns (candidates: seq<Record>)
      ensures candidates == Candidates(rs, modem)
    {
      hide Candidate;
      candidates := [];
      for i := 0 to |rs|
        invariant Candidates(rs, modem) == candidates + Candidates(rs[i..], modem)
      {
        assert rs[i..][1..] == rs[i + 1..];
        if Candidate(rs[i], modem) { candidates := candidates + [rs[i]]; }
      }
    }

    static method SelectNamed(rs: seq<Record>, report: string) returns (hinted: seq<Record>)
      ensures hinted == Named(rs, report)
    {
      hide NamedIn;
      hinted := [];
      for i := 0 to |rs|
        invariant Named(rs, report) == hinted + Named(rs[i..], report)
      {
        assert rs[i..][1..] == rs[i + 1..];
        if NamedIn(rs[i], report) { hinted := hinted + [rs[i]]; }
      }
    }

    method Recent(user: int, limit: nat) returns (r: seq<Record>)
      requires Valid()
      ensures r == RecentOf(Values(View()), user, limit)
    {
      var mine := SelectUser(Values(View()), user);
      var sorted := SortDesc(mine, ByCreation);
      return if limit < |sorted| then sorted[..limit] else sorted;
    }

    method MatchReport(modem: string, report: string) returns (r: Option<Record>)
      requires Valid()
      ensures r == Matched(Values(View()), modem, report)
    {
      var candidates := SelectCandidates(Values(View()), modem);
      if candidates == [] { return None; }
      var hinted := SelectNamed(candidates, report);
      var pool := if hinted != [] then hinted else candidates;
      return Some(SortDesc(pool, ByTime)[0]);
    }
  }
}
