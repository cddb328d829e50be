/** Delivery reports and the life of a message, told from what is written in a report and from what
    was done to a message. */
module SmsReports {
  import opened Options
  import opened Text
  import opened History
  import opened SmsCorrelation
  import Ordering

  ghost predicate Within(part: string, digits: string) {
    exists a, b :: digits == a + part + b
  }

  // -------------------------------------------------------------------------
  // Which message a report names
  // -------------------------------------------------------------------------

  /** A number written with the digits 7 and `rest` is named by a report exactly when the report's
      digits hold 7 and `rest` or 8 and `rest` in one piece, however both are laid out. */
  lemma NamedRussian(r: Record, rest: string, report: string, digits: string)
    requires Writes(r.phone, "7" + rest) && Writes(report, digits)
    ensures NamedIn(r, report) <==> Within("7" + rest, digits) || Within("8" + rest, digits)
  {
    WritesExactly(r.phone, "7" + rest);
    WritesExactly(report, digits);
    ContainsExactly(digits, "7" + rest);
    ContainsExactly(digits, "8" + rest);
    hide Contains, Writes, Digits;
    assert ("7" + rest)[1..] == rest;
    assert PhoneVariants(r.phone) == ["7" + rest, "8" + rest];
    assert PhoneVariants(r.phone)[0] == "7" + rest && PhoneVariants(r.phone)[1] == "8" + rest;
  }

  /** Any other number is named by its own digits alone, and one without digits never. */
  lemma NamedOther(r: Record, number: string, report: string, digits: string)
    requires Writes(r.phone, number) && Writes(report, digits) && (number != [] ==> number[0] != '7')
    ensures NamedIn(r, report) <==> number != [] && Within(number, digits)
  {
    WritesExactly(r.phone, number);
    WritesExactly(report, digits);
    ContainsExactly(digits, number);
    hide Contains, Writes, Digits;
    if number != [] {
      assert PhoneVariants(r.phone) == [number] && PhoneVariants(r.phone)[0] == number;
    }
  }

  /** A message a report from the modem can be about. */
  ghost predicate Awaits(r: Record, modem: string) {
    r.submit.Submitted? && r.delivery.Undelivered? && r.modem == modem
  }

  function SentAt(r: Record): int {
    if r.submittedAt.Some? then r.submittedAt.value else r.createdAt
  }

  /** The only awaiting message that a report names is the one it resolves. */
  lemma OnlyNamed(rs: seq<Record>, r: Record, modem: string, report: string)
    requires r in rs && Awaits(r, modem) && NamedIn(r, report)
    requires forall c :: c in rs && Awaits(c, modem) && NamedIn(c, report) ==> c == r
    ensures Matched(rs, modem, report) == Some(r)
  {
    ReportMatching(rs, modem, report);
    hide Matched, NamedIn;
    assert Candidate(r, modem);
  }

  lemma {:induction false} CandidatePlace(rs: seq<Record>, modem: string, i: nat) returns (p: nat)
    requires i < |Candidates(rs, modem)|
    ensures p < |rs| && rs[p] == Candidates(rs, modem)[i] && Candidates(rs[..p], modem) == Candidates(rs, modem)[..i]
  {
    hide Candidate;
    if Candidate(rs[0], modem) && i == 0 {
      p := 0;
    } else {
      var q := CandidatePlace(rs[1..], modem, if Candidate(rs[0], modem) then i - 1 else i);
      p := q + 1;
      assert rs[..p][0] == rs[0] && rs[..p][1..] == rs[1..][..q];
    }
  }

  lemma {:induction false} NamedPlace(rs: seq<Record>, report: string, i: nat) returns (p: nat)
    requires i < |Named(rs, report)|
    ensures p < |rs| && rs[p] == Named(rs, report)[i] && Named(rs[..p], report) == Named(rs, report)[..i]
  {
    hide NamedIn;
    if NamedIn(rs[0], report) && i == 0 {
      p := 0;
    } else {
      var q := NamedPlace(rs[1..], report, if NamedIn(rs[0], report) then i - 1 else i);
      p := q + 1;
      assert rs[..p][0] == rs[0] && rs[..p][1..] == rs[1..][..q];
    }
  }

  ghost predicate Eligible(rs: seq<Record>, j: int, modem: string, report: string, named: bool) {
    0 <= j < |rs| && Awaits(rs[j], modem) && (named ==> NamedIn(rs[j], report))
  }

  /** No eligible message was sent after `rs[i]`, and no earlier one in the store at the same moment. */
  ghost predicate FirstOfNewest(rs: seq<Record>, i: int, modem: string, report: string, named: bool) {
    && Eligible(rs, i, modem, report, named)
    && forall j :: Eligible(rs, j, modem, report, named) ==>
         SentAt(rs[j]) <= SentAt(rs[i]) && (j < i ==> SentAt(rs[j]) < SentAt(rs[i]))
  }

  lemma FirstOfCandidates(rs: seq<Record>, modem: string, report: string, i: nat)
    requires i < |Candidates(rs, modem)| && NewestAt(Candidates(rs, modem), i)
    ensures exists p :: FirstOfNewest(rs, p, modem, report, false) && rs[p] == Candidates(rs, modem)[i]
  {
    var all := Candidates(rs, modem);
    var p := CandidatePlace(rs, modem, i);
    CandidatesExact(rs, modem);
    CandidatesExact(rs[..p], modem);
    hide Candidates, NamedIn;
    assert all[i] in all;
    forall j | Eligible(rs, j, modem, report, false)
      ensures SentAt(rs[j]) <= SentAt(rs[p]) && (j < p ==> SentAt(rs[j]) < SentAt(rs[p]))
    {
      assert rs[j] in all;
      if j < p { assert rs[..p][j] in all[..i]; }
    }
    assert FirstOfNewest(rs, p, modem, report, false);
  }

  lemma FirstOfNamed(rs: seq<Record>, modem: string, report: string, k: nat)
    requires var named := Named(Candidates(rs, modem), report); k < |named| && NewestAt(named, k)
    ensures exists p :: FirstOfNewest(rs, p, modem, report, true) && rs[p] == Named(Candidates(rs, modem), report)[k]
  {
    var all := Candidates(rs, modem);
    var named := Named(all, report);
    var i := NamedPlace(all, report, k);
    var p := CandidatePlace(rs, modem, i);
    CandidatesExact(rs, modem);
    CandidatesExact(rs[..p], modem);
    NamedExact(all, report);
    NamedExact(all[..i], report);
    hide Candidates, Named, NamedIn;
    assert all[i] in all && named[k] in named;
    forall j | Eligible(rs, j, modem, report, true)
      ensures SentAt(rs[j]) <= SentAt(rs[p]) && (j < p ==> SentAt(rs[j]) < SentAt(rs[p]))
    {
      assert rs[j] in all && rs[j] in named;
      if j < p { assert rs[..p][j] in all[..i] && rs[j] in named[..k]; }
    }
    assert FirstOfNewest(rs, p, modem, report, true);
  }

  ghost predicate NewestAt(pool: seq<Record>, i: int) {
    && 0 <= i < |pool|
    && (forall j :: 0 <= j < |pool| ==> SentAt(pool[j]) <= SentAt(pool[i]))
    && (forall j :: 0 <= j < i ==> SentAt(pool[j]) < SentAt(pool[i]))
  }

  /** A report resolves an awaiting message of its modem, and a named one if any is named: of those the
      one sent last, and of several sent at that moment the one that stands first in the store. Nothing
      is resolved only when nothing awaits. */
  lemma ResolvesNewest(rs: seq<Record>, modem: string, report: string)
    ensures Matched(rs, modem, report).None? <==> forall r :: r in rs ==> !Awaits(r, modem)
    ensures Matched(rs, modem, report).Some? ==>
              var named := exists c :: c in rs && Awaits(c, modem) && NamedIn(c, report);
              exists p :: FirstOfNewest(rs, p, modem, report, named) && Matched(rs, modem, report) == Some(rs[p])
  {
    CandidatesExact(rs, modem);
    var all := Candidates(rs, modem);
    NamedExact(all, report);
    var pool := ReportPool(rs, modem, report);
    hide Candidates, Named, NamedIn;
    if pool != [] {
      SortHeadIsNewest(pool);
      var r := SortDesc(pool, ByTime)[0];
      var i :| 0 <= i < |pool| && pool[i] == r
        && (forall j :: 0 <= j < |pool| ==> KeyOf(pool[j], ByTime) <= KeyOf(r, ByTime))
        && (forall j :: 0 <= j < i ==> KeyOf(pool[j], ByTime) < KeyOf(r, ByTime));
      assert NewestAt(pool, i);
      if Named(all, report) != [] {
        assert Named(all, report)[0] in Named(all, report);
        FirstOfNamed(rs, modem, report, i);
      } else {
        FirstOfCandidates(rs, modem, report, i);
        forall c | c in rs && Awaits(c, modem) ensures !NamedIn(c, report) { assert c !in Named(all, report); }
      }
      assert all[0] in all;
    } else {
      assert all == [];
      forall r | r in rs ensures !Awaits(r, modem) { assert r !in all; }
    }
  }

  // -------------------------------------------------------------------------
  // The recent messages of a user
  // -------------------------------------------------------------------------

  /** `i` stands before `j` in both lists. */
  ghost predicate InOrder(rs: seq<Record>, a: Record, b: Record) {
    exists p, q :: 0 <= p < q < |rs| && rs[p] == a && rs[q] == b
  }

  lemma {:induction false} TiedKeepsOrder(s: seq<Record>, k: Key, i: nat, j: nat)
    requires i < j < |s| && KeyOf(s[i], k) == KeyOf(s[j], k)
    ensures InOrder(Tied(s, k, KeyOf(s[i], k)), s[i], s[j])
  {
    var v := KeyOf(s[i], k);
    var rest := Tied(s[1..], k, v);
    if i == 0 {
      TiedHas(s[1..], k, j - 1);
      var q :| 0 <= q < |rest| && rest[q] == s[j];
      assert Tied(s, k, v)[0] == s[i] && Tied(s, k, v)[q + 1] == s[j];
    } else {
      TiedKeepsOrder(s[1..], k, i - 1, j - 1);
      var p, q :| 0 <= p < q < |rest| && rest[p] == s[i] && rest[q] == s[j];
      if KeyOf(s[0], k) == v {
        assert Tied(s, k, v)[p + 1] == s[i] && Tied(s, k, v)[q + 1] == s[j];
      }
    }
  }

  lemma {:induction false} TiedHas(s: seq<Record>, k: Key, j: nat)
    requires j < |s|
    ensures s[j] in Tied(s, k, KeyOf(s[j], k))
  {
    if j > 0 { TiedHas(s[1..], k, j - 1); }
  }

  lemma {:induction false} TiedStands(s: seq<Record>, k: Key, v: int, a: Record, b: Record)
    requires InOrder(Tied(s, k, v), a, b)
    ensures InOrder(s, a, b)
  {
    var t := Tied(s, k, v);
    var p, q :| 0 <= p < q < |t| && t[p] == a && t[q] == b;
    var rest := Tied(s[1..], k, v);
    if KeyOf(s[0], k) == v && p == 0 {
      TiedFrom(s[1..], k, v, q - 1);
      var j :| 0 <= j < |s[1..]| && s[1..][j] == b;
      assert s[0] == a && s[j + 1] == b;
    } else {
      var d := if KeyOf(s[0], k) == v then 1 else 0;
      assert rest[p - d] == a && rest[q - d] == b;
      TiedStands(s[1..], k, v, a, b);
      var i, j :| 0 <= i < j < |s[1..]| && s[1..][i] == a && s[1..][j] == b;
      assert s[i + 1] == a && s[j + 1] == b;
    }
  }

  lemma {:induction false} TiedFrom(s: seq<Record>, k: Key, v: int, q: nat)
    requires q < |Tied(s, k, v)|
    ensures Tied(s, k, v)[q] in s
  {
    if KeyOf(s[0], k) != v || q > 0 {
      TiedFrom(s[1..], k, v, if KeyOf(s[0], k) == v then q - 1 else q);
    }
  }

  lemma {:induction false} OfUserExact(rs: seq<Record>, user: int)
    ensures forall r :: r in OfUser(rs, user) <==> r in rs && r.user == user
  {
    if rs != [] {
      OfUserExact(rs[1..], user);
      assert rs == [rs[0]] + rs[1..];
    }
  }

  lemma {:induction false} OfUserStands(rs: seq<Record>, user: int, a: Record, b: Record)
    requires InOrder(OfUser(rs, user), a, b)
    ensures InOrder(rs, a, b)
  {
    var t := OfUser(rs, user);
    var p, q :| 0 <= p < q < |t| && t[p] == a && t[q] == b;
    var rest := OfUser(rs[1..], user);
    if rs[0].user == user && p == 0 {
      assert rest[q - 1] == b;
      OfUserExact(rs[1..], user);
      assert b in rs[1..];
      var j :| 0 <= j < |rs[1..]| && rs[1..][j] == b;
      assert rs[0] == a && rs[j + 1] == b;
    } else {
      var d := if rs[0].user == user then 1 else 0;
      assert rest[p - d] == a && rest[q - d] == b;
      OfUserStands(rs[1..], user, a, b);
      var i, j :| 0 <= i < j < |rs[1..]| && rs[1..][i] == a && rs[1..][j] == b;
      assert rs[i + 1] == a && rs[j + 1] == b;
    }
  }

  /** The answer holds only messages of the user, newest first and those of one moment in the order of
      the store, at most `limit` of them; a message of the user is missing only when the answer is full
      of messages that are not older. */
  lemma RecentExactly(rs: seq<Record>, user: int, limit: nat)
    ensures var r := RecentOf(rs, user, limit);
            && |r| <= limit
            && (forall x :: x in r ==> x in rs && x.user == user)
            && (forall i, j :: 0 <= i < j < |r| ==> r[i].createdAt >= r[j].createdAt)
            && (forall i, j :: 0 <= i < j < |r| && r[i].createdAt == r[j].createdAt ==> InOrder(rs, r[i], r[j]))
            && (forall x :: x in rs && x.user == user && x !in r ==>
                  |r| == limit && forall y :: y in r ==> y.createdAt >= x.createdAt)
  {
    var mine := OfUser(rs, user);
    var sorted := SortDesc(mine, ByCreation);
    var r := RecentOf(rs, user, limit);
    RecentSorted(rs, user);
    assert forall x :: x in r ==> x in sorted;
    hide OfUser, SortDesc, InOrder;
    forall i, j | 0 <= i < j < |r| && r[i].createdAt == r[j].createdAt ensures InOrder(rs, r[i], r[j]) {
      RecentStable(rs, user, i, j);
    }
    forall x | x in sorted && x !in r ensures |r| == limit && forall y :: y in r ==> y.createdAt >= x.createdAt {
      LeftOutIsOlder(sorted, r, x);
    }
  }

  lemma RecentSorted(rs: seq<Record>, user: int)
    ensures var sorted := SortDesc(OfUser(rs, user), ByCreation);
            && (forall x :: x in sorted <==> x in rs && x.user == user)
            && (forall i, j :: 0 <= i < j < |sorted| ==> sorted[i].createdAt >= sorted[j].createdAt)
  {
    var mine := OfUser(rs, user);
    var sorted := SortDesc(mine, ByCreation);
    OfUserExact(rs, user);
    SortDescCorrect(mine, ByCreation);
    hide OfUser, SortDesc, Tied;
    assert forall x :: x in sorted <==> x in multiset(sorted);
    assert forall x :: x in mine <==> x in multiset(mine);
    assert forall i :: 0 <= i < |sorted| ==> KeyOf(sorted[i], ByCreation) == sorted[i].createdAt;
  }

  lemma LeftOutIsOlder(sorted: seq<Record>, r: seq<Record>, x: Record)
    requires x in sorted && x !in r && r <= sorted
    requires forall i, j :: 0 <= i < j < |sorted| ==> sorted[i].createdAt >= sorted[j].createdAt
    ensures |r| < |sorted| && forall y :: y in r ==> y.createdAt >= x.createdAt
  {
    var p :| 0 <= p < |sorted| && sorted[p] == x;
    assert forall i :: 0 <= i < |r| ==> sorted[i] == r[i] && sorted[i] in r;
    forall y | y in r ensures y.createdAt >= x.createdAt {
      var i :| 0 <= i < |r| && r[i] == y;
      assert sorted[i] == y && sorted[i].createdAt >= sorted[p].createdAt;
    }
  }

  lemma RecentStable(rs: seq<Record>, user: int, i: nat, j: nat)
    requires var sorted := SortDesc(OfUser(rs, user), ByCreation);
             i < j < |sorted| && sorted[i].createdAt == sorted[j].createdAt
    ensures var sorted := SortDesc(OfUser(rs, user), ByCreation);
            InOrder(rs, sorted[i], sorted[j])
  {
    var mine := OfUser(rs, user);
    var sorted := SortDesc(mine, ByCreation);
    SortDescCorrect(mine, ByCreation);
    var v := KeyOf(sorted[i], ByCreation);
    TiedKeepsOrder(sorted, ByCreation, i, j);
    TiedStands(mine, ByCreation, v, sorted[i], sorted[j]);
    OfUserStands(rs, user, sorted[i], sorted[j]);
  }

  // -------------------------------------------------------------------------
  // The life of a message
  // -------------------------------------------------------------------------

  // What a change says about the message `id`; changes to other messages say nothing.

  function OnSubmit(id: string): Change -> Option<SubmitStatus> {
    (c: Change) =>
      if c.MarkedSubmitted? && c.id == id then Some(Submitted)
      else if c.MarkedFailed? && c.id == id && c.submitFailed then Some(SubmitFailed) else None
  }

  function OnDelivery(id: string): Change -> Option<DeliveryStatus> {
    (c: Change) =>
      if c.MarkedDelivered? && c.id == id then Some(Delivered)
      else if c.MarkedFailed? && c.id == id && !c.submitFailed then Some(DeliveryFailed) else None
  }

  function OnSubmitTime(id: string): Change -> Option<Option<int>> {
    (c: Change) => if c.MarkedSubmitted? && c.id == id then Some(Some(c.now)) else None
  }

  function OnDeliveryTime(id: string): Change -> Option<Option<int>> {
    (c: Change) => if c.MarkedDelivered? && c.id == id then Some(Some(c.now)) else None
  }

  function OnError(id: string): Change -> Option<Option<string>> {
    (c: Change) => if c.MarkedFailed? && c.id == id then Some(Some(c.error)) else None
  }

  /** The record of a message created as `born`, after the changes `cs`. */
  ghost predicate Lived(born: Record, cs: seq<Change>, r: Record) {
    var id := born.smsId;
    && r.smsId == id && r.user == born.user && r.message == born.message && r.phone == born.phone
    && r.modem == born.modem && r.text == born.text && r.createdAt == born.createdAt
    && LastWord(cs, OnSubmit(id), born.submit, r.submit)
    && LastWord(cs, OnDelivery(id), born.delivery, r.delivery)
    && LastWord(cs, OnSubmitTime(id), born.submittedAt, r.submittedAt)
    && LastWord(cs, OnDeliveryTime(id), born.deliveredAt, r.deliveredAt)
    && LastWord(cs, OnError(id), born.error, r.error)
  }

  lemma ChangeSays(s: Store, c: Change, id: string)
    requires WellFormed(s) && id in s.records && (c.Created? ==> c.record.smsId != id)
    ensures var s' := Changed(s, c);
            && id in s'.records
            && var r, r' := s.records[id], s'.records[id];
               r' == r.(
                 submit := if OnSubmit(id)(c).Some? then OnSubmit(id)(c).value else r.submit,
                 delivery := if OnDelivery(id)(c).Some? then OnDelivery(id)(c).value else r.delivery,
                 submittedAt := if OnSubmitTime(id)(c).Some? then OnSubmitTime(id)(c).value else r.submittedAt,
                 deliveredAt := if OnDeliveryTime(id)(c).Some? then OnDeliveryTime(id)(c).value else r.deliveredAt,
                 error := if OnError(id)(c).Some? then OnError(id)(c).value else r.error)
  {
  }

  lemma ChangedWellFormed(s: Store, c: Change)
    requires WellFormed(s)
    ensures WellFormed(Changed(s, c))
  {
    if Written(s, c).Some? { PutWellFormed(s, Written(s, c).value); }
  }

  lemma {:induction false} RunWellFormed(s: Store, cs: seq<Change>)
    requires WellFormed(s)
    ensures WellFormed(RunStore(s, cs))
    decreases |cs|
  {
    if cs != [] {
      RunWellFormed(s, cs[..|cs| - 1]);
      ChangedWellFormed(RunStore(s, cs[..|cs| - 1]), cs[|cs| - 1]);
    }
  }

  lemma LivedOn(born: Record, cs: seq<Change>, c: Change, s: Store)
    requires WellFormed(s) && born.smsId in s.records && (c.Created? ==> c.record.smsId != born.smsId)
    requires Lived(born, cs, s.records[born.smsId])
    ensures born.smsId in Changed(s, c).records && Lived(born, cs + [c], Changed(s, c).records[born.smsId])
  {
    var id := born.smsId;
    var r := s.records[id];
    ChangeSays(s, c, id);
    hide LastWord, OnSubmit, OnDelivery, OnSubmitTime, OnDeliveryTime, OnError, Changed, WellFormed;
    WordKept(cs, c, OnSubmit(id), born.submit, r.submit);
    WordKept(cs, c, OnDelivery(id), born.delivery, r.delivery);
    WordKept(cs, c, OnSubmitTime(id), born.submittedAt, r.submittedAt);
    WordKept(cs, c, OnDeliveryTime(id), born.deliveredAt, r.deliveredAt);
    WordKept(cs, c, OnError(id), born.error, r.error);
  }

  lemma {:induction false} LivesOn(s: Store, id: string, cs: seq<Change>)
    requires WellFormed(s) && id in s.records
    requires forall c :: c in cs && c.Created? ==> c.record.smsId != id
    ensures id in RunStore(s, cs).records && Lived(s.records[id], cs, RunStore(s, cs).records[id])
    decreases |cs|
  {
    if cs != [] {
      var less, c := cs[..|cs| - 1], cs[|cs| - 1];
      LivesOn(s, id, less);
      RunWellFormed(s, less);
      assert cs == less + [c];
      hide Lived, WellFormed, Changed;
      LivedOn(s.records[id], less, c, RunStore(s, less));
    }
  }

  /** Whatever happens to other messages in between: a message keeps what it was created with, starts out
      unsubmitted and pending, and each of its two statuses, its two times and its error is what the last
      change to this message said about it. */
  lemma MessageLife(s: Store, id: string, user: int, phone: string, text: string, message: Option<int>,
                    modem: string, now: int, cs: seq<Change>)
    requires WellFormed(s) && id !in s.records
    requires forall c :: c in cs && c.Created? ==> c.record.smsId != id
    ensures var after := RunStore(Changed(s, Created(NewRecord(id, user, phone, text, message, modem, now))), cs);
            && id in after.records
            && Lived(Record(id, user, message, phone, modem, text, NotSubmitted, Undelivered, None, None, None, now),
                     cs, after.records[id])
  {
    var c := Created(NewRecord(id, user, phone, text, message, modem, now));
    ChangedWellFormed(s, c);
    LivesOn(Changed(s, c), id, cs);
    hide Lived, WellFormed;
  }

  /** A report settles the message it resolves the way its wording says, and no other message. */
  lemma ReportSettles(d: Desk, modem: string, text: string, failed: bool, now: int)
    requires WellFormed(d.store)
    ensures var d' := Stepped(d, Report(modem, text, failed, now));
            var m := Matched(Values(d.store), modem, text);
            && (m.None? ==> d' == d)
            && (m.Some? ==>
                  var r := m.value;
                  && r.smsId in d.store.records && d.store.records[r.smsId] == r
                  && d'.store.order == d.store.order
                  && d'.store.records == d.store.records[r.smsId :=
                       if failed then r.(delivery := DeliveryFailed, error := Some(text))
                       else r.(delivery := Delivered, deliveredAt := Some(now))])
  {
    ReportIs(d, modem, text, failed, now);
    hide Stepped, Matched, Values, WellFormed;
    if Matched(Values(d.store), modem, text).Some? { MatchedKnown(d.store, modem, text); }
  }

  function CreatedIds(cs: seq<Change>): seq<string>
    decreases |cs|
  {
    if cs == [] then []
    else
      var c := cs[|cs| - 1];
      CreatedIds(cs[..|cs| - 1]) + if c.Created? then [c.record.smsId] else []
  }

  lemma LastIsNew(s: seq<string>, x: string)
    requires Ordering.Distinct(s + [x])
    ensures Ordering.Distinct(s) && x !in s
  {
    var more := s + [x];
    assert more[|s|] == x && forall i :: 0 <= i < |s| ==> more[i] == s[i];
  }

  /** The store lists its messages in the order of their creation; no mark moves one. */
  lemma {:induction false} OrderOfCreation(s: Store, cs: seq<Change>)
    requires WellFormed(s) && Ordering.Distinct(s.order + CreatedIds(cs))
    ensures RunStore(s, cs).order == s.order + CreatedIds(cs)
    decreases |cs|
  {
    if cs != [] {
      hide WellFormed, Changed, Ordering.Distinct;
      var less, c := cs[..|cs| - 1], cs[|cs| - 1];
      var before := s.order + CreatedIds(less);
      if c.Created? {
        assert s.order + CreatedIds(cs) == before + [c.record.smsId];
        LastIsNew(before, c.record.smsId);
      } else {
        assert s.order + CreatedIds(cs) == before;
      }
      OrderOfCreation(s, less);
      RunWellFormed(s, less);
      NewOrder(RunStore(s, less), c);
    }
  }

  lemma NewOrder(s: Store, c: Change)
    requires WellFormed(s)
    ensures Changed(s, c).order == s.order + if c.Created? && c.record.smsId !in s.order then [c.record.smsId] else []
  {
  }
}
