/** The sliding-window rate limiter and the replay guard, both against the full history of what
    they admitted. */
module Windows {

  /** The clock never runs backwards. */
  ghost predicate Rising(ts: seq<int>) {
    forall i, j :: 0 <= i < j < |ts| ==> ts[i] <= ts[j]
  }

  // -------------------------------------------------------------------------
  // Rate limiter
  // -------------------------------------------------------------------------

  function After(ts: seq<int>, cutoff: int): seq<int> {
    if ts == [] then []
    else (if ts[0] > cutoff then [ts[0]] else []) + After(ts[1..], cutoff)
  }

  /** How many of `ts` lie in (lo, hi]. */
  function Within(ts: seq<int>, lo: int, hi: int): nat {
    if ts == [] then 0
    else (if lo < ts[0] <= hi then 1 else 0) + Within(ts[1..], lo, hi)
  }

  lemma {:induction false} AfterAppend(ts: seq<int>, t: int, cutoff: int)
    ensures After(ts + [t], cutoff) == After(ts, cutoff) + (if t > cutoff then [t] else [])
  {
    if ts == [] {
      assert ts + [t] == [t];
    } else {
      assert (ts + [t])[1..] == ts[1..] + [t];
      AfterAppend(ts[1..], t, cutoff);
    }
  }

  lemma {:induction false} WithinAppend(ts: seq<int>, t: int, lo: int, hi: int)
    ensures Within(ts + [t], lo, hi) == Within(ts, lo, hi) + (if lo < t <= hi then 1 else 0)
  {
    if ts == [] {
      assert ts + [t] == [t];
    } else {
      assert (ts + [t])[1..] == ts[1..] + [t];
      WithinAppend(ts[1..], t, lo, hi);
    }
  }

  /** Pruning twice is pruning once at the later cutoff: nothing that could matter is lost. */
  lemma {:induction false} AfterAfter(ts: seq<int>, early: int, late: int)
    requires early <= late
    ensures After(After(ts, early), late) == After(ts, late)
  {
    if ts != [] {
      AfterAfter(ts[1..], early, late);
      var rest := After(ts[1..], early);
      if ts[0] > early {
        assert ([ts[0]] + rest)[1..] == rest;
      } else {
        assert After(ts, early) == rest && After(ts, late) == After(ts[1..], late);
      }
    }
  }

  lemma {:induction false} AfterCounts(ts: seq<int>, cutoff: int, now: int)
    requires forall i :: 0 <= i < |ts| ==> ts[i] <= now
    ensures |After(ts, cutoff)| == Within(ts, cutoff, now)
  {
    if ts != [] { AfterCounts(ts[1..], cutoff, now); }
  }

  lemma {:induction false} WithinWider(ts: seq<int>, lo: int, hi: int, lo': int, hi': int)
    requires lo' <= lo && hi <= hi'
    ensures Within(ts, lo, hi) <= Within(ts, lo', hi')
  {
    if ts != [] { WithinWider(ts[1..], lo, hi, lo', hi'); }
  }

  /** The rule against the full history of one key's admissions. */
  predicate Admits(history: seq<int>, max: int, window: int, now: int) {
    Within(history, now - window, now) < max
  }

  /** The admissions a run of requests at the given times leads to. */
  function Admitted(times: seq<int>, max: int, window: int): seq<int>
    decreases |times|
  {
    if times == [] then []
    else
      var n := |times| - 1;
      var before := Admitted(times[..n], max, window);
      if Admits(before, max, window, times[n]) then before + [times[n]] else before
  }

  lemma {:induction false} AdmittedRising(times: seq<int>, max: int, window: int)
    requires Rising(times)
    ensures Rising(Admitted(times, max, window))
    ensures forall t :: t in Admitted(times, max, window) ==> times != [] && t <= times[|times| - 1]
    decreases |times|
  {
    if times != [] {
      var n := |times| - 1;
      AdmittedRising(times[..n], max, window);
      var before := Admitted(times[..n], max, window);
      forall i | 0 <= i < |before| ensures before[i] <= times[n] {
        assert before[i] in before;
      }
    }
  }

  /** One more admission keeps every window within the bound. */
  lemma AdmissionBound(before: seq<int>, t: int, max: nat, window: nat, lo: int)
    requires forall i :: 0 <= i < |before| ==> before[i] <= t
    requires Within(before, lo, lo + window) <= max && Admits(before, max, window, t)
    ensures Within(before + [t], lo, lo + window) <= max
  {
    WithinAppend(before, t, lo, lo + window);
    UpTo(before, lo, lo + window, t);
    if lo < t <= lo + window { WithinWider(before, lo, t, t - window, t); }
  }

  /** No interval (lo, lo + window] holds more than `max` admissions. Clock readings are whole
      numbers here, so this covers the intervals [lo + 1, lo + 1 + window) as well. */
  lemma {:induction false} WindowBound(times: seq<int>, max: nat, window: nat, lo: int)
    requires Rising(times)
    ensures Within(Admitted(times, max, window), lo, lo + window) <= max
    decreases |times|
  {
    if times != [] {
      var n := |times| - 1;
      var before := Admitted(times[..n], max, window);
      WindowBound(times[..n], max, window, lo);
      AdmittedRising(times[..n], max, window);
      forall i | 0 <= i < |before| ensures before[i] <= times[n] {
        assert before[i] in before;
      }
      if Admits(before, max, window, times[n]) { AdmissionBound(before, times[n], max, window, lo); }
    }
  }

  lemma {:induction false} UpTo(ts: seq<int>, lo: int, hi: int, last: int)
    requires forall i :: 0 <= i < |ts| ==> ts[i] <= last
    ensures last <= hi ==> Within(ts, lo, hi) == Within(ts, lo, last)
  {
    if ts != [] { UpTo(ts[1..], lo, hi, last); }
  }

  /** A refusal means the window ending now is exactly full. */
  lemma RefusedOnlyWhenFull(times: seq<int>, max: nat, window: nat, now: int)
    requires Rising(times + [now]) && !Admits(Admitted(times, max, window), max, window, now)
    ensures Within(Admitted(times, max, window), now - window, now) == max
  {
    assert Rising(times) by {
      assert forall i :: 0 <= i < |times| ==> (times + [now])[i] == times[i];
    }
    WindowBound(times, max, window, now - window);
  }

  /** A pruned history, with or without one more admission, prunes at later cutoffs like the whole. */
  lemma PruneStep(h: seq<int>, cutoff: int, now: int)
    ensures forall c :: c >= cutoff ==> After(After(h, cutoff), c) == After(h, c)
    ensures forall c :: c >= cutoff ==> After(After(h, cutoff) + [now], c) == After(h + [now], c)
  {
    forall c | c >= cutoff
      ensures After(After(h, cutoff), c) == After(h, c)
      ensures After(After(h, cutoff) + [now], c) == After(h + [now], c)
    {
      AfterAfter(h, cutoff, c);
      AfterAppend(After(h, cutoff), now, c);
      AfterAppend(h, now, c);
    }
  }

  lemma RuleStep(times: seq<int>, now: int, max: int, window: int)
    requires Rising(times) && forall i :: 0 <= i < |times| ==> times[i] <= now
    ensures Rising(times + [now])
    ensures var before := Admitted(times, max, window);
            Admitted(times + [now], max, window) == if Admits(before, max, window, now) then before + [now] else before
  {
    assert (times + [now])[..|times|] == times;
  }

  /** What is kept for one key: the admissions are the ones the rule makes of the requests, and at
      every cutoff still to come the bucket prunes to what the whole history does. */
  ghost predicate Kept(bucket: seq<int>, history: seq<int>, asked: seq<int>, max: int, window: int, clock: int) {
    && Rising(asked) && (forall i :: 0 <= i < |asked| ==> asked[i] <= clock)
    && history == Admitted(asked, max, window)
    && (forall i :: 0 <= i < |history| ==> history[i] <= clock)
    && forall c :: c >= clock - window ==> After(bucket, c) == After(history, c)
  }

  lemma KeptLater(bucket: seq<int>, history: seq<int>, asked: seq<int>, max: int, window: int, clock: int, now: int)
    requires Kept(bucket, history, asked, max, window, clock) && now >= clock
    ensures Kept(bucket, history, asked, max, window, now)
  {
    hide Rising, Admitted, After;
  }

  lemma KeptAsked(bucket: seq<int>, history: seq<int>, asked: seq<int>, max: int, window: int, clock: int, now: int)
    requires Kept(bucket, history, asked, max, window, clock) && now >= clock
    ensures |After(bucket, now - window)| == Within(history, now - window, now)
    ensures Admits(history, max, window, now) ==>
              Kept(After(bucket, now - window) + [now], history + [now], asked + [now], max, window, now)
    ensures !Admits(history, max, window, now) ==>
              Kept(After(bucket, now - window), history, asked + [now], max, window, now)
  {
    RuleStep(asked, now, max, window);
    PruneStep(history, now - window, now);
    AfterCounts(history, now - window, now);
    hide Rising, Admitted, After, Within;
  }

  type Times = map<string, seq<int>>

  function Of(m: Times, key: string): seq<int> {
    if key in m then m[key] else []
  }

  /** What is kept for all keys. */
  ghost predicate AllKept(buckets: Times, history: Times, asked: Times, max: int, window: int, clock: int) {
    forall key :: Kept(Of(buckets, key), Of(history, key), Of(asked, key), max, window, clock)
  }

  /** The tables after a request: a bucket is pruned, and grows when the request is admitted. */
  function BucketsAfter(buckets: Times, key: string, window: int, now: int, admitted: bool): Times {
    var pruned := After(Of(buckets, key), now - window);
    buckets[key := if admitted then pruned + [now] else pruned]
  }

  function With(m: Times, key: string, now: int): Times {
    m[key := Of(m, key) + [now]]
  }

  lemma AllKeptAsked(buckets: Times, history: Times, asked: Times, max: int, window: int, clock: int,
                     key: string, now: int)
    requires AllKept(buckets, history, asked, max, window, clock) && now >= clock
    ensures |After(Of(buckets, key), now - window)| == Within(Of(history, key), now - window, now)
    ensures var admitted := Admits(Of(history, key), max, window, now);
            AllKept(BucketsAfter(buckets, key, window, now, admitted),
                    if admitted then With(history, key, now) else history, With(asked, key, now), max, window, now)
  {
    hide Kept, After, Within;
    var admitted := Admits(Of(history, key), max, window, now);
    var b := BucketsAfter(buckets, key, window, now, admitted);
    var h, a := if admitted then With(history, key, now) else history, With(asked, key, now);
    assert Kept(Of(buckets, key), Of(history, key), Of(asked, key), max, window, clock);
    KeptAsked(Of(buckets, key), Of(history, key), Of(asked, key), max, window, clock, now);
    forall k ensures Kept(Of(b, k), Of(h, k), Of(a, k), max, window, now) {
      if k != key {
        assert Of(b, k) == Of(buckets, k) && Of(h, k) == Of(history, k) && Of(a, k) == Of(asked, k);
        assert Kept(Of(buckets, k), Of(history, k), Of(asked, k), max, window, clock);
        KeptLater(Of(buckets, k), Of(history, k), Of(asked, k), max, window, clock, now);
      }
    }
  }

  class RateLimiter {
    const max: int
    const window: int
    var buckets: Times
    /** Every request and every admission ever, and the latest time seen. */
    ghost var asked: Times
    ghost var history: Times
    ghost var clock: int

    ghost predicate Valid()
      reads this
    {
      AllKept(buckets, history, asked, max, window, clock)
    }

    ghost function HistoryOf(key: string): seq<int>
      reads this
    {
      Of(history, key)
    }

    constructor (max: int, window: int, ghost start: int)
      ensures Valid() && this.max == max && this.window == window && clock == start
      ensures history == map[] && asked == map[]
    {
      this.max := max;
      this.window := window;
      buckets, history, clock := map[], map[], start;
      asked := map[];
    }

    /** At no time have there been more than `max` admissions of a key within one window. */
    lemma NeverTooMany(key: string, lo: int)
      requires Valid() && max >= 0 && window >= 0
      ensures Within(HistoryOf(key), lo, lo + window) <= max
    {
      assert Kept(Of(buckets, key), Of(history, key), Of(asked, key), max, window, clock);
      WindowBound(Of(asked, key), max, window, lo);
    }

    /** A request is only refused when its key's window is exactly full. */
    lemma RefusedWhenFull(key: string, now: int)
      requires Valid() && max >= 0 && window >= 0 && now >= clock
      requires !Admits(HistoryOf(key), max, window, now)
      ensures Within(HistoryOf(key), now - window, now) == max
    {
      assert Kept(Of(buckets, key), Of(history, key), Of(asked, key), max, window, clock);
      RefusedOnlyWhenFull(Of(asked, key), max, window, now);
    }

    static method Prune(ts: seq<int>, cutoff: int) returns (r: seq<int>)
      ensures r == After(ts, cutoff)
    {
      r := [];
      for i := 0 to |ts|
        invariant After(ts, cutoff) == r + After(ts[i..], cutoff)
      {
        assert ts[i..][1..] == ts[i + 1..];
        if ts[i] > cutoff { r := r + [ts[i]]; }
      }
    }

    /** Pruning forgets nothing that matters now. */
    lemma BucketTells(key: string, now: int)
      requires Valid() && now >= clock
      ensures |After(Of(buckets, key), now - window)| == Within(HistoryOf(key), now - window, now)
    {
      AllKeptAsked(buckets, history, asked, max, window, clock, key, now);
    }

    /** Decides by the bucket exactly what the full history demands. */
    method Allow(key: string, now: int) returns (allowed: bool)
      requires Valid() && now >= clock
      modifies this
      ensures Valid() && clock == now
      ensures allowed == Admits(old(HistoryOf(key)), max, window, now)
      ensures history == if allowed then With(old(history), key, now) else old(history)
      ensures asked == With(old(asked), key, now)
    {
      hide AllKept, After, Within, With, Of;
      var cutoff := now - window;
      var timestamps := Of(buckets, key);
      AllKeptAsked(buckets, history, asked, max, window, clock, key, now);
      timestamps := Prune(timestamps, cutoff);
      allowed := |timestamps| < max;
      if allowed {
        timestamps := timestamps + [now];
        history := With(history, key, now);
      }
      ghost var was := buckets;
      buckets := buckets[key := timestamps];
      assert buckets == BucketsAfter(was, key, window, now, allowed);
      asked := With(asked, key, now);
      clock := now;
    }

    /** How many more requests fit; positive exactly when `Allow` would admit one now. */
    method Remaining(key: string, now: int) returns (n: int)
      requires Valid() && now >= clock
      ensures n == if Within(HistoryOf(key), now - window, now) < max
                   then max - Within(HistoryOf(key), now - window, now) else 0
      ensures n > 0 <==> Admits(HistoryOf(key), max, window, now)
    {
      BucketTells(key, now);
      var timestamps := Prune(Of(buckets, key), now - window);
      n := if max - |timestamps| > 0 then max - |timestamps| else 0;
    }
  }

  // -------------------------------------------------------------------------
  // Replay guard
  // -------------------------------------------------------------------------

  datatype Accepted = Accepted(id: string, at: int)

  /** Some acceptance of `id` is at most `window` old. */
  ghost predicate Recent(history: seq<Accepted>, id: string, window: int, now: int) {
    exists i :: 0 <= i < |history| && history[i].id == id && now - history[i].at <= window
  }

  /** The table holds, for every id, its last acceptance unless that is too old to matter; two
      acceptances of one id are more than the window apart. */
  ghost predicate Remembers(seen: map<string, int>, history: seq<Accepted>, window: int, clock: int) {
    && (forall i :: 0 <= i < |history| ==> history[i].at <= clock)
    && (forall id :: id in seen ==> Accepted(id, seen[id]) in history)
    && (forall i :: 0 <= i < |history| ==> Covered(seen, history[i], window, clock))
    && Spaced(history, window)
  }

  predicate Covered(seen: map<string, int>, a: Accepted, window: int, clock: int) {
    (a.id in seen && a.at <= seen[a.id]) || clock - a.at > window
  }

  ghost predicate Spaced(history: seq<Accepted>, window: int) {
    forall i, j :: 0 <= i < j < |history| && history[i].id == history[j].id ==>
      history[j].at - history[i].at > window
  }

  /** Dropping the expired entries forgets nothing that could still reject a request. */
  lemma PruneRemembers(seen: map<string, int>, history: seq<Accepted>, window: int, clock: int, now: int)
    requires Remembers(seen, history, window, clock) && now >= clock
    ensures Remembers(seen - Expired(seen, window, now), history, window, now)
    ensures forall id :: id in seen - Expired(seen, window, now) <==> Recent(history, id, window, now)
  {
    hide Spaced;
    var kept := seen - Expired(seen, window, now);
    forall i | 0 <= i < |history| ensures Covered(kept, history[i], window, now) {
      assert Covered(seen, history[i], window, clock);
    }
    forall id ensures id in kept <==> Recent(history, id, window, now) {
      if id in kept {
        var i :| 0 <= i < |history| && history[i] == Accepted(id, kept[id]);
      }
    }
  }

  function Expired(seen: map<string, int>, window: int, now: int): set<string> {
    set k | k in seen && now - seen[k] > window
  }

  lemma AcceptRemembers(seen: map<string, int>, history: seq<Accepted>, window: int, now: int, id: string)
    requires Remembers(seen, history, window, now) && !Recent(history, id, window, now)
    ensures Remembers(seen[id := now], history + [Accepted(id, now)], window, now)
  {
    var h := history + [Accepted(id, now)];
    forall i | 0 <= i < |h| ensures Covered(seen[id := now], h[i], window, now) {
      if i < |history| { assert Covered(seen, history[i], window, now); }
    }
    var seen' := seen[id := now];
    forall k | k in seen' ensures Accepted(k, seen'[k]) in h {
      if k != id { assert Accepted(k, seen[k]) in history; } else { assert h[|history|] == Accepted(id, now); }
    }
    forall i, j | 0 <= i < j < |h| && h[i].id == h[j].id ensures h[j].at - h[i].at > window {
      if j == |history| { assert h[i] == history[i]; }
    }
  }

  class ReplayGuard {
    const window: int
    var seen: map<string, int>
    /** Every request with an id, and every one accepted. */
    ghost var asked: seq<Accepted>
    ghost var history: seq<Accepted>
    ghost var clock: int

    ghost predicate Valid()
      reads this
    {
      Remembers(seen, history, window, clock) && history == Guarded(asked, window)
    }

    constructor (window: int, ghost start: int)
      ensures Valid() && this.window == window && history == [] && asked == [] && clock == start
    {
      this.window := window;
      seen, history, clock := map[], [], start;
      asked := [];
    }

    /** A request is rejected exactly when its id was accepted within the window. A request
        without an id passes unchecked. */
    method CheckReplay(id: string, now: int) returns (accepted: bool)
      requires Valid() && now >= clock
      modifies this
      ensures Valid() && Spaced(history, window)
      ensures accepted == (id == "" || !Recent(old(history), id, window, now))
      ensures history == if accepted && id != "" then old(history) + [Accepted(id, now)] else old(history)
      ensures asked == if id != "" then old(asked) + [Accepted(id, now)] else old(asked)
    {
      if id == "" { return true; }
      asked := asked + [Accepted(id, now)];
      assert asked[..|asked| - 1] == old(asked);
      PruneRemembers(seen, history, window, clock, now);
      var expired := set k | k in seen && now - seen[k] > window;
      seen := seen - expired;
      clock := now;
      if id in seen { return false; }
      AcceptRemembers(seen, history, window, now, id);
      seen := seen[id := now];
      history := history + [Accepted(id, now)];
      return true;
    }
  }

  /** The guard's history against the rule alone: accept unless accepted within the window. */
  ghost function Guarded(requests: seq<Accepted>, window: int): seq<Accepted>
    decreases |requests|
  {
    if requests == [] then []
    else
      var n := |requests| - 1;
      var before := Guarded(requests[..n], window);
      if Recent(before, requests[n].id, window, requests[n].at) then before else before + [requests[n]]
  }

  /** Over any run, two accepted requests with one id are more than the window apart. */
  lemma {:induction false} GuardedSpaced(requests: seq<Accepted>, window: int)
    ensures Spaced(Guarded(requests, window), window)
    decreases |requests|
  {
    if requests != [] {
      GuardedSpaced(requests[..|requests| - 1], window);
    }
  }
}
