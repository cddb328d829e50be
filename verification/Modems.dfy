/** Modem providers, the pool that reserves modems for calls, and the routing strategies. */
module Modems {
  import opened Options
  import opened Ordering

  datatype ModemState = Offline | Initializing | Ready | Busy | SmsBusy | CallBusy | Error | Disabled

  /** What a provider keeps for one modem: the last device report, the activity flags and
      the operational state derived from both. */
  datatype Device = Device(
    registered: bool,
    signal: Option<int>,
    operator: Option<string>,
    error: Option<string>,
    lastSeen: int,
    smsActive: bool,
    callActive: bool,
    observed: bool,
    state: ModemState)

  /** One device report; a field the device did not report is `None`. */
  datatype Report = Report(registered: bool, signal: Option<int>, operator: Option<string>, error: Option<string>)

  predicate HasError(d: Device) {
    d.error.Some? && d.error.value != ""
  }

  function DerivedState(d: Device): ModemState {
    if HasError(d) then Error
    else if !d.registered && d.lastSeen > 0 then
      if d.signal.Some? then Initializing else Offline
    else if d.callActive then CallBusy
    else if d.smsActive then SmsBusy
    else if d.registered then Ready
    else Initializing
  }

  function Derived(d: Device): Device {
    d.(state := DerivedState(d))
  }

  /** The stored state is the one its fields imply. A modem that was never observed is stored
      as OFFLINE, whatever the clock said when it was created. */
  predicate Fresh(d: Device) {
    d.state == DerivedState(d) || (d.state == Offline && !d.callActive && !d.smsActive)
  }

  function NewDevice(now: int): Device {
    Device(false, None, None, None, now, false, false, false, Offline)
  }

  function OrElse<T>(reported: Option<T>, known: Option<T>): Option<T> {
    if reported.Some? then reported else known
  }

  function Reported(d: Device, r: Report, now: int): Device {
    Derived(d.(registered := r.registered,
               signal := OrElse(r.signal, d.signal),
               operator := OrElse(r.operator, d.operator),
               error := OrElse(r.error, d.error),
               lastSeen := now,
               observed := true))
  }

  function Gone(d: Device, now: int): Device {
    Derived(d.(registered := false, signal := None, operator := None, error := None,
               lastSeen := now, observed := true))
  }

  function WithCall(d: Device, active: bool): Device {
    Derived(d.(callActive := active))
  }

  function WithSms(d: Device, active: bool): Device {
    Derived(d.(smsActive := active))
  }

  /** A modem takes new work exactly when the device is registered and without error and
      neither activity flag is up. */
  lemma ReadyExactlyWhenIdle(d: Device)
    ensures DerivedState(d) == Ready <==>
            d.registered && !HasError(d) && !d.callActive && !d.smsActive
    ensures Fresh(d) && d.state == Ready ==> !d.callActive
  {
  }

  /** No device report and no disappearance of the device makes a modem on a call selectable. */
  lemma PollerNeverFreesACall(d: Device, r: Report, now: int)
    requires d.callActive
    ensures Reported(d, r, now).callActive && Reported(d, r, now).state != Ready
    ensures Gone(d, now).callActive && Gone(d, now).state != Ready
    ensures now > 0 ==> Gone(d, now).state == Offline
  {
  }

  // -------------------------------------------------------------------------
  // The pool as a value
  // -------------------------------------------------------------------------

  datatype Pool = Pool(devices: map<string, Device>, reserved: set<string>)

  function Available(p: Pool): set<string> {
    set m | m in p.devices && m !in p.reserved && p.devices[m].state == Ready
  }

  predicate AllOffline(p: Pool) {
    forall m :: m in p.devices ==> p.devices[m].state == Offline
  }

  function Selected(p: Pool, m: string): Pool
    requires m in p.devices
  {
    Pool(p.devices[m := WithCall(p.devices[m], true)], p.reserved + {m})
  }

  /** First half of `release`: the reservation goes, the activity flag is still up. */
  function Unreserved(p: Pool, m: string): Pool {
    p.(reserved := p.reserved - {m})
  }

  /** Second half of `release`; a modem the provider does not know is left alone. */
  function CallCleared(p: Pool, m: string): Pool {
    if m in p.devices then p.(devices := p.devices[m := WithCall(p.devices[m], false)]) else p
  }

  function Released(p: Pool, m: string): Pool {
    CallCleared(Unreserved(p, m), m)
  }

  // -------------------------------------------------------------------------
  // Round robin
  // -------------------------------------------------------------------------

  function Turn(counter: nat, available: seq<string>): string
    requires available != []
  {
    Sort(available)[counter % |available|]
  }

  /** The modems chosen when the k-th request is shown the k-th listing. */
  function Turns(counter: nat, listings: seq<seq<string>>): seq<string>
    requires forall k :: 0 <= k < |listings| ==> listings[k] != []
  {
    if listings == [] then []
    else
      var k := |listings| - 1;
      Turns(counter, listings[..k]) + [Turn(counter + k, listings[k])]
  }

  /** How many of the `k` turns starting at `c` fall on position `i` of `n`. */
  function Hits(c: nat, k: nat, n: nat, i: nat): nat
    requires i < n
  {
    if k == 0 then 0 else Hits(c, k - 1, n, i) + (if (c + k - 1) % n == i then 1 else 0)
  }

  /** How many numbers below `t` leave remainder `i` modulo `n`. */
  function Below(t: nat, n: nat, i: nat): nat
    requires i < n
  {
    (t + n - 1 - i) / n
  }

  lemma AtLeastOnce(n: int, k: int)
    requires n > 0 && k > 0
    ensures n * k >= n
  {
  }

  lemma DivUnique(a: int, n: int, q: int, r: int)
    requires n > 0 && a == n * q + r && 0 <= r < n
    ensures a / n == q
  {
    var p := a / n;
    var s := a - n * p;
    assert 0 <= s < n;
    assert n * (p - q) == n * p - n * q;
    assert n * (q - p) == n * q - n * p;
    if p > q {
      AtLeastOnce(n, p - q);
    } else if p < q {
      AtLeastOnce(n, q - p);
    }
  }

  lemma BelowStep(t: nat, n: nat, i: nat)
    requires i < n
    ensures Below(t + 1, n, i) == Below(t, n, i) + (if t % n == i then 1 else 0)
  {
    var q, r := t / n, t % n;
    assert t == n * q + r;
    if r < i {
      DivUnique(t + n - 1 - i, n, q, r + n - 1 - i);
      DivUnique(t + n - i, n, q, r + n - i);
    } else if r == i {
      DivUnique(t + n - 1 - i, n, q, n - 1);
      assert t + n - i == n * (q + 1);
      DivUnique(t + n - i, n, q + 1, 0);
    } else {
      assert n * (q + 1) == n * q + n;
      DivUnique(t + n - 1 - i, n, q + 1, r - 1 - i);
      DivUnique(t + n - i, n, q + 1, r - i);
    }
  }

  lemma DivAdd(a: nat, m: nat, n: nat)
    requires n > 0
    ensures a / n + m / n <= (a + m) / n <= a / n + m / n + (if m % n == 0 then 0 else 1)
  {
    var q, r, p, s := a / n, a % n, m / n, m % n;
    assert a == n * q + r && m == n * p + s;
    assert n * (q + p) == n * q + n * p;
    if r + s < n {
      DivUnique(a + m, n, q + p, r + s);
    } else {
      assert n * (q + p + 1) == n * (q + p) + n;
      DivUnique(a + m, n, q + p + 1, r + s - n);
    }
  }

  lemma DivCeiling(m: nat, n: nat)
    requires n > 0
    ensures (m + n - 1) / n == m / n + (if m % n == 0 then 0 else 1)
  {
    var p, s := m / n, m % n;
    assert m == n * p + s;
    if s == 0 {
      DivUnique(m + n - 1, n, p, n - 1);
    } else {
      assert n * (p + 1) == n * p + n;
      DivUnique(m + n - 1, n, p + 1, s - 1);
    }
  }

  lemma {:induction false} HitsIsBelow(c: nat, k: nat, n: nat, i: nat)
    requires i < n
    ensures Hits(c, k, n, i) == Below(c + k, n, i) - Below(c, n, i)
  {
    if k > 0 {
      HitsIsBelow(c, k - 1, n, i);
      BelowStep(c + k - 1, n, i);
    }
  }

  lemma HitsSpread(c: nat, k: nat, n: nat, i: nat)
    requires i < n
    ensures k / n <= Hits(c, k, n, i) <= (k + n - 1) / n
  {
    HitsIsBelow(c, k, n, i);
    DivAdd(c + n - 1 - i, k, n);
    DivCeiling(k, n);
    assert (c + n - 1 - i) + k == c + k + n - 1 - i;
  }

  /** Every listing sorts to the same order. */
  ghost predicate ShowOrder(listings: seq<seq<string>>, order: seq<string>) {
    forall k :: 0 <= k < |listings| ==>
      listings[k] != [] && Sort(listings[k]) == order && |listings[k]| == |order|
  }

  lemma CountSnoc(s: seq<string>, x: string, y: string)
    ensures multiset(s + [x])[y] == multiset(s)[y] + (if x == y then 1 else 0)
  {
  }

  lemma {:induction false} TurnsCount(counter: nat, order: seq<string>, listings: seq<seq<string>>, i: nat)
    requires Distinct(order) && i < |order| && ShowOrder(listings, order)
    ensures multiset(Turns(counter, listings))[order[i]]
         == Hits(counter, |listings|, |order|, i)
  {
    hide Sort, Turn, Hits;
    if listings == [] {
      NoHits(counter, |order|, i);
    } else {
      var k := |listings| - 1;
      TurnsCount(counter, order, listings[..k], i);
      TurnHits(counter, k, listings[k], order, i);
      CountSnoc(Turns(counter, listings[..k]), Turn(counter + k, listings[k]), order[i]);
    }
  }

  lemma NoHits(c: nat, n: nat, i: nat)
    requires i < n
    ensures Hits(c, 0, n, i) == 0
  {
  }

  /** One more turn hits exactly the modem it chooses. */
  lemma TurnHits(c: nat, k: nat, listing: seq<string>, order: seq<string>, i: nat)
    requires listing != [] && Sort(listing) == order && |listing| == |order| && Distinct(order) && i < |order|
    ensures Hits(c, k + 1, |order|, i) == Hits(c, k, |order|, i) + (if Turn(c + k, listing) == order[i] then 1 else 0)
  {
    var j := (c + k) % |order|;
    assert Turn(c + k, listing) == order[j];
  }

  lemma PermutationsShowOrder(base: seq<string>, listings: seq<seq<string>>)
    requires Distinct(base)
    requires forall k :: 0 <= k < |listings| ==> listings[k] != [] && multiset(listings[k]) == multiset(base)
    ensures ShowOrder(listings, Sort(base)) && Distinct(Sort(base))
    ensures forall m :: m in base ==> m in Sort(base)
  {
    SortSorts(base);
    SortKeepsDistinct(base);
    forall m | m in base ensures m in Sort(base) {
      assert m in multiset(Sort(base));
    }
    forall k | 0 <= k < |listings|
      ensures Sort(listings[k]) == Sort(base) && |listings[k]| == |Sort(base)|
    {
      SortIgnoresOrder(listings[k], base);
    }
  }

  lemma TurnsSpread(counter: nat, order: seq<string>, listings: seq<seq<string>>, i: nat)
    requires Distinct(order) && i < |order| && ShowOrder(listings, order)
    ensures |listings| / |order| <= multiset(Turns(counter, listings))[order[i]]
         <= (|listings| + |order| - 1) / |order|
  {
    TurnsCount(counter, order, listings, i);
    HitsSpread(counter, |listings|, |order|, i);
  }

  /** Over any run of requests that see the same modems, in whatever order each listing
      presents them, every modem is chosen the same number of times up to one. */
  lemma RoundRobinFair(counter: nat, base: seq<string>, listings: seq<seq<string>>, m: string)
    requires Distinct(base) && m in base
    requires forall k :: 0 <= k < |listings| ==> listings[k] != [] && multiset(listings[k]) == multiset(base)
    ensures |listings| / |base| <= multiset(Turns(counter, listings))[m]
         <= (|listings| + |base| - 1) / |base|
  {
    hide Sort, Turns, Distinct;
    SortSorts(base);
    PermutationsShowOrder(base, listings);
    hide ShowOrder;
    var i :| 0 <= i < |Sort(base)| && Sort(base)[i] == m;
    TurnsSpread(counter, Sort(base), listings, i);
  }

  // -------------------------------------------------------------------------
  // The objects
  // -------------------------------------------------------------------------

  /** The provider's memory of its modems. A single-modem provider is one with a single key. */
  class Provider {
    var devices: map<string, Device>

    constructor Single(modem: string, now: int)
      ensures devices == map[modem := NewDevice(now)]
    {
      devices := map[modem := NewDevice(now)];
    }

    method UpdateState(m: string, r: Report, now: int) returns (found: bool)
      modifies this
      ensures found == (m in old(devices))
      ensures devices == if found then old(devices)[m := Reported(old(devices)[m], r, now)] else old(devices)
    {
      if m !in devices { return false; }
      var d := devices[m].(observed := true, registered := r.registered);
      if r.signal.Some? { d := d.(signal := r.signal); }
      if r.operator.Some? { d := d.(operator := r.operator); }
      if r.error.Some? { d := d.(error := r.error); }
      d := d.(lastSeen := now);
      devices := devices[m := Derived(d)];
      return true;
    }

    method SetCallActive(m: string, active: bool) returns (found: bool)
      modifies this
      ensures found == (m in old(devices))
      ensures devices == if found then old(devices)[m := WithCall(old(devices)[m], active)] else old(devices)
    {
      if m !in devices { return false; }
      devices := devices[m := Derived(devices[m].(callActive := active))];
      return true;
    }

    method SetSmsActive(m: string, active: bool) returns (found: bool)
      modifies this
      ensures found == (m in old(devices))
      ensures devices == if found then old(devices)[m := WithSms(old(devices)[m], active)] else old(devices)
    {
      if m !in devices { return false; }
      devices := devices[m := Derived(devices[m].(smsActive := active))];
      return true;
    }

    method MarkOffline(m: string, now: int) returns (found: bool)
      modifies this
      ensures found == (m in old(devices))
      ensures devices == if found then old(devices)[m := Gone(old(devices)[m], now)] else old(devices)
    {
      if m !in devices { return false; }
      var d := devices[m].(observed := true, registered := false, signal := None, operator := None, error := None);
      devices := devices[m := Derived(d.(lastSeen := now))];
      return true;
    }

    /** The listing order is the provider's own business. */
    method ListModems() returns (ids: seq<string>)
      ensures Distinct(ids) && forall m :: m in ids <==> m in devices
    {
      ids := [];
      var rest := devices.Keys;
      while rest != {}
        invariant rest <= devices.Keys && Distinct(ids)
        invariant forall m :: m in ids <==> m in devices.Keys - rest
        decreases |rest|
      {
        var m :| m in rest;
        DistinctSnoc(ids, m);
        ids := ids + [m];
        rest := rest - {m};
      }
    }
  }

  datatype Policy = FirstAvailable | RoundRobin

  class Strategy {
    const policy: Policy
    var counter: nat

    constructor (policy: Policy)
      ensures this.policy == policy && counter == 0
    {
      this.policy := policy;
      counter := 0;
    }

    method Select(available: seq<string>) returns (chosen: Option<string>)
      modifies this
      ensures chosen.None? <==> available == []
      ensures chosen.Some? ==> chosen.value in available
      ensures chosen.Some? && policy == FirstAvailable ==>
                forall m :: m in available ==> Leq(chosen.value, m)
      ensures chosen.Some? && policy == RoundRobin ==> chosen.value == Turn(old(counter), available)
      ensures counter == old(counter) + if available != [] && policy == RoundRobin then 1 else 0
    {
      if available == [] { return None; }
      SortSorts(available);
      var sorted := Sort(available);
      assert forall m :: m in available <==> m in multiset(sorted);
      match policy {
        case FirstAvailable =>
          forall m | m in available ensures Leq(sorted[0], m) { HeadIsLeast(sorted, m); }
          assert sorted[0] in multiset(sorted);
          return Some(sorted[0]);
        case RoundRobin =>
          var i := counter % |sorted|;
          counter := counter + 1;
          assert sorted[i] in multiset(sorted);
          return Some(sorted[i]);
      }
    }
  }

  class ModemPool {
    const provider: Provider
    const strategy: Strategy
    var reserved: set<string>

    constructor (provider: Provider, strategy: Strategy)
      ensures this.provider == provider && this.strategy == strategy
      ensures View() == Pool(provider.devices, {})
    {
      this.provider := provider;
      this.strategy := strategy;
      reserved := {};
    }

    function View(): Pool
      reads this, provider
    {
      Pool(provider.devices, reserved)
    }

    method GetAvailable() returns (ids: seq<string>)
      ensures Distinct(ids) && forall m :: m in ids <==> m in Available(View())
    {
      var all := provider.ListModems();
      ids := [];
      for k := 0 to |all|
        invariant Distinct(ids)
        invariant forall m :: m in ids <==> m in all[..k] && m in Available(View())
      {
        if all[k] !in reserved && provider.devices[all[k]].state == Ready {
          DistinctSnoc(ids, all[k]);
          ids := ids + [all[k]];
        }
        assert all[..k + 1] == all[..k] + [all[k]];
      }
      assert all[..|all|] == all;
    }

    /** Selects and reserves in one step. */
    method SelectForCall() returns (chosen: Option<string>)
      modifies this, provider, strategy
      ensures chosen.None? <==> old(Available(View())) == {}
      ensures chosen.Some? ==>
                chosen.value in old(Available(View())) && View() == Selected(old(View()), chosen.value)
      ensures chosen.None? ==> View() == old(View())
    {
      var available := GetAvailable();
      if available == [] { return None; }
      assert available[0] in Available(View());
      chosen := strategy.Select(available);
      reserved := reserved + {chosen.value};
      var found := provider.SetCallActive(chosen.value, true);
    }

    method Release(m: string)
      modifies this, provider
      ensures View() == Released(old(View()), m)
    {
      reserved := reserved - {m};
      var found := provider.SetCallActive(m, false);
    }

    /** The reason given for a refused call: every modem is unreachable, or merely busy. */
    method IsAllOffline() returns (r: bool)
      ensures r == AllOffline(View())
      ensures r <==> forall m :: m in provider.devices ==> provider.devices[m].state == Offline
    {
      var ids := provider.ListModems();
      for k := 0 to |ids|
        invariant forall j :: 0 <= j < k ==> provider.devices[ids[j]].state == Offline
      {
        if provider.devices[ids[k]].state != Offline { return false; }
      }
      forall m | m in provider.devices ensures provider.devices[m].state == Offline {
        assert m in ids;
      }
      return true;
    }
  }
}
