/**
 The fixed-window rate limiter: one counter per key, reset when a call comes
 more than 1000 ms after the window began. Times are whole milliseconds, as
 `Date.now()` gives them. The main results bound what a *sliding* span of time
 can see, and show that neither `cleanup` nor anybody else's traffic matters.
 */
module RateLimiter {
  import opened Wrappers

  datatype Kind = IpAddress | FromIdentity

  datatype Counter = Counter(count: int, windowStart: int)

  datatype Limits = Limits(ipAddress: int, fromIdentity: int) {
    function For(kind: Kind): int {
      if kind.IpAddress? then ipAddress else fromIdentity
    }
  }

  type CounterMap = map<string, Counter>

  datatype Counters = Counters(ip: CounterMap, identity: CounterMap) {
    function For(kind: Kind): CounterMap {
      if kind.IpAddress? then ip else identity
    }

    function With(kind: Kind, m: CounterMap): Counters {
      if kind.IpAddress? then Counters(m, identity) else Counters(ip, m)
    }

    function Entry(kind: Kind, key: string): Option<Counter> {
      if key in For(kind) then Some(For(kind)[key]) else None
    }
  }

  // ---------------------------------------------------------------- one call

  predicate Expired(c: Counter, now: int) {
    c.windowStart < now - 1000
  }

  /** The counter a call at `now` leaves behind, and whether it is granted. */
  function Decide(entry: Option<Counter>, limit: int, now: int): (Counter, bool) {
    if entry.None? || Expired(entry.value, now) then (Counter(1, now), true)
    else if entry.value.count >= limit then (entry.value, false)
    else (entry.value.(count := entry.value.count + 1), true)
  }

  function Pruned(m: CounterMap, now: int): CounterMap {
    map k | k in m && !Expired(m[k], now) :: m[k]
  }

  datatype Event = Call(now: int, key: string, kind: Kind) | Cleanup(now: int)

  function Step(limits: Limits, cs: Counters, e: Event): Counters {
    match e
    case Call(now, key, kind) =>
      cs.With(kind, cs.For(kind)[key := Decide(cs.Entry(kind, key), limits.For(kind), now).0])
    case Cleanup(now) => Counters(Pruned(cs.ip, now), Pruned(cs.identity, now))
  }

  predicate Grants(limits: Limits, cs: Counters, e: Event) {
    e.Call? && Decide(cs.Entry(e.kind, e.key), limits.For(e.kind), e.now).1
  }

  // ------------------------------------------------------------ the limiter

  class BtpsSimpleRateLimiter {
    const limits: Limits
    var ipCounters: CounterMap
    var identityCounters: CounterMap

    constructor (fromIdentity: Option<int>, ipAddress: Option<int>)
      ensures Model() == Counters(map[], map[])
      ensures limits.fromIdentity == (if fromIdentity.Some? then fromIdentity.value else 10)
      ensures limits.ipAddress == (if ipAddress.Some? then ipAddress.value else 50)
    {
      limits := Limits(if ipAddress.Some? then ipAddress.value else 50,
                       if fromIdentity.Some? then fromIdentity.value else 10);
      ipCounters, identityCounters := map[], map[];
    }

    ghost function Model(): Counters
      reads this
    {
      Counters(ipCounters, identityCounters)
    }

    method IsAllowed(now: int, key: string, kind: Kind) returns (allowed: bool)
      modifies this
      ensures Model() == Step(limits, old(Model()), Call(now, key, kind))
      ensures allowed == Grants(limits, old(Model()), Call(now, key, kind))
    {
      var windowStart := now - 1000;
      var counters := if kind.IpAddress? then ipCounters else identityCounters;
      var limit := if kind.IpAddress? then limits.ipAddress else limits.fromIdentity;
      if key !in counters || counters[key].windowStart < windowStart {
        counters := counters[key := Counter(1, now)];
        allowed := true;
      } else if counters[key].count >= limit {
        assert counters[key := counters[key]] == counters;
        allowed := false;
      } else {
        counters := counters[key := counters[key].(count := counters[key].count + 1)];
        allowed := true;
      }
      if kind.IpAddress? { ipCounters := counters; } else { identityCounters := counters; }
    }

    /** `cleanup`, with its deletion loop run over both maps. */
    method Cleanup(now: int)
      modifies this
      ensures Model() == Step(limits, old(Model()), Event.Cleanup(now))
      ensures forall k :: k in ipCounters <==> k in old(ipCounters) && old(ipCounters)[k].windowStart >= now - 1000
      ensures forall k :: k in identityCounters <==> k in old(identityCounters) && old(identityCounters)[k].windowStart >= now - 1000
    {
      ipCounters := FilterOld(ipCounters, now);
      identityCounters := FilterOld(identityCounters, now);
    }

    static method FilterOld(m: CounterMap, now: int) returns (r: CounterMap)
      ensures r == Pruned(m, now)
    {
      r := m;
      var todo := m.Keys;
      while todo != {}
        invariant todo <= m.Keys
        invariant r == map k | k in m && (k in todo || !Expired(m[k], now)) :: m[k]
        decreases todo
      {
        var key :| key in todo;
        todo := todo - {key};
        if m[key].windowStart < now - 1000 {
          r := r - {key};
        }
      }
    }
  }

  // --------------------------------------------------- histories of the clock

  ghost predicate Ordered(h: seq<Event>) {
    forall i, j :: 0 <= i < j < |h| ==> h[i].now <= h[j].now
  }

  function After(limits: Limits, h: seq<Event>): Counters {
    if h == [] then Counters(map[], map[])
    else Step(limits, After(limits, h[..|h| - 1]), h[|h| - 1])
  }

  predicate Concerns(e: Event, kind: Kind, key: string) {
    e.Call? && e.kind == kind && e.key == key
  }

  /** The calls granted to one key at times in the closed span `[a, b]`. */
  function GrantsIn(limits: Limits, h: seq<Event>, kind: Kind, key: string, a: int, b: int): nat {
    if h == [] then 0
    else
      var rest, e := h[..|h| - 1], h[|h| - 1];
      GrantsIn(limits, rest, kind, key, a, b) +
      if Concerns(e, kind, key) && a <= e.now <= b && Grants(limits, After(limits, rest), e) then 1 else 0
  }

  /** The times of the calls made for one key: all that its decisions depend on. */
  function OwnTimes(h: seq<Event>, kind: Kind, key: string): seq<int> {
    if h == [] then []
    else
      var e := h[|h| - 1];
      OwnTimes(h[..|h| - 1], kind, key) + if Concerns(e, kind, key) then [e.now] else []
  }

  // ------------------------------------------------- the counter of one key

  ghost predicate Sorted(ts: seq<int>) {
    forall i, j :: 0 <= i < j < |ts| ==> ts[i] <= ts[j]
  }

  function Final(limit: int, ts: seq<int>): Option<Counter> {
    if ts == [] then None
    else Some(Decide(Final(limit, ts[..|ts| - 1]), limit, ts[|ts| - 1]).0)
  }

  predicate LastGranted(limit: int, ts: seq<int>)
    requires ts != []
  {
    Decide(Final(limit, ts[..|ts| - 1]), limit, ts[|ts| - 1]).1
  }

  function CountIn(limit: int, ts: seq<int>, a: int, b: int): nat {
    if ts == [] then 0
    else
      CountIn(limit, ts[..|ts| - 1], a, b) +
      if a <= ts[|ts| - 1] <= b && LastGranted(limit, ts) then 1 else 0
  }

  function Cap(limit: int): int {
    if limit < 1 then 1 else limit
  }

  lemma {:induction false} CounterInRange(limit: int, ts: seq<int>)
    requires Sorted(ts) && ts != []
    ensures Final(limit, ts).Some?
    ensures 1 <= Final(limit, ts).value.count <= Cap(limit)
    ensures Final(limit, ts).value.windowStart <= ts[|ts| - 1]
  {
    if |ts| > 1 {
      CounterInRange(limit, ts[..|ts| - 1]);
    }
  }

  /** Whole windows after the one that `a` may fall into lie 1001 ms apart. */
  lemma {:induction false} CountBound(limit: int, ts: seq<int>, a: int, b: int)
    requires Sorted(ts) && ts != [] && ts[|ts| - 1] <= b
    ensures Final(limit, ts).Some?
    ensures var c := Final(limit, ts).value;
            CountIn(limit, ts, a, b) <=
              if c.windowStart < a then c.count - 1
              else Cap(limit) * ((c.windowStart - a) / 1001 + 1) - 1 + c.count
  {
    CounterInRange(limit, ts);
    var rest, t := ts[..|ts| - 1], ts[|ts| - 1];
    if rest == [] {
      assert CountIn(limit, ts, a, b) <= 1;
      if t >= a {
        CapTimesPositive(limit, (t - a) / 1001 + 1);
      }
    } else {
      CounterInRange(limit, rest);
      CountBound(limit, rest, a, b);
      var p := Final(limit, rest).value;
      if t < a {
        NoneBefore(limit, rest, a, b);
      } else if Expired(p, t) {
        if p.windowStart < a {
          CapTimesPositive(limit, (t - a) / 1001 + 1);
        } else {
          var q := (p.windowStart - a) / 1001;
          assert (t - a) / 1001 >= q + 1;
          CapTimesMonotone(limit, q + 2, (t - a) / 1001 + 1);
          assert Cap(limit) * (q + 2) == Cap(limit) * (q + 1) + Cap(limit);
        }
      }
    }
  }

  lemma {:induction false} NoneBefore(limit: int, ts: seq<int>, a: int, b: int)
    requires Sorted(ts) && (ts != [] ==> ts[|ts| - 1] < a)
    ensures CountIn(limit, ts, a, b) == 0
  {
    if |ts| > 1 {
      NoneBefore(limit, ts[..|ts| - 1], a, b);
    }
  }

  lemma CapTimesPositive(limit: int, n: int)
    requires n >= 1
    ensures Cap(limit) * n >= Cap(limit)
  {
    CapTimesMonotone(limit, 1, n);
  }

  lemma {:induction false} CapTimesMonotone(limit: int, m: int, n: int)
    requires m <= n
    ensures Cap(limit) * m <= Cap(limit) * n
    decreases n - m
  {
    if m < n {
      CapTimesMonotone(limit, m, n - 1);
      assert Cap(limit) * n == Cap(limit) * (n - 1) + Cap(limit);
    }
  }

  lemma {:induction false} OwnSpanBound(limit: int, ts: seq<int>, a: int, span: nat)
    requires Sorted(ts)
    ensures CountIn(limit, ts, a, a + span) <= Cap(limit) * (span / 1001 + 2) - 1
  {
    CapTimesPositive(limit, span / 1001 + 2);
    if ts != [] {
      if ts[|ts| - 1] > a + span {
        OwnSpanBound(limit, ts[..|ts| - 1], a, span);
      } else {
        CountBound(limit, ts, a, a + span);
        CounterInRange(limit, ts);
        var c := Final(limit, ts).value;
        if c.windowStart >= a {
          CapTimesMonotone(limit, (c.windowStart - a) / 1001 + 1, span / 1001 + 1);
          assert Cap(limit) * (span / 1001 + 2) == Cap(limit) * (span / 1001 + 1) + Cap(limit);
        }
      }
    }
  }

  // ------------------------------------- from one key's calls to histories

  lemma OwnTimesStep(limits: Limits, h: seq<Event>, kind: Kind, key: string)
    requires h != []
    ensures var limit, e := limits.For(kind), h[|h| - 1];
            var ts, ts' := OwnTimes(h[..|h| - 1], kind, key), OwnTimes(h, kind, key);
            if Concerns(e, kind, key)
            then ts' == ts + [e.now] && Final(limit, ts') == Some(Decide(Final(limit, ts), limit, e.now).0)
              && LastGranted(limit, ts') == Decide(Final(limit, ts), limit, e.now).1
              && (forall a, b :: CountIn(limit, ts', a, b) ==
                    CountIn(limit, ts, a, b) + if a <= e.now <= b && LastGranted(limit, ts') then 1 else 0)
            else ts' == ts
  {
    var e := h[|h| - 1];
    var ts, ts' := OwnTimes(h[..|h| - 1], kind, key), OwnTimes(h, kind, key);
    if Concerns(e, kind, key) {
      assert ts' == ts + [e.now] && ts'[..|ts'| - 1] == ts && ts'[|ts'| - 1] == e.now;
    }
  }

  /** A key's stored counter is that of its own calls, or `cleanup` dropped it after its window ended. */
  lemma {:induction false} Projection(limits: Limits, h: seq<Event>, kind: Kind, key: string)
    requires Ordered(h)
    ensures var own := Final(limits.For(kind), OwnTimes(h, kind, key));
            var entry := After(limits, h).Entry(kind, key);
            entry == own || (h != [] && entry.None? && own.Some? && Expired(own.value, h[|h| - 1].now))
  {
    if h != [] {
      var rest, e := h[..|h| - 1], h[|h| - 1];
      Projection(limits, rest, kind, key);
      assert rest != [] ==> h[|h| - 2].now <= e.now;
      OwnTimesStep(limits, h, kind, key);
    }
  }

  lemma {:induction false} OwnTimesSorted(h: seq<Event>, kind: Kind, key: string)
    requires Ordered(h)
    ensures Sorted(OwnTimes(h, kind, key))
    ensures forall t :: t in OwnTimes(h, kind, key) ==> h != [] && t <= h[|h| - 1].now
  {
    if h != [] {
      var rest := h[..|h| - 1];
      OwnTimesSorted(rest, kind, key);
      assert rest != [] ==> h[|h| - 2].now <= h[|h| - 1].now;
      var ts := OwnTimes(rest, kind, key);
      assert forall i :: 0 <= i < |ts| ==> ts[i] in ts;
    }
  }

  lemma {:induction false} GrantsAreOwn(limits: Limits, h: seq<Event>, kind: Kind, key: string, a: int, b: int)
    requires Ordered(h)
    ensures GrantsIn(limits, h, kind, key, a, b) == CountIn(limits.For(kind), OwnTimes(h, kind, key), a, b)
  {
    if h != [] {
      var rest, e := h[..|h| - 1], h[|h| - 1];
      GrantsAreOwn(limits, rest, kind, key, a, b);
      Projection(limits, rest, kind, key);
      assert rest != [] ==> h[|h| - 2].now <= e.now;
      OwnTimesStep(limits, h, kind, key);
    }
  }

  /**
   In any closed span of `span` ms, whatever else goes on, one key is granted
   fewer than `L * (span / 1001 + 2)` calls, where `L` is the limit or 1.
   */
  lemma SlidingSpanBound(limits: Limits, h: seq<Event>, kind: Kind, key: string, a: int, span: nat)
    requires Ordered(h)
    ensures GrantsIn(limits, h, kind, key, a, a + span) <= Cap(limits.For(kind)) * (span / 1001 + 2) - 1
  {
    GrantsAreOwn(limits, h, kind, key, a, a + span);
    OwnTimesSorted(h, kind, key);
    OwnSpanBound(limits.For(kind), OwnTimes(h, kind, key), a, span);
  }

  /**
   A decision depends on the key's own calls and its own limit alone: cleanups
   and other keys' calls may be inserted or dropped anywhere.
   */
  lemma DecisionIsOwn(limits: Limits, h: seq<Event>, limits': Limits, h': seq<Event>, call: Event)
    requires Ordered(h + [call]) && Ordered(h' + [call]) && call.Call?
    requires limits.For(call.kind) == limits'.For(call.kind)
    requires OwnTimes(h, call.kind, call.key) == OwnTimes(h', call.kind, call.key)
    ensures Grants(limits, After(limits, h), call) == Grants(limits', After(limits', h'), call)
  {
    OrderedPrefix(h, call);
    OrderedPrefix(h', call);
    Projection(limits, h, call.kind, call.key);
    Projection(limits', h', call.kind, call.key);
  }

  lemma OrderedPrefix(h: seq<Event>, e: Event)
    requires Ordered(h + [e])
    ensures Ordered(h)
    ensures forall i :: 0 <= i < |h| ==> h[i].now <= e.now
  {
    var all := h + [e];
    forall i, j | 0 <= i < j < |h|
      ensures h[i].now <= h[j].now
    {
      assert all[i] == h[i] && all[j] == h[j];
    }
    forall i | 0 <= i < |h|
      ensures h[i].now <= e.now
    {
      assert all[i] == h[i] && all[|h|] == e;
    }
  }

  /** Inserting a cleanup anywhere changes no later decision. */
  lemma {:induction false} CleanupInvisible(limits: Limits, before: seq<Event>, at: int, later: seq<Event>, call: Event)
    requires call.Call? && Ordered(before + [Cleanup(at)] + later + [call])
    ensures Grants(limits, After(limits, before + [Cleanup(at)] + later), call)
         == Grants(limits, After(limits, before + later), call)
  {
    var with := before + [Cleanup(at)] + later + [call];
    var without := before + later + [call];
    assert forall i :: 0 <= i < |without| ==> without[i] == with[if i < |before| then i else i + 1];
    OwnTimesSkip(before, at, later, call.kind, call.key);
    DecisionIsOwn(limits, before + [Cleanup(at)] + later, limits, before + later, call);
  }

  lemma {:induction false} OwnTimesSkip(before: seq<Event>, at: int, later: seq<Event>, kind: Kind, key: string)
    ensures OwnTimes(before + [Cleanup(at)] + later, kind, key) == OwnTimes(before + later, kind, key)
    decreases |later|
  {
    if later == [] {
      assert before + [Cleanup(at)] + later == before + [Cleanup(at)];
      assert before + later == before && (before + [Cleanup(at)])[..|before|] == before;
    } else {
      var n := |later| - 1;
      OwnTimesSkip(before, at, later[..n], kind, key);
      assert (before + [Cleanup(at)] + later)[..|before| + 1 + n] == before + [Cleanup(at)] + later[..n];
      assert (before + later)[..|before| + n] == before + later[..n];
    }
  }

  // ------------------------------------------------------- what a refusal means

  /** The time of the last call granted before the current window began. */
  function PreviousGrant(limit: int, ts: seq<int>): Option<int> {
    if ts == [] then None
    else
      var rest, t := ts[..|ts| - 1], ts[|ts| - 1];
      if rest == [] then None
      else if Final(limit, rest).Some? && Expired(Final(limit, rest).value, t) then LastGrant(limit, rest)
      else PreviousGrant(limit, rest)
  }

  function LastGrant(limit: int, ts: seq<int>): Option<int> {
    if ts == [] then None
    else if LastGranted(limit, ts) then Some(ts[|ts| - 1])
    else LastGrant(limit, ts[..|ts| - 1])
  }

  lemma {:induction false} NoGrantAfterWindow(limit: int, ts: seq<int>, a: int, b: int)
    requires Sorted(ts) && ts != []
    requires Final(limit, ts).Some? ==> a > Final(limit, ts).value.windowStart + 1000
    ensures CountIn(limit, ts, a, b) == 0
  {
    CounterInRange(limit, ts);
    if |ts| > 1 {
      CounterInRange(limit, ts[..|ts| - 1]);
      NoGrantAfterWindow(limit, ts[..|ts| - 1], a, b);
    }
  }

  lemma {:induction false} WindowHoldsCount(limit: int, ts: seq<int>, b: int)
    requires Sorted(ts) && ts != [] && ts[|ts| - 1] <= b
    ensures Final(limit, ts).Some?
    ensures CountIn(limit, ts, Final(limit, ts).value.windowStart, b) == Final(limit, ts).value.count
  {
    CounterInRange(limit, ts);
    var rest, t := ts[..|ts| - 1], ts[|ts| - 1];
    if rest != [] {
      CounterInRange(limit, rest);
      if Expired(Final(limit, rest).value, t) {
        NoGrantAfterWindow(limit, rest, t, b);
      } else {
        WindowHoldsCount(limit, rest, b);
      }
    }
  }

  lemma {:induction false} CountSplits(limit: int, ts: seq<int>, a: int, m: int, b: int)
    requires a <= m <= b + 1
    ensures CountIn(limit, ts, a, b) == CountIn(limit, ts, a, m - 1) + CountIn(limit, ts, m, b)
  {
    if ts != [] {
      CountSplits(limit, ts[..|ts| - 1], a, m, b);
    }
  }

  lemma {:induction false} NoneAfterLastGrant(limit: int, ts: seq<int>, a: int, b: int)
    requires Sorted(ts) && (ts != [] ==> ts[|ts| - 1] <= b)
    ensures CountIn(limit, ts, a, b) == 0 <==> LastGrant(limit, ts).None? || LastGrant(limit, ts).value < a
    ensures LastGrant(limit, ts).Some? ==> ts != [] && LastGrant(limit, ts).value <= ts[|ts| - 1]
  {
    if ts != [] {
      NoneAfterLastGrant(limit, ts[..|ts| - 1], a, b);
    }
  }

  lemma {:induction false} EarlierGrants(limit: int, ts: seq<int>, a: int)
    requires Sorted(ts) && ts != []
    requires Final(limit, ts).Some? ==> a > Final(limit, ts).value.windowStart - 1001
    ensures Final(limit, ts).Some?
    ensures var n := CountIn(limit, ts, a, Final(limit, ts).value.windowStart - 1);
            && n <= Cap(limit) - 1
            && (n == 0 <==> PreviousGrant(limit, ts).None? || PreviousGrant(limit, ts).value < a)
  {
    CounterInRange(limit, ts);
    var rest, t := ts[..|ts| - 1], ts[|ts| - 1];
    if rest != [] {
      CounterInRange(limit, rest);
      var p := Final(limit, rest).value;
      if Expired(p, t) {
        OnlyEarlierTimes(limit, rest, a, t);
        CountBound(limit, rest, a, t);
        NoneAfterLastGrant(limit, rest, a, t);
      } else {
        EarlierGrants(limit, rest, a);
      }
    }
  }

  /** A call that opens a window is the first granted at its time. */
  lemma OnlyEarlierTimes(limit: int, ts: seq<int>, a: int, t: int)
    requires Sorted(ts) && ts != [] && ts[|ts| - 1] <= t
    requires Final(limit, ts).Some? && Expired(Final(limit, ts).value, t)
    ensures CountIn(limit, ts, a, t - 1) == CountIn(limit, ts, a, t)
  {
    NoGrantAfterWindow(limit, ts, t, t);
    if a <= t {
      CountSplits(limit, ts, a, t, t);
    } else {
      EmptySpan(limit, ts, a, t - 1);
      EmptySpan(limit, ts, a, t);
    }
  }

  lemma {:induction false} EmptySpan(limit: int, ts: seq<int>, a: int, b: int)
    requires a > b
    ensures CountIn(limit, ts, a, b) == 0
  {
    if ts != [] {
      EmptySpan(limit, ts[..|ts| - 1], a, b);
    }
  }

  /**
   A refusal at `t` proves that the last second granted at least `limit` calls
   and at most `2 * limit - 1`; exactly `limit` when, and only when, the last
   grant of the window before the current one is more than a second old.
   */
  lemma RefusalMeansLimitReached(limits: Limits, h: seq<Event>, call: Event)
    requires Ordered(h + [call]) && call.Call? && limits.For(call.kind) >= 1
    requires !Grants(limits, After(limits, h), call)
    ensures var limit := limits.For(call.kind);
            var n := GrantsIn(limits, h, call.kind, call.key, call.now - 1000, call.now);
            var earlier := PreviousGrant(limit, OwnTimes(h, call.kind, call.key));
            && limit <= n <= 2 * limit - 1
            && (n == limit <==> earlier.None? || earlier.value < call.now - 1000)
  {
    var limit, t := limits.For(call.kind), call.now;
    var ts := OwnTimes(h, call.kind, call.key);
    OrderedPrefix(h, call);
    Projection(limits, h, call.kind, call.key);
    OwnTimesSorted(h, call.kind, call.key);
    GrantsAreOwn(limits, h, call.kind, call.key, t - 1000, t);
    assert ts[|ts| - 1] in ts;
    LastSecond(limit, ts, t);
  }

  /** The grants of the last second when the counter is full and its window still runs. */
  lemma LastSecond(limit: int, ts: seq<int>, t: int)
    requires Sorted(ts) && ts != [] && ts[|ts| - 1] <= t && limit >= 1
    requires Final(limit, ts).Some? && Final(limit, ts).value.count >= limit && t - 1000 <= Final(limit, ts).value.windowStart
    ensures var n := CountIn(limit, ts, t - 1000, t);
            && limit <= n <= 2 * limit - 1
            && (n == limit <==> PreviousGrant(limit, ts).None? || PreviousGrant(limit, ts).value < t - 1000)
  {
    CounterInRange(limit, ts);
    WindowHoldsCount(limit, ts, t);
    CountSplits(limit, ts, t - 1000, Final(limit, ts).value.windowStart, t);
    EarlierGrants(limit, ts, t - 1000);
  }

  /** "Exactly the limit" fails at limit 2: calls at 0, 1000, 1001, 1002 pass and 1003 is refused. */
  lemma RefusalAfterThreeGrants()
    ensures var l := Limits(2, 2);
            var h := [Call(0, "k", IpAddress), Call(1000, "k", IpAddress), Call(1001, "k", IpAddress), Call(1002, "k", IpAddress)];
            && Ordered(h + [Call(1003, "k", IpAddress)])
            && !Grants(l, After(l, h), Call(1003, "k", IpAddress))
            && GrantsIn(l, h, IpAddress, "k", 3, 1003) == 3
  {
    var l := Limits(2, 2);
    var e0, e1, e2, e3 := Call(0, "k", IpAddress), Call(1000, "k", IpAddress), Call(1001, "k", IpAddress), Call(1002, "k", IpAddress);
    var h1, h2, h3 := [e0], [e0, e1], [e0, e1, e2];
    var h4 := [e0, e1, e2, e3];
    assert h1[..0] == [] && h2[..1] == h1 && h3[..2] == h2 && h4[..3] == h3;
    assert After(l, h1).Entry(IpAddress, "k") == Some(Counter(1, 0));
    assert After(l, h2).Entry(IpAddress, "k") == Some(Counter(2, 0));
    assert After(l, h3).Entry(IpAddress, "k") == Some(Counter(1, 1001));
    assert After(l, h4).Entry(IpAddress, "k") == Some(Counter(2, 1001));
    assert GrantsIn(l, h1, IpAddress, "k", 3, 1003) == 0;
    assert GrantsIn(l, h2, IpAddress, "k", 3, 1003) == 1;
    assert GrantsIn(l, h3, IpAddress, "k", 3, 1003) == 2;
  }

  // ----------------------------------------------------- in terms of the two limits

  /** Addresses are held to the limit per address, identities to theirs, in any closed span. */
  lemma EachKindHasItsLimit(limits: Limits, h: seq<Event>, key: string, a: int, span: nat)
    requires Ordered(h)
    ensures GrantsIn(limits, h, IpAddress, key, a, a + span) <=
              (if limits.ipAddress < 1 then 1 else limits.ipAddress) * (span / 1001 + 2) - 1
    ensures GrantsIn(limits, h, FromIdentity, key, a, a + span) <=
              (if limits.fromIdentity < 1 then 1 else limits.fromIdentity) * (span / 1001 + 2) - 1
  {
    SlidingSpanBound(limits, h, IpAddress, key, a, span);
    SlidingSpanBound(limits, h, FromIdentity, key, a, span);
  }

  /** Of calls that all come within a second of the first, exactly the first `limit` are granted, or one. */
  lemma {:induction false} FirstOfTheSecond(limit: int, ts: seq<int>)
    requires Sorted(ts) && ts != [] && ts[|ts| - 1] - ts[0] <= 1000
    ensures LastGranted(limit, ts) <==> |ts| <= (if limit < 1 then 1 else limit)
    ensures Final(limit, ts) == Some(Counter(if |ts| <= (if limit < 1 then 1 else limit) then |ts| else if limit < 1 then 1 else limit, ts[0]))
  {
    var rest := ts[..|ts| - 1];
    if rest != [] {
      assert rest[0] == ts[0] && rest[|rest| - 1] <= ts[|ts| - 1];
      FirstOfTheSecond(limit, rest);
    }
  }

  /**
   A call that comes within a second of the first its key ever made is granted
   exactly while the key has made fewer calls than the limit of its own kind.
   */
  lemma GrantedWithinTheFirstSecondIff(limits: Limits, h: seq<Event>, call: Event)
    requires Ordered(h + [call]) && call.Call?
    requires var ts := OwnTimes(h, call.kind, call.key); ts != [] ==> call.now - ts[0] <= 1000
    ensures var limit := match call.kind case IpAddress => limits.ipAddress case FromIdentity => limits.fromIdentity;
            Grants(limits, After(limits, h), call) <==>
              |OwnTimes(h, call.kind, call.key)| < (if limit < 1 then 1 else limit)
  {
    var ts := OwnTimes(h, call.kind, call.key);
    OrderedPrefix(h, call);
    Projection(limits, h, call.kind, call.key);
    OwnTimesSorted(h, call.kind, call.key);
    if ts != [] {
      OwnTimesBefore(h, call);
      assert ts[|ts| - 1] in ts;
      NextOfTheSecond(limits.For(call.kind), ts, call.now);
    }
  }

  lemma NextOfTheSecond(limit: int, ts: seq<int>, t: int)
    requires Sorted(ts) && ts != [] && ts[|ts| - 1] <= t && t - ts[0] <= 1000
    ensures Decide(Final(limit, ts), limit, t).1 <==> |ts| < (if limit < 1 then 1 else limit)
  {
    FirstOfTheSecond(limit, ts);
  }

  lemma {:induction false} OwnTimesBefore(h: seq<Event>, call: Event)
    requires Ordered(h + [call]) && call.Call?
    ensures forall t :: t in OwnTimes(h, call.kind, call.key) ==> t <= call.now
  {
    OrderedPrefix(h, call);
    if h != [] {
      var rest := h[..|h| - 1];
      assert forall i :: 0 <= i < |rest| ==> (rest + [call])[i] == h[i];
      OwnTimesBefore(rest, call);
    }
  }

  /** More than a second after all its own calls, a key is granted again, whatever the limit. */
  lemma GrantedAfterASecond(limits: Limits, h: seq<Event>, call: Event)
    requires Ordered(h + [call]) && call.Call?
    requires forall t :: t in OwnTimes(h, call.kind, call.key) ==> t < call.now - 1000
    ensures Grants(limits, After(limits, h), call)
  {
    var ts := OwnTimes(h, call.kind, call.key);
    OrderedPrefix(h, call);
    Projection(limits, h, call.kind, call.key);
    OwnTimesSorted(h, call.kind, call.key);
    if ts != [] {
      CounterInRange(limits.For(call.kind), ts);
      assert ts[|ts| - 1] in ts;
    }
  }

  /** A refusal, for each kind by its own limit: that many grants in the last second, and fewer than twice as many. */
  lemma RefusalByItsLimit(limits: Limits, h: seq<Event>, call: Event)
    requires Ordered(h + [call]) && call.Call? && !Grants(limits, After(limits, h), call)
    requires limits.ipAddress >= 1 && limits.fromIdentity >= 1
    ensures var limit := match call.kind case IpAddress => limits.ipAddress case FromIdentity => limits.fromIdentity;
            limit <= GrantsIn(limits, h, call.kind, call.key, call.now - 1000, call.now) <= 2 * limit - 1
  {
    RefusalMeansLimitReached(limits, h, call);
  }
}
