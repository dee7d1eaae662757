/**
  The API-key cache: what each request is told, which requests fetch the key
  document, and how often at most, whatever the requests and however the source
  fails.
 */
module KeyCaches {
  import opened Records

  const REFRESH_INTERVAL: int := 300
  const MISS_REFRESH_FLOOR: int := 30
  const FAILURE_BACKOFF: int := 30

  /** One usable key: the operator's label and the digest to match. */
  datatype KeyHash = KeyHash(id: string, digest: string)

  datatype Verdict = Allowed(id: string) | Denied | Unavailable

  /** A fetch that was due, or one a missed key asked for. */
  datatype Reason = Scheduled | Missed

  /** One fetch of the key document; `warm` when a document was already cached. */
  datatype Fetch = Fetch(at: int, reason: Reason, warm: bool)

  // ---------------------------------------------------------------------
  // Matching
  // ---------------------------------------------------------------------

  /** The last key with this digest. */
  function Match(keys: seq<KeyHash>, digest: string): Option<string> {
    if keys == [] then None
    else if keys[|keys| - 1].digest == digest then Some(keys[|keys| - 1].id)
    else Match(keys[..|keys| - 1], digest)
  }

  /** A match is a configured key with the digest presented. */
  lemma {:induction false} MatchIsConfigured(keys: seq<KeyHash>, digest: string) returns (i: nat)
    requires Match(keys, digest).Some?
    ensures i < |keys| && keys[i] == KeyHash(Match(keys, digest).value, digest)
    ensures forall j :: i < j < |keys| ==> keys[j].digest != digest
  {
    if keys[|keys| - 1].digest == digest {
      i := |keys| - 1;
    } else {
      i := MatchIsConfigured(keys[..|keys| - 1], digest);
    }
  }

  /** A digest that is configured always matches. */
  lemma {:induction false} ConfiguredMatches(keys: seq<KeyHash>, i: nat)
    requires i < |keys|
    ensures Match(keys, keys[i].digest).Some?
  {
    if keys[|keys| - 1].digest != keys[i].digest {
      ConfiguredMatches(keys[..|keys| - 1], i);
    }
  }

  /** What a digest is told by the keys a cache holds, if it holds any. */
  function VerdictBy(keys: Option<seq<KeyHash>>, digest: string): Verdict {
    if keys.None? then Unavailable
    else if Match(keys.value, digest).Some? then Allowed(Match(keys.value, digest).value)
    else Denied
  }

  /** Only a digest that no key has is denied. */
  lemma DeniedIsUnknown(keys: seq<KeyHash>, digest: string)
    ensures VerdictBy(Some(keys), digest).Denied? <==> forall i :: 0 <= i < |keys| ==> keys[i].digest != digest
  {
    if Match(keys, digest).Some? {
      var i := MatchIsConfigured(keys, digest);
    } else {
      forall i | 0 <= i < |keys| ensures keys[i].digest != digest {
        ConfiguredMatches(keys, i);
      }
    }
  }

  /** Compares against every key, with no early exit. */
  method MatchKey(keys: seq<KeyHash>, digest: string) returns (matched: Option<string>)
    ensures matched == Match(keys, digest)
  {
    matched := None;
    for i := 0 to |keys|
      invariant matched == Match(keys[..i], digest)
    {
      assert keys[..i + 1][..i] == keys[..i];
      if keys[i].digest == digest {
        matched := Some(keys[i].id);
      }
    }
    assert keys[..|keys|] == keys;
  }

  // ---------------------------------------------------------------------
  // How far apart fetches are
  // ---------------------------------------------------------------------

  predicate IsWarm(f: Fetch, reason: Reason) {
    f.warm && f.reason == reason
  }

  /** Fetches in time order. */
  ghost predicate TimeOrdered(log: seq<Fetch>) {
    forall i, j :: 0 <= i < j < |log| ==> log[i].at <= log[j].at
  }

  /** Warm fetches for one reason keep their distance. */
  ghost predicate Spaced(log: seq<Fetch>, reason: Reason) {
    forall i, j :: 0 <= i < j < |log| && IsWarm(log[i], reason) && IsWarm(log[j], reason) ==> log[j].at - log[i].at >= 30
  }

  /** How many warm fetches for `reason` fall within `span` seconds from `from`. */
  ghost function CountIn(log: seq<Fetch>, reason: Reason, from: int, span: nat): nat {
    if log == [] then 0
    else
      CountIn(log[..|log| - 1], reason, from, span)
      + if IsWarm(log[|log| - 1], reason) && from <= log[|log| - 1].at <= from + span then 1 else 0
  }

  /** The n-th of spaced fetches comes 30 seconds later than the one before. */
  lemma {:induction false} SpacedCount(log: seq<Fetch>, reason: Reason, from: int, span: nat) returns (last: int)
    requires TimeOrdered(log) && Spaced(log, reason) && CountIn(log, reason, from, span) > 0
    ensures 0 <= last < |log| && IsWarm(log[last], reason) && from <= log[last].at <= from + span
    ensures log[last].at >= from + 30 * (CountIn(log, reason, from, span) - 1)
  {
    var init, f := log[..|log| - 1], log[|log| - 1];
    if IsWarm(f, reason) && from <= f.at <= from + span {
      last := |log| - 1;
      if CountIn(init, reason, from, span) > 0 {
        var before := SpacedCount(init, reason, from, span);
        assert log[before] == init[before];
      }
    } else {
      last := SpacedCount(init, reason, from, span);
    }
  }

  /** Spaced fetches are few in any window. */
  lemma WindowBound(log: seq<Fetch>, reason: Reason, from: int, span: nat)
    requires TimeOrdered(log) && Spaced(log, reason)
    ensures CountIn(log, reason, from, span) <= span / 30 + 1
  {
    if CountIn(log, reason, from, span) > 0 {
      var last := SpacedCount(log, reason, from, span);
    }
  }

  /** Any window of `span` seconds sees at most `2 * (span / 30 + 1)` fetches by a loaded cache. */
  lemma FetchRateBound(log: seq<Fetch>, from: int, span: nat)
    requires TimeOrdered(log) && Spaced(log, Scheduled) && Spaced(log, Missed)
    ensures CountIn(log, Scheduled, from, span) + CountIn(log, Missed, from, span) <= 2 * (span / 30 + 1)
  {
    WindowBound(log, Scheduled, from, span);
    WindowBound(log, Missed, from, span);
  }

  // ---------------------------------------------------------------------
  // The cache
  // ---------------------------------------------------------------------

  /** The fetches so far, spaced, and gates that keep the next ones away. */
  ghost predicate Guarded(log: seq<Fetch>, clock: int, loadedAt: Option<int>, lastMiss: Option<int>) {
    && (forall i :: 0 <= i < |log| ==> log[i].at <= clock)
    && TimeOrdered(log) && Spaced(log, Scheduled) && Spaced(log, Missed)
    && (forall i :: 0 <= i < |log| && IsWarm(log[i], Scheduled) ==>
          loadedAt.Some? && log[i].at + FAILURE_BACKOFF <= loadedAt.value + REFRESH_INTERVAL)
    && (forall i :: 0 <= i < |log| && IsWarm(log[i], Missed) ==> lastMiss.Some? && log[i].at <= lastMiss.value)
  }

  /** A gate moved forward guards what it guarded before. */
  lemma StillGuarded(log: seq<Fetch>, clock: int, loadedAt: Option<int>, lastMiss: Option<int>,
                     clock': int, loadedAt': Option<int>, lastMiss': Option<int>)
    requires Guarded(log, clock, loadedAt, lastMiss) && clock <= clock'
    requires loadedAt.Some? ==> loadedAt'.Some? && loadedAt.value <= loadedAt'.value
    requires lastMiss.Some? ==> lastMiss'.Some? && lastMiss.value <= lastMiss'.value
    ensures Guarded(log, clock', loadedAt', lastMiss')
  {
  }

  lemma AppendSpaced(log: seq<Fetch>, f: Fetch, reason: Reason)
    requires TimeOrdered(log) && Spaced(log, reason) && forall i :: 0 <= i < |log| ==> log[i].at <= f.at
    requires forall i :: 0 <= i < |log| && IsWarm(log[i], reason) && IsWarm(f, reason) ==> f.at - log[i].at >= 30
    ensures TimeOrdered(log + [f]) && Spaced(log + [f], reason)
  {
    var longer := log + [f];
    forall i, j | 0 <= i < j < |longer|
      ensures longer[i].at <= longer[j].at
      ensures IsWarm(longer[i], reason) && IsWarm(longer[j], reason) ==> longer[j].at - longer[i].at >= 30
    {
      assert longer[i] == log[i];
      if j < |log| { assert longer[j] == log[j]; }
    }
  }

  /** One more fetch behind its gate. */
  lemma OneMoreFetch(log: seq<Fetch>, clock: int, loadedAt: Option<int>, lastMiss: Option<int>, f: Fetch)
    requires Guarded(log, clock, loadedAt, lastMiss) && clock <= f.at
    requires IsWarm(f, Scheduled) ==> loadedAt.Some? && f.at + FAILURE_BACKOFF <= loadedAt.value + REFRESH_INTERVAL
    requires IsWarm(f, Missed) ==> lastMiss.Some? && f.at <= lastMiss.value
    requires forall i :: 0 <= i < |log| && IsWarm(log[i], f.reason) && f.warm ==> f.at - log[i].at >= 30
    ensures Guarded(log + [f], f.at, loadedAt, lastMiss)
  {
    AppendSpaced(log, f, Scheduled);
    AppendSpaced(log, f, Missed);
  }

  // ---------------------------------------------------------------------
  // What a request does
  // ---------------------------------------------------------------------

  datatype Cache = Cache(hashes: Option<seq<KeyHash>>, loadedAt: Option<int>, lastMiss: Option<int>)

  const NEW_CACHE: Cache := Cache(None, None, None)

  /**
    One request. `first` and `second` are what the source would answer to a
    scheduled fetch and to one after a miss, or `None` where it fails; the times
    are when the request came, the first answer arrived, the miss was seen and
    the second answer arrived.
   */
  datatype KeyRequest = KeyRequest(digest: string, first: Option<seq<KeyHash>>, second: Option<seq<KeyHash>>,
                             came: int, answered: int, missedAt: int, ended: int)

  predicate IsTimely(q: KeyRequest) {
    q.came <= q.answered <= q.missedAt <= q.ended
  }

  predicate IsStale(loadedAt: Option<int>, now: int) {
    loadedAt.None? || now - loadedAt.value >= REFRESH_INTERVAL
  }

  predicate MayRefreshOnMiss(lastMiss: Option<int>, now: int) {
    lastMiss.None? || now - lastMiss.value >= MISS_REFRESH_FLOOR
  }

  /**
    An answer taken in at `now`. A failure keeps what is cached and, where the
    request that asked had found keys, re-arms the gate, which never moves back.
   */
  function Landed(c: Cache, fetched: Option<seq<KeyHash>>, warm: bool, now: int): Cache {
    if fetched.Some? then c.(hashes := fetched, loadedAt := Some(now))
    else if !warm then c
    else
      var rewound := now - (REFRESH_INTERVAL - FAILURE_BACKOFF);
      if c.loadedAt.Some? && c.loadedAt.value > rewound then c else c.(loadedAt := Some(rewound))
  }

  /** An answer to a request that nothing overlapped. */
  function Refreshed(c: Cache, fetched: Option<seq<KeyHash>>, now: int): Cache {
    Landed(c, fetched, c.hashes.Some?, now)
  }

  predicate IsDue(c: Cache, q: KeyRequest) {
    c.hashes.None? || IsStale(c.loadedAt, q.came)
  }

  function AfterFirst(c: Cache, q: KeyRequest): Cache {
    if IsDue(c, q) then Refreshed(c, q.first, q.answered) else c
  }

  /** The key is none of those known, and the miss may fetch again. */
  predicate IsMiss(c: Cache, q: KeyRequest) {
    var d := AfterFirst(c, q);
    d.hashes.Some? && Match(d.hashes.value, q.digest).None? && MayRefreshOnMiss(d.lastMiss, q.missedAt)
  }

  function AfterRequest(c: Cache, q: KeyRequest): Cache {
    var d := AfterFirst(c, q);
    if IsMiss(c, q) then Refreshed(d.(lastMiss := Some(q.missedAt)), q.second, q.ended) else d
  }

  function FetchesOf(c: Cache, q: KeyRequest): seq<Fetch> {
    (if IsDue(c, q) then [Fetch(q.came, Scheduled, c.hashes.Some?)] else [])
    + (if IsMiss(c, q) then [Fetch(q.missedAt, Missed, true)] else [])
  }

  // ---------------------------------------------------------------------
  // Any run of requests
  // ---------------------------------------------------------------------

  /** One request after another, none before `start`. */
  ghost predicate InTurn(qs: seq<KeyRequest>, start: int) {
    && (forall i :: 0 <= i < |qs| ==> start <= qs[i].came && IsTimely(qs[i]))
    && forall i, j :: 0 <= i < j < |qs| ==> qs[i].ended <= qs[j].came
  }

  function CacheAfter(qs: seq<KeyRequest>): Cache {
    if qs == [] then NEW_CACHE else AfterRequest(CacheAfter(qs[..|qs| - 1]), qs[|qs| - 1])
  }

  function FetchLog(qs: seq<KeyRequest>): seq<Fetch> {
    if qs == [] then [] else FetchLog(qs[..|qs| - 1]) + FetchesOf(CacheAfter(qs[..|qs| - 1]), qs[|qs| - 1])
  }

  function ClockAfter(qs: seq<KeyRequest>, start: int): int {
    if qs == [] then start else qs[|qs| - 1].ended
  }

  /** The moments a cache remembers are past, and it knows when it was loaded. */
  ghost predicate Sound(log: seq<Fetch>, clock: int, c: Cache) {
    && (c.hashes.Some? <==> c.loadedAt.Some?)
    && (c.loadedAt.Some? ==> c.loadedAt.value <= clock)
    && (c.lastMiss.Some? ==> c.lastMiss.value <= clock)
    && Guarded(log, clock, c.loadedAt, c.lastMiss)
  }

  /** One fetch, begun at `f.at` and answered at `now`. */
  lemma RefreshStaysSound(log: seq<Fetch>, clock: int, c: Cache, fetched: Option<seq<KeyHash>>, f: Fetch, now: int)
    requires Sound(log, clock, c) && clock <= f.at <= now && (f.warm <==> c.hashes.Some?)
    requires f.reason == Scheduled && f.warm ==> IsStale(c.loadedAt, f.at)
    requires f.reason == Missed ==> f.warm && c.lastMiss == Some(f.at)
    requires f.reason == Missed ==> forall i :: 0 <= i < |log| && IsWarm(log[i], Missed) ==> log[i].at + MISS_REFRESH_FLOOR <= f.at
    ensures Sound(log + [f], now, Refreshed(c, fetched, now))
  {
    var d := Refreshed(c, fetched, now);
    StillGuarded(log, clock, c.loadedAt, c.lastMiss, f.at, d.loadedAt, d.lastMiss);
    OneMoreFetch(log, f.at, d.loadedAt, d.lastMiss, f);
    StillGuarded(log + [f], f.at, d.loadedAt, d.lastMiss, now, d.loadedAt, d.lastMiss);
  }

  lemma FirstStaysSound(log: seq<Fetch>, clock: int, c: Cache, q: KeyRequest)
    requires Sound(log, clock, c) && clock <= q.came && IsTimely(q)
    ensures Sound(if IsDue(c, q) then log + [Fetch(q.came, Scheduled, c.hashes.Some?)] else log, q.answered, AfterFirst(c, q))
  {
    if IsDue(c, q) {
      RefreshStaysSound(log, clock, c, q.first, Fetch(q.came, Scheduled, c.hashes.Some?), q.answered);
    } else {
      StillGuarded(log, clock, c.loadedAt, c.lastMiss, q.answered, c.loadedAt, c.lastMiss);
    }
  }

  lemma MissStaysSound(log: seq<Fetch>, clock: int, c: Cache, fetched: Option<seq<KeyHash>>, at: int, now: int)
    requires Sound(log, clock, c) && c.hashes.Some? && MayRefreshOnMiss(c.lastMiss, at) && clock <= at <= now
    ensures Sound(log + [Fetch(at, Missed, true)], now, Refreshed(c.(lastMiss := Some(at)), fetched, now))
  {
    var d := c.(lastMiss := Some(at));
    StillGuarded(log, clock, c.loadedAt, c.lastMiss, at, d.loadedAt, d.lastMiss);
    RefreshStaysSound(log, at, d, fetched, Fetch(at, Missed, true), now);
  }

  lemma RequestStaysSound(log: seq<Fetch>, clock: int, c: Cache, q: KeyRequest)
    requires Sound(log, clock, c) && clock <= q.came && IsTimely(q)
    ensures Sound(log + FetchesOf(c, q), q.ended, AfterRequest(c, q))
  {
    FirstStaysSound(log, clock, c, q);
    var d := AfterFirst(c, q);
    var log1 := if IsDue(c, q) then log + [Fetch(q.came, Scheduled, c.hashes.Some?)] else log;
    if IsMiss(c, q) {
      MissStaysSound(log1, q.answered, d, q.second, q.missedAt, q.ended);
      assert log + FetchesOf(c, q) == log1 + [Fetch(q.missedAt, Missed, true)];
    } else {
      StillGuarded(log1, q.answered, d.loadedAt, d.lastMiss, q.ended, d.loadedAt, d.lastMiss);
      assert log + FetchesOf(c, q) == log1;
    }
  }

  /** Whatever the requests and the answers of the source, the fetches keep their gates. */
  lemma {:induction false} RunsStaySound(qs: seq<KeyRequest>, start: int)
    requires InTurn(qs, start)
    ensures Sound(FetchLog(qs), ClockAfter(qs, start), CacheAfter(qs))
  {
    if qs != [] {
      var init := qs[..|qs| - 1];
      assert forall i :: 0 <= i < |init| ==> init[i] == qs[i];
      RunsStaySound(init, start);
      if init != [] { assert init[|init| - 1] == qs[|qs| - 2]; }
      RequestStaysSound(FetchLog(init), ClockAfter(init, start), CacheAfter(init), qs[|qs| - 1]);
    }
  }

  lemma RefreshMovesOn(c: Cache, fetched: Option<seq<KeyHash>>, now: int)
    requires c.loadedAt.Some? ==> c.loadedAt.value <= now
    ensures c.loadedAt.Some? ==> Refreshed(c, fetched, now).loadedAt.Some? && Refreshed(c, fetched, now).loadedAt.value >= c.loadedAt.value
  {
  }

  lemma RequestMovesOn(log: seq<Fetch>, clock: int, c: Cache, q: KeyRequest)
    requires Sound(log, clock, c) && clock <= q.came && IsTimely(q)
    ensures c.loadedAt.Some? ==> AfterRequest(c, q).loadedAt.Some? && AfterRequest(c, q).loadedAt.value >= c.loadedAt.value
  {
    FirstStaysSound(log, clock, c, q);
    RefreshMovesOn(c, q.first, q.answered);
    RefreshMovesOn(AfterFirst(c, q).(lastMiss := Some(q.missedAt)), q.second, q.ended);
  }

  /** Over any run of requests, once armed, the scheduled-refresh gate never moves back. */
  lemma {:induction false} GateNeverMovesBack(qs: seq<KeyRequest>, start: int, n: nat)
    requires InTurn(qs, start) && n <= |qs| && CacheAfter(qs[..n]).loadedAt.Some?
    ensures CacheAfter(qs).loadedAt.Some? && CacheAfter(qs).loadedAt.value >= CacheAfter(qs[..n]).loadedAt.value
  {
    if n == |qs| {
      assert qs[..n] == qs;
    } else {
      var init := qs[..|qs| - 1];
      assert init[..n] == qs[..n] && forall i :: 0 <= i < |init| ==> init[i] == qs[i];
      GateNeverMovesBack(init, start, n);
      RunsStaySound(init, start);
      if init != [] { assert init[|init| - 1] == qs[|qs| - 2]; }
      RequestMovesOn(FetchLog(init), ClockAfter(init, start), CacheAfter(init), qs[|qs| - 1]);
    }
  }

  /** After any run of requests: any window of `span` seconds holds at most `2 * (span / 30 + 1)` fetches by a loaded cache. */
  lemma WarmRateIsBounded(qs: seq<KeyRequest>, start: int, from: int, span: nat)
    requires InTurn(qs, start)
    ensures CountIn(FetchLog(qs), Scheduled, from, span) + CountIn(FetchLog(qs), Missed, from, span) <= 2 * (span / 30 + 1)
  {
    RunsStaySound(qs, start);
    FetchRateBound(FetchLog(qs), from, span);
  }

  // ---------------------------------------------------------------------
  // Cold requests
  // ---------------------------------------------------------------------

  /** How many fetches, warm or not, fall within `span` seconds from `from`. */
  ghost function AllIn(log: seq<Fetch>, from: int, span: nat): nat {
    if log == [] then 0
    else AllIn(log[..|log| - 1], from, span) + if from <= log[|log| - 1].at <= from + span then 1 else 0
  }

  /** How many requests in that window found a cache that had never loaded. */
  ghost function ColdIn(qs: seq<KeyRequest>, from: int, span: nat): nat {
    if qs == [] then 0
    else
      ColdIn(qs[..|qs| - 1], from, span)
      + if CacheAfter(qs[..|qs| - 1]).hashes.None? && from <= qs[|qs| - 1].came <= from + span then 1 else 0
  }

  lemma {:induction false} CountConcat(a: seq<Fetch>, b: seq<Fetch>, reason: Reason, from: int, span: nat)
    ensures CountIn(a + b, reason, from, span) == CountIn(a, reason, from, span) + CountIn(b, reason, from, span)
    ensures AllIn(a + b, from, span) == AllIn(a, from, span) + AllIn(b, from, span)
  {
    if b == [] {
      assert a + b == a;
    } else {
      assert (a + b)[..|a + b| - 1] == a + b[..|b| - 1];
      CountConcat(a, b[..|b| - 1], reason, from, span);
    }
  }

  /** One request: its fetches are warm, but for the one a cold cache makes when it comes. */
  lemma RequestFetches(c: Cache, q: KeyRequest, from: int, span: nat)
    ensures AllIn(FetchesOf(c, q), from, span)
         == CountIn(FetchesOf(c, q), Scheduled, from, span) + CountIn(FetchesOf(c, q), Missed, from, span)
          + if c.hashes.None? && from <= q.came <= from + span then 1 else 0
  {
    var a := if IsDue(c, q) then [Fetch(q.came, Scheduled, c.hashes.Some?)] else [];
    var b := if IsMiss(c, q) then [Fetch(q.missedAt, Missed, true)] else [];
    CountConcat(a, b, Scheduled, from, span);
    CountConcat(a, b, Missed, from, span);
    if a != [] { assert a[..0] == []; }
    if b != [] { assert b[..0] == []; }
  }

  /** In any window of any run: the fetches are the warm ones, and one for every request that came to a cold cache. */
  lemma {:induction false} FetchesAreWarmOrCold(qs: seq<KeyRequest>, from: int, span: nat)
    ensures AllIn(FetchLog(qs), from, span)
         == CountIn(FetchLog(qs), Scheduled, from, span) + CountIn(FetchLog(qs), Missed, from, span) + ColdIn(qs, from, span)
  {
    if qs != [] {
      var init, c, q := qs[..|qs| - 1], CacheAfter(qs[..|qs| - 1]), qs[|qs| - 1];
      FetchesAreWarmOrCold(init, from, span);
      RequestFetches(c, q, from, span);
      CountConcat(FetchLog(init), FetchesOf(c, q), Scheduled, from, span);
      CountConcat(FetchLog(init), FetchesOf(c, q), Missed, from, span);
    }
  }

  /** All fetches of any run: the rate bound, and one more for every request that came to a cold cache. */
  lemma RateIsBounded(qs: seq<KeyRequest>, start: int, from: int, span: nat)
    requires InTurn(qs, start)
    ensures ColdIn(qs, from, span) <= AllIn(FetchLog(qs), from, span) <= 2 * (span / 30 + 1) + ColdIn(qs, from, span)
  {
    WarmRateIsBounded(qs, start, from, span);
    FetchesAreWarmOrCold(qs, from, span);
  }

  /** A cache that has loaded stays loaded. */
  lemma {:induction false} StaysLoaded(qs: seq<KeyRequest>, n: nat)
    requires n <= |qs| && CacheAfter(qs[..n]).hashes.Some?
    ensures CacheAfter(qs).hashes.Some?
  {
    if n == |qs| {
      assert qs[..n] == qs;
    } else {
      assert qs[..|qs| - 1][..n] == qs[..n];
      StaysLoaded(qs[..|qs| - 1], n);
    }
  }

  /** No request comes to a cold cache in a window that begins after the one that loaded it came. */
  lemma {:induction false} NoneColdOnceLoaded(qs: seq<KeyRequest>, start: int, n: nat, from: int, span: nat)
    requires InTurn(qs, start) && 0 < n <= |qs| && CacheAfter(qs[..n]).hashes.Some? && qs[n - 1].came < from
    ensures ColdIn(qs, from, span) == 0
  {
    var init := qs[..|qs| - 1];
    if n < |qs| {
      assert init[..n] == qs[..n] && forall i :: 0 <= i < |init| ==> init[i] == qs[i];
      NoneColdOnceLoaded(init, start, n, from, span);
      StaysLoaded(init, n);
    } else {
      NoneEarlier(qs, start, from, span);
    }
  }

  lemma {:induction false} NoneEarlier(qs: seq<KeyRequest>, start: int, from: int, span: nat)
    requires InTurn(qs, start) && (qs != [] ==> qs[|qs| - 1].came < from)
    ensures ColdIn(qs, from, span) == 0
  {
    if qs != [] {
      var init := qs[..|qs| - 1];
      assert forall i :: 0 <= i < |init| ==> init[i] == qs[i];
      if init != [] { assert init[|init| - 1].ended <= qs[|qs| - 1].came; }
      NoneEarlier(init, start, from, span);
    }
  }

  /** Once the cache has loaded, the bound is on all its fetches. */
  lemma LoadedRateIsBounded(qs: seq<KeyRequest>, start: int, n: nat, from: int, span: nat)
    requires InTurn(qs, start) && 0 < n <= |qs| && CacheAfter(qs[..n]).hashes.Some? && qs[n - 1].came < from
    ensures AllIn(FetchLog(qs), from, span) <= 2 * (span / 30 + 1)
  {
    RateIsBounded(qs, start, from, span);
    NoneColdOnceLoaded(qs, start, n, from, span);
  }

  /** A source that fails every request leaves the cache cold, and every request fetches. */
  lemma {:induction false} ColdRequestsAllFetch(qs: seq<KeyRequest>)
    requires forall i :: 0 <= i < |qs| ==> qs[i].first.None?
    ensures CacheAfter(qs) == NEW_CACHE
    ensures |FetchLog(qs)| == |qs| && forall i :: 0 <= i < |qs| ==> FetchLog(qs)[i] == Fetch(qs[i].came, Scheduled, false)
  {
    if qs != [] {
      ColdRequestsAllFetch(qs[..|qs| - 1]);
    }
  }

  // ---------------------------------------------------------------------
  // The cache
  // ---------------------------------------------------------------------

  class KeyCache {
    var hashes: Option<seq<KeyHash>>
    /** When the scheduled-refresh gate was last armed. */
    var loadedAt: Option<int>
    var lastMissRefresh: Option<int>

    function Contents(): Cache
      reads this
    {
      Cache(hashes, loadedAt, lastMissRefresh)
    }

    constructor ()
      ensures Contents() == NEW_CACHE
    {
      hashes, loadedAt, lastMissRefresh := None, None, None;
    }

    /** Takes the miss-refresh slot if the floor has elapsed, before the fetch it allows. */
    method ClaimMissRefresh(now: int) returns (allowed: bool)
      modifies this`lastMissRefresh
      ensures allowed <==> MayRefreshOnMiss(old(lastMissRefresh), now)
      ensures lastMissRefresh == if allowed then Some(now) else old(lastMissRefresh)
    {
      allowed := lastMissRefresh.None? || now - lastMissRefresh.value >= MISS_REFRESH_FLOOR;
      if allowed {
        lastMissRefresh := Some(now);
      }
    }

    /** Takes in what a fetch answered at `now`, or that it failed; `previous` is what its request had found cached. */
    method Refresh(fetched: Option<seq<KeyHash>>, previous: Option<seq<KeyHash>>, now: int) returns (current: Option<seq<KeyHash>>)
      modifies this`hashes, this`loadedAt
      ensures Contents() == Landed(old(Contents()), fetched, previous.Some?, now)
      ensures current == if fetched.Some? then fetched else previous
      ensures if fetched.Some? then hashes == fetched && loadedAt == Some(now) else hashes == old(hashes)
      ensures fetched.None? && old(loadedAt).Some? ==> loadedAt.Some? && loadedAt.value >= old(loadedAt).value
    {
      if fetched.Some? {
        hashes, loadedAt := fetched, Some(now);
        return fetched;
      }
      if previous.Some? {
        var rewound := now - (REFRESH_INTERVAL - FAILURE_BACKOFF);
        if !(loadedAt.Some? && loadedAt.value > rewound) {
          loadedAt := Some(rewound);
        }
      }
      return previous;
    }

    /**
      Checks a presented key's digest. The keys it leaves cached are those of the
      last fetch of this request that succeeded, or else those cached before, and
      they alone give the verdict: only a digest none of them has is denied, and
      only a cache that has never loaded is unavailable.
     */
    method Verify(q: KeyRequest) returns (verdict: Verdict, ghost fetches: seq<Fetch>)
      modifies this
      ensures Contents() == AfterRequest(old(Contents()), q) && fetches == FetchesOf(old(Contents()), q)
      ensures hashes == if IsMiss(old(Contents()), q) && q.second.Some? then q.second
                        else if IsDue(old(Contents()), q) && q.first.Some? then q.first
                        else old(hashes)
      ensures verdict == VerdictBy(hashes, q.digest)
      ensures verdict.Unavailable? <==> old(hashes).None? && q.first.None?
      ensures verdict.Denied? <==> hashes.Some? && forall i :: 0 <= i < |hashes.value| ==> hashes.value[i].digest != q.digest
    {
      var current := hashes;
      fetches := [];
      if hashes.None? || IsStale(loadedAt, q.came) {
        fetches := fetches + [Fetch(q.came, Scheduled, hashes.Some?)];
        current := Refresh(q.first, current, q.answered);
      }
      if current.None? {
        return Unavailable, fetches;
      }
      DeniedIsUnknown(current.value, q.digest);
      var matched := MatchKey(current.value, q.digest);
      if matched.Some? {
        return Allowed(matched.value), fetches;
      }
      var allowed := ClaimMissRefresh(q.missedAt);
      if allowed {
        fetches := fetches + [Fetch(q.missedAt, Missed, true)];
        var refreshed := Refresh(q.second, current, q.ended);
        DeniedIsUnknown(refreshed.value, q.digest);
        matched := MatchKey(refreshed.value, q.digest);
        if matched.Some? {
          return Allowed(matched.value), fetches;
        }
      }
      return Denied, fetches;
    }
  }
}
