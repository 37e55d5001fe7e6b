/**
 The two fixed-window rate limiters: one for connections by address, whose
 stale buckets are swept in the background, and one for messages by
 fingerprint, whose bucket is deleted when the client disconnects.
 */
module RateLimit {
  import opened Wrappers

  datatype Bucket = Bucket(count: nat, windowStart: int)

  datatype Config = Config(limit: nat, window: nat)

  type Buckets = map<string, Bucket>

  /** A bucket that no longer counts. */
  predicate Expired(b: Bucket, now: int, cfg: Config) {
    now - b.windowStart > cfg.window
  }

  /** The bucket of a key as far as it still counts. */
  function Live(m: Buckets, key: string, now: int, cfg: Config): Option<Bucket> {
    if key in m && !Expired(m[key], now, cfg) then Some(m[key]) else None
  }

  function Counted(m: Buckets, key: string, now: int, cfg: Config): Buckets {
    match Live(m, key, now, cfg)
    case None => m[key := Bucket(1, now)]
    case Some(b) => m[key := Bucket(b.count + 1, b.windowStart)]
  }

  predicate Admits(m: Buckets, key: string, now: int, cfg: Config) {
    var b := Live(m, key, now, cfg);
    b.None? || b.value.count + 1 <= cfg.limit
  }

  function Swept(m: Buckets, now: int, cfg: Config): Buckets {
    map key | key in m && now - m[key].windowStart <= cfg.window * 2 :: m[key]
  }

  class RateLimiter {
    const cfg: Config
    var buckets: Buckets

    constructor (cfg: Config)
      ensures this.cfg == cfg && buckets == map[]
    {
      this.cfg := cfg;
      buckets := map[];
    }

    method Check(key: string, now: int) returns (ok: bool)
      modifies this
      ensures ok == Admits(old(buckets), key, now, cfg)
      ensures buckets == Counted(old(buckets), key, now, cfg)
      ensures var live := key in old(buckets) && now - old(buckets)[key].windowStart <= cfg.window;
              && (ok <==> live ==> old(buckets)[key].count < cfg.limit)
              && buckets == old(buckets)[key := if live then
                                                  Bucket(old(buckets)[key].count + 1, old(buckets)[key].windowStart)
                                                else Bucket(1, now)]
    {
      if key !in buckets || now - buckets[key].windowStart > cfg.window {
        buckets := buckets[key := Bucket(1, now)];
        return true;
      }
      buckets := buckets[key := Bucket(buckets[key].count + 1, buckets[key].windowStart)];
      ok := !(buckets[key].count > cfg.limit);
    }

    /** The message limiter lets a client without a fingerprint through. */
    method CheckMessage(fingerprint: Option<string>, now: int) returns (ok: bool)
      modifies this
      ensures fingerprint.None? || fingerprint.value == "" ==> ok && buckets == old(buckets)
      ensures fingerprint.Some? && fingerprint.value != "" ==>
                ok == Admits(old(buckets), fingerprint.value, now, cfg)
                && buckets == Counted(old(buckets), fingerprint.value, now, cfg)
    {
      if fingerprint.None? || fingerprint.value == "" {
        return true;
      }
      ok := Check(fingerprint.value, now);
    }

    method Delete(key: string)
      modifies this
      ensures buckets == old(buckets) - {key}
    {
      buckets := buckets - {key};
    }

    method Sweep(now: int)
      modifies this
      ensures buckets == Swept(old(buckets), now, cfg)
      ensures forall key :: key in buckets <==>
                key in old(buckets) && old(buckets)[key].windowStart >= now - 2 * cfg.window
      ensures forall key :: key in buckets ==> buckets[key] == old(buckets)[key]
    {
      var todo := buckets.Keys;
      while todo != {}
        invariant todo <= buckets.Keys <= old(buckets).Keys
        invariant forall key :: key in buckets ==> buckets[key] == old(buckets)[key]
        invariant forall key :: key in old(buckets) && key !in todo ==>
                    (key in buckets <==> key in Swept(old(buckets), now, cfg))
        decreases todo
      {
        var key :| key in todo;
        if now - buckets[key].windowStart > cfg.window * 2 {
          buckets := buckets - {key};
        }
        todo := todo - {key};
      }
    }
  }

  // Runs.

  datatype Event = Request(key: string, time: int) | Sweep(time: int) | Forget(key: string, time: int)

  function After(m: Buckets, e: Event, cfg: Config): Buckets {
    match e
    case Request(key, t) => Counted(m, key, t, cfg)
    case Sweep(t) => Swept(m, t, cfg)
    case Forget(key, _) => m - {key}
  }

  /** The verdicts on the requests of a run, in order. */
  function Verdicts(m: Buckets, es: seq<Event>, cfg: Config): seq<bool>
    decreases |es|
  {
    if es == [] then []
    else
      (if es[0].Request? then [Admits(m, es[0].key, es[0].time, cfg)] else [])
      + Verdicts(After(m, es[0], cfg), es[1..], cfg)
  }

  /** The clock does not run backwards. */
  predicate Timely(last: int, es: seq<Event>)
    decreases |es|
  {
    es == [] || (last <= es[0].time && Timely(es[0].time, es[1..]))
  }

  function NoSweeps(es: seq<Event>): seq<Event> {
    if es == [] then [] else (if es[0].Sweep? then [] else [es[0]]) + NoSweeps(es[1..])
  }

  // Sweeping changes nothing that counts.

  ghost predicate Alike(m: Buckets, n: Buckets, now: int, cfg: Config) {
    forall key, t :: now <= t ==> Live(m, key, t, cfg) == Live(n, key, t, cfg)
  }

  lemma SweepAlike(m: Buckets, now: int, cfg: Config)
    ensures Alike(Swept(m, now, cfg), m, now, cfg)
  {
  }

  lemma StepAlike(m: Buckets, n: Buckets, e: Event, last: int, cfg: Config)
    requires Alike(m, n, last, cfg) && last <= e.time
    ensures Alike(After(m, e, cfg), After(n, e, cfg), e.time, cfg)
    ensures e.Request? ==> Admits(m, e.key, e.time, cfg) == Admits(n, e.key, e.time, cfg)
  {
    if e.Request? {
      assert Live(m, e.key, e.time, cfg) == Live(n, e.key, e.time, cfg);
      forall key, t | e.time <= t
        ensures Live(After(m, e, cfg), key, t, cfg) == Live(After(n, e, cfg), key, t, cfg)
      {
        assert Live(m, key, t, cfg) == Live(n, key, t, cfg);
      }
    } else if e.Sweep? {
      SweepAlike(m, e.time, cfg);
      SweepAlike(n, e.time, cfg);
      forall key, t | e.time <= t
        ensures Live(After(m, e, cfg), key, t, cfg) == Live(After(n, e, cfg), key, t, cfg)
      {
        assert Live(m, key, t, cfg) == Live(n, key, t, cfg);
        assert Live(Swept(m, e.time, cfg), key, t, cfg) == Live(m, key, t, cfg);
        assert Live(Swept(n, e.time, cfg), key, t, cfg) == Live(n, key, t, cfg);
      }
    } else {
      forall key, t | e.time <= t
        ensures Live(After(m, e, cfg), key, t, cfg) == Live(After(n, e, cfg), key, t, cfg)
      {
        assert Live(m, key, t, cfg) == Live(n, key, t, cfg);
      }
    }
  }

  lemma {:induction false} AlikeVerdicts(m: Buckets, n: Buckets, es: seq<Event>, last: int, cfg: Config)
    requires Alike(m, n, last, cfg) && Timely(last, es)
    ensures Verdicts(m, es, cfg) == Verdicts(n, NoSweeps(es), cfg)
    decreases |es|
  {
    if es != [] {
      var e := es[0];
      if e.Sweep? {
        SweepAlike(m, e.time, cfg);
        forall key, t | e.time <= t ensures Live(Swept(m, e.time, cfg), key, t, cfg) == Live(n, key, t, cfg) {
          assert Live(Swept(m, e.time, cfg), key, t, cfg) == Live(m, key, t, cfg);
        }
        AlikeVerdicts(Swept(m, e.time, cfg), n, es[1..], e.time, cfg);
        assert NoSweeps(es) == NoSweeps(es[1..]);
      } else {
        StepAlike(m, n, e, last, cfg);
        AlikeVerdicts(After(m, e, cfg), After(n, e, cfg), es[1..], e.time, cfg);
        var rest := NoSweeps(es[1..]);
        assert NoSweeps(es) == [e] + rest && ([e] + rest)[1..] == rest;
      }
    }
  }

  /** Wherever the sweep runs, every request gets the verdict it gets without it. */
  lemma SweepTransparency(es: seq<Event>, start: int, cfg: Config)
    requires Timely(start, es)
    ensures Verdicts(map[], es, cfg) == Verdicts(map[], NoSweeps(es), cfg)
  {
    AlikeVerdicts(map[], map[], es, start, cfg);
  }

  // The bound.

  /** How many requests of the key are accepted with a time from lo to hi. */
  function Accepted(m: Buckets, es: seq<Event>, key: string, lo: int, hi: int, cfg: Config): nat
    decreases |es|
  {
    if es == [] then 0
    else
      var e := es[0];
      (if e.Request? && e.key == key && lo <= e.time <= hi && Admits(m, key, e.time, cfg) then 1 else 0)
      + Accepted(After(m, e, cfg), es[1..], key, lo, hi, cfg)
  }

  /** The most that one window accepts: its first request always passes. */
  function Quota(cfg: Config): nat {
    if cfg.limit >= 1 then cfg.limit else 1
  }

  function Left(b: Bucket, cfg: Config): nat {
    if b.count <= Quota(cfg) then Quota(cfg) - b.count else 0
  }

  /** What can still be accepted between lo and lo + window once the clock stands at `now`. */
  function Cap(m: Buckets, key: string, now: int, lo: int, cfg: Config): nat {
    if now > lo + cfg.window then 0
    else if now < lo then 2 * Quota(cfg) - 1
    else if key !in m then Quota(cfg)
    else if m[key].windowStart >= lo then Left(m[key], cfg)
    else Left(m[key], cfg) + Quota(cfg)
  }

  ghost predicate Sound(m: Buckets, now: int) {
    forall key :: key in m ==> m[key].count >= 1 && m[key].windowStart <= now
  }

  /** How often the bucket of the key is deleted with a time from lo to hi. */
  function Deletions(es: seq<Event>, key: string, lo: int, hi: int): nat
    decreases |es|
  {
    if es == [] then 0
    else
      (if es[0].Forget? && es[0].key == key && lo <= es[0].time <= hi then 1 else 0)
      + Deletions(es[1..], key, lo, hi)
  }

  lemma {:induction false} CapHolds(m: Buckets, es: seq<Event>, key: string, last: int, lo: int, cfg: Config)
    requires Sound(m, last) && Timely(last, es)
    ensures Accepted(m, es, key, lo, lo + cfg.window, cfg)
            <= Cap(m, key, last, lo, cfg) + Deletions(es, key, lo, lo + cfg.window) * Quota(cfg)
    decreases |es|
  {
    if es != [] {
      var hi := lo + cfg.window;
      var before, later := Deletions(es, key, lo, hi), Deletions(es[1..], key, lo, hi);
      CapHolds(After(m, es[0], cfg), es[1..], key, es[0].time, lo, cfg);
      if es[0].Forget? && es[0].key == key && lo <= es[0].time <= hi {
        assert before * Quota(cfg) == later * Quota(cfg) + Quota(cfg);
      } else {
        assert before == later;
      }
    }
  }

  /**
   Fixed-window bound: a closed interval as long as a window contains at most
   2 * max(1, limit) - 1 accepted requests of a key, and max(1, limit) more for
   each time that its bucket is deleted in the interval, with or without sweeps.
   */
  lemma FixedWindowBound(es: seq<Event>, key: string, start: int, lo: int, cfg: Config)
    requires Timely(start, es)
    ensures Accepted(map[], es, key, lo, lo + cfg.window, cfg)
            <= 2 * Quota(cfg) - 1 + Deletions(es, key, lo, lo + cfg.window) * Quota(cfg)
  {
    CapHolds(map[], es, key, if start < lo then start else lo - 1, lo, cfg);
  }

  // The bound is reached.

  function Burst(key: string, time: int, n: nat): seq<Event> {
    if n == 0 then [] else [Request(key, time)] + Burst(key, time, n - 1)
  }

  lemma {:induction false} BurstAccepted(m: Buckets, key: string, time: int, n: nat, rest: seq<Event>, lo: int, hi: int,
                                         cfg: Config)
    requires key in m && !Expired(m[key], time, cfg) && m[key].count + n <= cfg.limit && lo <= time <= hi
    ensures Accepted(m, Burst(key, time, n) + rest, key, lo, hi, cfg)
            == n + Accepted(m[key := Bucket(m[key].count + n, m[key].windowStart)], rest, key, lo, hi, cfg)
  {
    if n == 0 {
      assert m[key := Bucket(m[key].count, m[key].windowStart)] == m;
      assert Burst(key, time, 0) + rest == rest;
    } else {
      var es := Burst(key, time, n) + rest;
      var m1 := Counted(m, key, time, cfg);
      assert es[1..] == Burst(key, time, n - 1) + rest;
      BurstAccepted(m1, key, time, n - 1, rest, lo, hi, cfg);
      assert m1[key := Bucket(m1[key].count + (n - 1), m1[key].windowStart)]
          == m[key := Bucket(m[key].count + n, m[key].windowStart)];
    }
  }

  lemma {:induction false} BurstTimely(last: int, key: string, time: int, n: nat, rest: seq<Event>)
    requires last <= time && Timely(time, rest)
    ensures Timely(last, Burst(key, time, n) + rest)
    decreases n
  {
    if n == 0 {
      assert Burst(key, time, 0) + rest == rest;
    } else {
      BurstTimely(time, key, time, n - 1, rest);
      assert (Burst(key, time, n) + rest)[1..] == Burst(key, time, n - 1) + rest;
    }
  }

  lemma {:induction false} BurstDeletes(key: string, time: int, n: nat, rest: seq<Event>, lo: int, hi: int)
    ensures Deletions(Burst(key, time, n) + rest, key, lo, hi) == Deletions(rest, key, lo, hi)
    decreases n
  {
    if n == 0 {
      assert Burst(key, time, 0) + rest == rest;
    } else {
      BurstDeletes(key, time, n - 1, rest, lo, hi);
      assert (Burst(key, time, n) + rest)[1..] == Burst(key, time, n - 1) + rest;
    }
  }

  /** A new window that takes its whole quota at once, and then the rest. */
  function Fill(key: string, time: int, cfg: Config, rest: seq<Event>): seq<Event>
    requires cfg.limit >= 1
  {
    [Request(key, time)] + (Burst(key, time, cfg.limit - 1) + rest)
  }

  lemma WindowFilled(m: Buckets, key: string, time: int, rest: seq<Event>, last: int, lo: int, hi: int, cfg: Config)
    requires Live(m, key, time, cfg).None? && cfg.limit >= 1 && lo <= time <= hi
    requires last <= time && Timely(time, rest)
    ensures Accepted(m, Fill(key, time, cfg, rest), key, lo, hi, cfg)
            == cfg.limit + Accepted(m[key := Bucket(cfg.limit, time)], rest, key, lo, hi, cfg)
    ensures Timely(last, Fill(key, time, cfg, rest))
    ensures Deletions(Fill(key, time, cfg, rest), key, lo, hi) == Deletions(rest, key, lo, hi)
  {
    var es, n := Fill(key, time, cfg, rest), cfg.limit - 1;
    var started := m[key := Bucket(1, time)];
    assert es[1..] == Burst(key, time, n) + rest;
    BurstAccepted(started, key, time, n, rest, lo, hi, cfg);
    BurstTimely(time, key, time, n, rest);
    BurstDeletes(key, time, n, rest, lo, hi);
    assert started[key := Bucket(1 + n, time)] == m[key := Bucket(cfg.limit, time)];
  }

  /** Each deletion makes room for another quota. */
  function Refills(key: string, time: int, k: nat, cfg: Config): seq<Event>
    requires cfg.limit >= 1
  {
    if k == 0 then [] else [Forget(key, time)] + Fill(key, time, cfg, Refills(key, time, k - 1, cfg))
  }

  lemma {:induction false} RefillsAccepted(m: Buckets, key: string, time: int, k: nat, lo: int, hi: int, cfg: Config)
    requires cfg.limit >= 1 && lo <= time <= hi
    ensures Accepted(m, Refills(key, time, k, cfg), key, lo, hi, cfg) == k * cfg.limit
    ensures Timely(time, Refills(key, time, k, cfg))
    ensures Deletions(Refills(key, time, k, cfg), key, lo, hi) == k
    decreases k
  {
    if k > 0 {
      var es, rest := Refills(key, time, k, cfg), Refills(key, time, k - 1, cfg);
      assert es[1..] == Fill(key, time, cfg, rest);
      RefillsAccepted((m - {key})[key := Bucket(cfg.limit, time)], key, time, k - 1, lo, hi, cfg);
      WindowFilled(m - {key}, key, time, rest, time, lo, hi, cfg);
      assert k * cfg.limit == cfg.limit + (k - 1) * cfg.limit;
    }
  }

  /** One request opens a window early; the rest of its quota, a new window and k refills follow each other closely. */
  function Crowd(key: string, k: nat, cfg: Config): seq<Event>
    requires cfg.limit >= 1
  {
    var w := cfg.window;
    [Request(key, 0)] + (Burst(key, w, cfg.limit - 1) + Fill(key, w + 1, cfg, Refills(key, w + 1, k, cfg)))
  }

  lemma CrowdEnds(m: Buckets, key: string, k: nat, cfg: Config)
    requires cfg.limit >= 1 && cfg.window >= 1 && Live(m, key, cfg.window + 1, cfg).None?
    ensures var w := cfg.window;
            var last := Fill(key, w + 1, cfg, Refills(key, w + 1, k, cfg));
            && Timely(w, last) && Deletions(last, key, 1, 1 + w) == k
            && Accepted(m, last, key, 1, 1 + w, cfg) == cfg.limit + k * cfg.limit
  {
    var w := cfg.window;
    RefillsAccepted(m[key := Bucket(cfg.limit, w + 1)], key, w + 1, k, 1, 1 + w, cfg);
    WindowFilled(m, key, w + 1, Refills(key, w + 1, k, cfg), w, 1, 1 + w, cfg);
  }

  /** The bound is reached for every number of deletions. */
  lemma BoundReached(key: string, k: nat, cfg: Config)
    requires cfg.limit >= 1 && cfg.window >= 1
    ensures Timely(0, Crowd(key, k, cfg)) && Deletions(Crowd(key, k, cfg), key, 1, 1 + cfg.window) == k
    ensures Accepted(map[], Crowd(key, k, cfg), key, 1, 1 + cfg.window, cfg) == 2 * Quota(cfg) - 1 + k * Quota(cfg)
  {
    var w, n := cfg.window, cfg.limit - 1;
    var last := Fill(key, w + 1, cfg, Refills(key, w + 1, k, cfg));
    var m: Buckets := map[key := Bucket(1, 0)];
    var es := Burst(key, w, n) + last;
    CrowdEnds(m[key := Bucket(1 + n, 0)], key, k, cfg);
    BurstAccepted(m, key, w, n, last, 1, 1 + w, cfg);
    BurstTimely(0, key, w, n, last);
    BurstDeletes(key, w, n, last, 1, 1 + w);
    OneEarly(key, es, cfg);
  }

  /** A request at time 0 on an empty table, before the interval that counts. */
  lemma OneEarly(key: string, es: seq<Event>, cfg: Config)
    requires cfg.window >= 1 && Timely(0, es)
    ensures var run := [Request(key, 0)] + es;
            && Timely(0, run) && Deletions(run, key, 1, 1 + cfg.window) == Deletions(es, key, 1, 1 + cfg.window)
            && Accepted(map[], run, key, 1, 1 + cfg.window, cfg)
               == Accepted(map[key := Bucket(1, 0)], es, key, 1, 1 + cfg.window, cfg)
  {
    assert ([Request(key, 0)] + es)[1..] == es && Counted(map[], key, 0, cfg) == map[key := Bucket(1, 0)];
  }

  // Whatever the clock does.

  /** How many requests of the key open a window. */
  function Opened(m: Buckets, es: seq<Event>, key: string, cfg: Config): nat
    decreases |es|
  {
    if es == [] then 0
    else
      var e := es[0];
      (if e.Request? && e.key == key && Live(m, key, e.time, cfg).None? then 1 else 0)
      + Opened(After(m, e, cfg), es[1..], key, cfg)
  }

  /** How many requests of the key are accepted at all. */
  function AcceptedInAll(m: Buckets, es: seq<Event>, key: string, cfg: Config): nat
    decreases |es|
  {
    if es == [] then 0
    else
      var e := es[0];
      (if e.Request? && e.key == key && Admits(m, key, e.time, cfg) then 1 else 0)
      + AcceptedInAll(After(m, e, cfg), es[1..], key, cfg)
  }

  /** With any clock, sweeps and deletions: at most max(1, limit) requests are accepted for each window opened. */
  lemma {:induction false} AnyClockBound(m: Buckets, es: seq<Event>, key: string, cfg: Config)
    requires key in m ==> m[key].count >= 1
    ensures AcceptedInAll(m, es, key, cfg)
            <= Opened(m, es, key, cfg) * Quota(cfg) + if key in m then Left(m[key], cfg) else 0
    decreases |es|
  {
    if es != [] {
      var e := es[0];
      AnyClockBound(After(m, e, cfg), es[1..], key, cfg);
      if e.Request? && e.key == key && Live(m, key, e.time, cfg).None? {
        assert Opened(m, es, key, cfg) * Quota(cfg)
            == Opened(After(m, e, cfg), es[1..], key, cfg) * Quota(cfg) + Quota(cfg);
      }
    }
  }

  /** Deletions lift the bound: any number of requests passes at one instant. */
  function Reconnecting(key: string, time: int, n: nat): seq<Event> {
    if n == 0 then [] else [Request(key, time), Forget(key, time)] + Reconnecting(key, time, n - 1)
  }

  lemma {:induction false} DeletionsLiftTheBound(m: Buckets, key: string, time: int, n: nat, cfg: Config)
    requires key !in m
    ensures Timely(time, Reconnecting(key, time, n))
    ensures Accepted(m, Reconnecting(key, time, n), key, time, time, cfg) == n
  {
    if n > 0 {
      var es := Reconnecting(key, time, n);
      assert es[1..] == [Forget(key, time)] + Reconnecting(key, time, n - 1);
      assert es[1..][1..] == Reconnecting(key, time, n - 1);
      DeletionsLiftTheBound(m, key, time, n - 1, cfg);
      assert Counted(m, key, time, cfg) - {key} == m;
    }
  }

  /** A clock that runs backwards lifts the bound too: each jump opens a window and comes back to time 0. */
  function Jumping(key: string, from: nat, n: nat, cfg: Config): seq<Event>
    decreases n
  {
    if n == 0 then []
    else [Request(key, from), Request(key, 0)] + Jumping(key, from + cfg.window + 1, n - 1, cfg)
  }

  lemma {:induction false} BackwardClockLiftsTheBound(m: Buckets, key: string, from: nat, n: nat, cfg: Config)
    requires cfg.limit >= 2 && from > 0 && (key in m ==> from - m[key].windowStart > cfg.window)
    ensures Accepted(m, Jumping(key, from, n, cfg), key, 0, 0, cfg) == n
    decreases n
  {
    if n > 0 {
      var es := Jumping(key, from, n, cfg);
      var m1 := Counted(m, key, from, cfg);
      var m2 := Counted(m1, key, 0, cfg);
      assert m1 == m[key := Bucket(1, from)] && m2 == m1[key := Bucket(2, from)];
      assert es[1..][1..] == Jumping(key, from + cfg.window + 1, n - 1, cfg);
      BackwardClockLiftsTheBound(m2, key, from + cfg.window + 1, n - 1, cfg);
    }
  }
}
