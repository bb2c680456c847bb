/** The per-peer token bucket and its cleanup (crates/presence/src/rate_limiter.rs:45-111;
    crates/presence/src/lib.rs:562-570), over exact reals. Times are in seconds; each call
    is given the instant it reads. */
module RateLimiter {
  import opened Sets

  type Peer = nat

  datatype Config = Config(maxTokens: real, refillRate: real) {
    predicate Sound() { maxTokens >= 0.0 && refillRate >= 0.0 }
  }

  const DEFAULT_CONFIG := Config(3.0, 0.2)
  const CLEANUP_SECS := 300.0

  datatype Bucket = Bucket(tokens: real, lastRefill: real)
  type Buckets = map<Peer, Bucket>

  function Min(a: real, b: real): real { if a < b then a else b }

  /** Tokens added in `secs` seconds. */
  function Earned(cfg: Config, secs: real): real { cfg.refillRate * secs }

  function Refilled(cfg: Config, b: Bucket, now: real): real {
    Min(b.tokens + Earned(cfg, now - b.lastRefill), cfg.maxTokens)
  }

  /** The tokens `p` can draw on at `now`; a peer without a bucket has a full one. */
  function Level(cfg: Config, m: Buckets, p: Peer, now: real): real {
    if p in m then Refilled(cfg, m[p], now) else cfg.maxTokens
  }

  function Consumed(level: real): real { if level >= 1.0 then level - 1.0 else level }

  function Checked(cfg: Config, m: Buckets, p: Peer, now: real): Buckets {
    m[p := Bucket(Consumed(Level(cfg, m, p, now)), now)]
  }

  function Cleaned(m: Buckets, maxAge: real, now: real): Buckets {
    map p | p in m && now - m[p].lastRefill <= maxAge :: m[p]
  }

  /** The limiter, updated in place. */
  class Limiter {
    const config: Config
    var buckets: Buckets

    constructor (config: Config)
      ensures this.config == config && buckets == map[]
    {
      this.config, buckets := config, map[];
    }

    /** Allowed exactly when a whole token is there, which is then spent; no other peer's
        bucket changes. */
    method CheckRateLimit(p: Peer, now: real) returns (allowed: bool)
      modifies this
      ensures allowed == (Level(config, old(buckets), p, now) >= 1.0)
      ensures buckets == Checked(config, old(buckets), p, now)
    {
      var b := if p in buckets then buckets[p] else Bucket(config.maxTokens, now);
      assert Earned(config, 0.0) == 0.0;
      b := Bucket(Min(b.tokens + Earned(config, now - b.lastRefill), config.maxTokens), now);
      allowed := b.tokens >= 1.0;
      if allowed {
        b := b.(tokens := b.tokens - 1.0);
      }
      buckets := buckets[p := b];
    }

    method CleanupStale(maxAge: real, now: real) returns (removed: nat)
      modifies this
      ensures buckets == Cleaned(old(buckets), maxAge, now)
      ensures removed + |buckets| == |old(buckets)|
    {
      var initial := |buckets|;
      CleanedIsSmaller(buckets, maxAge, now);
      buckets := Cleaned(buckets, maxAge, now);
      removed := initial - |buckets|;
    }
  }

  lemma CleanedIsSmaller(m: Buckets, maxAge: real, now: real)
    ensures |Cleaned(m, maxAge, now)| <= |m|
  {
    SubsetSize(Cleaned(m, maxAge, now).Keys, m.Keys);
  }

  // ---- Runs ----

  datatype Event = Check(peer: Peer, at: real) | Cleanup(maxAge: real, at: real)

  function Next(cfg: Config, m: Buckets, e: Event): Buckets {
    if e.Check? then Checked(cfg, m, e.peer, e.at) else Cleaned(m, e.maxAge, e.at)
  }

  predicate Allows(cfg: Config, m: Buckets, e: Event) { e.Check? && Level(cfg, m, e.peer, e.at) >= 1.0 }

  function After(cfg: Config, m: Buckets, events: seq<Event>): Buckets
    decreases |events|
  {
    if events == [] then m else After(cfg, Next(cfg, m, events[0]), events[1..])
  }

  /** The answers to the checks, in order. */
  function Decisions(cfg: Config, m: Buckets, events: seq<Event>): seq<bool>
    decreases |events|
  {
    if events == [] then []
    else
      var rest := Decisions(cfg, Next(cfg, m, events[0]), events[1..]);
      if events[0].Check? then [Allows(cfg, m, events[0])] + rest else rest
  }

  /** How many messages of `p` are let through. */
  function Admitted(cfg: Config, m: Buckets, events: seq<Event>, p: Peer): nat
    decreases |events|
  {
    if events == [] then 0
    else
      (if Allows(cfg, m, events[0]) && events[0].peer == p then 1 else 0)
      + Admitted(cfg, Next(cfg, m, events[0]), events[1..], p)
  }

  function ChecksOnly(events: seq<Event>): seq<Event> {
    if events == [] then []
    else if events[0].Check? then [events[0]] + ChecksOnly(events[1..]) else ChecksOnly(events[1..])
  }

  /** The clock never goes back. */
  predicate Timed(events: seq<Event>, from: real, to: real)
    decreases |events|
  {
    if events == [] then from <= to else from <= events[0].at && Timed(events[1..], events[0].at, to)
  }

  /** No cleanup drops a bucket before it could have refilled. */
  predicate Patient(cfg: Config, events: seq<Event>) {
    forall e :: e in events && e.Cleanup? ==> Earned(cfg, e.maxAge) >= cfg.maxTokens
  }

  predicate Sane(cfg: Config, m: Buckets, now: real) {
    forall p :: p in m ==> 0.0 <= m[p].tokens <= cfg.maxTokens && m[p].lastRefill <= now
  }

  // ---- How much a window lets through ----

  lemma EarnedAdds(cfg: Config, a: real, b: real)
    ensures Earned(cfg, a + b) == Earned(cfg, a) + Earned(cfg, b)
  {
  }

  lemma EarnedGrows(cfg: Config, a: real, b: real)
    requires cfg.Sound() && a <= b
    ensures Earned(cfg, a) <= Earned(cfg, b)
  {
    EarnedPositive(cfg, b - a);
    EarnedAdds(cfg, a, b - a);
  }

  lemma EarnedPositive(cfg: Config, a: real)
    requires cfg.Sound() && a >= 0.0
    ensures Earned(cfg, a) >= 0.0
  {
  }

  lemma RefilledGrows(cfg: Config, b: Bucket, t: real, u: real)
    requires cfg.Sound() && 0.0 <= b.tokens <= cfg.maxTokens && b.lastRefill <= t <= u
    ensures 0.0 <= Refilled(cfg, b, t) <= Refilled(cfg, b, u) <= cfg.maxTokens
    ensures Refilled(cfg, b, u) <= Refilled(cfg, b, t) + Earned(cfg, u - t)
  {
    EarnedPositive(cfg, t - b.lastRefill);
    EarnedPositive(cfg, u - t);
    EarnedAdds(cfg, t - b.lastRefill, u - t);
    assert (t - b.lastRefill) + (u - t) == u - b.lastRefill;
  }

  lemma LevelGrows(cfg: Config, m: Buckets, p: Peer, t: real, u: real)
    requires cfg.Sound() && Sane(cfg, m, t) && t <= u
    ensures 0.0 <= Level(cfg, m, p, t) <= Level(cfg, m, p, u) <= cfg.maxTokens
    ensures Level(cfg, m, p, u) <= Level(cfg, m, p, t) + Earned(cfg, u - t)
  {
    if p in m {
      RefilledGrows(cfg, m[p], t, u);
    } else {
      EarnedPositive(cfg, u - t);
    }
  }

  lemma CleanedBucketWasFull(cfg: Config, m: Buckets, maxAge: real, now: real, p: Peer)
    requires cfg.Sound() && Sane(cfg, m, now) && Earned(cfg, maxAge) >= cfg.maxTokens
    requires p in m && p !in Cleaned(m, maxAge, now)
    ensures Refilled(cfg, m[p], now) == cfg.maxTokens
  {
    EarnedGrows(cfg, maxAge, now - m[p].lastRefill);
  }

  lemma NextSane(cfg: Config, m: Buckets, e: Event)
    requires cfg.Sound() && Sane(cfg, m, e.at)
    ensures Sane(cfg, Next(cfg, m, e), e.at)
  {
    if e.Check? {
      LevelGrows(cfg, m, e.peer, e.at, e.at);
    }
  }

  lemma CheckedLevel(cfg: Config, m: Buckets, q: Peer, now: real, p: Peer)
    requires cfg.Sound() && Sane(cfg, m, now)
    ensures Level(cfg, Checked(cfg, m, q, now), p, now)
            == Level(cfg, m, p, now) - (if q == p && Level(cfg, m, p, now) >= 1.0 then 1.0 else 0.0)
  {
    LevelGrows(cfg, m, q, now, now);
    assert Earned(cfg, now - now) == 0.0;
  }

  /** What one event does to the level of `p`, at its instant. */
  lemma NextLevel(cfg: Config, m: Buckets, e: Event, p: Peer)
    requires cfg.Sound() && Sane(cfg, m, e.at) && (e.Cleanup? ==> Earned(cfg, e.maxAge) >= cfg.maxTokens)
    ensures Level(cfg, Next(cfg, m, e), p, e.at)
            == Level(cfg, m, p, e.at) - (if Allows(cfg, m, e) && e.peer == p then 1.0 else 0.0)
  {
    if e.Check? {
      CheckedLevel(cfg, m, e.peer, e.at, p);
    } else if p in m && p !in Cleaned(m, e.maxAge, e.at) {
      CleanedBucketWasFull(cfg, m, e.maxAge, e.at, p);
    }
  }

  lemma {:induction false} WindowFrom(cfg: Config, m: Buckets, events: seq<Event>, p: Peer, t: real, u: real)
    requires cfg.Sound() && Sane(cfg, m, t) && Timed(events, t, u) && Patient(cfg, events)
    ensures Admitted(cfg, m, events, p) as real <= Level(cfg, m, p, t) + Earned(cfg, u - t)
    decreases |events|
  {
    if events == [] {
      LevelGrows(cfg, m, p, t, u);
    } else {
      var e := events[0];
      WindowStep(cfg, m, events, p, t, u);
      WindowFrom(cfg, Next(cfg, m, e), events[1..], p, e.at, u);
    }
  }

  /** What the first event of a window contributes. */
  lemma WindowStep(cfg: Config, m: Buckets, events: seq<Event>, p: Peer, t: real, u: real)
    requires cfg.Sound() && Sane(cfg, m, t) && Timed(events, t, u) && Patient(cfg, events) && events != []
    ensures var e := events[0];
            && Sane(cfg, Next(cfg, m, e), e.at) && Patient(cfg, events[1..])
            && Level(cfg, Next(cfg, m, e), p, e.at) + (if Allows(cfg, m, e) && e.peer == p then 1.0 else 0.0)
               + Earned(cfg, u - e.at) <= Level(cfg, m, p, t) + Earned(cfg, u - t)
  {
    var e := events[0];
    assert e in events;
    LevelGrows(cfg, m, p, t, e.at);
    NextSane(cfg, m, e);
    NextLevel(cfg, m, e, p);
    EarnedAdds(cfg, u - e.at, e.at - t);
    assert (u - e.at) + (e.at - t) == u - t;
  }

  lemma {:induction false} AfterSane(cfg: Config, m: Buckets, events: seq<Event>, t: real, u: real)
    requires cfg.Sound() && Sane(cfg, m, t) && Timed(events, t, u)
    ensures Sane(cfg, After(cfg, m, events), u)
    decreases |events|
  {
    if events != [] {
      NextSane(cfg, m, events[0]);
      AfterSane(cfg, Next(cfg, m, events[0]), events[1..], events[0].at, u);
    }
  }

  /** What a window of `secs` seconds may let through: a full bucket and its refill. */
  predicate WithinBound(cfg: Config, admitted: nat, secs: real) {
    admitted as real <= cfg.maxTokens + cfg.refillRate * secs
  }

  lemma EarnedIsWithinBound(cfg: Config, admitted: nat, secs: real)
    ensures WithinBound(cfg, admitted, secs) <==> admitted as real <= cfg.maxTokens + Earned(cfg, secs)
  {
  }

  lemma WindowAdmits(cfg: Config, before: seq<Event>, window: seq<Event>, p: Peer, start: real, t: real, u: real)
    requires cfg.Sound() && Timed(before, start, t) && Timed(window, t, u) && Patient(cfg, window)
    ensures Admitted(cfg, After(cfg, map[], before), window, p) as real <= cfg.maxTokens + Earned(cfg, u - t)
  {
    AfterSane(cfg, map[], before, start, t);
    var m := After(cfg, map[], before);
    WindowFrom(cfg, m, window, p, t, u);
    LevelGrows(cfg, m, p, t, t);
  }

  /** In every run whose cleanups wait for a full refill, every window lets through at most
      maxTokens + refillRate * length messages of any one peer. */
  lemma WindowBound(cfg: Config, before: seq<Event>, window: seq<Event>, p: Peer, start: real, t: real, u: real)
    requires cfg.Sound() && Timed(before, start, t) && Timed(window, t, u) && Patient(cfg, window)
    ensures WithinBound(cfg, Admitted(cfg, After(cfg, map[], before), window, p), u - t)
  {
    WindowAdmits(cfg, before, window, p, start, t, u);
    EarnedIsWithinBound(cfg, Admitted(cfg, After(cfg, map[], before), window, p), u - t);
  }

  // ---- Cleanup changes no decision ----

  /** `m` is `n` without some buckets that are full by now. */
  predicate Alike(cfg: Config, m: Buckets, n: Buckets, now: real) {
    && (forall p :: p in m ==> p in n && m[p] == n[p])
    && (forall p :: p in n && p !in m ==> Refilled(cfg, n[p], now) == cfg.maxTokens)
  }

  lemma AlikeLater(cfg: Config, m: Buckets, n: Buckets, t: real, u: real)
    requires cfg.Sound() && Sane(cfg, n, t) && Alike(cfg, m, n, t) && t <= u
    ensures Alike(cfg, m, n, u) && forall p :: Level(cfg, m, p, u) == Level(cfg, n, p, u)
  {
    forall p | p in n && p !in m ensures Refilled(cfg, n[p], u) == cfg.maxTokens {
      LevelGrows(cfg, n, p, t, u);
    }
  }

  lemma AlikeCleanup(cfg: Config, m: Buckets, n: Buckets, maxAge: real, now: real)
    requires cfg.Sound() && Sane(cfg, n, now) && Alike(cfg, m, n, now) && Earned(cfg, maxAge) >= cfg.maxTokens
    ensures Alike(cfg, Cleaned(m, maxAge, now), n, now)
  {
    forall p | p in m && p !in Cleaned(m, maxAge, now) ensures Refilled(cfg, n[p], now) == cfg.maxTokens {
      CleanedBucketWasFull(cfg, m, maxAge, now, p);
    }
  }

  lemma {:induction false} InvisibleFrom(cfg: Config, m: Buckets, n: Buckets, events: seq<Event>, t: real, u: real)
    requires cfg.Sound() && Sane(cfg, n, t) && Alike(cfg, m, n, t) && Timed(events, t, u) && Patient(cfg, events)
    ensures Decisions(cfg, m, events) == Decisions(cfg, n, ChecksOnly(events))
    decreases |events|
  {
    if events != [] {
      var e := events[0];
      assert e in events;
      AlikeLater(cfg, m, n, t, e.at);
      if e.Check? {
        NextSane(cfg, n, e);
        assert ChecksOnly(events)[1..] == ChecksOnly(events[1..]);
        InvisibleFrom(cfg, Next(cfg, m, e), Next(cfg, n, e), events[1..], e.at, u);
      } else {
        AlikeCleanup(cfg, m, n, e.maxAge, e.at);
        InvisibleFrom(cfg, Next(cfg, m, e), n, events[1..], e.at, u);
      }
    }
  }

  /** A cleanup whose age covers a full refill is invisible: every run gives the answers it
      would give without cleanups. */
  lemma CleanupIsInvisible(cfg: Config, events: seq<Event>, t: real, u: real)
    requires cfg.Sound() && Timed(events, t, u) && Patient(cfg, events)
    ensures Decisions(cfg, map[], events) == Decisions(cfg, map[], ChecksOnly(events))
  {
    InvisibleFrom(cfg, map[], map[], events, t, u);
  }

  /** The shipped call: every cleanup after 300 s with the default rates. */
  lemma ShippedCleanupIsInvisible(events: seq<Event>, t: real, u: real)
    requires Timed(events, t, u) && forall e :: e in events && e.Cleanup? ==> e.maxAge == CLEANUP_SECS
    ensures Decisions(DEFAULT_CONFIG, map[], events) == Decisions(DEFAULT_CONFIG, map[], ChecksOnly(events))
  {
    CleanupIsInvisible(DEFAULT_CONFIG, events, t, u);
  }

  // ---- And only such a cleanup ----

  lemma {:induction false} DecisionsConcat(cfg: Config, m: Buckets, a: seq<Event>, b: seq<Event>)
    ensures Decisions(cfg, m, a + b) == Decisions(cfg, m, a) + Decisions(cfg, After(cfg, m, a), b)
    decreases |a|
  {
    if a == [] {
      assert a + b == b;
    } else {
      DecisionsConcat(cfg, Next(cfg, m, a[0]), a[1..], b);
      assert (a + b)[1..] == a[1..] + b;
    }
  }

  lemma {:induction false} AfterConcat(cfg: Config, m: Buckets, a: seq<Event>, b: seq<Event>)
    ensures After(cfg, m, a + b) == After(cfg, After(cfg, m, a), b)
    decreases |a|
  {
    if a == [] {
      assert a + b == b;
    } else {
      AfterConcat(cfg, Next(cfg, m, a[0]), a[1..], b);
      assert (a + b)[1..] == a[1..] + b;
    }
  }

  predicate AllChecks(events: seq<Event>) { forall e :: e in events ==> e.Check? }

  lemma {:induction false} ChecksOnlyConcat(a: seq<Event>, b: seq<Event>)
    requires AllChecks(a)
    ensures ChecksOnly(a + b) == a + ChecksOnly(b)
  {
    if a == [] {
      assert a + b == b;
    } else {
      assert a[0] in a && a == [a[0]] + a[1..];
      ChecksOnlyConcat(a[1..], b);
      assert (a + b)[1..] == a[1..] + b;
    }
  }

  lemma {:induction false} TimedConcat(a: seq<Event>, b: seq<Event>, t: real, u: real, v: real)
    requires Timed(a, t, u) && Timed(b, u, v)
    ensures Timed(a + b, t, v)
    decreases |a|
  {
    if a == [] {
      assert a + b == b;
      TimedEarlier(b, t, u, v);
    } else {
      TimedConcat(a[1..], b, a[0].at, u, v);
      assert (a + b)[1..] == a[1..] + b;
    }
  }

  lemma TimedEarlier(b: seq<Event>, t: real, u: real, v: real)
    requires t <= u && Timed(b, u, v)
    ensures Timed(b, t, v)
  {
  }

  /** How long it takes to earn `tokens`. */
  lemma WaitFor(cfg: Config, tokens: real) returns (secs: real)
    requires cfg.refillRate > 0.0 && tokens >= 0.0
    ensures secs >= 0.0 && Earned(cfg, secs) == tokens
  {
    secs := tokens / cfg.refillRate;
  }

  lemma OneCheck(cfg: Config, m: Buckets, p: Peer, at: real)
    ensures Decisions(cfg, m, [Check(p, at)]) == [Level(cfg, m, p, at) >= 1.0]
    ensures After(cfg, m, [Check(p, at)]) == Checked(cfg, m, p, at) && Timed([Check(p, at)], at, at)
  {
    assert [Check(p, at)][1..] == [];
  }

  /** `p` has less at `n` than at `m`, and the difference can be made to show. */
  predicate Differ(cfg: Config, m: Buckets, n: Buckets, p: Peer, now: real) {
    && cfg.maxTokens >= 1.0 && Sane(cfg, m, now) && Sane(cfg, n, now)
    && Level(cfg, n, p, now) < Level(cfg, m, p, now)
    && (cfg.refillRate > 0.0 || Level(cfg, n, p, now) < 1.0 <= Level(cfg, m, p, now))
  }

  lemma BothSpend(cfg: Config, m: Buckets, n: Buckets, p: Peer, now: real)
    requires cfg.Sound() && Differ(cfg, m, n, p, now) && Level(cfg, n, p, now) >= 1.0
    ensures Differ(cfg, Checked(cfg, m, p, now), Checked(cfg, n, p, now), p, now)
    ensures 0.0 <= Level(cfg, Checked(cfg, n, p, now), p, now) == Level(cfg, n, p, now) - 1.0
  {
    CheckedLevel(cfg, m, p, now, p);
    CheckedLevel(cfg, n, p, now, p);
    NextSane(cfg, m, Check(p, now));
    NextSane(cfg, n, Check(p, now));
  }

  /** Waiting until the richer side has exactly one token. */
  lemma TellLater(cfg: Config, m: Buckets, n: Buckets, p: Peer, now: real) returns (end: real)
    requires cfg.Sound() && Differ(cfg, m, n, p, now) && Level(cfg, m, p, now) < 1.0
    ensures now <= end && Level(cfg, n, p, end) < 1.0 <= Level(cfg, m, p, end)
  {
    var wait := WaitFor(cfg, 1.0 - Level(cfg, m, p, now));
    end := now + wait;
    assert end - now == wait;
    LevelGrows(cfg, n, p, now, end);
    LevelEarned(cfg, m, p, now, end);
  }

  lemma CheckFirst(cfg: Config, m: Buckets, p: Peer, now: real, rest: seq<Event>)
    ensures Decisions(cfg, m, [Check(p, now)] + rest)
            == [Level(cfg, m, p, now) >= 1.0] + Decisions(cfg, Checked(cfg, m, p, now), rest)
  {
    assert ([Check(p, now)] + rest)[1..] == rest;
  }

  lemma SamePrefix(a: seq<bool>, x: seq<bool>, y: seq<bool>)
    requires x != y
    ensures a + x != a + y
  {
    assert (a + x)[|a|..] == x && (a + y)[|a|..] == y;
  }

  lemma CheckBoth(cfg: Config, m: Buckets, n: Buckets, p: Peer, now: real, rest: seq<Event>)
    requires Level(cfg, m, p, now) >= 1.0 && Level(cfg, n, p, now) >= 1.0
    requires Decisions(cfg, Checked(cfg, m, p, now), rest) != Decisions(cfg, Checked(cfg, n, p, now), rest)
    ensures Decisions(cfg, m, [Check(p, now)] + rest) != Decisions(cfg, n, [Check(p, now)] + rest)
  {
    CheckFirst(cfg, m, p, now, rest);
    CheckFirst(cfg, n, p, now, rest);
    SamePrefix([true], Decisions(cfg, Checked(cfg, m, p, now), rest), Decisions(cfg, Checked(cfg, n, p, now), rest));
  }

  /** Two limiters at which `p` has different levels can be told apart by checks alone. */
  lemma {:induction false} TellApart(cfg: Config, m: Buckets, n: Buckets, p: Peer, now: real)
    returns (probe: seq<Event>, end: real)
    requires cfg.Sound() && Differ(cfg, m, n, p, now)
    ensures AllChecks(probe) && Timed(probe, now, end)
    ensures Decisions(cfg, m, probe) != Decisions(cfg, n, probe)
    decreases Level(cfg, n, p, now).Floor
  {
    LevelGrows(cfg, n, p, now, now);
    if Level(cfg, n, p, now) >= 1.0 {
      BothSpend(cfg, m, n, p, now);
      var rest;
      rest, end := TellApart(cfg, Checked(cfg, m, p, now), Checked(cfg, n, p, now), p, now);
      probe := [Check(p, now)] + rest;
      CheckBoth(cfg, m, n, p, now, rest);
      assert probe[1..] == rest;
    } else {
      end := now;
      if Level(cfg, m, p, now) < 1.0 {
        end := TellLater(cfg, m, n, p, now);
      }
      probe := [Check(p, end)];
      OneCheck(cfg, m, p, end);
      OneCheck(cfg, n, p, end);
      TimedEarlier(probe, now, end, end);
    }
  }

  /** Below the cap, a level grows by exactly what is earned. */
  lemma LevelEarned(cfg: Config, m: Buckets, p: Peer, t: real, u: real)
    requires cfg.Sound() && Sane(cfg, m, t) && t <= u && Level(cfg, m, p, t) < cfg.maxTokens
    ensures Level(cfg, m, p, u) == Min(Level(cfg, m, p, t) + Earned(cfg, u - t), cfg.maxTokens)
  {
    EarnedAdds(cfg, t - m[p].lastRefill, u - t);
    assert (t - m[p].lastRefill) + (u - t) == u - m[p].lastRefill;
  }

  lemma {:induction false} AdmittedConcat(cfg: Config, m: Buckets, a: seq<Event>, b: seq<Event>, p: Peer)
    ensures Admitted(cfg, m, a + b, p) == Admitted(cfg, m, a, p) + Admitted(cfg, After(cfg, m, a), b, p)
    decreases |a|
  {
    if a == [] {
      assert a + b == b;
    } else {
      AdmittedConcat(cfg, Next(cfg, m, a[0]), a[1..], b, p);
      assert (a + b)[1..] == a[1..] + b;
    }
  }

  lemma OneMore(cfg: Config, m: Buckets, events: seq<Event>, from: real, last: real, at: real)
    requires AllChecks(events) && Timed(events, from, last) && last <= at
    requires Level(cfg, After(cfg, m, events), 0, at) >= 1.0
    ensures var more := events + [Check(0, at)];
            && AllChecks(more) && Timed(more, from, at)
            && After(cfg, m, more) == Checked(cfg, After(cfg, m, events), 0, at)
            && Admitted(cfg, m, more, 0) == Admitted(cfg, m, events, 0) + 1
  {
    var x, n := [Check(0, at)], After(cfg, m, events);
    OneCheck(cfg, n, 0, at);
    AfterConcat(cfg, m, events, x);
    AdmittedConcat(cfg, m, events, x, 0);
    assert x[1..] == [] && Admitted(cfg, n, x, 0) == 1;
    TimedEarlier(x, last, at, at);
    TimedConcat(events, x, from, last, at);
  }

  /** `k` checks at once, on a full bucket, are all admitted. */
  lemma {:induction false} Burst(cfg: Config, k: nat, t: real) returns (events: seq<Event>)
    requires cfg.Sound() && 1 <= k && k as real <= cfg.maxTokens
    ensures AllChecks(events) && Timed(events, t, t) && Admitted(cfg, map[], events, 0) == k
    ensures After(cfg, map[], events) == map[0 := Bucket(cfg.maxTokens - k as real, t)]
  {
    var first: seq<Event> := [];
    if k > 1 {
      first := Burst(cfg, k - 1, t);
      assert Earned(cfg, t - t) == 0.0;
    }
    OneMore(cfg, map[], first, t, t, t);
    events := first + [Check(0, t)];
  }

  /** What is left when a bucket has been drained as far as it can be at once. */
  function Remainder(cfg: Config): real {
    if cfg.refillRate == 0.0 then cfg.maxTokens - cfg.maxTokens.Floor as real else 0.0
  }

  /** Draining a full bucket from `t` on: everything it held and everything it earned until
      then is spent, up to the remainder. */
  lemma Drained(cfg: Config, t: real) returns (events: seq<Event>, end: real)
    requires cfg.Sound() && cfg.maxTokens >= 1.0
    ensures AllChecks(events) && Timed(events, t, end)
    ensures After(cfg, map[], events) == map[0 := Bucket(Remainder(cfg), end)]
    ensures Admitted(cfg, map[], events, 0) as real == cfg.maxTokens + Earned(cfg, end - t) - Remainder(cfg)
  {
    var k: nat := cfg.maxTokens.Floor;
    var x := cfg.maxTokens - k as real;
    events := Burst(cfg, k, t);
    end := t;
    assert Earned(cfg, t - t) == 0.0;
    if cfg.refillRate > 0.0 {
      var wait := WaitFor(cfg, 1.0 - x);
      end := t + wait;
      assert end - t == wait;
      var m := map[0 := Bucket(x, t)];
      assert Level(cfg, m, 0, end) == 1.0;
      OneMore(cfg, map[], events, t, t, end);
      events := events + [Check(0, end)];
    }
  }

  /** A time for which a drained bucket stays below the cap, and longer than `maxAge`. */
  lemma StaysLow(cfg: Config, maxAge: real) returns (age: real)
    requires cfg.Sound() && cfg.maxTokens >= 1.0 && maxAge >= 0.0 && Earned(cfg, maxAge) < cfg.maxTokens
    ensures age > maxAge && 2.0 * Remainder(cfg) + Earned(cfg, age) < cfg.maxTokens
    ensures cfg.refillRate == 0.0 ==> Earned(cfg, age) == 0.0
  {
    if cfg.refillRate == 0.0 {
      age := maxAge + 1.0;
    } else {
      var full := WaitFor(cfg, cfg.maxTokens);
      age := (maxAge + full) / 2.0;
      HalfWay(cfg, maxAge, full);
    }
  }

  lemma HalfWay(cfg: Config, a: real, b: real)
    requires cfg.refillRate > 0.0 && Earned(cfg, a) < Earned(cfg, b)
    ensures a < (a + b) / 2.0 && Earned(cfg, (a + b) / 2.0) < Earned(cfg, b)
  {
    assert a < b;
    EarnedAdds(cfg, (a + b) / 2.0, (b - a) / 2.0);
    assert (a + b) / 2.0 + (b - a) / 2.0 == b;
  }

  lemma CleanupSplits(cfg: Config, b: Bucket, maxAge: real, age: real)
    requires cfg.Sound() && cfg.maxTokens >= 1.0 && 0.0 <= b.tokens < 1.0
    requires 0.0 <= maxAge < age && b.tokens + Earned(cfg, age) < cfg.maxTokens
    requires cfg.refillRate == 0.0 ==> Earned(cfg, age) == 0.0
    ensures Differ(cfg, map[], map[0 := b], 0, b.lastRefill + age)
    ensures Cleaned(map[0 := b], maxAge, b.lastRefill + age) == map[]
  {
    var now := b.lastRefill + age;
    assert now - b.lastRefill == age;
    assert Level(cfg, map[0 := b], 0, now) == b.tokens + Earned(cfg, age);
  }

  lemma Splice(cfg: Config, drain: seq<Event>, c: Event, probe: seq<Event>, m: Buckets)
    requires AllChecks(drain) && AllChecks(probe) && c.Cleanup?
    requires After(cfg, map[], drain) == m && Next(cfg, m, c) == map[]
    requires Decisions(cfg, map[], probe) != Decisions(cfg, m, probe)
    ensures Decisions(cfg, map[], drain + ([c] + probe)) != Decisions(cfg, map[], ChecksOnly(drain + ([c] + probe)))
  {
    assert ([c] + probe)[1..] == probe;
    DecisionsConcat(cfg, map[], drain, [c] + probe);
    DecisionsConcat(cfg, map[], drain, probe);
    ChecksOnlyConcat(drain, [c] + probe);
    ChecksOnlyConcat(probe, []);
    assert probe + [] == probe && ChecksOnly([]) == [] && ChecksOnly([c] + probe) == ChecksOnly(probe);
    SamePrefix(Decisions(cfg, map[], drain), Decisions(cfg, map[], probe), Decisions(cfg, m, probe));
  }

  lemma SpliceTimed(drain: seq<Event>, c: Event, probe: seq<Event>, t: real, end: real)
    requires Timed(drain, 0.0, t) && t <= c.at && Timed(probe, c.at, end)
    ensures Timed(drain + ([c] + probe), 0.0, end)
  {
    assert ([c] + probe)[1..] == probe;
    TimedConcat(drain, [c] + probe, 0.0, t, end);
  }

  /** The condition is exact: whenever some peer can be admitted at all and the age does not
      cover a full refill, there is a run in which one cleanup changes an answer. */
  lemma HastyCleanupShows(cfg: Config, maxAge: real) returns (events: seq<Event>, end: real)
    requires cfg.Sound() && cfg.maxTokens >= 1.0 && maxAge >= 0.0 && Earned(cfg, maxAge) < cfg.maxTokens
    ensures Timed(events, 0.0, end) && forall e :: e in events && e.Cleanup? ==> e.maxAge == maxAge
    ensures Decisions(cfg, map[], events) != Decisions(cfg, map[], ChecksOnly(events))
  {
    var age := StaysLow(cfg, maxAge);
    var drain, t := Drained(cfg, 0.0);
    var b := Bucket(Remainder(cfg), t);
    CleanupSplits(cfg, b, maxAge, age);
    var c := Cleanup(maxAge, t + age);
    var probe;
    probe, end := TellApart(cfg, map[], map[0 := b], 0, c.at);
    events := drain + ([c] + probe);
    Splice(cfg, drain, c, probe, map[0 := b]);
    SpliceTimed(drain, c, probe, t, end);
  }

  lemma SpliceAdmits(cfg: Config, drain: seq<Event>, c: Event, again: seq<Event>, m: Buckets)
    requires c.Cleanup? && After(cfg, map[], drain) == m && Next(cfg, m, c) == map[]
    ensures Admitted(cfg, map[], drain + ([c] + again), 0)
            == Admitted(cfg, map[], drain, 0) + Admitted(cfg, map[], again, 0)
  {
    assert ([c] + again)[1..] == again;
    AdmittedConcat(cfg, map[], drain, [c] + again, 0);
  }

  lemma EarnedAdds3(cfg: Config, a: real, b: real, c: real)
    ensures Earned(cfg, a + b + c) == Earned(cfg, a) + Earned(cfg, b) + Earned(cfg, c)
  {
    EarnedAdds(cfg, a + b, c);
    EarnedAdds(cfg, a, b);
  }

  lemma HastyCleanupAdmits(cfg: Config, maxAge: real) returns (window: seq<Event>, end: real)
    requires cfg.Sound() && cfg.maxTokens >= 1.0 && maxAge >= 0.0 && Earned(cfg, maxAge) < cfg.maxTokens
    ensures Timed(window, 0.0, end) && forall e :: e in window && e.Cleanup? ==> e.maxAge == maxAge
    ensures Admitted(cfg, map[], window, 0) as real > cfg.maxTokens + Earned(cfg, end)
  {
    var age := StaysLow(cfg, maxAge);
    var drain, t := Drained(cfg, 0.0);
    var b := Bucket(Remainder(cfg), t);
    CleanupSplits(cfg, b, maxAge, age);
    var c := Cleanup(maxAge, t + age);
    var again;
    again, end := Drained(cfg, t + age);
    window := drain + ([c] + again);
    SpliceAdmits(cfg, drain, c, again, map[0 := b]);
    SpliceTimed(drain, c, again, t, end);
    EarnedAdds3(cfg, t - 0.0, age, end - (t + age));
    assert (t - 0.0) + age + (end - (t + age)) == end;
  }

  /** The window bound needs patient cleanups exactly as invisibility does: for every shorter
      age there is a run, from the start, that admits more than the bound. */
  lemma HastyCleanupExceedsBound(cfg: Config, maxAge: real) returns (window: seq<Event>, end: real)
    requires cfg.Sound() && cfg.maxTokens >= 1.0 && maxAge >= 0.0 && Earned(cfg, maxAge) < cfg.maxTokens
    ensures Timed(window, 0.0, end) && forall e :: e in window && e.Cleanup? ==> e.maxAge == maxAge
    ensures !WithinBound(cfg, Admitted(cfg, map[], window, 0), end)
  {
    window, end := HastyCleanupAdmits(cfg, maxAge);
    EarnedIsWithinBound(cfg, Admitted(cfg, map[], window, 0), end);
  }

  /** With less than one token of capacity nothing is ever admitted, so no cleanup shows. */
  lemma {:induction false} NothingAdmitted(
    cfg: Config, m: Buckets, n: Buckets, events: seq<Event>, p: Peer, t: real, u: real)
    requires cfg.Sound() && cfg.maxTokens < 1.0 && Sane(cfg, m, t) && Sane(cfg, n, t) && Timed(events, t, u)
    ensures Admitted(cfg, m, events, p) == 0
    ensures Decisions(cfg, m, events) == Decisions(cfg, n, ChecksOnly(events))
    decreases |events|
  {
    if events != [] {
      var e := events[0];
      NextSane(cfg, m, e);
      if e.Check? {
        NextSane(cfg, n, e);
        assert ChecksOnly(events)[1..] == ChecksOnly(events[1..]);
        NothingAdmitted(cfg, Next(cfg, m, e), Next(cfg, n, e), events[1..], p, e.at, u);
      } else {
        NothingAdmitted(cfg, Next(cfg, m, e), n, events[1..], p, e.at, u);
      }
    }
  }
}
