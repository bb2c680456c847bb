/** JOIN (crates/membership/src/lib.rs:84-253, 1322-1376, 1521-1610, 2206-2248): the
    step-wise API with its retry ledger and the loop on top of it, proved to do exactly
    what the 0.5.87 loop did (crates/membership/src/join_budget_tests.rs:256-377) in every
    environment: the same dials, stored addresses, JOIN frames, sleeps, views and result. */
module Join {
  import opened Common
  import opened Node

  type Addr = nat

  /** Attempts per seed-list entry, first backoff and largest backoff in milliseconds. */
  datatype Budget = Budget(attempts: nat, initialMs: nat, maxMs: nat) {
    predicate Sound() { 4 <= initialMs <= maxMs }
  }

  // JOIN_MAX_ATTEMPTS, JOIN_INITIAL_DELAY_MS and JOIN_MAX_DELAY_MS.
  const JOIN_BUDGET := Budget(10, 100, 30000)

  /** Everything observable that a JOIN does, in order. */
  datatype Event =
    | Dialed(addr: Addr)
    | Stored(peer: Peer, addr: Addr)
    | Framed(peer: Peer, sent: bool)
    | Slept(ms: nat)
    | Joined(peer: Peer)

  /** The environment: address parsing, and a transport, random source, hash order, clock
      and rest of the node whose behaviour may depend on everything that happened before. */
  datatype Env = Env(
    budget: Budget,
    parse: string -> Option<Addr>,
    dial: (seq<Event>, Addr) -> Option<Peer>,
    send: (seq<Event>, Peer) -> bool,
    random: seq<Event> -> nat,
    first: (seq<Event>, set<Peer>) -> Peer,
    lag: seq<Event> -> nat,
    drift: (seq<Event>, Data) -> Data)

  /** The node as a JOIN changes it. */
  datatype Session = Session(cfg: Config, trace: seq<Event>, addrs: map<Peer, Addr>, data: Data)

  /** An event, and what the rest of the node does to its data up to the next one. */
  function Log(env: Env, s: Session, e: Event): Session {
    var trace := s.trace + [e];
    s.(trace := trace, data := env.drift(trace, s.data))
  }

  function SatSub(a: nat, b: nat): nat { if a < b then 0 else a - b }

  function Jitter(random: nat, delay: nat): (j: nat)
    requires delay >= 4
    ensures j <= delay / 8
  {
    SatSub(random % (delay / 4), delay / 8)
  }

  function NextDelay(b: Budget, delay: nat): nat { Min(delay * 2, b.maxMs) }

  // ---- The 0.5.87 loop ----

  /** `reference_add_active_0_5_87`, change by change. */
  function ReferenceAddActive(cfg: Config, d: Data, first: Peer, p: Peer): Data {
    var d1 :=
      if |d.active| >= cfg.activeDegree && d.active != {} then
        d.(active := d.active - {first},
           passive := if |d.passive| < cfg.maxPassive then d.passive + {first} else d.passive)
      else d;
    var d2 := d1.(active := d1.active + {p});
    d2.(states := d2.states[p := Entry(Alive, None)])
  }

  datatype Attempt = Attempt(session: Session, delay: nat, connected: bool)

  /** One pass of the inner loop. */
  function ReferenceAttempt(env: Env, s: Session, addr: Addr, delay: nat): Attempt
    requires env.budget.Sound() && env.budget.initialMs <= delay
  {
    var s1 := Log(env, s, Dialed(addr));
    match env.dial(s.trace, addr)
    case None =>
      Attempt(Log(env, s1, Slept(delay + Jitter(env.random(s1.trace), delay))), NextDelay(env.budget, delay), false)
    case Some(p) =>
      var s2 := Log(env, s1, Stored(p, addr)).(addrs := s1.addrs[p := addr]);
      var sent := env.send(s2.trace, p);
      var s3 := Log(env, s2, Framed(p, sent));
      if !sent then Attempt(s3, delay, false)
      else
        var d := ReferenceAddActive(s3.cfg, s3.data, env.first(s3.trace, s3.data.active), p);
        Attempt(Log(env, s3.(data := d), Joined(p)), delay, true)
  }

  /** The inner loop with `tries` passes left. */
  function ReferenceSeed(env: Env, s: Session, addr: Addr, delay: nat, tries: nat): Attempt
    requires env.budget.Sound() && env.budget.initialMs <= delay
    decreases tries
  {
    if tries == 0 then Attempt(s, delay, false)
    else
      var a := ReferenceAttempt(env, s, addr, delay);
      if a.connected then a else ReferenceSeed(env, a.session, addr, a.delay, tries - 1)
  }

  datatype JoinResult = JoinResult(session: Session, ok: bool)

  function ReferenceSeeds(env: Env, s: Session, seeds: seq<string>): JoinResult
    requires env.budget.Sound()
    decreases |seeds|
  {
    if seeds == [] then JoinResult(s, false)
    else match env.parse(seeds[0])
      case None => ReferenceSeeds(env, s, seeds[1..])
      case Some(addr) =>
        var a := ReferenceSeed(env, s, addr, env.budget.initialMs, env.budget.attempts);
        if a.connected then JoinResult(a.session, true) else ReferenceSeeds(env, a.session, seeds[1..])
  }

  function ReferenceJoin(env: Env, s: Session, seeds: seq<string>): JoinResult
    requires env.budget.Sound()
  {
    if seeds == [] then JoinResult(s, true) else ReferenceSeeds(env, s, seeds)
  }

  method ReferenceSeedLoop(env: Env, start: Session, addr: Addr) returns (s: Session, connected: bool)
    requires env.budget.Sound()
    ensures var a := ReferenceSeed(env, start, addr, env.budget.initialMs, env.budget.attempts);
            s == a.session && connected == a.connected
  {
    ghost var entry := ReferenceSeed(env, start, addr, env.budget.initialMs, env.budget.attempts);
    var delay := env.budget.initialMs;
    s, connected := start, false;
    for attempt := 0 to env.budget.attempts
      invariant !connected && env.budget.initialMs <= delay
      invariant entry == ReferenceSeed(env, s, addr, delay, env.budget.attempts - attempt)
    {
      var a := ReferenceAttempt(env, s, addr, delay);
      s, delay, connected := a.session, a.delay, a.connected;
      if connected {
        return;
      }
    }
  }

  /** The loop as it was written. */
  method ReferenceJoinLoop(env: Env, start: Session, seeds: seq<string>) returns (o: JoinResult)
    requires env.budget.Sound()
    ensures o == ReferenceJoin(env, start, seeds)
  {
    if seeds == [] {
      return JoinResult(start, true);
    }
    var s := start;
    var i := 0;
    while i < |seeds|
      invariant i <= |seeds| && ReferenceSeeds(env, s, seeds[i..]) == ReferenceSeeds(env, start, seeds)
    {
      assert seeds[i..][1..] == seeds[i + 1..];
      var parsed := env.parse(seeds[i]);
      if parsed.Some? {
        var connected;
        s, connected := ReferenceSeedLoop(env, s, parsed.value);
        if connected {
          return JoinResult(s, true);
        }
      }
      i := i + 1;
    }
    return JoinResult(s, false);
  }

  // ---- The current code ----

  datatype SeedState = SeedState(attempts: nat, delayMs: nat, lossDelayMs: nat, readyAt: Option<nat>)

  predicate SeedOk(b: Budget, x: SeedState) {
    && x.attempts <= b.attempts
    && b.initialMs <= x.delayMs <= b.maxMs && b.initialMs <= x.lossDelayMs <= b.maxMs
  }

  function Later(a: Option<nat>, b: nat): nat { if a.Some? && a.value > b then a.value else b }

  class JoinLedger {
    const budget: Budget
    var seeds: map<Addr, SeedState>

    ghost predicate Valid()
      reads this
    {
      budget.Sound() && forall a :: a in seeds ==> SeedOk(budget, seeds[a])
    }

    function Seed(a: Addr): SeedState
      reads this
    {
      if a in seeds then seeds[a] else SeedState(0, budget.initialMs, budget.initialMs, None)
    }

    constructor (budget: Budget)
      ensures this.budget == budget && seeds == map[]
    {
      this.budget, seeds := budget, map[];
    }

    /** Start or lengthen the loss cooldown. It changes neither the attempts nor the dial
        backoff, and never makes the seed ready earlier. */
    method RecordLoss(seed: Addr, now: nat, random: nat) returns (ready: nat)
      requires Valid()
      modifies this
      ensures Valid()
      ensures forall a :: a != seed ==> Seed(a) == old(Seed(a))
      ensures var x, y := old(Seed(seed)), Seed(seed);
              && y.attempts == x.attempts && y.delayMs == x.delayMs
              && y.lossDelayMs == Min(2 * x.lossDelayMs, budget.maxMs)
              && y.readyAt == Some(ready) && (x.readyAt.Some? ==> x.readyAt.value <= ready)
              && now + x.lossDelayMs <= ready
              && (ready <= now + x.lossDelayMs + x.lossDelayMs / 8 || Some(ready) == x.readyAt)
    {
      var x := Seed(seed);
      var cooldown := x.lossDelayMs + Jitter(random, x.lossDelayMs);
      ready := Later(x.readyAt, now + cooldown);
      seeds := seeds[seed := x.(lossDelayMs := NextDelay(budget, x.lossDelayMs), readyAt := Some(ready))];
    }
  }

  datatype DialResult =
    | Answered(peer: Peer)
    | Failed(retryAfter: nat, exhausted: bool)
    | Exhausted
    | NotReady(readyAt: nat)

  predicate Dialable(x: SeedState, now: nat) { x.readyAt.Some? ==> x.readyAt.value <= now }

  /** What the 0.5.87 inner loop does from where the ledger stands. */
  function SeedFrom(env: Env, s: Session, addr: Addr, x: SeedState): Attempt
    requires env.budget.Sound() && SeedOk(env.budget, x)
  {
    ReferenceSeed(env, s, addr, x.delayMs, env.budget.attempts - x.attempts)
  }

  /** One pass `a` of that loop, and where the ledger stands after it. */
  lemma PassLeaves(env: Env, s: Session, addr: Addr, x: SeedState, y: SeedState, a: Attempt)
    requires env.budget.Sound() && SeedOk(env.budget, x) && SeedOk(env.budget, y)
    requires a == ReferenceAttempt(env, s, addr, x.delayMs) && y.attempts == x.attempts + 1 && y.delayMs == a.delay
    ensures SeedFrom(env, s, addr, x) == if a.connected then a else SeedFrom(env, a.session, addr, y)
  {
  }

  class Joiner {
    const env: Env
    var session: Session
    var now: nat

    constructor (env: Env, session: Session)
      ensures this.env == env && this.session == session
    {
      this.env, this.session, now := env, session, 0;
    }

    /** Time passes by itself between any two actions. */
    method Tick()
      modifies this`now
      ensures old(now) <= now
    {
      now := now + env.lag(session.trace);
    }

    method JoinDial(ledger: JoinLedger, addr: Addr) returns (r: DialResult)
      requires ledger.Valid() && ledger.budget == env.budget
      modifies this`session, this`now, ledger
      ensures ledger.Valid() && old(now) <= now
      ensures forall a :: a != addr ==> ledger.Seed(a) == old(ledger.Seed(a))
      ensures var x, y := old(ledger.Seed(addr)), ledger.Seed(addr);
              match r
              case Exhausted => x.attempts >= env.budget.attempts && y == x && session == old(session)
              case NotReady(at) =>
                && x.attempts < env.budget.attempts && x.readyAt == Some(at) && at > old(now)
                && y == x && session == old(session)
              case Answered(p) =>
                && x.attempts < env.budget.attempts && y == x.(attempts := x.attempts + 1)
                && old(env.dial(session.trace, addr)) == Some(p)
                && session == Log(env, old(session), Dialed(addr))
              case Failed(retryAfter, exhausted) =>
                && x.attempts < env.budget.attempts && old(env.dial(session.trace, addr)).None?
                && session == Log(env, old(session), Dialed(addr))
                && retryAfter == x.delayMs + Jitter(env.random(session.trace), x.delayMs)
                && y.attempts == x.attempts + 1 && y.delayMs == NextDelay(env.budget, x.delayMs)
                && y.lossDelayMs == x.lossDelayMs
                && y.readyAt == Some(Later(x.readyAt, now + retryAfter))
                && exhausted == (y.attempts >= env.budget.attempts)
      ensures var x := old(ledger.Seed(addr));
              r.NotReady? <==> (x.attempts < env.budget.attempts && x.readyAt.Some? && x.readyAt.value > old(now))
    {
      var x := ledger.Seed(addr);
      ledger.seeds := ledger.seeds[addr := x];
      if x.attempts >= env.budget.attempts {
        return Exhausted;
      }
      if x.readyAt.Some? && x.readyAt.value > now {
        return NotReady(x.readyAt.value);
      }
      ledger.seeds := ledger.seeds[addr := x.(attempts := x.attempts + 1)];
      var answer := env.dial(session.trace, addr);
      session := Log(env, session, Dialed(addr));
      Tick();
      match answer
      case Some(p) => return Answered(p);
      case None =>
        var retryAfter := x.delayMs + Jitter(env.random(session.trace), x.delayMs);
        var ready := Later(x.readyAt, now + retryAfter);
        var y := SeedState(x.attempts + 1, NextDelay(env.budget, x.delayMs), x.lossDelayMs, Some(ready));
        ledger.seeds := ledger.seeds[addr := y];
        return Failed(retryAfter, y.attempts >= env.budget.attempts);
    }

    /** Store the address, send the JOIN frame, commit the peer to the active view. */
    method JoinSend(addr: Addr, p: Peer) returns (joined: bool)
      modifies this`session, this`now
      ensures old(now) <= now
      ensures var s2 := Log(env, old(session), Stored(p, addr)).(addrs := old(session).addrs[p := addr]);
              var s3 := Log(env, s2, Framed(p, joined));
              && joined == env.send(s2.trace, p)
              && session == if !joined then s3 else
                   Log(env, s3.(data := Committed(s3.cfg, s3.data, p, Demotion(env, s3))), Joined(p))
    {
      session := Log(env, session, Stored(p, addr)).(addrs := session.addrs[p := addr]);
      joined := env.send(session.trace, p);
      session := Log(env, session, Framed(p, joined));
      Tick();
      if joined {
        var d := Committed(session.cfg, session.data, p, Demotion(env, session));
        session := Log(env, session.(data := d), Joined(p));
      }
    }

    /** One answered attempt is one connected pass of the old loop. */
    method JoinAnswered(ghost before: Session, addr: Addr, p: Peer, ghost delay: nat) returns (joined: bool)
      requires env.budget.Sound() && env.budget.initialMs <= delay
      requires env.dial(before.trace, addr) == Some(p) && session == Log(env, before, Dialed(addr))
      modifies this`session, this`now
      ensures old(now) <= now
      ensures ReferenceAttempt(env, before, addr, delay) == Attempt(session, delay, joined)
    {
      ghost var s2 := Log(env, session, Stored(p, addr)).(addrs := session.addrs[p := addr]);
      CommitIsReferenceAddActive(env, Log(env, s2, Framed(p, true)), p);
      joined := JoinSend(addr, p);
    }

    /** A failed attempt followed by its sleep is one failed pass of the old loop. */
    method SleepAfterFailure(ghost before: Session, addr: Addr, retryAfter: nat, ghost delay: nat)
      requires env.budget.Sound() && env.budget.initialMs <= delay
      requires env.dial(before.trace, addr).None? && session == Log(env, before, Dialed(addr))
      requires retryAfter == delay + Jitter(env.random(session.trace), delay)
      modifies this`session, this`now
      ensures old(now) + retryAfter <= now
      ensures ReferenceAttempt(env, before, addr, delay) == Attempt(session, NextDelay(env.budget, delay), false)
    {
      session := Log(env, session, Slept(retryAfter));
      now := now + retryAfter;
      Tick();
    }

    /** One pass of the seed loop, once the seed may be dialled: it ends the entry as the
        0.5.87 loop would, or leaves exactly the passes that loop would have left. */
    method JoinPass(ledger: JoinLedger, addr: Addr) returns (done: bool, joined: bool)
      requires ledger.Valid() && ledger.budget == env.budget && Dialable(ledger.Seed(addr), now)
      modifies this`session, this`now, ledger
      ensures ledger.Valid() && Dialable(ledger.Seed(addr), now)
      ensures var x, y := old(ledger.Seed(addr)), ledger.Seed(addr);
              var entry := SeedFrom(env, old(session), addr, x);
              if done then session == entry.session && joined == entry.connected
              else x.attempts < y.attempts && SeedFrom(env, session, addr, y) == entry
    {
      ghost var s, x := session, ledger.Seed(addr);
      var r := JoinDial(ledger, addr);
      match r {
        case Exhausted => return true, false;
        case NotReady(_) => assert false;
        case Answered(p) =>
          joined := JoinAnswered(s, addr, p, x.delayMs);
          PassLeaves(env, s, addr, x, ledger.Seed(addr), Attempt(session, x.delayMs, joined));
          return joined, joined;
        case Failed(retryAfter, _) =>
          SleepAfterFailure(s, addr, retryAfter, x.delayMs);
          PassLeaves(env, s, addr, x, ledger.Seed(addr), Attempt(session, ledger.Seed(addr).delayMs, false));
          return false, false;
      }
    }

    /** The seed loop on a fresh ledger refines the 0.5.87 loop, and never meets NotReady. */
    method JoinSeed(addr: Addr) returns (joined: bool)
      requires env.budget.Sound()
      modifies this`session, this`now
      ensures var a := ReferenceSeed(env, old(session), addr, env.budget.initialMs, env.budget.attempts);
              session == a.session && joined == a.connected
    {
      var ledger := new JoinLedger(env.budget);
      ghost var entry := SeedFrom(env, session, addr, ledger.Seed(addr));
      var done := false;
      joined := false;
      while !done
        invariant ledger.Valid() && fresh(ledger) && ledger.budget == env.budget && Dialable(ledger.Seed(addr), now)
        invariant if done then session == entry.session && joined == entry.connected
                  else SeedFrom(env, session, addr, ledger.Seed(addr)) == entry
        decreases !done, env.budget.attempts - ledger.Seed(addr).attempts
      {
        done, joined := JoinPass(ledger, addr);
      }
    }

    /** The whole JOIN refines the 0.5.87 JOIN. */
    method Join(seeds: seq<string>) returns (ok: bool)
      requires env.budget.Sound()
      modifies this`session, this`now
      ensures JoinResult(session, ok) == ReferenceJoin(env, old(session), seeds)
    {
      if seeds == [] {
        return true;
      }
      var i := 0;
      ghost var start := session;
      while i < |seeds|
        invariant i <= |seeds| && ReferenceSeeds(env, session, seeds[i..]) == ReferenceSeeds(env, start, seeds)
      {
        assert seeds[i..][1..] == seeds[i + 1..];
        var parsed := env.parse(seeds[i]);
        if parsed.Some? {
          var joined := JoinSeed(parsed.value);
          if joined {
            return true;
          }
        }
        i := i + 1;
      }
      return false;
    }
  }

  /** The peer a commit demotes. */
  function Demotion(env: Env, s: Session): Option<Peer> {
    if |s.data.active| >= s.cfg.activeDegree && s.data.active != {}
    then Some(env.first(s.trace, s.data.active)) else None
  }

  /** The all-at-once commit makes the same changes as the old `add_active`. */
  lemma CommitIsReferenceAddActive(env: Env, s: Session, p: Peer)
    ensures Committed(s.cfg, s.data, p, Demotion(env, s))
            == ReferenceAddActive(s.cfg, s.data, env.first(s.trace, s.data.active), p)
  {
    assert s.data.active - {} == s.data.active;
  }

  // ---- The budget, over whole seed-list entries ----

  function Pow2(n: nat): nat { if n == 0 then 1 else 2 * Pow2(n - 1) }

  /** The backoff after `failures` failed dials of an entry. */
  function Backoff(b: Budget, failures: nat): nat { Min(b.initialMs * Pow2(failures), b.maxMs) }

  lemma BackoffDoubles(b: Budget, failures: nat)
    requires b.Sound()
    ensures NextDelay(b, Backoff(b, failures)) == Backoff(b, failures + 1)
    ensures b.initialMs <= Backoff(b, failures) <= b.maxMs
  {
    assert Pow2(failures) >= 1 by { Pow2Positive(failures); }
    assert b.initialMs * Pow2(failures) >= b.initialMs;
    assert b.initialMs * Pow2(failures + 1) == 2 * (b.initialMs * Pow2(failures));
  }

  lemma {:induction false} Pow2Positive(n: nat)
    ensures Pow2(n) >= 1
  {
    if n > 0 { Pow2Positive(n - 1); }
  }

  function Dials(ev: seq<Event>): nat {
    if ev == [] then 0 else (if ev[0].Dialed? then 1 else 0) + Dials(ev[1..])
  }

  /** Every sleep is the doubling backoff, capped, plus at most an eighth of it. */
  predicate SleepsFollow(b: Budget, ev: seq<Event>, failures: nat) {
    if ev == [] then true
    else if ev[0].Slept? then
      Backoff(b, failures) <= ev[0].ms <= Backoff(b, failures) + Backoff(b, failures) / 8
      && SleepsFollow(b, ev[1..], failures + 1)
    else SleepsFollow(b, ev[1..], failures)
  }

  lemma Prefixed(b: Budget, x: Event, ev: seq<Event>, failures: nat)
    ensures Dials([x] + ev) == (if x.Dialed? then 1 else 0) + Dials(ev)
    ensures !x.Slept? ==> SleepsFollow(b, [x] + ev, failures) == SleepsFollow(b, ev, failures)
    ensures x.Slept? && Backoff(b, failures) <= x.ms <= Backoff(b, failures) + Backoff(b, failures) / 8 ==>
              SleepsFollow(b, [x] + ev, failures) == SleepsFollow(b, ev, failures + 1)
  {
    assert ([x] + ev)[1..] == ev;
  }

  lemma Prefixed3(b: Budget, x: Event, y: Event, z: Event, ev: seq<Event>, failures: nat)
    requires x.Dialed? && !y.Slept? && !z.Slept? && !y.Dialed? && !z.Dialed?
    ensures Dials([x, y, z] + ev) == 1 + Dials(ev)
    ensures SleepsFollow(b, [x, y, z] + ev, failures) == SleepsFollow(b, ev, failures)
  {
    Prefixed(b, z, ev, failures);
    Prefixed(b, y, [z] + ev, failures);
    Prefixed(b, x, [y] + ([z] + ev), failures);
    assert [x, y, z] + ev == [x] + ([y] + ([z] + ev));
  }

  predicate EndsJoined(ev: seq<Event>) { ev != [] && ev[|ev| - 1].Joined? }

  function Sleeps(env: Env, s: Session, addr: Addr): nat { if env.dial(s.trace, addr).None? then 1 else 0 }

  /** The events of one pass of the loop. */
  function PassOf(env: Env, s: Session, addr: Addr, delay: nat): seq<Event>
    requires delay >= 4
  {
    var trace := s.trace + [Dialed(addr)];
    match env.dial(s.trace, addr)
    case None => [Dialed(addr), Slept(delay + Jitter(env.random(trace), delay))]
    case Some(p) =>
      var sent := env.send(trace + [Stored(p, addr)], p);
      [Dialed(addr), Stored(p, addr), Framed(p, sent)] + if sent then [Joined(p)] else []
  }

  lemma PassTrace(env: Env, s: Session, addr: Addr, delay: nat)
    requires env.budget.Sound() && env.budget.initialMs <= delay
    ensures var a, head := ReferenceAttempt(env, s, addr, delay), PassOf(env, s, addr, delay);
            a.session.trace == s.trace + head && (EndsJoined(head) <==> a.connected)
  {
  }

  lemma FailedPass(b: Budget, addr: Addr, ms: nat, ev: seq<Event>, failures: nat)
    requires Backoff(b, failures) <= ms <= Backoff(b, failures) + Backoff(b, failures) / 8
    requires SleepsFollow(b, ev, failures + 1)
    ensures Dials([Dialed(addr), Slept(ms)] + ev) == 1 + Dials(ev)
    ensures SleepsFollow(b, [Dialed(addr), Slept(ms)] + ev, failures)
  {
    Prefixed(b, Slept(ms), ev, failures);
    Prefixed(b, Dialed(addr), [Slept(ms)] + ev, failures);
    assert [Dialed(addr), Slept(ms)] + ev == [Dialed(addr)] + ([Slept(ms)] + ev);
  }

  lemma AnsweredPass(b: Budget, addr: Addr, p: Peer, sent: bool, ev: seq<Event>, failures: nat)
    requires SleepsFollow(b, ev, failures)
    ensures var head := [Dialed(addr), Stored(p, addr), Framed(p, sent)] + if sent then [Joined(p)] else [];
            Dials(head + ev) == 1 + Dials(ev) && SleepsFollow(b, head + ev, failures)
  {
    var start := [Dialed(addr), Stored(p, addr), Framed(p, sent)];
    var tail := if sent then [Joined(p)] + ev else ev;
    Prefixed(b, Joined(p), ev, failures);
    Prefixed3(b, Dialed(addr), Stored(p, addr), Framed(p, sent), tail, failures);
    assert start + (if sent then [Joined(p)] else []) + ev == start + tail;
  }

  /** One pass of the loop in front of any later events. */
  lemma PassThen(env: Env, s: Session, addr: Addr, failures: nat, ev: seq<Event>)
    requires env.budget.Sound() && env.budget.initialMs <= Backoff(env.budget, failures)
    requires SleepsFollow(env.budget, ev, failures + Sleeps(env, s, addr))
    ensures var head := PassOf(env, s, addr, Backoff(env.budget, failures));
            Dials(head + ev) == 1 + Dials(ev) && SleepsFollow(env.budget, head + ev, failures)
  {
    var b, delay, trace := env.budget, Backoff(env.budget, failures), s.trace + [Dialed(addr)];
    match env.dial(s.trace, addr)
    case None => FailedPass(b, addr, delay + Jitter(env.random(trace), delay), ev, failures);
    case Some(p) => AnsweredPass(b, addr, p, env.send(trace + [Stored(p, addr)], p), ev, failures);
  }

  lemma EndOfConcat(head: seq<Event>, rest: seq<Event>)
    ensures EndsJoined(head + rest) <==> if rest == [] then EndsJoined(head) else EndsJoined(rest)
  {
    assert rest == [] ==> head + rest == head;
  }

  lemma AttemptDelay(env: Env, s: Session, addr: Addr, failures: nat)
    requires env.budget.Sound() && env.budget.initialMs <= Backoff(env.budget, failures)
    ensures ReferenceAttempt(env, s, addr, Backoff(env.budget, failures)).delay
            == Backoff(env.budget, failures + Sleeps(env, s, addr))
    ensures env.budget.initialMs <= Backoff(env.budget, failures + Sleeps(env, s, addr))
  {
    BackoffDoubles(env.budget, failures);
    BackoffDoubles(env.budget, failures + 1);
  }

  /** One entry of the seed list makes at most `tries` dials, all of them unless it connects, and
      its sleeps follow the capped doubling backoff. It connects exactly when its last event is
      a completed JOIN. */
  lemma {:induction false} SeedStaysInBudget(env: Env, s: Session, addr: Addr, failures: nat, tries: nat)
    returns (ev: seq<Event>)
    requires env.budget.Sound() && env.budget.initialMs <= Backoff(env.budget, failures)
    ensures ReferenceSeed(env, s, addr, Backoff(env.budget, failures), tries).session.trace == s.trace + ev
    ensures Dials(ev) <= tries && SleepsFollow(env.budget, ev, failures)
    ensures var connected := ReferenceSeed(env, s, addr, Backoff(env.budget, failures), tries).connected;
            (connected <==> EndsJoined(ev)) && (!connected ==> Dials(ev) == tries)
    decreases tries
  {
    if tries == 0 {
      ev := [];
    } else {
      AttemptDelay(env, s, addr, failures);
      var a := ReferenceAttempt(env, s, addr, Backoff(env.budget, failures));
      var rest := [];
      if !a.connected {
        rest := SeedStaysInBudget(env, a.session, addr, failures + Sleeps(env, s, addr), tries - 1);
      }
      PassTrace(env, s, addr, Backoff(env.budget, failures));
      PassThen(env, s, addr, failures, rest);
      var head := PassOf(env, s, addr, Backoff(env.budget, failures));
      ev := head + rest;
      EndOfConcat(head, rest);
      assert s.trace + ev == (s.trace + head) + rest;
    }
  }

  /** With the shipped constants: at most ten dials per parsed entry, exactly ten if none leads to
      a completed JOIN, and the sleep after
      the k-th failure is min(100 * 2^k, 30000) ms plus at most an eighth. */
  lemma EntryBudget(env: Env, s: Session, addr: Addr) returns (ev: seq<Event>)
    requires env.budget == JOIN_BUDGET
    ensures ReferenceSeed(env, s, addr, 100, 10).session.trace == s.trace + ev
    ensures Dials(ev) <= 10 && SleepsFollow(JOIN_BUDGET, ev, 0) && (!EndsJoined(ev) ==> Dials(ev) == 10)
  {
    assert Backoff(JOIN_BUDGET, 0) == 100;
    var tries: nat := env.budget.attempts;
    ev := SeedStaysInBudget(env, s, addr, 0, tries);
  }
}
