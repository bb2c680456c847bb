/** SWIM failure detection in time (crates/membership/src/lib.rs:716-773, 826-957). Time is
    in milliseconds; both background scans are punctual: one never fires late, and its whole
    pass happens at that instant. Everything else may happen at any time in between. */
module FailureDetector {
  import opened Common

  type Peer = nat
  type Time = nat

  const SWIM_ACK_TIMEOUT_MS := 500
  const SUSPECT_SCAN_MS := 1000
  const SWIM_SUSPECT_TIMEOUT_MS := 3000

  datatype Status = Status(health: Health, at: Time)

  // ---- The two scans ----

  predicate TimedOut(probes: map<Peer, Time>, now: Time, p: Peer) {
    p in probes && now - probes[p] >= SWIM_ACK_TIMEOUT_MS
  }

  predicate Overdue(states: map<Peer, Status>, now: Time, timeout: nat, p: Peer) {
    p in states && states[p].health == Suspect && now - states[p].at > timeout
  }

  function SuspectOne(e: Status, now: Time): Status {
    if e.health == Alive then Status(Suspect, now) else e
  }

  function SuspectAll(states: map<Peer, Status>, now: Time, s: set<Peer>): map<Peer, Status> {
    map p | p in states :: if p in s then SuspectOne(states[p], now) else states[p]
  }

  function BuryAll(states: map<Peer, Status>, now: Time, s: set<Peer>): map<Peer, Status> {
    map p | p in states :: if p in s then Status(Dead, now) else states[p]
  }

  function TimedOutSet(probes: map<Peer, Time>, now: Time): set<Peer> {
    set p | p in probes && TimedOut(probes, now, p)
  }

  function OverdueSet(states: map<Peer, Status>, now: Time, timeout: nat): set<Peer> {
    set p | p in states && Overdue(states, now, timeout, p)
  }

  // How the tables look while a scan still has the peers `todo` of `all` to handle.

  function Suspecting(states: map<Peer, Status>, now: Time, all: set<Peer>, todo: set<Peer>): map<Peer, Status> {
    SuspectAll(states, now, all - todo)
  }

  function Clearing(probes: map<Peer, Time>, all: set<Peer>, todo: set<Peer>): map<Peer, Time> {
    probes - (all - todo)
  }

  function Burying(states: map<Peer, Status>, now: Time, all: set<Peer>, todo: set<Peer>): map<Peer, Status> {
    BuryAll(states, now, all - todo)
  }

  lemma ScanEnds(states: map<Peer, Status>, probes: map<Peer, Time>, now: Time, all: set<Peer>)
    ensures Suspecting(states, now, all, all) == states == Burying(states, now, all, all)
    ensures Clearing(probes, all, all) == probes && Clearing(probes, all, {}) == probes - all
    ensures Suspecting(states, now, all, {}) == SuspectAll(states, now, all)
    ensures Burying(states, now, all, {}) == BuryAll(states, now, all)
  {
    assert all - {} == all;
  }

  lemma SuspectStep(states: map<Peer, Status>, now: Time, all: set<Peer>, todo: set<Peer>, p: Peer)
    requires p in todo && todo <= all
    ensures Suspecting(states, now, all, todo - {p})
            == var m := Suspecting(states, now, all, todo); if p in m then m[p := SuspectOne(m[p], now)] else m
  {
  }

  lemma ClearStep(probes: map<Peer, Time>, all: set<Peer>, todo: set<Peer>, p: Peer)
    requires p in todo && todo <= all
    ensures Clearing(probes, all, todo - {p}) == Clearing(probes, all, todo) - {p}
  {
  }

  lemma BuryStep(states: map<Peer, Status>, now: Time, all: set<Peer>, todo: set<Peer>, p: Peer)
    requires p in todo && todo <= all && p in states
    ensures Burying(states, now, all, todo - {p}) == Burying(states, now, all, todo)[p := Status(Dead, now)]
  {
  }

  /** The detector's tables and the tasks that change them. */
  class Detector {
    var states: map<Peer, Status>
    var probes: map<Peer, Time>

    /** The peers whose probe has run out, in one pass over the table. */
    method CollectTimedOut(now: Time) returns (peers: set<Peer>)
      ensures peers == TimedOutSet(probes, now)
    {
      peers := {};
      var todo := probes.Keys;
      while todo != {}
        invariant todo <= probes.Keys
        invariant peers == set p | p in probes && p !in todo && TimedOut(probes, now, p)
        decreases |todo|
      {
        var p :| p in todo;
        todo := todo - {p};
        if now - probes[p] >= SWIM_ACK_TIMEOUT_MS {
          peers := peers + {p};
        }
      }
    }

    /** One tick of the probe-timeout task: exactly the timed-out probes leave the table,
        and exactly their Alive peers become Suspect as of now. */
    method ProbeTimeoutScan(now: Time)
      modifies this
      ensures states == SuspectAll(old(states), now, TimedOutSet(old(probes), now))
      ensures probes == old(probes) - TimedOutSet(old(probes), now)
    {
      var all := CollectTimedOut(now);
      ghost var states0, probes0 := states, probes;
      ScanEnds(states, probes, now, all);
      var todo := all;
      while todo != {}
        invariant todo <= all
        invariant states == Suspecting(states0, now, all, todo) && probes == Clearing(probes0, all, todo)
        decreases |todo|
      {
        var p :| p in todo;
        SuspectStep(states0, now, all, todo, p);
        ClearStep(probes0, all, todo, p);
        todo := todo - {p};
        if p in states && states[p].health == Alive {
          states := states[p := Status(Suspect, now)];
        }
        probes := probes - {p};
      }
    }

    method CollectOverdue(now: Time, timeout: nat) returns (dead: set<Peer>)
      ensures dead == OverdueSet(states, now, timeout)
    {
      dead := {};
      var todo := states.Keys;
      while todo != {}
        invariant todo <= states.Keys
        invariant dead == set p | p in states && p !in todo && Overdue(states, now, timeout, p)
        decreases |todo|
      {
        var p :| p in todo;
        todo := todo - {p};
        if states[p].health == Suspect && now - states[p].at > timeout {
          dead := dead + {p};
        }
      }
    }

    /** One tick of the suspect-timeout task: exactly the overdue suspects become Dead. */
    method SuspectTimeoutScan(now: Time, timeout: nat)
      modifies this`states
      ensures states == BuryAll(old(states), now, OverdueSet(old(states), now, timeout))
    {
      var all := CollectOverdue(now, timeout);
      ghost var states0 := states;
      ScanEnds(states, probes, now, all);
      var todo := all;
      while todo != {}
        invariant todo <= all && states == Burying(states0, now, all, todo)
        decreases |todo|
      {
        var p :| p in todo;
        BuryStep(states0, now, all, todo, p);
        todo := todo - {p};
        states := states[p := Status(Dead, now)];
      }
    }
  }

  // ---- Timed runs ----

  /** `probeTick` and `suspectTick` are the next instants at which the scans fire. */
  datatype World = World(
    now: Time, probeTick: Time, suspectTick: Time, timeout: nat,
    states: map<Peer, Status>, probes: map<Peer, Time>)

  datatype Event =
    | Wait(ms: nat)
    | ProbeScan
    | SuspectScan
    | Probe(p: Peer)          // the probe task; keeps an earlier stamp
    | RecordProbe(p: Peer)    // record_probe; overwrites the stamp
    | ClearProbe(p: Peer)
    | MarkAlive(p: Peer)      // every sign of life ends in this
    | MarkSuspect(p: Peer)
    | MarkDead(p: Peer)
    | Forget(p: Peer)         // remove_peer, maintenance of an unconnected peer

  /** The ticks are never in the past and at most one period away. */
  predicate Punctual(w: World) {
    && w.now <= w.probeTick <= w.now + SWIM_ACK_TIMEOUT_MS
    && w.now <= w.suspectTick <= w.now + SUSPECT_SCAN_MS
  }

  /** Time never passes a tick that has not fired. */
  predicate Enabled(w: World, e: Event) {
    match e
    case Wait(ms) => w.now + ms <= w.probeTick && w.now + ms <= w.suspectTick
    case ProbeScan => w.now == w.probeTick
    case SuspectScan => w.now == w.suspectTick
    case Probe(p) => p in w.states && w.states[p].health == Alive
    case _ => true
  }

  function Do(w: World, e: Event): World {
    match e
    case Wait(ms) => w.(now := w.now + ms)
    case ProbeScan =>
      w.(states := SuspectAll(w.states, w.now, TimedOutSet(w.probes, w.now)),
         probes := w.probes - TimedOutSet(w.probes, w.now),
         probeTick := w.now + SWIM_ACK_TIMEOUT_MS)
    case SuspectScan =>
      w.(states := BuryAll(w.states, w.now, OverdueSet(w.states, w.now, w.timeout)),
         suspectTick := w.now + SUSPECT_SCAN_MS)
    case Probe(p) => if p in w.probes then w else w.(probes := w.probes[p := w.now])
    case RecordProbe(p) => w.(probes := w.probes[p := w.now])
    case ClearProbe(p) => w.(probes := w.probes - {p})
    case MarkAlive(p) => w.(states := w.states[p := Status(Alive, w.now)])
    case MarkSuspect(p) => if p in w.states then w.(states := w.states[p := SuspectOne(w.states[p], w.now)]) else w
    case MarkDead(p) => w.(states := w.states[p := Status(Dead, w.now)])
    case Forget(p) => w.(states := w.states - {p}, probes := w.probes - {p})
  }

  function After(w: World, events: seq<Event>): World
    decreases |events|
  {
    if events == [] then w else After(Do(w, events[0]), events[1..])
  }

  predicate IsRun(w: World, events: seq<Event>)
    decreases |events|
  {
    events == [] || (Enabled(w, events[0]) && IsRun(Do(w, events[0]), events[1..]))
  }

  /** Nothing but the two scans and renewed probes concerns `p`. */
  predicate Silent(e: Event, p: Peer) {
    match e
    case Wait(_) => true
    case ProbeScan => true
    case SuspectScan => true
    case Probe(_) => true
    case RecordProbe(q) => q != p
    case ClearProbe(q) => q != p
    case MarkAlive(q) => q != p
    case MarkSuspect(q) => q != p
    case MarkDead(q) => q != p
    case Forget(q) => q != p
  }

  // ---- Detection bound ----

  /** How far the detection of `p`, whose probe is stamped `t`, has got. */
  ghost predicate Stage(w: World, p: Peer, t: Time) {
    && Punctual(w) && t <= w.now && p in w.states
    && match w.states[p].health
       case Alive => p in w.probes && w.probes[p] == t && w.probeTick < t + 2 * SWIM_ACK_TIMEOUT_MS
       case Suspect =>
         && t + SWIM_ACK_TIMEOUT_MS <= w.states[p].at < t + 2 * SWIM_ACK_TIMEOUT_MS
         && w.states[p].at <= w.now && w.suspectTick <= w.states[p].at + w.timeout + SUSPECT_SCAN_MS
       case Dead => w.states[p].at < t + 2 * SWIM_ACK_TIMEOUT_MS + w.timeout + SUSPECT_SCAN_MS
  }

  lemma SilentStep(w: World, e: Event, p: Peer, t: Time)
    requires Enabled(w, e) && Silent(e, p) && Stage(w, p, t)
    ensures Stage(Do(w, e), p, t)
  {
    if e.ProbeScan? {
      assert p in TimedOutSet(w.probes, w.now) <==> TimedOut(w.probes, w.now, p);
    }
    if e.SuspectScan? {
      assert p in OverdueSet(w.states, w.now, w.timeout) <==> Overdue(w.states, w.now, w.timeout, p);
    }
  }

  lemma {:induction false} SilentRun(w: World, events: seq<Event>, p: Peer, t: Time)
    requires IsRun(w, events) && Stage(w, p, t) && forall i :: 0 <= i < |events| ==> Silent(events[i], p)
    ensures Stage(After(w, events), p, t) && After(w, events).timeout == w.timeout
    decreases |events|
  {
    if events != [] {
      SilentStep(w, events[0], p, t);
      SilentRun(Do(w, events[0]), events[1..], p, t);
    }
  }

  /** A tracked Alive peer probed at `t` that gives no sign of life is Suspect from before
      t + 1000 with a stamp in [t + 500, t + 1000), and Dead with a stamp before
      t + timeout + 2000; there is no run in which it is still Alive or Suspect later. */
  lemma DetectionBound(w: World, events: seq<Event>, p: Peer)
    requires Punctual(w) && IsRun(w, events)
    requires p in w.states && w.states[p].health == Alive && p in w.probes && w.probes[p] == w.now
    requires forall i :: 0 <= i < |events| ==> Silent(events[i], p)
    ensures var t, v := w.now, After(w, events);
            && p in v.states
            && (v.states[p].health == Suspect ==> t + 500 <= v.states[p].at < t + 1000)
            && (v.states[p].health == Dead ==> v.states[p].at < t + 2000 + w.timeout)
            && (v.now >= t + 1000 ==> v.states[p].health != Alive)
            && (v.now >= t + 2000 + w.timeout ==> v.states[p].health == Dead)
  {
    SilentRun(w, events, p, w.now);
  }

  /** With the shipped timeout of three seconds: Dead before t + 5000. */
  lemma ShippedDetectionBound(w: World, events: seq<Event>, p: Peer)
    requires Punctual(w) && IsRun(w, events) && w.timeout == SWIM_SUSPECT_TIMEOUT_MS
    requires p in w.states && w.states[p].health == Alive && p in w.probes && w.probes[p] == w.now
    requires forall i :: 0 <= i < |events| ==> Silent(events[i], p)
    requires After(w, events).now >= w.now + 5000
    ensures p in After(w, events).states && After(w, events).states[p].health == Dead
    ensures After(w, events).states[p].at < w.now + 5000
  {
    DetectionBound(w, events, p);
  }

  // ---- No hasty burial ----

  /** The stamp of the suspicion `p` is under, if any. */
  function Current(w: World, p: Peer): Option<Time> {
    if p in w.states && w.states[p].health == Suspect then Some(w.states[p].at) else None
  }

  /** Without an explicit mark_dead, only a scan that finds the suspicion strictly older
      than the timeout makes a peer Dead, whatever else happens. */
  lemma BurialStep(w: World, e: Event, p: Peer)
    requires e != MarkDead(p)
    requires !(p in w.states && w.states[p].health == Dead)
    requires p in Do(w, e).states && Do(w, e).states[p].health == Dead
    ensures e == SuspectScan && Current(w, p).Some?
    ensures Current(w, p).value + w.timeout < w.now && Do(w, e).states[p].at == w.now
  {
    assert e.SuspectScan? ==> (p in OverdueSet(w.states, w.now, w.timeout) <==> Overdue(w.states, w.now, w.timeout, p));
  }

  /** In every run from a world in which `p` is not Dead: if it ends up Dead without an
      explicit mark_dead, it was at some moment a suspect whose stamp is more than the
      timeout before the stamp of its death. */
  lemma {:induction false} DeathIsEarned(w: World, events: seq<Event>, p: Peer) returns (i: nat)
    requires IsRun(w, events) && forall j :: 0 <= j < |events| ==> events[j] != MarkDead(p)
    requires !(p in w.states && w.states[p].health == Dead)
    requires p in After(w, events).states && After(w, events).states[p].health == Dead
    ensures i < |events| && events[i] == SuspectScan
    ensures var v, died := After(w, events[..i]), After(w, events[..i + 1]);
            && Current(v, p).Some? && Current(v, p).value + w.timeout < v.now
            && p in died.states && died.states[p] == Status(Dead, v.now)
    decreases |events|
  {
    var v := Do(w, events[0]);
    assert events[..1][1..] == [];
    if p in v.states && v.states[p].health == Dead {
      BurialStep(w, events[0], p);
      i := 0;
    } else {
      var j := DeathIsEarned(v, events[1..], p);
      i := j + 1;
      assert events[..i] == [events[0]] + events[1..][..j];
      assert events[..i][1..] == events[1..][..j];
      assert events[..i + 1][1..] == events[1..][..j + 1];
    }
  }
}
