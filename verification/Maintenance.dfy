/** The body of the degree-maintenance task (crates/membership/src/lib.rs:2057-2193) as it
    runs, with every lock held: smoothed targets and in-place loops over the views, proved
    to do what the node machine's maintenance step does. */
module Maintenance {
  import opened Common
  import opened Sets
  import opened Node

  // ---- Smoothed targets ----

  function Clamp(x: nat, lo: nat, hi: nat): nat
    requires lo <= hi
  {
    if x < lo then lo else if x > hi then hi else x
  }

  function Smooth(prev: nat, target: nat): nat {
    if target > prev then prev + Min(target - prev, 2) else prev - Min(prev - target, 2)
  }

  function Distance(a: nat, b: nat): nat { if a < b then b - a else a - b }

  /** Two closer, or there. */
  function Closer(distance: nat): nat { if distance < 2 then 0 else distance - 2 }

  /** The two targets that the task carries from tick to tick. `raw` stands for the
      network-size estimate 2 ln N, whatever it is. */
  class Targets {
    const cfg: Config
    var active: nat
    var passive: nat

    ghost predicate Valid()
      reads this
    {
      && cfg.Sound()
      && cfg.activeDegree <= active <= cfg.maxActive
      && 8 * cfg.activeDegree <= passive <= cfg.maxPassive
    }

    constructor (cfg: Config)
      requires cfg.Sound()
      ensures Valid() && this.cfg == cfg && active == cfg.activeDegree && passive == cfg.maxPassive
    {
      this.cfg := cfg;
      active, passive := cfg.activeDegree, cfg.maxPassive;
    }

    method Tick(adaptive: bool, raw: nat)
      requires Valid()
      modifies this
      ensures Valid()
      ensures Distance(active, old(active)) <= 2 && Distance(passive, old(passive)) <= 2
      ensures var goal := if adaptive then Clamp(raw, cfg.activeDegree, cfg.maxActive) else cfg.activeDegree;
              Distance(active, goal) == Closer(Distance(old(active), goal))
      ensures var goal := if adaptive then Clamp(8 * Clamp(raw, cfg.activeDegree, cfg.maxActive),
                                                 8 * cfg.activeDegree, cfg.maxPassive) else cfg.maxPassive;
              Distance(passive, goal) == Closer(Distance(old(passive), goal))
      ensures Job(active, passive, {}).InRange(cfg)
    {
      var targetActive, targetPassive := cfg.activeDegree, cfg.maxPassive;
      if adaptive {
        targetActive := Clamp(raw, cfg.activeDegree, cfg.maxActive);
        targetPassive := Clamp(targetActive * 8, cfg.activeDegree * 8, cfg.maxPassive);
      }
      active := Smooth(active, targetActive);
      passive := Smooth(passive, targetPassive);
    }
  }

  // ---- The pass ----

  function Elems(xs: seq<Peer>): set<Peer> { set x | x in xs }

  lemma ElemsSnoc(xs: seq<Peer>, i: nat)
    requires i < |xs|
    ensures Elems(xs[..i + 1]) == Elems(xs[..i]) + {xs[i]}
  {
    assert xs[..i + 1] == xs[..i] + [xs[i]];
  }

  /** `iter().take(n).collect()`: some `n` elements without repetition, or all of them. */
  method TakeSome(s: set<Peer>, n: nat) returns (r: seq<Peer>)
    ensures Elems(r) <= s && |Elems(r)| == |r| == Min(n, |s|)
  {
    r := [];
    var rest := s;
    while |r| < n && rest != {}
      invariant |r| <= n && Elems(r) + rest == s && Elems(r) !! rest && |Elems(r)| == |r|
      decreases rest
    {
      var p :| p in rest;
      assert Elems(r + [p]) == Elems(r) + {p};
      rest := rest - {p};
      r := r + [p];
    }
    assert |Elems(r) + rest| == |Elems(r)| + |rest|;
  }

  lemma AliveOneMore(states: map<Peer, Entry>, s: set<Peer>, p: Peer)
    ensures AliveAll(states, s)[p := Entry(Alive, None)] == AliveAll(states, s + {p})
  {
  }

  lemma {:induction false} ElemsSize(xs: seq<Peer>)
    ensures |Elems(xs)| <= |xs|
  {
    if xs != [] {
      var n := |xs| - 1;
      ElemsSize(xs[..n]);
      assert xs[..n] + [xs[n]] == xs;
      assert Elems(xs) == Elems(xs[..n]) + {xs[n]};
    }
  }

  /** A sequence with as many elements as places repeats none of them. */
  lemma DistinctSoFar(xs: seq<Peer>, i: nat)
    requires |Elems(xs)| == |xs| && i < |xs|
    ensures xs[i] !in Elems(xs[..i])
  {
    var ys := xs[..i] + xs[i + 1..];
    ElemsSize(ys);
    assert Elems(xs) == Elems(ys) + {xs[i]};
    assert Elems(xs[..i]) <= Elems(ys);
  }

  class Views {
    const cfg: Config
    var probes: map<Peer, Stamp>
    var indirect: set<(Peer, Peer)>
    var states: map<Peer, Entry>
    var active: set<Peer>
    var passive: set<Peer>

    ghost function View(): Data
      reads this
    {
      Data(probes, indirect, states, active, passive, 0, map[])
    }

    /** Disconnected active peers move to the passive view, except the node itself. */
    method DropDisconnected(connected: set<Peer>)
      modifies this`active, this`passive
      ensures active == old(active) * connected
      ensures passive == old(passive) + (old(active) - connected - {cfg.local})
    {
      var todo := active;
      while todo != {}
        invariant todo <= old(active)
        invariant active == (old(active) * connected) + todo
        invariant passive == old(passive) + (old(active) - todo - connected - {cfg.local})
        decreases todo
      {
        var p :| p in todo;
        todo := todo - {p};
        if p !in connected {
          active := active - {p};
          if p != cfg.local {
            passive := passive + {p};
          }
        }
      }
    }

    method PromoteAll(peers: seq<Peer>)
      modifies this`active, this`passive, this`states
      ensures active == old(active) + Elems(peers) && passive == old(passive) - Elems(peers)
      ensures states == AliveAll(old(states), Elems(peers))
    {
      assert states == AliveAll(states, {});
      for i := 0 to |peers|
        invariant active == old(active) + Elems(peers[..i]) && passive == old(passive) - Elems(peers[..i])
        invariant states == AliveAll(old(states), Elems(peers[..i]))
      {
        ElemsSnoc(peers, i);
        AliveOneMore(old(states), Elems(peers[..i]), peers[i]);
        passive := passive - {peers[i]};
        active := active + {peers[i]};
        states := states[peers[i] := Entry(Alive, None)];
      }
      assert peers[..|peers|] == peers;
    }

    method DemoteOne(p: Peer, passiveMax: nat) returns (kept: bool)
      modifies this`active, this`passive
      ensures active == old(active) - {p} && kept == (|old(passive)| < passiveMax)
      ensures passive == if kept then old(passive) + {p} else old(passive)
      ensures p !in old(passive) ==> |passive| == |old(passive)| + if kept then 1 else 0
    {
      active := active - {p};
      kept := |passive| < passiveMax;
      if kept {
        passive := passive + {p};
      }
    }

    /** Demoted peers become passive while there is room. */
    method DemoteAll(peers: seq<Peer>, passiveMax: nat) returns (kept: set<Peer>)
      requires |Elems(peers)| == |peers| && Elems(peers) !! passive
      modifies this`active, this`passive
      ensures kept <= Elems(peers) && |kept| == Min(|peers|, Excess(passiveMax, |old(passive)|))
      ensures active == old(active) - Elems(peers) && passive == old(passive) + kept
    {
      kept := {};
      ghost var before, start := passive, |passive|;
      for i := 0 to |peers|
        invariant kept <= Elems(peers[..i]) && |kept| == Min(i, Excess(passiveMax, start))
        invariant active == old(active) - Elems(peers[..i])
        invariant |passive| == start + |kept|
        invariant forall x :: x in passive <==> x in before || x in kept
      {
        ElemsSnoc(peers, i);
        DistinctSoFar(peers, i);
        assert peers[i] in Elems(peers) && peers[i] !in before && peers[i] !in kept;
        var k := DemoteOne(peers[i], passiveMax);
        kept := if k then kept + {peers[i]} else kept;
      }
      assert peers[..|peers|] == peers;
    }

    method Trim(passiveMax: nat) returns (trimmed: set<Peer>)
      modifies this`passive
      ensures trimmed <= old(passive) && passive == old(passive) - trimmed
      ensures |trimmed| == Excess(|old(passive)|, passiveMax)
    {
      var peers := [];
      if |passive| > passiveMax {
        peers := TakeSome(passive, |passive| - passiveMax);
      }
      trimmed := Elems(peers);
      for i := 0 to |peers|
        invariant passive == old(passive) - Elems(peers[..i])
      {
        ElemsSnoc(peers, i);
        passive := passive - {peers[i]};
      }
      assert peers[..|peers|] == peers;
    }

    /** The three tables and both views are cut down to what is connected. */
    method Disconnect(connected: set<Peer>)
      modifies this
      ensures probes == OnlyProbes(old(probes), connected) && states == OnlyStates(old(states), connected)
      ensures indirect == OnlyPairs(old(indirect), connected)
      ensures active == old(active) * connected
      ensures passive == (old(passive) + (old(active) - connected)) - {cfg.local} - active
    {
      DropDisconnected(connected);
      states := OnlyStates(states, connected);
      probes := OnlyProbes(probes, connected);
      indirect := OnlyPairs(indirect, connected);
      passive := set p | p in passive && p != cfg.local && p !in active;
    }

    /** Promotion: up to the target, from the connected passive peers. */
    method Promote(target: nat, connected: set<Peer>) returns (promoted: set<Peer>)
      modifies this`active, this`passive, this`states
      ensures promoted <= old(passive) * connected
      ensures |promoted| == Min(Excess(target, |old(active)|), |old(passive) * connected|)
      ensures active == old(active) + promoted && passive == old(passive) - promoted
      ensures states == AliveAll(old(states), promoted)
    {
      var peers := [];
      assert Elems(peers) == {} && {} * connected == {};
      if |active| < target && passive != {} {
        peers := TakeSome(passive * connected, target - |active|);
      }
      promoted := Elems(peers);
      PromoteAll(peers);
    }

    /** Demotion of the `count` peers above the maximum. */
    method Demote(count: nat, passiveMax: nat) returns (demoted: set<Peer>, kept: set<Peer>)
      requires active !! passive && count <= |active|
      modifies this`active, this`passive
      ensures demoted <= old(active) && |demoted| == count && kept <= demoted
      ensures |kept| == Min(count, Excess(passiveMax, |old(passive)|))
      ensures active == old(active) - demoted && passive == old(passive) + kept
    {
      var peers := TakeSome(active, count);
      demoted := Elems(peers);
      kept := DemoteAll(peers, passiveMax);
    }

    /** Demotion above the maximum, then trimming. */
    method Shrink(activeCount: nat, passiveMax: nat) returns (demoted: set<Peer>, kept: set<Peer>, trimmed: set<Peer>)
      requires active !! passive && activeCount <= |active|
      modifies this`active, this`passive
      ensures demoted <= old(active) && |demoted| == Excess(activeCount, cfg.maxActive)
      ensures kept <= demoted && |kept| == Min(|demoted|, Excess(passiveMax, |old(passive)|))
      ensures trimmed <= old(passive) + kept && |trimmed| == Excess(|old(passive) + kept|, passiveMax)
      ensures active == old(active) - demoted && passive == old(passive) + kept - trimmed
    {
      demoted, kept := {}, {};
      if activeCount > cfg.maxActive {
        demoted, kept := Demote(activeCount - cfg.maxActive, passiveMax);
      }
      assert passive == old(passive) + kept;
      trimmed := Trim(passiveMax);
    }

    /** Promote, demote and trim; the probe tables are not touched. */
    method Rebalance(job: Job) returns (promoted: set<Peer>, demoted: set<Peer>, kept: set<Peer>, trimmed: set<Peer>)
      requires active !! passive
      modifies this`active, this`passive, this`states
      ensures promoted <= old(passive) * job.connected
      ensures |promoted| == Min(Excess(job.target, |old(active)|), |old(passive) * job.connected|)
      ensures demoted <= old(active) + promoted && |demoted| == Excess(|old(active)|, cfg.maxActive)
      ensures kept <= demoted && |kept| == Min(|demoted|, Excess(job.passiveMax, |old(passive) - promoted|))
      ensures trimmed <= old(passive) - promoted + kept
      ensures |trimmed| == Excess(|old(passive) - promoted + kept|, job.passiveMax)
      ensures active == old(active) + promoted - demoted && passive == old(passive) - promoted + kept - trimmed
      ensures states == AliveAll(old(states), promoted)
    {
      var activeCount := |active|;
      promoted := Promote(job.target, job.connected);
      SubsetSize(old(active), active);
      demoted, kept, trimmed := Shrink(activeCount, job.passiveMax);
    }

    method Maintain(job: Job) returns (ghost c: Choice)
      modifies this
      ensures MaintainChoice(cfg, old(View()), job, c)
      ensures View() == Maintained(cfg, old(View()), job, c)
    {
      ghost var d := View();
      Disconnect(job.connected);
      ghost var d1 := View();
      var promoted, demoted, kept, trimmed := Rebalance(job);
      c := Choice(None, [], [], {}, {}, promoted, demoted, kept, trimmed);
      Assemble(cfg, d, d1, View(), job, c);
    }
  }

  lemma Assemble(cfg: Config, d: Data, d1: Data, d2: Data, job: Job, c: Choice)
    requires d1 == d.(probes := OnlyProbes(d.probes, job.connected), indirect := OnlyPairs(d.indirect, job.connected),
                      states := OnlyStates(d.states, job.connected), active := ConnectedActive(d, job),
                      passive := Candidates(cfg, d, job))
    requires c.promoted <= d1.passive * job.connected
    requires |c.promoted| == Min(Excess(job.target, |d1.active|), |d1.passive * job.connected|)
    requires c.demoted <= d1.active + c.promoted && |c.demoted| == Excess(|d1.active|, cfg.maxActive)
    requires KeepOk(d1.passive - c.promoted, job, c) && TrimOk(d1.passive - c.promoted + c.kept, job, c)
    requires d2 == d1.(states := AliveAll(d1.states, c.promoted), active := d1.active + c.promoted - c.demoted,
                       passive := d1.passive - c.promoted + c.kept - c.trimmed)
    ensures MaintainChoice(cfg, d, job, c) && d2 == Maintained(cfg, d, job, c)
  {
  }
}
