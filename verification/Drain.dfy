/** Message cascades between any number of membership nodes (crates/membership/src/lib.rs:
    520-576, 638-713, 1727-1929): with no timer firing, every in-flight set of HyParView
    and SWIM messages drains. A handler runs to completion at its delivery, and any packet
    may be lost. */
module Drain {
  import opened Common
  import opened Sets
  import opened Node

  const PASSIVE_RANDOM_WALK_LENGTH := 3
  const ACTIVE_RANDOM_WALK_LENGTH := 6

  datatype Message =
    | Join(peer: Peer, ttl: nat)
    | ForwardJoin(peer: Peer, ttl: nat)
    | Neighbor(peer: Peer, high: bool)
    | NeighborReply(accepted: bool)
    | Shuffle(peer: Peer, peers: seq<Peer>, ttl: nat)
    | ShuffleReply(peers: seq<Peer>)
    | Disconnect
    | Ping
    | Ack
    | PingReq(target: Peer, requester: Peer)
    | AckResponse(target: Peer, requester: Peer)

  datatype Packet = Packet(src: Peer, dst: Peer, msg: Message)

  /** Node `i` of the network is `nodes[i]`; other peers never answer. */
  datatype Host = Host(cfg: Config, data: Data)
  datatype Net = Net(nodes: seq<Host>, flight: seq<Packet>)

  /** What hash order, elapsed time and the transport decide during one handler. */
  datatype Turn = Turn(
    demote: Option<Peer>,       // the peer a commit demotes
    next: Option<Peer>,         // the peer a walk continues at
    order: seq<Peer>,           // iteration order of the fan-out
    sample: seq<Peer>,          // peers in a shuffle reply
    candidate: Option<Peer>,    // the passive peer to promote
    expired: set<(Peer, Peer)>, // indirect-probe entries past their timeout
    sent: bool)                 // whether the send succeeded

  datatype Handled = Handled(data: Data, out: seq<Packet>)

  // ---- Handlers ----

  function AddPassive(cfg: Config, d: Data, p: Peer): Data {
    if p == cfg.local || p in d.active || |d.passive| >= cfg.maxPassive then d
    else d.(passive := d.passive + {p})
  }

  function AddPassives(cfg: Config, d: Data, peers: seq<Peer>): Data
    decreases |peers|
  {
    if peers == [] then d else AddPassives(cfg, AddPassive(cfg, d, peers[0]), peers[1..])
  }

  function FanOut(from: Peer, to: seq<Peer>, m: Message): seq<Packet> {
    if to == [] then [] else [Packet(from, to[0], m)] + FanOut(from, to[1..], m)
  }

  function OnJoin(h: Host, p: Peer, ttl: nat, t: Turn): Handled {
    Handled(Committed(h.cfg, h.data, p, t.demote),
            if ttl > 0 then FanOut(h.cfg.local, t.order, ForwardJoin(p, ttl - 1)) else [])
  }

  predicate Accepts(h: Host, ttl: nat) { ttl == 0 || |h.data.active| < h.cfg.activeDegree }

  function OnForwardJoin(h: Host, p: Peer, ttl: nat, t: Turn): Handled {
    var d := if Accepts(h, ttl) then Committed(h.cfg, h.data, p, t.demote) else h.data;
    var out :=
      if Accepts(h, ttl) then [Packet(h.cfg.local, p, Neighbor(h.cfg.local, |h.data.active| == 0))]
      else if t.next.Some? then [Packet(h.cfg.local, t.next.value, ForwardJoin(p, ttl - 1))]
      else [];
    if out != [] && !t.sent then Handled(d, [])
    else Handled(if ttl == PASSIVE_RANDOM_WALK_LENGTH then AddPassive(h.cfg, d, p) else d, out)
  }

  predicate Admits(h: Host, high: bool) { high || |h.data.active| < h.cfg.maxActive }

  function OnNeighbor(h: Host, p: Peer, high: bool, t: Turn): Handled {
    Handled(if Admits(h, high) then Committed(h.cfg, h.data, p, t.demote) else h.data,
            [Packet(h.cfg.local, p, NeighborReply(Admits(h, high)))])
  }

  function OnNeighborReply(h: Host, p: Peer, accepted: bool): Handled {
    Handled(
      if accepted then Marked(h.data, p, MarkAlive)
      else if p in h.data.active then AddPassive(h.cfg, h.data.(active := h.data.active - {p}), p)
      else h.data, [])
  }

  predicate Forwards(h: Host, ttl: nat) { ttl > 0 && |h.data.active| > 1 }

  function OnShuffle(h: Host, p: Peer, peers: seq<Peer>, ttl: nat, t: Turn): Handled {
    if Forwards(h, ttl) && t.next.Some? then
      Handled(h.data, [Packet(h.cfg.local, t.next.value, Shuffle(p, peers, ttl - 1))])
    else if !t.sent then Handled(h.data, [])
    else Handled(AddPassives(h.cfg, h.data, peers), [Packet(h.cfg.local, p, ShuffleReply(t.sample))])
  }

  function Removed(d: Data, p: Peer): Data {
    if p in d.active then Marked(d.(active := d.active - {p}), p, MarkDead) else d
  }

  function OnDisconnect(h: Host, p: Peer, t: Turn): Handled {
    var d := Removed(h.data, p);
    Handled(
      match t.candidate
      case None => d
      case Some(q) => Committed(h.cfg, d.(passive := d.passive - {q}), q, t.demote), [])
  }

  function OnPing(h: Host, p: Peer): Handled {
    Handled(Marked(h.data, p, MarkAlive), [Packet(h.cfg.local, p, Ack)])
  }

  function Others(pending: set<(Peer, Peer)>, p: Peer): set<(Peer, Peer)> { set x | x in pending && x.0 != p }

  function OnAck(h: Host, p: Peer, t: Turn): Handled {
    var d := Marked(h.data.(probes := h.data.probes - {p}), p, MarkAlive);
    Handled(d.(indirect := Others(d.indirect, p) - t.expired), Responses(h.cfg.local, p, t.order))
  }

  function Responses(from: Peer, target: Peer, to: seq<Peer>): seq<Packet> {
    if to == [] then [] else [Packet(from, to[0], AckResponse(target, to[0]))] + Responses(from, target, to[1..])
  }

  function OnPingReq(h: Host, requester: Peer, target: Peer, t: Turn): Handled {
    var kept := h.data.indirect - t.expired;
    if t.sent then Handled(h.data.(indirect := kept + {(target, requester)}), [Packet(h.cfg.local, target, Ping)])
    else Handled(h.data.(indirect := kept - {(target, requester)}), [])
  }

  function OnAckResponse(h: Host, target: Peer): Handled {
    Handled(Marked(h.data.(probes := h.data.probes - {target}), target, MarkAlive), [])
  }

  function Handle(h: Host, p: Packet, t: Turn): Handled {
    match p.msg
    case Join(q, ttl) => OnJoin(h, q, ttl, t)
    case ForwardJoin(q, ttl) => OnForwardJoin(h, q, ttl, t)
    case Neighbor(q, high) => OnNeighbor(h, q, high, t)
    case NeighborReply(accepted) => OnNeighborReply(h, p.src, accepted)
    case Shuffle(q, peers, ttl) => OnShuffle(h, q, peers, ttl, t)
    case ShuffleReply(peers) => Handled(AddPassives(h.cfg, h.data, peers), [])
    case Disconnect => OnDisconnect(h, p.src, t)
    case Ping => OnPing(h, p.src)
    case Ack => OnAck(h, p.src, t)
    case PingReq(target, requester) => OnPingReq(h, requester, target, t)
    case AckResponse(target, _) => OnAckResponse(h, target)
  }

  // ---- Which decisions are possible ----

  predicate Distinct(s: seq<Peer>) { forall i, j :: 0 <= i < j < |s| ==> s[i] != s[j] }

  ghost predicate Lists(s: seq<Peer>, of: set<Peer>) { Distinct(s) && forall p :: p in s <==> p in of }

  /** `find(|p| p != except)` over a hash set. */
  predicate Finds(next: Option<Peer>, active: set<Peer>, except: Peer) {
    if active - {except} == {} then next.None? else next.Some? && next.value in active - {except}
  }

  function Requesters(pending: set<(Peer, Peer)>, target: Peer): set<Peer> {
    set x | x in pending && x.0 == target :: x.1
  }

  ghost predicate Possible(h: Host, p: Packet, t: Turn) {
    match p.msg
    case Join(q, _) =>
      && IsDemotion(h.cfg, h.data.active, t.demote)
      && Lists(t.order, Committed(h.cfg, h.data, q, t.demote).active - {q})
    case ForwardJoin(q, ttl) =>
      if Accepts(h, ttl) then IsDemotion(h.cfg, h.data.active, t.demote) else Finds(t.next, h.data.active, q)
    case Neighbor(_, high) => Admits(h, high) ==> IsDemotion(h.cfg, h.data.active, t.demote)
    case Shuffle(q, _, ttl) => Forwards(h, ttl) ==> Finds(t.next, h.data.active, q)
    case Disconnect =>
      var d := Removed(h.data, p.src);
      && (if d.passive == {} then t.candidate.None? else t.candidate.Some? && t.candidate.value in d.passive)
      && (t.candidate.Some? ==> IsDemotion(h.cfg, d.active, t.demote))
    case Ack => Lists(t.order, Requesters(h.data.indirect - t.expired, p.src))
    case _ => true
  }

  // ---- Runs ----

  datatype Step = Deliver(i: nat, turn: Turn) | Lose(i: nat)

  ghost predicate Enabled(w: Net, s: Step) {
    && s.i < |w.flight|
    && (s.Deliver? ==>
          var p := w.flight[s.i];
          p.dst < |w.nodes| && Possible(w.nodes[p.dst], p, s.turn))
  }

  function Without(flight: seq<Packet>, i: nat): seq<Packet>
    requires i < |flight|
  {
    flight[..i] + flight[i + 1..]
  }

  ghost function Do(w: Net, s: Step): Net
    requires Enabled(w, s)
  {
    if s.Lose? then w.(flight := Without(w.flight, s.i))
    else
      var p := w.flight[s.i];
      var r := Handle(w.nodes[p.dst], p, s.turn);
      Net(w.nodes[p.dst := w.nodes[p.dst].(data := r.data)], Without(w.flight, s.i) + r.out)
  }

  ghost predicate Next(w: Net, w': Net) { exists s :: Enabled(w, s) && Do(w, s) == w' }

  ghost predicate IsRun(run: seq<Net>) { forall i :: 0 <= i < |run| - 1 ==> Next(run[i], run[i + 1]) }

  // ---- The potential ----

  /** An upper bound on all the deliveries a message can still cause, itself included,
      when no active view is larger than `d`. */
  function Weight(m: Message, d: nat): nat {
    match m
    case Join(_, ttl) => 1 + (if ttl > 0 then d * (2 + ttl) else 0)
    case ForwardJoin(_, ttl) => 3 + ttl
    case Neighbor(_, _) => 2
    case Shuffle(_, _, ttl) => 2 + ttl
    case Ping => 2
    case PingReq(_, _) => 4
    case _ => 1
  }

  function Load(flight: seq<Packet>, d: nat): nat {
    if flight == [] then 0 else Weight(flight[0].msg, d) + Load(flight[1..], d)
  }

  function Pending(nodes: seq<Host>): nat {
    if nodes == [] then 0 else |nodes[0].data.indirect| + Pending(nodes[1..])
  }

  function Potential(w: Net, d: nat): nat { Load(w.flight, d) + Pending(w.nodes) }

  predicate HostBounded(h: Host, d: nat) {
    1 <= d && h.cfg.activeDegree <= d && |h.data.active| <= d
  }

  predicate Bounded(w: Net, d: nat) {
    forall i :: 0 <= i < |w.nodes| ==> HostBounded(w.nodes[i], d)
  }

  // ---- Sums ----

  lemma {:induction false} LoadConcat(a: seq<Packet>, b: seq<Packet>, d: nat)
    ensures Load(a + b, d) == Load(a, d) + Load(b, d)
  {
    if a == [] {
      assert a + b == b;
    } else {
      LoadConcat(a[1..], b, d);
      assert (a + b)[1..] == a[1..] + b;
    }
  }

  lemma LoadWithout(flight: seq<Packet>, i: nat, d: nat)
    requires i < |flight|
    ensures Load(flight, d) == Load(Without(flight, i), d) + Weight(flight[i].msg, d)
  {
    assert flight == flight[..i] + ([flight[i]] + flight[i + 1..]);
    LoadConcat(flight[..i], [flight[i]] + flight[i + 1..], d);
    LoadConcat([flight[i]], flight[i + 1..], d);
    LoadConcat(flight[..i], flight[i + 1..], d);
  }

  lemma {:induction false} PendingUpdate(nodes: seq<Host>, i: nat, h: Host)
    requires i < |nodes|
    ensures Pending(nodes[i := h]) + |nodes[i].data.indirect| == Pending(nodes) + |h.data.indirect|
  {
    if i == 0 {
      assert nodes[i := h][1..] == nodes[1..];
    } else {
      PendingUpdate(nodes[1..], i - 1, h);
      assert nodes[i := h][1..] == nodes[1..][i - 1 := h];
    }
  }

  lemma {:induction false} FanOutLoad(from: Peer, to: seq<Peer>, m: Message, d: nat)
    ensures Load(FanOut(from, to, m), d) == |to| * Weight(m, d)
  {
    if to != [] {
      FanOutLoad(from, to[1..], m, d);
      assert FanOut(from, to, m)[1..] == FanOut(from, to[1..], m);
      assert |to| * Weight(m, d) == Weight(m, d) + (|to| - 1) * Weight(m, d);
    }
  }

  lemma {:induction false} ResponsesLoad(from: Peer, target: Peer, to: seq<Peer>, d: nat)
    ensures Load(Responses(from, target, to), d) == |to|
  {
    if to != [] {
      ResponsesLoad(from, target, to[1..], d);
      assert Responses(from, target, to)[1..] == Responses(from, target, to[1..]);
    }
  }

  lemma {:induction false} ListLength(s: seq<Peer>, of: set<Peer>)
    requires Lists(s, of)
    ensures |s| == |of|
  {
    if s == [] {
      assert of == {};
    } else {
      var rest := of - {s[0]};
      forall p ensures p in s[1..] <==> p in rest {
        if p in s[1..] {
          var i :| 0 <= i < |s[1..]| && s[1..][i] == p;
          assert s[i + 1] == p;
        }
      }
      ListLength(s[1..], rest);
    }
  }

  // ---- One delivery ----

  /** A commit keeps every bound that covers the degree. */
  lemma CommitBounded(cfg: Config, d: Data, p: Peer, demote: Option<Peer>, bound: nat)
    requires IsDemotion(cfg, d.active, demote)
    requires 1 <= bound && cfg.activeDegree <= bound && |d.active| <= bound
    ensures |Committed(cfg, d, p, demote).active| <= bound
  {
    var rest := d.active - (if demote.Some? then {demote.value} else {});
    if demote.Some? {
      DifferenceSize(d.active, {demote.value});
    }
    assert |rest + {p}| <= |rest| + 1;
  }

  lemma {:induction false} PassivesFrame(cfg: Config, d: Data, peers: seq<Peer>)
    ensures AddPassives(cfg, d, peers).active == d.active && AddPassives(cfg, d, peers).indirect == d.indirect
    decreases |peers|
  {
    if peers != [] {
      PassivesFrame(cfg, AddPassive(cfg, d, peers[0]), peers[1..]);
    }
  }

  /** A delivery pays for everything it causes: the new messages and table entries weigh
      less than the delivered message and the entries it used up. */
  predicate Pays(h: Host, p: Packet, r: Handled, d: nat) {
    && |r.data.active| <= d
    && Load(r.out, d) + |r.data.indirect| < Weight(p.msg, d) + |h.data.indirect|
  }

  lemma LoadOne(p: Packet, d: nat)
    ensures Load([p], d) == Weight(p.msg, d)
  {
    assert [p][1..] == [];
  }

  lemma JoinPays(h: Host, p: Packet, t: Turn, d: nat)
    requires HostBounded(h, d) && p.msg.Join? && Possible(h, p, t)
    ensures Pays(h, p, Handle(h, p, t), d)
  {
    var q, ttl := p.msg.peer, p.msg.ttl;
    CommitBounded(h.cfg, h.data, q, t.demote, d);
    var active := Committed(h.cfg, h.data, q, t.demote).active;
    ListLength(t.order, active - {q});
    SubsetSize(active - {q}, active);
    if ttl > 0 {
      FanOutLoad(h.cfg.local, t.order, ForwardJoin(q, ttl - 1), d);
      Multiply(|t.order|, d, 2 + ttl);
    }
  }

  lemma Multiply(a: nat, b: nat, c: nat)
    requires a <= b
    ensures a * c <= b * c
  {
  }

  lemma ForwardJoinPays(h: Host, p: Packet, t: Turn, d: nat)
    requires HostBounded(h, d) && p.msg.ForwardJoin? && Possible(h, p, t)
    ensures Pays(h, p, Handle(h, p, t), d)
  {
    var r := Handle(h, p, t);
    if r.out != [] { LoadOne(r.out[0], d); }
    if Accepts(h, p.msg.ttl) { CommitBounded(h.cfg, h.data, p.msg.peer, t.demote, d); }
  }

  lemma NeighborPays(h: Host, p: Packet, t: Turn, d: nat)
    requires HostBounded(h, d) && p.msg.Neighbor? && Possible(h, p, t)
    ensures Pays(h, p, Handle(h, p, t), d)
  {
    LoadOne(Handle(h, p, t).out[0], d);
    if Admits(h, p.msg.high) { CommitBounded(h.cfg, h.data, p.msg.peer, t.demote, d); }
  }

  lemma NeighborReplyPays(h: Host, p: Packet, t: Turn, d: nat)
    requires HostBounded(h, d) && p.msg.NeighborReply?
    ensures Pays(h, p, Handle(h, p, t), d)
  {
    SubsetSize(h.data.active - {p.src}, h.data.active);
  }

  lemma ShufflePays(h: Host, p: Packet, t: Turn, d: nat)
    requires HostBounded(h, d) && p.msg.Shuffle? && Possible(h, p, t)
    ensures Pays(h, p, Handle(h, p, t), d)
  {
    var r := Handle(h, p, t);
    if r.out != [] { LoadOne(r.out[0], d); }
    PassivesFrame(h.cfg, h.data, p.msg.peers);
  }

  lemma ShuffleReplyPays(h: Host, p: Packet, t: Turn, d: nat)
    requires HostBounded(h, d) && p.msg.ShuffleReply?
    ensures Pays(h, p, Handle(h, p, t), d)
  {
    PassivesFrame(h.cfg, h.data, p.msg.peers);
  }

  lemma DisconnectPays(h: Host, p: Packet, t: Turn, d: nat)
    requires HostBounded(h, d) && p.msg.Disconnect? && Possible(h, p, t)
    ensures Pays(h, p, Handle(h, p, t), d)
  {
    var x := Removed(h.data, p.src);
    SubsetSize(x.active, h.data.active);
    if t.candidate.Some? {
      var q := t.candidate.value;
      CommitBounded(h.cfg, x.(passive := x.passive - {q}), q, t.demote, d);
    }
  }

  lemma PingPays(h: Host, p: Packet, t: Turn, d: nat)
    requires HostBounded(h, d) && p.msg.Ping?
    ensures Pays(h, p, Handle(h, p, t), d)
  {
    LoadOne(Handle(h, p, t).out[0], d);
  }

  lemma PingReqPays(h: Host, p: Packet, t: Turn, d: nat)
    requires HostBounded(h, d) && p.msg.PingReq?
    ensures Pays(h, p, Handle(h, p, t), d)
  {
    var kept := h.data.indirect - t.expired;
    var x := (p.msg.target, p.msg.requester);
    SubsetSize(kept, h.data.indirect);
    SubsetSize(kept - {x}, kept);
    assert |kept + {x}| <= |kept| + 1;
    LoadOne(Packet(h.cfg.local, p.msg.target, Ping), d);
  }

  /** The requesters of one target and the entries of the others share the table. */
  lemma {:induction false} TableSplits(pending: set<(Peer, Peer)>, p: Peer)
    ensures |Requesters(pending, p)| + |Others(pending, p)| <= |pending|
  {
    if pending != {} {
      var x :| x in pending;
      var rest := pending - {x};
      TableSplits(rest, p);
      if x.0 == p {
        assert Requesters(pending, p) == Requesters(rest, p) + {x.1};
        assert Others(pending, p) == Others(rest, p);
      } else {
        assert Requesters(pending, p) == Requesters(rest, p);
        assert Others(pending, p) == Others(rest, p) + {x};
      }
    }
  }

  lemma AckPays(h: Host, p: Packet, t: Turn, d: nat)
    requires HostBounded(h, d) && p.msg.Ack? && Possible(h, p, t)
    ensures Pays(h, p, Handle(h, p, t), d)
  {
    var live := h.data.indirect - t.expired;
    ListLength(t.order, Requesters(live, p.src));
    TableSplits(live, p.src);
    SubsetSize(live, h.data.indirect);
    assert Others(h.data.indirect, p.src) - t.expired == Others(live, p.src);
    ResponsesLoad(h.cfg.local, p.src, t.order, d);
  }

  lemma DeliveryPays(h: Host, p: Packet, t: Turn, d: nat)
    requires HostBounded(h, d) && Possible(h, p, t)
    ensures Pays(h, p, Handle(h, p, t), d)
  {
    match p.msg
    case Join(_, _) => JoinPays(h, p, t, d);
    case ForwardJoin(_, _) => ForwardJoinPays(h, p, t, d);
    case Neighbor(_, _) => NeighborPays(h, p, t, d);
    case NeighborReply(_) => NeighborReplyPays(h, p, t, d);
    case Shuffle(_, _, _) => ShufflePays(h, p, t, d);
    case ShuffleReply(_) => ShuffleReplyPays(h, p, t, d);
    case Disconnect => DisconnectPays(h, p, t, d);
    case Ping => PingPays(h, p, t, d);
    case Ack => AckPays(h, p, t, d);
    case PingReq(_, _) => PingReqPays(h, p, t, d);
    case AckResponse(_, _) =>
  }

  /** The sums before and after a delivery. */
  lemma Descent(rest: nat, weight: nat, out: nat, pending: nat, pending': nat, had: nat, has: nat)
    requires pending' + had == pending + has && out + has < weight + had
    ensures rest + out + pending' < rest + weight + pending
  {
  }

  lemma DeliverDescends(w: Net, i: nat, t: Turn, d: nat)
    requires Bounded(w, d) && Enabled(w, Deliver(i, t))
    ensures Bounded(Do(w, Deliver(i, t)), d) && Potential(Do(w, Deliver(i, t)), d) < Potential(w, d)
  {
    var p := w.flight[i];
    var h, rest := w.nodes[p.dst], Without(w.flight, i);
    var r := Handle(h, p, t);
    var h' := h.(data := r.data);
    DeliveryPays(h, p, t, d);
    LoadWithout(w.flight, i, d);
    LoadConcat(rest, r.out, d);
    PendingUpdate(w.nodes, p.dst, h');
    Descent(Load(rest, d), Weight(p.msg, d), Load(r.out, d), Pending(w.nodes), Pending(w.nodes[p.dst := h']),
            |h.data.indirect|, |r.data.indirect|);
    ReplaceBounded(w.nodes, w.nodes[p.dst := h'], p.dst, d);
  }

  lemma ReplaceBounded(nodes: seq<Host>, nodes': seq<Host>, n: nat, d: nat)
    requires n < |nodes| == |nodes'| && nodes' == nodes[n := nodes'[n]] && HostBounded(nodes'[n], d)
    requires forall i :: 0 <= i < |nodes| ==> HostBounded(nodes[i], d)
    ensures forall i :: 0 <= i < |nodes'| ==> HostBounded(nodes'[i], d)
  {
  }

  lemma StepDescends(w: Net, s: Step, d: nat)
    requires Bounded(w, d) && Enabled(w, s)
    ensures Bounded(Do(w, s), d) && Potential(Do(w, s), d) < Potential(w, d)
  {
    match s
    case Deliver(i, t) => DeliverDescends(w, i, t, d);
    case Lose(i) => LoadWithout(w.flight, i, d);
  }

  // ---- Theorems ----

  lemma {:induction false} RunDescends(run: seq<Net>, i: nat, d: nat)
    requires IsRun(run) && i < |run| && Bounded(run[0], d)
    ensures Bounded(run[i], d) && Potential(run[i], d) + i <= Potential(run[0], d)
  {
    if i > 0 {
      RunDescends(run, i - 1, d);
      assert Next(run[i - 1], run[i - 1 + 1]);
      var s :| Enabled(run[i - 1], s) && Do(run[i - 1], s) == run[i];
      StepDescends(run[i - 1], s, d);
    }
  }

  /** However messages are ordered, delivered or lost, a network whose active views have at
      most `d` members makes at most `Potential` deliveries, and its views stay within `d`. */
  lemma NetworkDrains(run: seq<Net>, d: nat)
    requires IsRun(run) && run != [] && Bounded(run[0], d)
    ensures |run| - 1 <= Potential(run[0], d)
    ensures forall i :: 0 <= i < |run| ==> Bounded(run[i], d)
  {
    RunDescends(run, |run| - 1, d);
    forall i | 0 <= i < |run| ensures Bounded(run[i], d) {
      RunDescends(run, i, d);
    }
  }

  /** The cascade of one JOIN as it is first sent: at most 8 d + 1 deliveries. */
  lemma JoinCascade(run: seq<Net>, src: Peer, dst: Peer, p: Peer, d: nat)
    requires IsRun(run) && run != [] && Bounded(run[0], d)
    requires run[0].flight == [Packet(src, dst, Join(p, ACTIVE_RANDOM_WALK_LENGTH))]
    requires forall i :: 0 <= i < |run[0].nodes| ==> run[0].nodes[i].data.indirect == {}
    ensures |run| - 1 <= 8 * d + 1
  {
    NetworkDrains(run, d);
    LoadOne(run[0].flight[0], d);
    NothingPending(run[0].nodes);
  }

  lemma {:induction false} NothingPending(nodes: seq<Host>)
    requires forall i :: 0 <= i < |nodes| ==> nodes[i].data.indirect == {}
    ensures Pending(nodes) == 0
  {
    if nodes != [] {
      NothingPending(nodes[1..]);
    }
  }

  lemma {:induction false} Listing(of: set<Peer>) returns (s: seq<Peer>)
    ensures Lists(s, of)
  {
    if of == {} {
      s := [];
    } else {
      var p :| p in of;
      var rest := Listing(of - {p});
      s := [p] + rest;
      assert forall q :: q in s <==> q == p || q in rest;
    }
  }

  lemma SomeDemotion(cfg: Config, active: set<Peer>) returns (demote: Option<Peer>)
    ensures IsDemotion(cfg, active, demote)
  {
    demote := None;
    if |active| >= cfg.activeDegree && active != {} {
      var q :| q in active;
      demote := Some(q);
    }
  }

  lemma SomeMember(s: set<Peer>) returns (r: Option<Peer>)
    ensures if s == {} then r.None? else r.Some? && r.value in s
  {
    r := None;
    if s != {} {
      var q :| q in s;
      r := Some(q);
    }
  }

  const IDLE := Turn(None, None, [], [], None, {}, true)

  lemma SomeTurn(h: Host, p: Packet) returns (t: Turn)
    ensures Possible(h, p, t)
  {
    var demote := SomeDemotion(h.cfg, h.data.active);
    match p.msg
    case Join(q, _) =>
      var order := Listing(Committed(h.cfg, h.data, q, demote).active - {q});
      t := IDLE.(demote := demote, order := order);
    case ForwardJoin(q, ttl) =>
      var next := SomeMember(h.data.active - {q});
      t := IDLE.(demote := demote, next := next);
    case Neighbor(_, _) =>
      t := IDLE.(demote := demote);
    case Shuffle(q, _, _) =>
      var next := SomeMember(h.data.active - {q});
      t := IDLE.(next := next);
    case Disconnect =>
      var d := Removed(h.data, p.src);
      var after := SomeDemotion(h.cfg, d.active);
      var candidate := SomeMember(d.passive);
      t := IDLE.(demote := after, candidate := candidate);
    case Ack =>
      var order := Listing(Requesters(h.data.indirect, p.src));
      assert h.data.indirect - {} == h.data.indirect;
      t := IDLE.(order := order);
    case _ =>
      t := IDLE;
  }

  /** No handler can refuse a packet for a node of the network. */
  lemma NoPacketIsStuck(w: Net, i: nat)
    requires i < |w.flight| && w.flight[i].dst < |w.nodes|
    ensures exists t :: Enabled(w, Deliver(i, t))
  {
    var p := w.flight[i];
    var t := SomeTurn(w.nodes[p.dst], p);
    assert Enabled(w, Deliver(i, t));
  }
}
