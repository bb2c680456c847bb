/** Any number of replicas of the OR-Set, each with its anti-entropy manager
    (crates/crdt-sync/src/lib.rs:536-709), exchanging whole states and deltas. A delta may
    be taken from any retained version and merged by any replica, also by one that lacks
    what came before it. Messages may be lost, repeated and reordered: once sent they stay
    available for delivery for ever.

    Each replica carries two ghost records. `got` is the set of updates that reached it,
    against which visibility and convergence are stated in every run. `seen` is the set of
    operations its sources had absorbed; it describes the replica as long as `exact` holds,
    that is, as long as every merged delta found its base covered. */
module Replication {
  import opened Common
  import opened OrSetSpec

  datatype Op = AddOp(pair: Pair) | RemoveOp(observed: set<Pair>)

  /** `hist` is the sequence of states by local version, `peers` the manager's table of
      delivered local versions. */
  datatype Replica = Replica(
    orset: OrVal, hist: seq<Core>, got: set<Core>, seen: set<nat>, exact: bool, peers: map<Peer, nat>)

  /** A (peer, version) row the sync loop has read but not yet served. */
  datatype Plan = Plan(src: Peer, dst: Peer, base: nat)

  /** The delta of `src` from its version `base` to its version `sent`. */
  datatype Flight = Flight(src: Peer, base: nat, sent: nat, delta: Core, ops: set<nat>, exact: bool)
  datatype Snapshot = Snapshot(core: Core, ops: set<nat>, exact: bool)

  type Replicas = map<Peer, Replica>

  datatype World = World(
    reps: Replicas,
    ops: seq<Op>,
    plans: set<Plan>,
    flights: set<Flight>,
    landed: set<(Flight, Peer)>,
    snaps: set<Snapshot>)

  datatype Step =
    | Issue(i: Peer, elem: Element, num: nat)
    | Erase(i: Peer, elem: Element)
    | Publish(i: Peer)
    | Absorb(i: Peer, snap: Snapshot)
    | CompactLog(i: Peer, keep: nat)
    | AddPeer(i: Peer, j: Peer)
    | RemovePeer(i: Peer, j: Peer)
    | ReadRow(i: Peer, j: Peer)
    | Extract(i: Peer, since: nat)
    | Deliver(flight: Flight, i: Peer)
    | Acknowledge(plan: Plan, flight: Flight)

  // ---- Steps ----

  /** `num` is above every sequence number that `i` retains for itself. */
  ghost predicate Unissued(reps: Replicas, i: Peer, num: nat)
    requires i in reps
  {
    forall k :: k in SeqsOf(reps[i].orset.core.Known(), i) ==> k < num
  }

  ghost predicate Enabled(w: World, step: Step) {
    match step
    case Issue(i, _, num) => i in w.reps && Unissued(w.reps, i, num)
    case Erase(i, _) => i in w.reps
    case Publish(i) => i in w.reps
    case Absorb(i, snap) => i in w.reps && snap in w.snaps
    case CompactLog(i, _) => i in w.reps
    case AddPeer(i, j) => i in w.reps && j in w.reps
    case RemovePeer(i, j) => i in w.reps
    case ReadRow(i, j) => i in w.reps && j in w.reps[i].peers
    case Extract(i, _) => i in w.reps
    case Deliver(f, i) => f in w.flights && f.src in w.reps && f.base < |w.reps[f.src].hist| && i in w.reps
    case Acknowledge(plan, f) =>
      && plan in w.plans && (f, plan.dst) in w.landed
      && f.src == plan.src && f.base == plan.base && plan.src in w.reps
  }

  /** Replica after its set moved to `s` by the update `d`, which brings `ops` if `whole`. */
  function Moved(r: Replica, s: OrVal, d: Core, ops: set<nat>, whole: bool): Replica {
    r.(orset := s, hist := Extend(r.hist, r.orset, s), got := r.got + {d}, seen := r.seen + ops,
       exact := r.exact && whole)
  }

  function AfterIssue(w: World, i: Peer, p: Pair): World
    requires i in w.reps
  {
    w.(reps := w.reps[i := Moved(w.reps[i], Add(w.reps[i].orset, p), Core({p}, {}), {|w.ops|}, true)],
       ops := w.ops + [AddOp(p)])
  }

  function AfterErase(w: World, i: Peer, e: Element): World
    requires i in w.reps
  {
    var gone := TagsOf(w.reps[i].orset.core.live, e);
    w.(reps := w.reps[i := Moved(w.reps[i], Remove(w.reps[i].orset, e), Core({}, gone), {|w.ops|}, true)],
       ops := w.ops + [RemoveOp(gone)])
  }

  function AfterMerge(w: World, i: Peer, d: Core, ops: set<nat>, whole: bool): World
    requires i in w.reps
  {
    w.(reps := w.reps[i := Moved(w.reps[i], Apply(w.reps[i].orset, d), d, ops, whole)])
  }

  function AfterCompact(w: World, i: Peer, keep: nat): World
    requires i in w.reps
  {
    w.(reps := w.reps[i := w.reps[i].(orset := Compact(w.reps[i].orset, keep))])
  }

  /** `entry(peer).or_insert(0)` on the delivered-version table. */
  function AfterRegister(w: World, i: Peer, j: Peer): World
    requires i in w.reps
  {
    if j in w.reps[i].peers then w
    else w.(reps := w.reps[i := w.reps[i].(peers := w.reps[i].peers[j := 0])])
  }

  function AfterRemovePeer(w: World, i: Peer, j: Peer): World
    requires i in w.reps
  {
    w.(reps := w.reps[i := w.reps[i].(peers := w.reps[i].peers - {j})])
  }

  function AfterExtract(w: World, i: Peer, since: nat): World
    requires i in w.reps
  {
    var r := w.reps[i];
    match Delta(r.orset, since)
    case None => w
    case Some(d) => w.(flights := w.flights + {Flight(i, since, r.orset.version, d, r.seen, r.exact)})
  }

  /** The replica and the delta together cover the delta's base. */
  predicate Whole(reps: Replicas, f: Flight, i: Peer)
    requires i in reps && f.src in reps && f.base < |reps[f.src].hist|
  {
    Covers(reps[i].orset.core, f.delta, reps[f.src].hist[f.base])
  }

  /** The merge of `AntiEntropyManager::apply_delta` at any replica. The manager then
      registers the sender under another lock: that is an AddPeer step. The remote version
      number is not used. */
  function AfterDeliver(w: World, f: Flight, i: Peer): World
    requires i in w.reps && f.src in w.reps && f.base < |w.reps[f.src].hist|
  {
    AfterMerge(w, i, f.delta, f.ops, f.exact && Whole(w.reps, f, i)).(landed := w.landed + {(f, i)})
  }

  /** After a successful callback, and in `update_peer_version`. */
  function AfterAcknowledge(w: World, plan: Plan, f: Flight): World
    requires plan.src in w.reps
  {
    var r := w.reps[plan.src];
    w.(reps := w.reps[plan.src := r.(peers := r.peers[plan.dst := f.sent])])
  }

  ghost function Do(w: World, step: Step): World
    requires Enabled(w, step)
  {
    match step
    case Issue(i, e, num) => AfterIssue(w, i, Pair(e, Tag(i, num)))
    case Erase(i, e) => AfterErase(w, i, e)
    case Publish(i) =>
      w.(snaps := w.snaps + {Snapshot(w.reps[i].orset.core, w.reps[i].seen, w.reps[i].exact)})
    case Absorb(i, snap) => AfterMerge(w, i, snap.core, snap.ops, snap.exact)
    case CompactLog(i, keep) => AfterCompact(w, i, keep)
    case AddPeer(i, j) => AfterRegister(w, i, j)
    case RemovePeer(i, j) => AfterRemovePeer(w, i, j)
    case ReadRow(i, j) => w.(plans := w.plans + {Plan(i, j, w.reps[i].peers[j])})
    case Extract(i, since) => AfterExtract(w, i, since)
    case Deliver(f, i) => AfterDeliver(w, f, i)
    case Acknowledge(plan, f) => AfterAcknowledge(w, plan, f)
  }

  // ---- What a replica is, by the updates and by the operations that reached it ----

  /** The pairs some update in `got` added. */
  ghost function LiveIn(got: set<Core>): set<Pair> { set d, p | d in got && p in d.live :: p }

  /** The pairs some update in `got` tombstoned. */
  ghost function DeadIn(got: set<Core>): set<Pair> { set d, p | d in got && p in d.dead :: p }

  ghost predicate Reached(got: set<Core>, s: Core) {
    s.dead == DeadIn(got) && s.live == LiveIn(got) - DeadIn(got)
  }

  ghost function Added(ops: seq<Op>, seen: set<nat>): set<Pair> {
    set k | k in seen && k < |ops| && ops[k].AddOp? :: ops[k].pair
  }

  ghost function Observed(ops: seq<Op>, seen: set<nat>): set<Pair> {
    set k, p | k in seen && k < |ops| && ops[k].RemoveOp? && p in ops[k].observed :: p
  }

  /** The state is what the OR-Set specification assigns to the operations in `seen`. */
  ghost predicate Absorbed(ops: seq<Op>, seen: set<nat>, s: Core) {
    && (forall k :: k in seen ==> k < |ops|)
    && s.Disjoint() && s.Known() == Added(ops, seen) && s.dead == Observed(ops, seen)
  }

  ghost predicate WasAdded(ops: seq<Op>, p: Pair) { exists k :: 0 <= k < |ops| && ops[k] == AddOp(p) }

  ghost predicate WasRemoved(ops: seq<Op>, p: Pair) {
    exists k :: 0 <= k < |ops| && ops[k].RemoveOp? && p in ops[k].observed
  }

  /** Nothing is known that no add issued, nothing is dead that no remove observed. */
  ghost predicate FromOps(ops: seq<Op>, s: Core) {
    (forall p :: p in s.Known() ==> WasAdded(ops, p)) && (forall p :: p in s.dead ==> WasRemoved(ops, p))
  }

  // ---- The invariant ----

  /** Version `v` of `i` is dominated by the state of `j`. */
  ghost predicate Mark(reps: Replicas, i: Peer, j: Peer, v: nat) {
    && i in reps && j in reps && v < |reps[i].hist|
    && Leq(reps[i].hist[v], reps[j].orset.core)
  }

  /** Everything about one replica but its table. */
  ghost predicate StateInv(ops: seq<Op>, r: Replica) {
    && Chronicle(r.orset, r.hist)
    && Reached(r.got, r.orset.core)
    && FromOps(ops, r.orset.core)
    && (r.exact ==> Absorbed(ops, r.seen, r.orset.core))
  }

  ghost predicate TableInv(reps: Replicas, i: Peer)
    requires i in reps
  {
    forall j :: j in reps[i].peers ==> Mark(reps, i, j, reps[i].peers[j])
  }

  ghost predicate PlanInv(reps: Replicas, p: Plan) { Mark(reps, p.src, p.dst, p.base) }

  ghost predicate FlightInv(reps: Replicas, ops: seq<Op>, f: Flight) {
    && f.src in reps && f.base < |reps[f.src].hist| && f.sent < |reps[f.src].hist|
    && reps[f.src].hist[f.sent].Disjoint()
    && Spans(reps[f.src].hist[f.base], f.delta, reps[f.src].hist[f.sent])
    && FromOps(ops, f.delta)
    && (f.exact ==> Absorbed(ops, f.ops, reps[f.src].hist[f.sent]))
  }

  ghost predicate LandedInv(reps: Replicas, f: Flight, i: Peer) {
    i in reps && Leq(f.delta, reps[i].orset.core)
  }

  ghost predicate SnapInv(ops: seq<Op>, m: Snapshot) {
    m.core.Disjoint() && FromOps(ops, m.core) && (m.exact ==> Absorbed(ops, m.ops, m.core))
  }

  ghost predicate TagInv(reps: Replicas, ops: seq<Op>) {
    && (forall k | 0 <= k < |ops| && ops[k].AddOp? ::
          var p := ops[k].pair;
          p.tag.peer in reps && p in reps[p.tag.peer].orset.core.Known())
    && (forall k, l | 0 <= k < l < |ops| && ops[k].AddOp? && ops[l].AddOp? ::
          ops[k].pair.tag != ops[l].pair.tag)
  }

  ghost predicate MessagesInv(w: World) {
    && (forall p :: p in w.plans ==> PlanInv(w.reps, p))
    && (forall f :: f in w.flights ==> FlightInv(w.reps, w.ops, f))
    && (forall x :: x in w.landed ==> x.0 in w.flights && LandedInv(w.reps, x.0, x.1))
    && (forall m :: m in w.snaps ==> SnapInv(w.ops, m))
  }

  ghost predicate StatesInv(reps: Replicas, ops: seq<Op>) {
    forall i :: i in reps ==> StateInv(ops, reps[i])
  }

  ghost predicate TablesInv(reps: Replicas) {
    forall i :: i in reps ==> TableInv(reps, i)
  }

  ghost predicate Inv(w: World) {
    StatesInv(w.reps, w.ops) && TablesInv(w.reps) && MessagesInv(w) && TagInv(w.reps, w.ops)
  }

  const EMPTY := Replica(NEW, [BOTTOM], {}, {}, true, map[])

  ghost predicate Init(w: World) {
    && (forall i :: i in w.reps ==> w.reps[i] == EMPTY)
    && w.ops == [] && w.plans == {} && w.flights == {} && w.landed == {} && w.snaps == {}
  }

  // ---- Everything that was promised stays promised: replicas only grow ----

  ghost predicate ReplicaGrows(r: Replica, r': Replica) {
    && r.hist <= r'.hist && Leq(r.orset.core, r'.orset.core)
  }

  ghost predicate Grows(reps: Replicas, reps': Replicas) {
    reps.Keys == reps'.Keys && forall i :: i in reps ==> ReplicaGrows(reps[i], reps'[i])
  }

  lemma AbsorbedGrows(ops: seq<Op>, ops': seq<Op>, seen: set<nat>, s: Core)
    requires Absorbed(ops, seen, s) && ops <= ops'
    ensures Absorbed(ops', seen, s)
  {
    assert Added(ops, seen) == Added(ops', seen);
    assert Observed(ops, seen) == Observed(ops', seen);
  }

  lemma FromOpsGrows(ops: seq<Op>, ops': seq<Op>, s: Core)
    requires FromOps(ops, s) && ops <= ops'
    ensures FromOps(ops', s)
  {
    forall p | p in s.Known() ensures WasAdded(ops', p) {
      var k :| 0 <= k < |ops| && ops[k] == AddOp(p);
      assert ops'[k] == AddOp(p);
    }
    forall p | p in s.dead ensures WasRemoved(ops', p) {
      var k :| 0 <= k < |ops| && ops[k].RemoveOp? && p in ops[k].observed;
      assert ops'[k] == ops[k];
    }
  }

  lemma StateGrows(ops: seq<Op>, ops': seq<Op>, r: Replica)
    requires StateInv(ops, r) && ops <= ops'
    ensures StateInv(ops', r)
  {
    FromOpsGrows(ops, ops', r.orset.core);
    if r.exact { AbsorbedGrows(ops, ops', r.seen, r.orset.core); }
  }

  lemma MarkGrows(reps: Replicas, reps': Replicas, i: Peer, j: Peer, v: nat)
    requires Grows(reps, reps') && Mark(reps, i, j, v)
    ensures Mark(reps', i, j, v)
  {
    assert ReplicaGrows(reps[i], reps'[i]) && ReplicaGrows(reps[j], reps'[j]);
    assert reps'[i].hist[v] == reps[i].hist[v];
  }

  lemma FlightGrows(reps: Replicas, reps': Replicas, ops: seq<Op>, ops': seq<Op>, f: Flight)
    requires Grows(reps, reps') && ops <= ops' && FlightInv(reps, ops, f)
    ensures FlightInv(reps', ops', f)
  {
    assert ReplicaGrows(reps[f.src], reps'[f.src]);
    var h, h' := reps[f.src].hist, reps'[f.src].hist;
    assert h'[f.sent] == h[f.sent] && h'[f.base] == h[f.base];
    FromOpsGrows(ops, ops', f.delta);
    if f.exact { AbsorbedGrows(ops, ops', f.ops, h[f.sent]); }
  }

  lemma LandedGrows(reps: Replicas, reps': Replicas, f: Flight, i: Peer)
    requires Grows(reps, reps') && LandedInv(reps, f, i)
    ensures LandedInv(reps', f, i)
  {
    assert ReplicaGrows(reps[i], reps'[i]);
  }

  /** The part of the invariant that follows from growth alone. */
  lemma MessagesGrow(w: World, w': World)
    requires MessagesInv(w) && Grows(w.reps, w'.reps) && w.ops <= w'.ops
    requires w'.plans == w.plans && w'.flights == w.flights && w'.landed == w.landed && w'.snaps == w.snaps
    ensures MessagesInv(w')
  {
    forall p | p in w.plans ensures PlanInv(w'.reps, p) { MarkGrows(w.reps, w'.reps, p.src, p.dst, p.base); }
    forall f | f in w.flights ensures FlightInv(w'.reps, w'.ops, f) {
      FlightGrows(w.reps, w'.reps, w.ops, w'.ops, f);
    }
    forall x | x in w.landed ensures LandedInv(w'.reps, x.0, x.1) { LandedGrows(w.reps, w'.reps, x.0, x.1); }
    forall m | m in w.snaps ensures SnapInv(w'.ops, m) {
      FromOpsGrows(w.ops, w'.ops, m.core);
      if m.exact { AbsorbedGrows(w.ops, w'.ops, m.ops, m.core); }
    }
  }

  lemma ReplaceGrows(reps: Replicas, ops: seq<Op>, i: Peer, r: Replica)
    requires StatesInv(reps, ops) && i in reps && ReplicaGrows(reps[i], r)
    ensures Grows(reps, reps[i := r])
  {
    forall k | k in reps ensures ReplicaGrows(reps[k], reps[i := r][k]) {
      assert StateInv(ops, reps[k]);
    }
  }

  lemma ReplaceStates(reps: Replicas, ops: seq<Op>, ops': seq<Op>, i: Peer, r: Replica)
    requires StatesInv(reps, ops) && ops <= ops' && i in reps && StateInv(ops', r)
    ensures StatesInv(reps[i := r], ops')
  {
    forall k | k in reps && k != i ensures StateInv(ops', reps[k]) {
      StateGrows(ops, ops', reps[k]);
    }
  }

  ghost predicate RowsKept(r: Replica, r': Replica) {
    forall j :: j in r'.peers ==> j in r.peers && r.peers[j] == r'.peers[j]
  }

  /** The frame of every step that changes one replica: what is left to show is about that
      replica alone. */
  lemma ReplicaStep(w: World, w': World, i: Peer, r: Replica)
    requires Inv(w) && i in w.reps && w'.reps == w.reps[i := r] && w.ops <= w'.ops
    requires w'.plans == w.plans && w'.flights == w.flights && w'.landed == w.landed && w'.snaps == w.snaps
    requires ReplicaGrows(w.reps[i], r) && StateInv(w'.ops, r) && TagInv(w'.reps, w'.ops)
    requires RowsKept(w.reps[i], r) || forall j :: j in r.peers ==> Mark(w.reps, i, j, r.peers[j])
    ensures Inv(w') && Grows(w.reps, w'.reps)
  {
    ReplaceGrows(w.reps, w.ops, i, r);
    MessagesGrow(w, w');
    ReplaceStates(w.reps, w.ops, w'.ops, i, r);
    ReplaceTables(w.reps, i, r);
  }

  lemma ReplaceTables(reps: Replicas, i: Peer, r: Replica)
    requires TablesInv(reps) && i in reps && Grows(reps, reps[i := r])
    requires RowsKept(reps[i], r) || forall j :: j in r.peers ==> Mark(reps, i, j, r.peers[j])
    ensures TablesInv(reps[i := r])
  {
    var reps' := reps[i := r];
    forall k | k in reps ensures TableInv(reps', k) {
      assert TableInv(reps, k);
      if k == i && !RowsKept(reps[i], r) {
        forall j | j in r.peers ensures Mark(reps', i, j, r.peers[j]) { MarkGrows(reps, reps', i, j, r.peers[j]); }
      } else {
        TableGrows(reps, reps', k);
      }
    }
  }

  lemma TableGrows(reps: Replicas, reps': Replicas, k: Peer)
    requires Grows(reps, reps') && k in reps && TableInv(reps, k) && RowsKept(reps[k], reps'[k])
    ensures TableInv(reps', k)
  {
    forall j | j in reps'[k].peers ensures Mark(reps', k, j, reps'[k].peers[j]) {
      MarkGrows(reps, reps', k, j, reps[k].peers[j]);
    }
  }

  lemma TagsKept(w: World, w': World, i: Peer, r: Replica)
    requires TagInv(w.reps, w.ops) && i in w.reps && w'.reps == w.reps[i := r] && ReplicaGrows(w.reps[i], r)
    requires w'.ops == w.ops || exists op: Op :: op.RemoveOp? && w'.ops == w.ops + [op]
    ensures TagInv(w'.reps, w'.ops)
  {
    forall k | 0 <= k < |w'.ops| && w'.ops[k].AddOp?
      ensures var p := w'.ops[k].pair; p.tag.peer in w'.reps && p in w'.reps[p.tag.peer].orset.core.Known()
    {
      assert w'.ops[k] == w.ops[k];
    }
  }

  // ---- Updates of one replica ----

  lemma ReachedMore(got: set<Core>, s: Core, d: Core)
    requires Reached(got, s)
    ensures Reached(got + {d}, Join(s, d))
  {
    assert LiveIn(got + {d}) == LiveIn(got) + d.live;
    assert DeadIn(got + {d}) == DeadIn(got) + d.dead;
  }

  lemma FromOpsJoin(ops: seq<Op>, s: Core, d: Core)
    requires FromOps(ops, s) && FromOps(ops, d)
    ensures FromOps(ops, Join(s, d))
  {
  }

  lemma AbsorbedJoin(ops: seq<Op>, seen: set<nat>, s: Core, seen': set<nat>, s': Core)
    requires Absorbed(ops, seen, s) && Absorbed(ops, seen', s')
    ensures Absorbed(ops, seen + seen', Join(s, s'))
  {
    JoinKnown(s, s');
    assert Added(ops, seen + seen') == Added(ops, seen) + Added(ops, seen');
    assert Observed(ops, seen + seen') == Observed(ops, seen) + Observed(ops, seen');
  }

  /** Where operations describe the replica and the source, they describe the merge of a
      delta if and only if the replica and the delta together cover the delta's base. */
  lemma OperationsIff(ops: seq<Op>, seen: set<nat>, x: Core, seen': set<nat>, base: Core, delta: Core, full: Core)
    requires Absorbed(ops, seen, x) && Absorbed(ops, seen', full) && Spans(base, delta, full)
    ensures Absorbed(ops, seen + seen', Join(x, delta)) <==> Covers(x, delta, base)
  {
    AbsorbedJoin(ops, seen, x, seen', full);
    DeltaCompletesIff(x, base, delta, full);
    if Absorbed(ops, seen + seen', Join(x, delta)) {
      CoreExtensional(Join(x, delta), Join(x, full));
    }
  }

  /** Any update whatsoever keeps the changelog true and the state what its updates say. */
  lemma MergeMoves(ops: seq<Op>, r: Replica, d: Core, seen: set<nat>, whole: bool)
    requires StateInv(ops, r) && FromOps(ops, d)
    requires r.exact && whole ==> Absorbed(ops, r.seen + seen, Join(r.orset.core, d))
    ensures var r' := Moved(r, Apply(r.orset, d), d, seen, whole);
            && StateInv(ops, r') && ReplicaGrows(r, r') && r'.orset.core == Join(r.orset.core, d)
            && Leq(d, r'.orset.core)
  {
    ApplyKeepsChronicle(r.orset, r.hist, d);
    ReachedMore(r.got, r.orset.core, d);
    FromOpsJoin(ops, r.orset.core, d);
    JoinKnown(r.orset.core, d);
  }

  lemma AbsorbedSnoc(ops: seq<Op>, op: Op, seen: set<nat>, s: Core)
    requires Absorbed(ops, seen, s)
    ensures forall k :: k in seen + {|ops|} ==> k < |ops + [op]|
    ensures Added(ops + [op], seen + {|ops|}) == s.Known() + if op.AddOp? then {op.pair} else {}
    ensures Observed(ops + [op], seen + {|ops|}) == s.dead + if op.RemoveOp? then op.observed else {}
  {
    var ops' := ops + [op];
    AbsorbedGrows(ops, ops', seen, s);
    assert Added(ops', seen + {|ops|}) == Added(ops', seen) + Added(ops', {|ops|});
    assert Observed(ops', seen + {|ops|}) == Observed(ops', seen) + Observed(ops', {|ops|});
    assert ops'[|ops|] == op;
  }

  lemma RetainedNumber(s: set<Pair>, p: Pair)
    requires p in s
    ensures p.tag.num in SeqsOf(s, p.tag.peer)
  {
    assert p.tag == Tag(p.tag.peer, p.tag.num);
  }

  lemma IssueMoves(ops: seq<Op>, r: Replica, p: Pair)
    requires StateInv(ops, r) && p !in r.orset.core.Known()
    ensures var r' := Moved(r, Add(r.orset, p), Core({p}, {}), {|ops|}, true);
            && StateInv(ops + [AddOp(p)], r') && ReplicaGrows(r, r')
            && r'.orset.core.Known() == r.orset.core.Known() + {p}
  {
    var ops', s := ops + [AddOp(p)], r.orset.core;
    AddIsExactIff(r.orset, p);
    AddKeepsChronicle(r.orset, r.hist, p);
    ReachedMore(r.got, s, Core({p}, {}));
    JoinKnown(s, Core({p}, {}));
    assert ops'[|ops|] == AddOp(p);
    FromOpsGrows(ops, ops', s);
    FromOpsJoin(ops', s, Core({p}, {}));
    if r.exact { AbsorbedSnoc(ops, AddOp(p), r.seen, s); }
  }

  lemma EraseMoves(ops: seq<Op>, r: Replica, e: Element)
    requires StateInv(ops, r)
    ensures var gone := TagsOf(r.orset.core.live, e);
            var r' := Moved(r, Remove(r.orset, e), Core({}, gone), {|ops|}, true);
            StateInv(ops + [RemoveOp(gone)], r') && ReplicaGrows(r, r')
  {
    var s, gone := r.orset.core, TagsOf(r.orset.core.live, e);
    var op := RemoveOp(gone);
    var ops' := ops + [op];
    RemoveKeepsChronicle(r.orset, r.hist, e);
    ReachedMore(r.got, s, Core({}, gone));
    JoinKnown(s, Core({}, gone));
    assert s.Known() + gone == s.Known();
    assert ops'[|ops|] == op;
    FromOpsGrows(ops, ops', s);
    FromOpsJoin(ops', s, Core({}, gone));
    if r.exact { AbsorbedSnoc(ops, op, r.seen, s); }
  }

  // ---- One step keeps the invariant ----

  lemma IssueStep(w: World, i: Peer, p: Pair)
    requires Inv(w) && i in w.reps && p.tag.peer == i && Unissued(w.reps, i, p.tag.num)
    ensures Inv(AfterIssue(w, i, p)) && Grows(w.reps, AfterIssue(w, i, p).reps)
  {
    var w', r := AfterIssue(w, i, p), w.reps[i];
    assert p !in r.orset.core.Known() by {
      if p in r.orset.core.Known() { RetainedNumber(r.orset.core.Known(), p); }
    }
    IssueMoves(w.ops, r, p);
    FreshTag(w.reps, w.ops, i, p, w'.reps[i]);
    ReplicaStep(w, w', i, w'.reps[i]);
  }

  /** The issued tag is new to the whole system. */
  lemma FreshTag(reps: Replicas, ops: seq<Op>, i: Peer, p: Pair, r: Replica)
    requires TagInv(reps, ops) && i in reps && p.tag.peer == i && Unissued(reps, i, p.tag.num)
    requires r.orset.core.Known() == reps[i].orset.core.Known() + {p}
    ensures TagInv(reps[i := r], ops + [AddOp(p)])
    ensures forall k :: 0 <= k < |ops| && ops[k].AddOp? ==> ops[k].pair.tag != p.tag
  {
    forall k | 0 <= k < |ops| && ops[k].AddOp?
      ensures ops[k].pair.tag != p.tag
      ensures var q := ops[k].pair; q.tag.peer in reps && q in reps[i := r][q.tag.peer].orset.core.Known()
    {
      var q := ops[k].pair;
      RetainedNumber(reps[q.tag.peer].orset.core.Known(), q);
    }
  }

  lemma EraseStep(w: World, i: Peer, e: Element)
    requires Inv(w) && i in w.reps
    ensures Inv(AfterErase(w, i, e)) && Grows(w.reps, AfterErase(w, i, e).reps)
  {
    var w' := AfterErase(w, i, e);
    EraseMoves(w.ops, w.reps[i], e);
    TagsKept(w, w', i, w'.reps[i]);
    ReplicaStep(w, w', i, w'.reps[i]);
  }

  lemma MergeStep(w: World, i: Peer, d: Core, ops: set<nat>, whole: bool)
    requires Inv(w) && i in w.reps && FromOps(w.ops, d)
    requires w.reps[i].exact && whole ==> Absorbed(w.ops, w.reps[i].seen + ops, Join(w.reps[i].orset.core, d))
    ensures var w' := AfterMerge(w, i, d, ops, whole);
            Inv(w') && Grows(w.reps, w'.reps) && Leq(d, w'.reps[i].orset.core)
  {
    var w' := AfterMerge(w, i, d, ops, whole);
    MergeMoves(w.ops, w.reps[i], d, ops, whole);
    TagsKept(w, w', i, w'.reps[i]);
    ReplicaStep(w, w', i, w'.reps[i]);
  }

  lemma AbsorbStep(w: World, i: Peer, m: Snapshot)
    requires Inv(w) && i in w.reps && m in w.snaps
    ensures var w' := AfterMerge(w, i, m.core, m.ops, m.exact); Inv(w') && Grows(w.reps, w'.reps)
  {
    assert SnapInv(w.ops, m) && StateInv(w.ops, w.reps[i]);
    if w.reps[i].exact && m.exact {
      AbsorbedJoin(w.ops, w.reps[i].seen, w.reps[i].orset.core, m.ops, m.core);
    }
    MergeStep(w, i, m.core, m.ops, m.exact);
  }

  /** A step that changes only the table of one replica. */
  lemma TableStep(w: World, i: Peer, peers: map<Peer, nat>)
    requires Inv(w) && i in w.reps
    requires forall j :: j in peers ==> Mark(w.reps, i, j, peers[j])
    ensures var w' := w.(reps := w.reps[i := w.reps[i].(peers := peers)]); Inv(w') && Grows(w.reps, w'.reps)
  {
    var r := w.reps[i].(peers := peers);
    var w' := w.(reps := w.reps[i := r]);
    assert StateInv(w.ops, w.reps[i]);
    TagsKept(w, w', i, r);
    ReplicaStep(w, w', i, r);
  }

  lemma RegisterStep(w: World, i: Peer, j: Peer)
    requires Inv(w) && i in w.reps && j in w.reps
    ensures Inv(AfterRegister(w, i, j)) && Grows(w.reps, AfterRegister(w, i, j).reps)
  {
    if j in w.reps[i].peers {
      MessageStep(w, w);
    } else {
      assert StateInv(w.ops, w.reps[i]) && TableInv(w.reps, i) && StateInv(w.ops, w.reps[j]);
      assert Mark(w.reps, i, j, 0);
      TableStep(w, i, w.reps[i].peers[j := 0]);
    }
  }

  lemma RemovePeerStep(w: World, i: Peer, j: Peer)
    requires Inv(w) && i in w.reps
    ensures Inv(AfterRemovePeer(w, i, j)) && Grows(w.reps, AfterRemovePeer(w, i, j).reps)
  {
    assert TableInv(w.reps, i);
    TableStep(w, i, w.reps[i].peers - {j});
  }

  lemma CompactStep(w: World, i: Peer, keep: nat)
    requires Inv(w) && i in w.reps
    ensures Inv(AfterCompact(w, i, keep)) && Grows(w.reps, AfterCompact(w, i, keep).reps)
  {
    var w' := AfterCompact(w, i, keep);
    assert StateInv(w.ops, w.reps[i]);
    CompactIsInvisibleAboveFloor(w.reps[i].orset, w.reps[i].hist, keep, 0);
    TagsKept(w, w', i, w'.reps[i]);
    ReplicaStep(w, w', i, w'.reps[i]);
  }

  /** A delta of version `base` that reached a peer known to dominate version `base` brings
      it to the version the delta was taken at. */
  lemma LandedMark(reps: Replicas, ops: seq<Op>, plan: Plan, f: Flight)
    requires PlanInv(reps, plan) && FlightInv(reps, ops, f) && LandedInv(reps, f, plan.dst)
    requires f.src == plan.src && f.base == plan.base
    ensures Mark(reps, plan.src, plan.dst, f.sent)
  {
  }

  /** What the manager of `i` has recorded for `j`. */
  function RowOf(w: World, i: Peer, j: Peer): Option<nat> {
    if i in w.reps && j in w.reps[i].peers then Some(w.reps[i].peers[j]) else None
  }

  /** The row of the peer becomes the version the delta was taken at, which the peer dominates. */
  lemma AcknowledgeStep(w: World, plan: Plan, f: Flight)
    requires Inv(w) && Enabled(w, Acknowledge(plan, f))
    ensures Inv(AfterAcknowledge(w, plan, f)) && Grows(w.reps, AfterAcknowledge(w, plan, f).reps)
    ensures RowOf(AfterAcknowledge(w, plan, f), plan.src, plan.dst) == Some(f.sent)
    ensures Mark(AfterAcknowledge(w, plan, f).reps, plan.src, plan.dst, f.sent)
  {
    assert (f, plan.dst) in w.landed && PlanInv(w.reps, plan) && TableInv(w.reps, plan.src);
    LandedMark(w.reps, w.ops, plan, f);
    TableStep(w, plan.src, w.reps[plan.src].peers[plan.dst := f.sent]);
  }

  lemma LandStep(w: World, f: Flight, i: Peer)
    requires Inv(w) && f in w.flights && LandedInv(w.reps, f, i)
    ensures Inv(w.(landed := w.landed + {(f, i)}))
  {
    var w' := w.(landed := w.landed + {(f, i)});
    forall x | x in w'.landed ensures x.0 in w'.flights && LandedInv(w'.reps, x.0, x.1) {
      assert x in w.landed || x == (f, i);
    }
  }

  /** A delta may land anywhere, at any time, any number of times. */
  lemma DeliverStep(w: World, f: Flight, i: Peer)
    requires Inv(w) && f in w.flights && i in w.reps
    ensures f.src in w.reps && f.base < |w.reps[f.src].hist|
    ensures Inv(AfterDeliver(w, f, i)) && Grows(w.reps, AfterDeliver(w, f, i).reps)
  {
    assert FlightInv(w.reps, w.ops, f) && StateInv(w.ops, w.reps[i]);
    var h, r, whole := w.reps[f.src].hist, w.reps[i], f.exact && Whole(w.reps, f, i);
    if r.exact && whole {
      OperationsIff(w.ops, r.seen, r.orset.core, f.ops, h[f.base], f.delta, h[f.sent]);
    }
    MergeStep(w, i, f.delta, f.ops, whole);
    LandStep(AfterMerge(w, i, f.delta, f.ops, whole), f, i);
  }

  /** A step that only adds messages changes no replica. */
  lemma MessageStep(w: World, w': World)
    requires Inv(w) && w'.reps == w.reps && w'.ops == w.ops && MessagesInv(w')
    ensures Inv(w') && Grows(w.reps, w'.reps)
  {
    forall i | i in w.reps ensures ReplicaGrows(w.reps[i], w.reps[i]) { assert StateInv(w.ops, w.reps[i]); }
  }

  lemma ExtractStep(w: World, i: Peer, since: nat)
    requires Inv(w) && i in w.reps
    ensures Inv(AfterExtract(w, i, since)) && Grows(w.reps, AfterExtract(w, i, since).reps)
  {
    var w', r := AfterExtract(w, i, since), w.reps[i];
    assert StateInv(w.ops, r);
    DeltaIsExact(r.orset, r.hist, since);
    if Delta(r.orset, since).Some? {
      var d := Delta(r.orset, since).value;
      assert d.Known() <= r.orset.core.Known() && d.dead <= r.orset.core.dead;
      assert FlightInv(w.reps, w.ops, Flight(i, since, r.orset.version, d, r.seen, r.exact));
    }
    MessageStep(w, w');
  }

  lemma PublishStep(w: World, i: Peer)
    requires Inv(w) && i in w.reps
    ensures Inv(Do(w, Publish(i))) && Grows(w.reps, Do(w, Publish(i)).reps)
  {
    assert StateInv(w.ops, w.reps[i]);
    MessageStep(w, Do(w, Publish(i)));
  }

  lemma ReadRowStep(w: World, i: Peer, j: Peer)
    requires Inv(w) && i in w.reps && j in w.reps[i].peers
    ensures Inv(Do(w, ReadRow(i, j))) && Grows(w.reps, Do(w, ReadRow(i, j)).reps)
  {
    assert TableInv(w.reps, i);
    MessageStep(w, Do(w, ReadRow(i, j)));
  }

  lemma StepKeepsInv(w: World, step: Step)
    requires Inv(w) && Enabled(w, step)
    ensures Inv(Do(w, step)) && Grows(w.reps, Do(w, step).reps)
  {
    match step
    case Issue(i, e, num) => IssueStep(w, i, Pair(e, Tag(i, num)));
    case Erase(i, e) => EraseStep(w, i, e);
    case Publish(i) => PublishStep(w, i);
    case Absorb(i, snap) => AbsorbStep(w, i, snap);
    case CompactLog(i, keep) => CompactStep(w, i, keep);
    case AddPeer(i, j) => RegisterStep(w, i, j);
    case RemovePeer(i, j) => RemovePeerStep(w, i, j);
    case ReadRow(i, j) => ReadRowStep(w, i, j);
    case Extract(i, since) => ExtractStep(w, i, since);
    case Deliver(f, i) => DeliverStep(w, f, i);
    case Acknowledge(plan, f) => AcknowledgeStep(w, plan, f);
  }

  // ---- Whole runs ----

  ghost predicate Next(w: World, w': World) {
    exists step: Step :: Enabled(w, step) && w' == Do(w, step)
  }

  /** `ws` is a run: it starts with empty replicas and every next world is one step away. */
  ghost predicate Run(ws: seq<World>) {
    && |ws| > 0 && Init(ws[0])
    && forall n :: 0 < n < |ws| ==> Next(ws[n - 1], ws[n])
  }

  lemma InitInv(w: World)
    requires Init(w)
    ensures Inv(w)
  {
    assert LiveIn({}) == {} && DeadIn({}) == {};
    assert Added([], {}) == {} && Observed([], {}) == {};
    assert StateInv([], EMPTY);
  }

  lemma {:induction false} RunKeepsInv(ws: seq<World>, n: nat)
    requires Run(ws) && n < |ws|
    ensures Inv(ws[n])
  {
    if n == 0 {
      InitInv(ws[0]);
    } else {
      RunKeepsInv(ws, n - 1);
      assert Next(ws[n - 1], ws[n]);
      var step: Step :| Enabled(ws[n - 1], step) && ws[n] == Do(ws[n - 1], step);
      StepKeepsInv(ws[n - 1], step);
    }
  }

  lemma RunState(ws: seq<World>, n: nat, i: Peer)
    requires Run(ws) && n < |ws| && i in ws[n].reps
    ensures StateInv(ws[n].ops, ws[n].reps[i])
  {
    RunKeepsInv(ws, n);
  }

  ghost predicate Contains(w: World, i: Peer, e: Element)
    requires i in w.reps
  {
    exists t :: Pair(e, t) in w.reps[i].orset.core.live
  }

  /** The OR-Set specification in every run, gaps included: an element is visible at a
      replica exactly when an add of it reached the replica in some update and a tombstone
      of that add's tag did not. */
  lemma VisibleIffReached(ws: seq<World>, n: nat, i: Peer, e: Element)
    requires Run(ws) && n < |ws| && i in ws[n].reps
    ensures var got := ws[n].reps[i].got;
            Contains(ws[n], i, e) <==> exists t :: Pair(e, t) in LiveIn(got) && Pair(e, t) !in DeadIn(got)
  {
    RunState(ws, n, i);
    var got, s := ws[n].reps[i].got, ws[n].reps[i].orset.core;
    if t :| Pair(e, t) in LiveIn(got) && Pair(e, t) !in DeadIn(got) {
      assert Pair(e, t) in s.live;
    }
  }

  /** Replicas that the same updates reached hold the same live pairs and tombstones, in
      whatever order and however often the updates came, and whatever was missing. */
  lemma SameUpdatesConverge(ws: seq<World>, n: nat, i: Peer, j: Peer)
    requires Run(ws) && n < |ws| && i in ws[n].reps && j in ws[n].reps
    requires LiveIn(ws[n].reps[i].got) == LiveIn(ws[n].reps[j].got)
    requires DeadIn(ws[n].reps[i].got) == DeadIn(ws[n].reps[j].got)
    ensures ws[n].reps[i].orset.core == ws[n].reps[j].orset.core
  {
    RunState(ws, n, i);
    RunState(ws, n, j);
  }

  /** No update invents anything: what is visible was added, what is dead was removed. */
  lemma NothingIsInvented(ws: seq<World>, n: nat, i: Peer, p: Pair)
    requires Run(ws) && n < |ws| && i in ws[n].reps && p in ws[n].reps[i].orset.core.Known()
    ensures WasAdded(ws[n].ops, p)
    ensures p in ws[n].reps[i].orset.core.dead ==> WasRemoved(ws[n].ops, p)
  {
    RunState(ws, n, i);
  }

  /** Every recorded peer version is a local version whose state the peer dominates, so
      the delta the next sync sends completes the peer to the whole local state. */
  lemma WatermarkIsSafe(ws: seq<World>, n: nat, i: Peer, j: Peer)
    requires Run(ws) && n < |ws| && i in ws[n].reps && j in ws[n].reps[i].peers
    ensures j in ws[n].reps
    ensures var v, r, other := ws[n].reps[i].peers[j], ws[n].reps[i], ws[n].reps[j];
            && v <= r.orset.version && v < |r.hist| && Leq(r.hist[v], other.orset.core)
            && (Delta(r.orset, v).Some? ==>
                  Apply(other.orset, Delta(r.orset, v).value).core == Join(other.orset.core, r.orset.core))
            && (v == r.orset.version ==> Leq(r.orset.core, other.orset.core))
  {
    RunKeepsInv(ws, n);
    var w := ws[n];
    var v := w.reps[i].peers[j];
    assert TableInv(w.reps, i) && Mark(w.reps, i, j, v);
    RunState(ws, n, i);
    RunState(ws, n, j);
    DeltaIsExact(w.reps[i].orset, w.reps[i].hist, v);
    if Delta(w.reps[i].orset, v).Some? {
      ApplyIsJoin(w.reps[j].orset, Delta(w.reps[i].orset, v).value);
    }
  }

  /** No (peer, sequence) tag is ever issued twice in the whole system. */
  lemma TagsAreUnique(ws: seq<World>, n: nat, k: nat, l: nat)
    requires Run(ws) && n < |ws| && k < l < |ws[n].ops|
    requires ws[n].ops[k].AddOp? && ws[n].ops[l].AddOp?
    ensures ws[n].ops[k].pair.tag != ws[n].ops[l].pair.tag
  {
    RunKeepsInv(ws, n);
  }

  // ---- The specification by operations ----

  /** Operation `k` is an absorbed add of `e`, and no absorbed remove had observed its
      tag. */
  ghost predicate SurvivingAdd(ops: seq<Op>, seen: set<nat>, e: Element, k: int) {
    && 0 <= k < |ops| && k in seen && ops[k].AddOp? && ops[k].pair.elem == e
    && forall l :: l in seen && l < |ops| && ops[l].RemoveOp? ==> ops[k].pair !in ops[l].observed
  }

  lemma LiveIffSurvivingAdd(ops: seq<Op>, seen: set<nat>, s: Core, e: Element)
    requires Absorbed(ops, seen, s)
    ensures (exists t :: Pair(e, t) in s.live) <==> exists k :: SurvivingAdd(ops, seen, e, k)
  {
    if t :| Pair(e, t) in s.live {
      assert Pair(e, t) in Added(ops, seen);
      var k :| k in seen && k < |ops| && ops[k].AddOp? && ops[k].pair == Pair(e, t);
      assert SurvivingAdd(ops, seen, e, k);
    }
    if k :| SurvivingAdd(ops, seen, e, k) {
      var p := ops[k].pair;
      assert p in Added(ops, seen) && p !in Observed(ops, seen);
      assert p == Pair(e, p.tag);
    }
  }

  /** At an exact replica an element is visible exactly when some add of it reached the
      replica and no remove that had observed that add's tag did. */
  lemma VisibleIffSurvivingAdd(ws: seq<World>, n: nat, i: Peer, e: Element)
    requires Run(ws) && n < |ws| && i in ws[n].reps && ws[n].reps[i].exact
    ensures Contains(ws[n], i, e) <==> exists k :: SurvivingAdd(ws[n].ops, ws[n].reps[i].seen, e, k)
  {
    RunState(ws, n, i);
    LiveIffSurvivingAdd(ws[n].ops, ws[n].reps[i].seen, ws[n].reps[i].orset.core, e);
  }

  /** Exact replicas that absorbed the same operations are equal. */
  lemma Convergence(ws: seq<World>, n: nat, i: Peer, j: Peer)
    requires Run(ws) && n < |ws| && i in ws[n].reps && j in ws[n].reps
    requires ws[n].reps[i].exact && ws[n].reps[j].exact && ws[n].reps[i].seen == ws[n].reps[j].seen
    ensures ws[n].reps[i].orset.core == ws[n].reps[j].orset.core
  {
    RunState(ws, n, i);
    RunState(ws, n, j);
    CoreExtensional(ws[n].reps[i].orset.core, ws[n].reps[j].orset.core);
  }

  /** Every delta so far was merged by a replica that dominated its base. */
  ghost predicate NoGap(w: World, step: Step)
    requires Enabled(w, step)
  {
    step.Deliver? ==> Leq(w.reps[step.flight.src].hist[step.flight.base], w.reps[step.i].orset.core)
  }

  ghost predicate NextWithoutGap(w: World, w': World) {
    exists step: Step :: Enabled(w, step) && NoGap(w, step) && w' == Do(w, step)
  }

  ghost predicate AllExact(w: World) {
    && (forall i :: i in w.reps ==> w.reps[i].exact)
    && (forall f :: f in w.flights ==> f.exact) && (forall m :: m in w.snaps ==> m.exact)
  }

  lemma ReplaceExact(w: World, w': World, i: Peer, r: Replica)
    requires AllExact(w) && i in w.reps && w'.reps == w.reps[i := r] && r.exact
    requires w'.flights == w.flights && w'.snaps == w.snaps
    ensures AllExact(w')
  {
  }

  lemma DeliverKeepsExact(w: World, f: Flight, i: Peer)
    requires AllExact(w) && f in w.flights && i in w.reps && FlightInv(w.reps, w.ops, f)
    requires w.reps[i].orset.core.Disjoint() && Leq(w.reps[f.src].hist[f.base], w.reps[i].orset.core)
    ensures AllExact(AfterDeliver(w, f, i))
  {
    var h, w' := w.reps[f.src].hist, AfterDeliver(w, f, i);
    DeltaCompletesIff(w.reps[i].orset.core, h[f.base], f.delta, h[f.sent]);
    ReplaceExact(w, w', i, w'.reps[i]);
  }

  lemma RestKeepsExact(w: World, step: Step)
    requires AllExact(w) && Enabled(w, step) && !step.Deliver?
    ensures AllExact(Do(w, step))
  {
    var w' := Do(w, step);
    match step
    case Issue(i, _, _) => ReplaceExact(w, w', i, w'.reps[i]);
    case Erase(i, _) => ReplaceExact(w, w', i, w'.reps[i]);
    case Publish(_) =>
    case Absorb(i, _) => ReplaceExact(w, w', i, w'.reps[i]);
    case CompactLog(i, _) => ReplaceExact(w, w', i, w'.reps[i]);
    case AddPeer(_, _) =>
    case RemovePeer(i, _) => ReplaceExact(w, w', i, w'.reps[i]);
    case ReadRow(_, _) =>
    case Extract(_, _) =>
    case Acknowledge(plan, _) => ReplaceExact(w, w', plan.src, w'.reps[plan.src]);
  }

  lemma StepKeepsExact(w: World, step: Step)
    requires Inv(w) && AllExact(w) && Enabled(w, step) && NoGap(w, step)
    ensures AllExact(Do(w, step))
  {
    if step.Deliver? {
      assert FlightInv(w.reps, w.ops, step.flight) && StateInv(w.ops, w.reps[step.i]);
      DeliverKeepsExact(w, step.flight, step.i);
    } else {
      RestKeepsExact(w, step);
    }
  }

  /** In a run without gaps, as anti-entropy alone produces, every replica is exact: the
      specification by operations holds everywhere. */
  lemma {:induction false} RunsWithoutGapsAreExact(ws: seq<World>, n: nat)
    requires Run(ws) && n < |ws| && forall k :: 0 < k < |ws| ==> NextWithoutGap(ws[k - 1], ws[k])
    ensures AllExact(ws[n])
  {
    if n > 0 {
      RunsWithoutGapsAreExact(ws, n - 1);
      RunKeepsInv(ws, n - 1);
      assert NextWithoutGap(ws[n - 1], ws[n]);
      var w := ws[n - 1];
      var step: Step :| Enabled(w, step) && NoGap(w, step) && ws[n] == Do(w, step);
      StepKeepsExact(w, step);
    }
  }

  /** A gap does show: the delta of a second add, merged by an empty replica, leaves the
      first add out, and the operations no longer describe the result. */
  lemma GapShows(p: Pair, q: Pair)
    requires p != q
    ensures var s := Add(Add(NEW, p), q);
            var d := Delta(s, 1);
            && d == Some(Core({q}, {})) && Apply(NEW, d.value).core == Core({q}, {})
            && Absorbed([AddOp(p), AddOp(q)], {0, 1}, s.core)
            && !Absorbed([AddOp(p), AddOp(q)], {0, 1}, Apply(NEW, d.value).core)
  {
    var s, ops := Add(Add(NEW, p), q), [AddOp(p), AddOp(q)];
    assert Collect(s.changelog, 1, 1) == Some(BOTTOM);
    var none: set<Pair> := {};
    assert none + {q} == {q} && none + none == none;
    assert Delta(s, 1) == Some(Core({q}, {}));
    assert ops[0].pair == p && ops[1].pair == q;
    assert p in Added(ops, {0, 1}) && q in Added(ops, {0, 1});
    assert Added(ops, {0, 1}) == {p, q} && Observed(ops, {0, 1}) == {};
    assert s.core == Core({p, q}, {}) && s.core.Known() == {p, q};
    ApplyIsJoin(NEW, Core({q}, {}));
    assert Join(BOTTOM, Core({q}, {})) == Core({q}, {});
  }
}
