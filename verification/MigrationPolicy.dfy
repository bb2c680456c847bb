/** The legacy migration policy (crates/pubsub/src/compat.rs:335-845): verifier revisions,
    grants bound to sessions, tombstoned revisions, durable modern floors, and sends that
    are queued and checked again at admission. Clock readings, what the floor journal reads
    as, inner verification and control-work estimates are parameters; every call of
    `Instant::now` and `SystemTime::now` is its own reading. Times are in milliseconds. */
module MigrationPolicy {
  import opened Common
  import opened Wire

  type Peer = nat
  type Time = nat
  type Key = (Peer, Topic)

  const MAX_TOPICS := 128
  const MAX_GRANTS := 1024
  const MAX_FLOORS := 65536
  const MAX_CONTROL_WORK := 4096
  const DAY_MS := 86400000
  const AUDITED_RECEIVER := "x0x/0.30.1+signed-kv-inner-v3;saorsa-gossip-pubsub/0.5.66"

  datatype Session = Session(peer: Peer, id: nat)

  datatype Grant = Grant(
    peer: Peer, topic: Topic, receiver: string, verifierRevision: nat, revision: nat,
    issuer: string, reason: string, expires: Time)

  datatype Bound = Bound(grant: Grant, deadline: Time, session: Session)

  datatype State = State(
    topics: map<Topic, nat>,          // registered verifier revisions
    grants: map<Key, Bound>,
    revisions: map<Key, nat>,         // latest grant or revocation of each pair
    floors: Option<set<Peer>>,
    floorFailed: bool,
    rejectV1: bool,
    lastWall: Option<Time>,
    controlWindow: Option<Time>,
    controlWork: nat)

  const NEW := State(map[], map[], map[], None, false, false, None, None, 0)

  /** What a refresh of the floor journal meets: the remembered stamp, an unreadable or
      changing file, or the peers it lists. */
  datatype Disk = Same | Broken | Lists(peers: set<Peer>)

  datatype Outcome = Outcome(state: State, ok: bool)

  // ---- Checks shared by the operations ----

  function ClockStep(s: State, wall: Time): Outcome {
    if s.lastWall.Some? && wall < s.lastWall.value then Outcome(s.(grants := map[]), false)
    else Outcome(s.(lastWall := Some(wall)), true)
  }

  /** `ModernFloors::refresh` on the peers known so far. */
  function Refreshed(known: set<Peer>, disk: Disk): Option<set<Peer>> {
    match disk
    case Same => Some(known)
    case Broken => None
    case Lists(peers) => if known <= peers then Some(peers) else None
  }

  function FloorStep(s: State, disk: Disk): Outcome {
    if s.floorFailed || s.floors.None? then Outcome(s, false)
    else match Refreshed(s.floors.value, disk)
      case None => Outcome(s.(floorFailed := true, grants := map[]), false)
      case Some(peers) => Outcome(s.(floors := Some(peers)), true)
  }

  /** The readings of one admission check, in the order they are taken. */
  datatype Reads = Reads(mono0: Time, wall0: Time, wall1: Time, mono1: Time, wall2: Time, disk: Disk)

  predicate Covers(s: State, topic: Topic, session: Session, mono: Time, wall: Time) {
    var k := (session.peer, topic);
    && k in s.grants && s.grants[k].session == session
    && mono < s.grants[k].deadline && wall < s.grants[k].grant.expires
    && topic in s.topics && s.topics[topic] == s.grants[k].grant.verifierRevision
  }

  function DropExpired(s: State, k: Key, r: Reads): State {
    if k in s.grants && (r.mono0 >= s.grants[k].deadline || r.wall0 >= s.grants[k].grant.expires)
    then s.(grants := s.grants - {k}) else s
  }

  /** `permitted`. */
  function PermitStep(s: State, topic: Topic, session: Session, r: Reads): Outcome {
    var s1 := DropExpired(s, (session.peer, topic), r);
    if s1.rejectV1 then Outcome(s1, false)
    else
      var c := ClockStep(s1, r.wall1);
      if !c.ok then c
      else if !Covers(c.state, topic, session, r.mono1, r.wall2) then Outcome(c.state, false)
      else
        var f := FloorStep(c.state, r.disk);
        Outcome(f.state, f.ok && session.peer !in f.state.floors.value)
  }

  /** All that an admission depends on, at once. */
  predicate Allowed(s: State, topic: Topic, session: Session, r: Reads) {
    var k := (session.peer, topic);
    && !s.rejectV1 && !s.floorFailed && s.floors.Some?
    && k in s.grants && s.grants[k].session == session
    && r.mono0 < s.grants[k].deadline && r.mono1 < s.grants[k].deadline
    && r.wall0 < s.grants[k].grant.expires && r.wall2 < s.grants[k].grant.expires
    && topic in s.topics && s.topics[topic] == s.grants[k].grant.verifierRevision
    && (s.lastWall.Some? ==> s.lastWall.value <= r.wall1)
    && Refreshed(s.floors.value, r.disk).Some? && session.peer !in Refreshed(s.floors.value, r.disk).value
  }

  /** The sequence of checks, with its effects in between, passes exactly then. */
  lemma PermitIff(s: State, topic: Topic, session: Session, r: Reads)
    ensures PermitStep(s, topic, session, r).ok <==> Allowed(s, topic, session, r)
  {
  }

  // ---- Policy operations ----

  function InstallStep(s: State, known: set<Peer>): Outcome {
    if s.floors.Some? || s.floorFailed then Outcome(s, false)
    else Outcome(s.(floors := Some(known)), true)
  }

  function OtherTopics(grants: map<Key, Bound>, t: Topic): map<Key, Bound> {
    map k | k in grants && k.1 != t :: grants[k]
  }

  function OtherPeers(grants: map<Key, Bound>, p: Peer): map<Key, Bound> {
    map k | k in grants && k.0 != p :: grants[k]
  }

  predicate Registers(s: State, t: Topic, revision: nat, reserved: bool) {
    !reserved && if t in s.topics then revision > s.topics[t] else |s.topics| < MAX_TOPICS
  }

  function RegisterStep(s: State, t: Topic, revision: nat, reserved: bool): Outcome {
    if Registers(s, t, revision, reserved)
    then Outcome(s.(topics := s.topics[t := revision], grants := OtherTopics(s.grants, t)), true)
    else Outcome(s, false)
  }

  /** `ModernFloors::require_v2`: `durable` says whether the append reached the disk. */
  function Floored(known: set<Peer>, p: Peer, disk: Disk, durable: bool): (Option<set<Peer>>, set<Peer>) {
    match Refreshed(known, disk)
    case None => (None, known)
    case Some(peers) =>
      if p in peers then (Some(peers), peers)
      else if |peers| < MAX_FLOORS && durable then (Some(peers + {p}), peers)
      else (None, peers)
  }

  function RequireStep(s: State, p: Peer, disk: Disk, durable: bool): Outcome {
    if s.floors.None? then Outcome(s, false)
    else
      var f := Floored(s.floors.value, p, disk, durable);
      var s1 := if f.0.Some? then s.(floors := f.0) else s.(floors := Some(f.1), floorFailed := true);
      Outcome(s1.(grants := OtherPeers(s1.grants, p)), f.0.Some?)
  }

  predicate Attributed(g: Grant) {
    0 < |g.issuer| <= 128 && 0 < |g.reason| <= 256 && g.receiver == AUDITED_RECEIVER
  }

  predicate Eligible(s: State, g: Grant, session: Session) {
    && !s.rejectV1 && Attributed(g) && g.peer == session.peer
    && g.topic in s.topics && s.topics[g.topic] == g.verifierRevision
  }

  /** Strictly above the pair's latest revision, and within the inventory. */
  predicate Advances(s: State, k: Key, revision: nat) {
    && revision > (if k in s.revisions then s.revisions[k] else 0)
    && (k in s.revisions || |s.revisions| < MAX_GRANTS)
  }

  predicate Lasts(expires: Time, wall: Time) { 0 < expires - wall <= DAY_MS }

  datatype GrantReads = GrantReads(wall0: Time, disk: Disk, wall1: Time, mono: Time)

  function GrantStep(s: State, g: Grant, session: Session, r: GrantReads): Outcome {
    if !Eligible(s, g, session) then Outcome(s, false)
    else
      var c := ClockStep(s, r.wall0);
      if !c.ok then c
      else
        var f := FloorStep(c.state, r.disk);
        if !f.ok then f
        else if g.peer in f.state.floors.value || !Advances(f.state, (g.peer, g.topic), g.revision)
                || !Lasts(g.expires, r.wall1)
        then Outcome(f.state, false)
        else Outcome(Issued(f.state, g, r.mono + (g.expires - r.wall1), session), true)
  }

  function Issued(s: State, g: Grant, deadline: Time, session: Session): State {
    var k := (g.peer, g.topic);
    s.(revisions := s.revisions[k := g.revision], grants := s.grants[k := Bound(g, deadline, session)])
  }

  function RevokeStep(s: State, k: Key, revision: nat): Outcome {
    if Advances(s, k, revision)
    then Outcome(s.(revisions := s.revisions[k := revision], grants := s.grants - {k}), true)
    else Outcome(s, false)
  }

  /** Everything the acceptance of a grant depends on, on the state before. */
  predicate Grantable(s: State, g: Grant, session: Session, r: GrantReads) {
    var k := (g.peer, g.topic);
    && !s.rejectV1 && g.receiver == AUDITED_RECEIVER && g.peer == session.peer
    && 0 < |g.issuer| <= 128 && 0 < |g.reason| <= 256
    && g.topic in s.topics && s.topics[g.topic] == g.verifierRevision
    && (s.lastWall.Some? ==> s.lastWall.value <= r.wall0)
    && !s.floorFailed && s.floors.Some? && Refreshed(s.floors.value, r.disk).Some?
    && g.peer !in Refreshed(s.floors.value, r.disk).value
    && (if k in s.revisions then s.revisions[k] < g.revision else 0 < g.revision && |s.revisions| < MAX_GRANTS)
    && r.wall1 < g.expires <= r.wall1 + DAY_MS
  }

  /** A grant is accepted exactly then, and lasts on the monotonic clock as long as on the wall. */
  lemma GrantIff(s: State, g: Grant, session: Session, r: GrantReads)
    ensures GrantStep(s, g, session, r).ok <==> Grantable(s, g, session, r)
    ensures GrantStep(s, g, session, r).ok ==>
              && (g.peer, g.topic) in GrantStep(s, g, session, r).state.grants
              && GrantStep(s, g, session, r).state.grants[(g.peer, g.topic)].deadline - r.mono == g.expires - r.wall1
  {
  }

  /** A floor is recorded exactly when the store is there, reads, and has the peer or takes it. */
  lemma RequireIff(s: State, p: Peer, disk: Disk, durable: bool)
    ensures var x := RequireStep(s, p, disk, durable);
            && (x.ok <==> && s.floors.Some? && Refreshed(s.floors.value, disk).Some?
                          && var known := Refreshed(s.floors.value, disk).value;
                             p in known || (|known| < MAX_FLOORS && durable))
            && (x.ok ==> x.state.floors == Some(Refreshed(s.floors.value, disk).value + {p}))
  {
    if RequireStep(s, p, disk, durable).ok {
      var known := Refreshed(s.floors.value, disk).value;
      assert p in known ==> known + {p} == known;
    }
  }

  function PolicyStep(s: State, reject: bool): State {
    s.(rejectV1 := reject, grants := if reject then map[] else s.grants)
  }

  // ---- Traffic ----

  /** Inner verification under a topic's registered revision; the work of a control frame;
      the peer id of a public key; the signing key; the transport's own id. */
  datatype Oracle = Oracle(
    codec: Codec,
    verify: (Topic, nat, seq<Byte>) -> bool,
    work: Message -> Option<nat>,
    peerOf: PublicKey -> Peer,
    key: PublicKey,
    local: Peer)

  predicate InnerOk(o: Oracle, s: State, m: Message) {
    var t := m.header.topic;
    if m.header.kind == Eager
    then m.payload.Some? && (t in s.topics ==> o.verify(t, s.topics[t], m.payload.value))
    else m.header.kind != OutOfScope && o.work(m).Some?
  }

  predicate Adjacent(o: Oracle, from: Peer, session: Option<Session>, m: Message) {
    session.Some? && session.value.peer == from && o.peerOf(m.publicKey) == from
  }

  function Window(s: State, mono: Time): State {
    if s.controlWindow.None? || mono - s.controlWindow.value >= 1000
    then s.(controlWindow := Some(mono), controlWork := 0) else s
  }

  function ControlStep(o: Oracle, s: State, from: Peer, session: Option<Session>, m: Message, mono: Time): Outcome {
    if !Adjacent(o, from, session, m) || o.work(m).None? then Outcome(s, false)
    else
      var s1, work := Window(s, mono), o.work(m).value;
      if s1.controlWork + work > MAX_CONTROL_WORK then Outcome(s1, false)
      else Outcome(s1.(controlWork := s1.controlWork + work), true)
  }

  /** `ingress`. */
  function ReceiveStep(
    o: Oracle, s: State, from: Peer, session: Option<Session>, m: Message, r: Reads, mono: Time): Outcome
  {
    if m.header.topic !in s.topics then Outcome(s, true)
    else if m.header.kind == OutOfScope then Outcome(s, false)
    else
      var p :=
        if m.header.version != 1 then Outcome(s, true)
        else if session.None? || session.value.peer != from then Outcome(s, false)
        else PermitStep(s, m.header.topic, session.value, r);
      if !p.ok || m.header.kind == Eager then p else ControlStep(o, p.state, from, session, m, mono)
  }

  /** The control work the window that is current at `mono` still takes. */
  function BudgetLeft(s: State, mono: Time): int {
    if s.controlWindow.Some? && mono < s.controlWindow.value + 1000 then MAX_CONTROL_WORK - s.controlWork
    else MAX_CONTROL_WORK
  }

  /** Everything the acceptance of a frame depends on, on the state before: outside the registered
      topics nothing, and on them the kind, the licence of an outer v1 frame, and the adjacency
      and the work of a control frame. */
  predicate Admissible(o: Oracle, s: State, from: Peer, via: Option<Session>, m: Message, r: Reads, mono: Time) {
    m.header.topic in s.topics ==>
      && m.header.kind != OutOfScope
      && (m.header.version == 1 ==>
            via.Some? && via.value.peer == from && Allowed(s, m.header.topic, via.value, r))
      && (m.header.kind != Eager ==>
            && via.Some? && via.value.peer == from && o.peerOf(m.publicKey) == from
            && o.work(m).Some? && o.work(m).value <= BudgetLeft(s, mono))
  }

  /** The control work a frame is charged when it is accepted. */
  function Charge(o: Oracle, s: State, m: Message): nat {
    if m.header.topic in s.topics && m.header.kind != Eager && o.work(m).Some? then o.work(m).value else 0
  }

  lemma ControlIff(o: Oracle, s: State, from: Peer, via: Option<Session>, m: Message, mono: Time)
    ensures var x := ControlStep(o, s, from, via, m, mono);
            && (x.ok <==> && via.Some? && via.value.peer == from && o.peerOf(m.publicKey) == from
                          && o.work(m).Some? && o.work(m).value <= BudgetLeft(s, mono))
            && BudgetLeft(x.state, mono) == BudgetLeft(s, mono) - if x.ok then o.work(m).value else 0
  {
  }

  lemma PermitUsesNoBudget(s: State, topic: Topic, session: Session, r: Reads)
    ensures var x := PermitStep(s, topic, session, r).state;
            x.controlWindow == s.controlWindow && x.controlWork == s.controlWork
  {
  }

  /** A frame is accepted exactly then, outer v2 and v1 alike, and an accepted control frame uses
      exactly its work of what the current window has left; nothing else uses any. */
  lemma ReceiveIff(o: Oracle, s: State, from: Peer, via: Option<Session>, m: Message, r: Reads, mono: Time)
    ensures var x := ReceiveStep(o, s, from, via, m, r, mono);
            && (x.ok <==> Admissible(o, s, from, via, m, r, mono))
            && BudgetLeft(x.state, mono) == BudgetLeft(s, mono) - if x.ok then Charge(o, s, m) else 0
  {
    var p := s;
    if m.header.version == 1 && via.Some? && via.value.peer == from {
      PermitIff(s, m.header.topic, via.value, r);
      PermitUsesNoBudget(s, m.header.topic, via.value, r);
      p := PermitStep(s, m.header.topic, via.value, r).state;
    }
    ControlIff(o, p, from, via, m, mono);
  }

  // `send` takes the lock several times: to look the topic up, to verify the envelope, to
  // decide on the route, and to make a variant.

  /** The lookup: an unreadable frame, one on an unregistered topic, or a decoded one. */
  datatype Lookup = Unreadable | Unregistered | Known(msg: Message)

  function LookupStep(o: Oracle, s: State, wire: seq<Byte>): Lookup {
    var h, d := o.codec.header(wire), o.codec.decode(wire);
    if h.None? then Unreadable
    else if h.value.topic !in s.topics then Unregistered
    else if d.None? then Unreadable
    else Known(d.value)
  }

  predicate Sendable(o: Oracle, s: State, m: Message) {
    InnerOk(o, s, m) && (m.header.kind == Eager || o.peerOf(o.key) == o.local)
  }

  /** The route: guarded legacy, or not. */
  function RouteStep(s: State, peer: Peer, m: Message, session: Option<Session>, r: Reads): Outcome {
    if (peer, m.header.topic) !in s.grants || session.None? then Outcome(s, false)
    else PermitStep(s, m.header.topic, session.value, r)
  }

  /** The guard that a queued legacy send meets when the transport takes it. */
  function AdmitStep(o: Oracle, s: State, peer: Peer, m: Message, session: Session, r: Reads): Outcome {
    if session.peer != peer then Outcome(s, false)
    else
      var p := PermitStep(s, m.header.topic, session, r);
      Outcome(p.state, p.ok && InnerOk(o, p.state, m)
                       && (m.header.kind == Eager || o.peerOf(m.publicKey) == o.peerOf(o.key)))
  }

  /** A queued legacy send is admitted exactly with its destination's session, all an admission
      depends on, and a payload that verifies under the topic's revision of this moment or, for a
      control frame, the relay's own signature and a known amount of work. */
  lemma AdmitIff(o: Oracle, s: State, peer: Peer, m: Message, session: Session, r: Reads)
    ensures AdmitStep(o, s, peer, m, session, r).ok <==>
              && session.peer == peer && Allowed(s, m.header.topic, session, r)
              && if m.header.kind == Eager
                 then m.payload.Some? && o.verify(m.header.topic, s.topics[m.header.topic], m.payload.value)
                 else && m.header.kind != OutOfScope && o.work(m).Some?
                      && o.peerOf(m.publicKey) == o.peerOf(o.key)
  {
    PermitIff(s, m.header.topic, session, r);
  }

  /** A frame goes on to be sent exactly with a payload that verifies, where the topic has a
      verifier, or as a control frame of known work under a key that is the transport's own. */
  lemma SendableIff(o: Oracle, s: State, m: Message)
    requires m.header.topic in s.topics
    ensures Sendable(o, s, m) <==>
              if m.header.kind == Eager
              then m.payload.Some? && o.verify(m.header.topic, s.topics[m.header.topic], m.payload.value)
              else m.header.kind != OutOfScope && o.work(m).Some? && o.peerOf(o.key) == o.local
  {
  }
}
