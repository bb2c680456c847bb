/** Whole runs of the migration policy: registrations, grants, revocations, floors,
    signature-policy changes, traffic in both directions, queued sends and the variant
    cache, in any order. */
module MigrationRuns {
  import opened Common
  import opened Wire
  import opened MigrationPolicy
  import Variants = VariantCache

  /** Where a send on a registered topic stands between the lock sections of `send`. */
  datatype Stage =
    | Looked
    | Verified
    | Unlicensed                 // to be converted to outer v2
    | Ready(bytes: seq<Byte>)    // to be handed to the transport
    | Waiting                    // queued in the transport behind the legacy guard

  /** A send under way: past the lookup of an unregistered topic, or of a registered one. */
  datatype Send =
    | Passing(peer: Peer, wire: seq<Byte>)
    | Sending(peer: Peer, wire: seq<Byte>, msg: Message, stage: Stage)

  datatype World = World(state: State, cache: Variants.Cache, sends: map<nat, Send>)

  datatype Change =
    | Install(known: set<Peer>)
    | Register(topic: Topic, revision: nat, reserved: bool)
    | RequireV2(peer: Peer, disk: Disk, durable: bool)
    | Issue(grant: Grant, session: Session, at: GrantReads)
    | Revoke(key: Key, revision: nat)
    | SetPolicy(reject: bool)

  /** Each step is one lock section or one action outside the lock; a send may be dropped
      between any two. */
  datatype Step =
    | Configure(change: Change)
    | Receive(from: Peer, via: Option<Session>, msg: Message, at: Reads, mono: Time)
    | LookUp(id: nat, to: Peer, wire: seq<Byte>)
    | Verify(id: nat)
    | Route(id: nat, via: Option<Session>, at: Reads)
    | Convert(id: nat)
    | HandOver(id: nat)
    | Admit(id: nat, session: Session, at: Reads)
    | Drop(id: nat)

  function ChangeStep(s: State, c: Change): Outcome {
    match c
    case Install(known) => InstallStep(s, known)
    case Register(t, revision, reserved) => RegisterStep(s, t, revision, reserved)
    case RequireV2(p, disk, durable) => RequireStep(s, p, disk, durable)
    case Issue(g, session, r) => GrantStep(s, g, session, r)
    case Revoke(k, revision) => RevokeStep(s, k, revision)
    case SetPolicy(reject) => Outcome(PolicyStep(s, reject), true)
  }

  predicate At(w: World, id: nat, stage: Stage) {
    id in w.sends && w.sends[id].Sending? && w.sends[id].stage == stage
  }

  predicate Enabled(w: World, e: Step) {
    match e
    case Configure(_) => true
    case Receive(_, _, _, _, _) => true
    case LookUp(id, _, _) => id !in w.sends
    case Verify(id) => At(w, id, Looked)
    case Route(id, _, _) => At(w, id, Verified)
    case Convert(id) => At(w, id, Unlicensed)
    case HandOver(id) => id in w.sends && (w.sends[id].Sending? ==> w.sends[id].stage.Ready?)
    case Admit(id, _, _) => At(w, id, Waiting)
    case Drop(id) => id in w.sends
  }

  /** The world after a step, and the bytes it hands to the transport. */
  datatype Result = Result(world: World, sent: Option<seq<Byte>>)

  function DoConfigure(w: World, c: Change): World {
    var x := ChangeStep(w.state, c);
    w.(state := x.state, cache := if c.Register? && x.ok then Variants.EMPTY else w.cache)
  }

  function DoLookUp(o: Oracle, w: World, id: nat, to: Peer, wire: seq<Byte>): World {
    match LookupStep(o, w.state, wire)
    case Unreadable => w
    case Unregistered => w.(sends := w.sends[id := Passing(to, wire)])
    case Known(m) => w.(sends := w.sends[id := Sending(to, wire, m, Looked)])
  }

  function DoVerify(o: Oracle, w: World, id: nat): World
    requires At(w, id, Looked)
  {
    if Sendable(o, w.state, w.sends[id].msg) then w.(sends := w.sends[id := w.sends[id].(stage := Verified)])
    else w.(sends := w.sends - {id})
  }

  function DoRoute(w: World, id: nat, via: Option<Session>, r: Reads): World
    requires At(w, id, Verified)
  {
    var x := w.sends[id];
    var p := RouteStep(w.state, x.peer, x.msg, via, r);
    var stage := if p.ok then Waiting else if x.msg.header.version == 2 then Ready(x.wire) else Unlicensed;
    w.(state := p.state, sends := w.sends[id := x.(stage := stage)])
  }

  function DoConvert(o: Oracle, w: World, id: nat): World
    requires At(w, id, Unlicensed)
  {
    var x := w.sends[id];
    var f := Variants.Lookup(o.codec, w.cache, x.msg, 2, o.key, x.wire);
    w.(cache := f.cache, sends := w.sends[id := x.(stage := Ready(f.bytes))])
  }

  function DoHandOver(w: World, id: nat): Result
    requires Enabled(w, HandOver(id))
  {
    var x := w.sends[id];
    Result(w.(sends := w.sends - {id}), Some(if x.Passing? then x.wire else x.stage.bytes))
  }

  function DoAdmit(o: Oracle, w: World, id: nat, session: Session, r: Reads): Result
    requires At(w, id, Waiting)
  {
    var q := w.sends[id];
    var x := AdmitStep(o, w.state, q.peer, q.msg, session, r);
    if !x.ok then Result(World(x.state, w.cache, w.sends - {id}), None)
    else
      var f := Variants.Lookup(o.codec, w.cache, q.msg, 1, o.key, q.wire);
      Result(World(x.state, f.cache, w.sends - {id}), Some(f.bytes))
  }

  function Do(o: Oracle, w: World, e: Step): Result
    requires Enabled(w, e)
  {
    match e
    case Configure(c) => Result(DoConfigure(w, c), None)
    case Receive(from, via, m, r, mono) =>
      Result(w.(state := ReceiveStep(o, w.state, from, via, m, r, mono).state), None)
    case LookUp(id, to, wire) => Result(DoLookUp(o, w, id, to, wire), None)
    case Verify(id) => Result(DoVerify(o, w, id), None)
    case Route(id, via, r) => Result(DoRoute(w, id, via, r), None)
    case Convert(id) => Result(DoConvert(o, w, id), None)
    case HandOver(id) => DoHandOver(w, id)
    case Admit(id, session, r) => DoAdmit(o, w, id, session, r)
    case Drop(id) => Result(w.(sends := w.sends - {id}), None)
  }

  /** The session and readings under which a frame was admitted. */
  datatype Licence = Licence(session: Session, at: Reads)

  /** A frame whose header says outer v1, sent or accepted. `known` says that its topic was
      registered when the frame's topic was looked up. */
  datatype Frame = Frame(outbound: bool, known: bool, peer: Peer, topic: Topic, under: Option<Licence>)

  function Outbound(
    o: Oracle, sent: Option<seq<Byte>>, known: bool, peer: Peer, under: Option<Licence>): Option<Frame>
  {
    if sent.None? then None
    else
      var h := o.codec.header(sent.value);
      if h.Some? && h.value.version == 1 then Some(Frame(true, known, peer, h.value.topic, under)) else None
  }

  /** The outer-v1 frame of a step: an accepted one, or whatever bytes it hands to the
      transport, read by their header. */
  function LegacyFrame(o: Oracle, w: World, e: Step): Option<Frame>
    requires Enabled(w, e)
  {
    match e
    case Receive(from, via, m, r, mono) =>
      var under := if via.Some? then Some(Licence(via.value, r)) else None;
      if m.header.version == 1 && ReceiveStep(o, w.state, from, via, m, r, mono).ok
      then Some(Frame(false, m.header.topic in w.state.topics, from, m.header.topic, under)) else None
    case HandOver(id) => Outbound(o, DoHandOver(w, id).sent, w.sends[id].Sending?, w.sends[id].peer, None)
    case Admit(id, session, r) =>
      Outbound(o, DoAdmit(o, w, id, session, r).sent, true, w.sends[id].peer, Some(Licence(session, r)))
    case _ => None
  }

  // ---- The invariant ----

  predicate GrantOk(topics: map<Topic, nat>, revisions: map<Key, nat>, k: Key, b: Bound) {
    && b.grant.peer == k.0 == b.session.peer && b.grant.topic == k.1 && Attributed(b.grant)
    && k in revisions && revisions[k] == b.grant.revision
    && k.1 in topics && topics[k.1] == b.grant.verifierRevision
  }

  predicate GrantsOk(topics: map<Topic, nat>, revisions: map<Key, nat>, grants: map<Key, Bound>) {
    forall k :: k in grants ==> GrantOk(topics, revisions, k, grants[k])
  }

  predicate Inv(s: State) {
    && GrantsOk(s.topics, s.revisions, s.grants)
    && (s.rejectV1 ==> s.grants == map[])
    && (s.grants != map[] ==> s.floors.Some?)
    && |s.topics| <= MAX_TOPICS && |s.revisions| <= MAX_GRANTS && s.controlWork <= MAX_CONTROL_WORK
  }

  /** A send past the lookup of a registered topic is the frame it was submitted as; what is
      ready to be handed over is that frame as outer v2. */
  predicate SendOk(o: Oracle, topics: map<Topic, nat>, x: Send) {
    x.Sending? ==>
      && o.codec.decode(x.wire) == Some(x.msg) && x.msg.header.topic in topics
      && (x.stage.Ready? ==> Variants.Faithful(o.codec, x.stage.bytes, x.msg, 2))
  }

  predicate SendsOk(o: Oracle, topics: map<Topic, nat>, sends: map<nat, Send>) {
    forall id :: id in sends ==> SendOk(o, topics, sends[id])
  }

  ghost predicate WorldInv(o: Oracle, w: World) {
    Inv(w.state) && Variants.Inv(o.codec, o.key, w.cache) && SendsOk(o, w.state.topics, w.sends)
  }

  predicate SubMap(a: map<Key, Bound>, b: map<Key, Bound>) {
    forall k :: k in a ==> k in b && a[k] == b[k]
  }

  /** Steps that only take grants away and move clocks, floors and the control window. */
  predicate OnlyDrops(s: State, s': State) {
    && SubMap(s'.grants, s.grants) && s'.topics == s.topics && s'.revisions == s.revisions
    && s'.rejectV1 == s.rejectV1 && FloorsGrow(s.floors, s'.floors) && (s.floorFailed ==> s'.floorFailed)
    && (s.controlWork <= MAX_CONTROL_WORK ==> s'.controlWork <= MAX_CONTROL_WORK)
  }

  predicate FloorsGrow(a: Option<set<Peer>>, b: Option<set<Peer>>) {
    a.Some? ==> b.Some? && a.value <= b.value
  }

  lemma DropsCompose(a: State, b: State, c: State)
    requires OnlyDrops(a, b) && OnlyDrops(b, c)
    ensures OnlyDrops(a, c)
  {
  }

  lemma DropsKeepInv(s: State, s': State)
    requires Inv(s) && OnlyDrops(s, s')
    ensures Inv(s')
  {
    if s.grants == map[] {
      assert s'.grants == map[];
    }
  }

  lemma ClockDrops(s: State, wall: Time)
    ensures OnlyDrops(s, ClockStep(s, wall).state)
  {
  }

  lemma FloorDrops(s: State, disk: Disk)
    ensures OnlyDrops(s, FloorStep(s, disk).state)
  {
  }

  lemma PermitDrops(s: State, t: Topic, session: Session, r: Reads)
    ensures OnlyDrops(s, PermitStep(s, t, session, r).state)
  {
    var s1 := DropExpired(s, (session.peer, t), r);
    assert OnlyDrops(s, s1);
    var s2 := ClockStep(s1, r.wall1).state;
    ClockDrops(s1, r.wall1);
    DropsCompose(s, s1, s2);
    FloorDrops(s2, r.disk);
    DropsCompose(s, s2, FloorStep(s2, r.disk).state);
  }

  lemma ControlDrops(o: Oracle, s: State, from: Peer, via: Option<Session>, m: Message, mono: Time)
    ensures OnlyDrops(s, ControlStep(o, s, from, via, m, mono).state)
  {
  }

  lemma ReceiveDrops(o: Oracle, s: State, from: Peer, via: Option<Session>, m: Message, r: Reads, mono: Time)
    ensures OnlyDrops(s, ReceiveStep(o, s, from, via, m, r, mono).state)
  {
    var s1 := s;
    if m.header.version == 1 && via.Some? && via.value.peer == from {
      s1 := PermitStep(s, m.header.topic, via.value, r).state;
      PermitDrops(s, m.header.topic, via.value, r);
    }
    ControlDrops(o, s1, from, via, m, mono);
    DropsCompose(s, s1, ControlStep(o, s1, from, via, m, mono).state);
  }

  lemma RouteDrops(s: State, peer: Peer, m: Message, via: Option<Session>, r: Reads)
    ensures OnlyDrops(s, RouteStep(s, peer, m, via, r).state)
  {
    if via.Some? {
      PermitDrops(s, m.header.topic, via.value, r);
    }
  }

  lemma AdmitDrops(o: Oracle, s: State, peer: Peer, m: Message, session: Session, r: Reads)
    ensures OnlyDrops(s, AdmitStep(o, s, peer, m, session, r).state)
  {
    PermitDrops(s, m.header.topic, session, r);
  }

  /** Traffic never adds a grant. */
  lemma TrafficDrops(o: Oracle, w: World, e: Step)
    requires Enabled(w, e) && !e.Configure?
    ensures OnlyDrops(w.state, Do(o, w, e).world.state)
  {
    match e
    case Receive(from, via, m, r, mono) => ReceiveDrops(o, w.state, from, via, m, r, mono);
    case LookUp(_, _, _) =>
    case Verify(_) =>
    case Route(id, via, r) => RouteDrops(w.state, w.sends[id].peer, w.sends[id].msg, via, r);
    case Convert(_) =>
    case HandOver(_) =>
    case Admit(id, session, r) => AdmitDrops(o, w.state, w.sends[id].peer, w.sends[id].msg, session, r);
    case Drop(_) =>
  }

  /** Everything `permitted` vouches for, in the state it leaves behind. */
  predicate Licensed(s: State, t: Topic, session: Session, r: Reads) {
    var k := (session.peer, t);
    && k in s.grants && s.grants[k].session == session
    && k in s.revisions && s.grants[k].grant.revision == s.revisions[k]
    && t in s.topics && s.grants[k].grant.verifierRevision == s.topics[t]
    && r.mono1 < s.grants[k].deadline && r.wall2 < s.grants[k].grant.expires
    && !s.rejectV1 && !s.floorFailed && s.floors.Some? && session.peer !in s.floors.value
  }

  lemma PermitLicenses(s: State, t: Topic, session: Session, r: Reads)
    requires Inv(s) && PermitStep(s, t, session, r).ok
    ensures Licensed(PermitStep(s, t, session, r).state, t, session, r)
  {
  }

  lemma TopicSize(topics: map<Topic, nat>, t: Topic, revision: nat)
    ensures t in topics ==> |topics[t := revision]| == |topics|
    ensures t !in topics ==> |topics[t := revision]| == |topics| + 1
  {
    var m := topics[t := revision];
    assert m.Keys == topics.Keys + {t};
    assert |m| == |m.Keys| && |topics| == |topics.Keys|;
  }

  lemma RegisterGrants(s: State, t: Topic, revision: nat)
    requires GrantsOk(s.topics, s.revisions, s.grants)
    ensures GrantsOk(s.topics[t := revision], s.revisions, OtherTopics(s.grants, t))
    ensures s.grants == map[] ==> OtherTopics(s.grants, t) == map[]
  {
  }

  lemma RegisterKeeps(s: State, t: Topic, revision: nat, reserved: bool)
    requires Inv(s)
    ensures Inv(RegisterStep(s, t, revision, reserved).state)
  {
    TopicSize(s.topics, t, revision);
    RegisterGrants(s, t, revision);
  }

  lemma RequireDrops(s: State, p: Peer, disk: Disk, durable: bool)
    ensures OnlyDrops(s, RequireStep(s, p, disk, durable).state)
  {
  }

  lemma AdvanceSize(s: State, k: Key, revision: nat)
    requires |s.revisions| <= MAX_GRANTS && Advances(s, k, revision)
    ensures |s.revisions[k := revision]| <= MAX_GRANTS
  {
    if k in s.revisions {
      assert s.revisions[k := revision].Keys == s.revisions.Keys;
    } else {
      assert s.revisions[k := revision].Keys == s.revisions.Keys + {k};
    }
  }

  lemma IssuedKeeps(s: State, g: Grant, deadline: Time, session: Session)
    requires Inv(s) && Eligible(s, g, session) && Advances(s, (g.peer, g.topic), g.revision) && s.floors.Some?
    ensures Inv(Issued(s, g, deadline, session))
  {
    AdvanceSize(s, (g.peer, g.topic), g.revision);
  }

  lemma IssueKeeps(s: State, g: Grant, session: Session, r: GrantReads)
    requires Inv(s)
    ensures Inv(GrantStep(s, g, session, r).state)
  {
    if Eligible(s, g, session) {
      var c := ClockStep(s, r.wall0).state;
      var f := FloorStep(c, r.disk).state;
      ClockDrops(s, r.wall0);
      DropsKeepInv(s, c);
      FloorDrops(c, r.disk);
      DropsKeepInv(c, f);
      if GrantStep(s, g, session, r).ok {
        IssuedKeeps(f, g, r.mono + (g.expires - r.wall1), session);
      }
    }
  }

  lemma RevokeKeeps(s: State, k: Key, revision: nat)
    requires Inv(s)
    ensures Inv(RevokeStep(s, k, revision).state)
  {
    if Advances(s, k, revision) {
      AdvanceSize(s, k, revision);
    }
  }

  lemma ChangeKeeps(s: State, c: Change)
    requires Inv(s)
    ensures Inv(ChangeStep(s, c).state)
  {
    match c
    case Install(_) =>
    case Register(t, revision, reserved) => RegisterKeeps(s, t, revision, reserved);
    case RequireV2(p, disk, durable) =>
      RequireDrops(s, p, disk, durable);
      DropsKeepInv(s, RequireStep(s, p, disk, durable).state);
    case Issue(g, session, r) => IssueKeeps(s, g, session, r);
    case Revoke(k, revision) => RevokeKeeps(s, k, revision);
    case SetPolicy(_) =>
  }

  lemma SendsGrow(o: Oracle, topics: map<Topic, nat>, topics': map<Topic, nat>, sends: map<nat, Send>)
    requires SendsOk(o, topics, sends) && TopicsGrow(topics, topics')
    ensures SendsOk(o, topics', sends)
  {
  }

  lemma SendsPut(o: Oracle, topics: map<Topic, nat>, sends: map<nat, Send>, id: nat, x: Send)
    requires SendsOk(o, topics, sends) && SendOk(o, topics, x)
    ensures SendsOk(o, topics, sends[id := x])
  {
  }

  lemma ConfigureKeeps(o: Oracle, w: World, c: Change)
    requires WorldInv(o, w)
    ensures WorldInv(o, DoConfigure(w, c))
  {
    ChangeKeeps(w.state, c);
    ChangeForward(w.state, c);
    SendsGrow(o, w.state.topics, ChangeStep(w.state, c).state.topics, w.sends);
    assert Variants.Inv(o.codec, o.key, Variants.EMPTY);
  }

  lemma LookUpKeeps(o: Oracle, w: World, id: nat, to: Peer, wire: seq<Byte>)
    requires o.codec.Sound() && WorldInv(o, w)
    ensures WorldInv(o, DoLookUp(o, w, id, to, wire))
  {
    match LookupStep(o, w.state, wire)
    case Unreadable =>
    case Unregistered => SendsPut(o, w.state.topics, w.sends, id, Passing(to, wire));
    case Known(m) => SendsPut(o, w.state.topics, w.sends, id, Sending(to, wire, m, Looked));
  }

  lemma VerifyKeeps(o: Oracle, w: World, id: nat)
    requires WorldInv(o, w) && At(w, id, Looked)
    ensures WorldInv(o, DoVerify(o, w, id))
  {
    assert SendOk(o, w.state.topics, w.sends[id]);
    SendsPut(o, w.state.topics, w.sends, id, w.sends[id].(stage := Verified));
  }

  lemma RouteKeeps(o: Oracle, w: World, id: nat, via: Option<Session>, r: Reads)
    requires WorldInv(o, w) && At(w, id, Verified)
    ensures WorldInv(o, DoRoute(w, id, via, r))
  {
    var x := w.sends[id];
    assert SendOk(o, w.state.topics, x);
    RouteDrops(w.state, x.peer, x.msg, via, r);
    DropsKeepInv(w.state, RouteStep(w.state, x.peer, x.msg, via, r).state);
    SendsPut(o, w.state.topics, w.sends, id, DoRoute(w, id, via, r).sends[id]);
  }

  lemma ConvertKeeps(o: Oracle, w: World, id: nat)
    requires o.codec.Sound() && WorldInv(o, w) && At(w, id, Unlicensed)
    ensures WorldInv(o, DoConvert(o, w, id))
  {
    var x := w.sends[id];
    assert SendOk(o, w.state.topics, x);
    Variants.LookupKeeps(o.codec, w.cache, x.msg, 2, o.key, x.wire);
    SendsPut(o, w.state.topics, w.sends, id, DoConvert(o, w, id).sends[id]);
  }

  lemma AdmitKeeps(o: Oracle, w: World, id: nat, session: Session, r: Reads)
    requires o.codec.Sound() && WorldInv(o, w) && At(w, id, Waiting)
    ensures WorldInv(o, DoAdmit(o, w, id, session, r).world)
  {
    var q := w.sends[id];
    AdmitDrops(o, w.state, q.peer, q.msg, session, r);
    DropsKeepInv(w.state, AdmitStep(o, w.state, q.peer, q.msg, session, r).state);
    assert SendOk(o, w.state.topics, q);
    Variants.LookupKeeps(o.codec, w.cache, q.msg, 1, o.key, q.wire);
  }

  lemma StepKeeps(o: Oracle, w: World, e: Step)
    requires o.codec.Sound() && WorldInv(o, w) && Enabled(w, e)
    ensures WorldInv(o, Do(o, w, e).world)
  {
    match e
    case Configure(c) => ConfigureKeeps(o, w, c);
    case Receive(from, via, m, r, mono) =>
      ReceiveDrops(o, w.state, from, via, m, r, mono);
      DropsKeepInv(w.state, ReceiveStep(o, w.state, from, via, m, r, mono).state);
    case LookUp(id, to, wire) => LookUpKeeps(o, w, id, to, wire);
    case Verify(id) => VerifyKeeps(o, w, id);
    case Route(id, via, r) => RouteKeeps(o, w, id, via, r);
    case Convert(id) => ConvertKeeps(o, w, id);
    case HandOver(_) =>
    case Admit(id, session, r) => AdmitKeeps(o, w, id, session, r);
    case Drop(_) =>
  }

  // ---- Runs ----

  ghost predicate Next(o: Oracle, w: World, e: Step, w': World) { Enabled(w, e) && Do(o, w, e).world == w' }

  const START := World(NEW, Variants.EMPTY, map[])

  /** `steps[i]` leads from `ws[i]` to `ws[i + 1]`. */
  ghost predicate IsRun(o: Oracle, ws: seq<World>, steps: seq<Step>) {
    && o.codec.Sound() && |ws| == |steps| + 1 && ws[0] == START
    && forall i :: 0 <= i < |steps| ==> Next(o, ws[i], steps[i], ws[i + 1])
  }

  /** In every state of every run: the grant table is consistent, the cache's account is
      exact, bounded and its entries faithful, and sends under way are what was submitted. */
  lemma {:induction false} RunKeepsInv(o: Oracle, ws: seq<World>, steps: seq<Step>, i: nat)
    requires IsRun(o, ws, steps) && i < |ws|
    ensures WorldInv(o, ws[i])
  {
    if i == 0 {
      assert Variants.Inv(o.codec, o.key, Variants.EMPTY);
    } else {
      RunKeepsInv(o, ws, steps, i - 1);
      assert Next(o, ws[i - 1], steps[i - 1], ws[i - 1 + 1]);
      StepKeeps(o, ws[i - 1], steps[i - 1]);
    }
  }

  /** What is promised of an outer-v1 frame on a registered topic, in the state it leaves. */
  predicate FrameLicensed(s: State, f: Frame) {
    && f.under.Some? && f.under.value.session.peer == f.peer
    && Licensed(s, f.topic, f.under.value.session, f.under.value.at)
  }

  lemma ReceiveLicensed(o: Oracle, s: State, from: Peer, via: Option<Session>, m: Message, r: Reads, mono: Time)
    requires Inv(s) && m.header.version == 1 && m.header.topic in s.topics
    requires ReceiveStep(o, s, from, via, m, r, mono).ok
    ensures via.Some? && via.value.peer == from
    ensures Licensed(ReceiveStep(o, s, from, via, m, r, mono).state, m.header.topic, via.value, r)
  {
    PermitLicenses(s, m.header.topic, via.value, r);
  }

  /** Bytes handed over without the legacy guard are the submitted frame as outer v2, if its
      topic was registered at the lookup. */
  lemma HandOverIsModern(o: Oracle, w: World, id: nat)
    requires o.codec.Sound() && WorldInv(o, w) && Enabled(w, HandOver(id)) && w.sends[id].Sending?
    ensures var x, sent := w.sends[id], DoHandOver(w, id).sent;
            && sent.Some? && Variants.Faithful(o.codec, sent.value, x.msg, 2)
            && o.codec.decode(x.wire) == Some(x.msg)
            && o.codec.header(sent.value).Some? && o.codec.header(sent.value).value.version == 2
  {
    assert SendOk(o, w.state.topics, w.sends[id]);
  }

  lemma AdmitLicensed(o: Oracle, w: World, id: nat, session: Session, r: Reads)
    requires o.codec.Sound() && WorldInv(o, w) && At(w, id, Waiting) && DoAdmit(o, w, id, session, r).sent.Some?
    ensures var x, q := DoAdmit(o, w, id, session, r), w.sends[id];
            && session.peer == q.peer && Licensed(x.world.state, q.msg.header.topic, session, r)
            && InnerOk(o, x.world.state, q.msg) && Variants.Faithful(o.codec, x.sent.value, q.msg, 1)
            && o.codec.header(x.sent.value) == Some(o.codec.decode(x.sent.value).value.header)
  {
    var q := w.sends[id];
    assert SendOk(o, w.state.topics, q);
    PermitLicenses(w.state, q.msg.header.topic, session, r);
    Variants.LookupKeeps(o.codec, w.cache, q.msg, 1, o.key, q.wire);
  }

  lemma FrameStep(o: Oracle, w: World, e: Step)
    requires o.codec.Sound() && WorldInv(o, w) && Enabled(w, e) && LegacyFrame(o, w, e).Some?
    requires LegacyFrame(o, w, e).value.known
    ensures FrameLicensed(Do(o, w, e).world.state, LegacyFrame(o, w, e).value)
    ensures LegacyFrame(o, w, e).value.outbound ==> e.Admit?
  {
    match e
    case Receive(from, via, m, r, mono) => ReceiveLicensed(o, w.state, from, via, m, r, mono);
    case HandOver(id) => HandOverIsModern(o, w, id);
    case Admit(id, session, r) => AdmitLicensed(o, w, id, session, r);
  }

  /** Legacy safety, by the bytes and lock section by lock section: in every run, any bytes
      handed to the transport whose header says outer v1, and any such frame accepted, on a
      topic that was registered when it was looked up, have at that moment a live grant for
      exactly their session, at the pair's latest revision, for the registered verifier
      revision, with no floor for the peer and no RejectV1. */
  lemma LegacyFramesAreLicensed(o: Oracle, ws: seq<World>, steps: seq<Step>, i: nat)
    requires IsRun(o, ws, steps) && i < |steps|
    requires Enabled(ws[i], steps[i]) && LegacyFrame(o, ws[i], steps[i]).Some?
    requires LegacyFrame(o, ws[i], steps[i]).value.known
    ensures FrameLicensed(ws[i + 1].state, LegacyFrame(o, ws[i], steps[i]).value)
  {
    RunKeepsInv(o, ws, steps, i);
    assert Next(o, ws[i], steps[i], ws[i + 1]);
    FrameStep(o, ws[i], steps[i]);
  }

  /** Such bytes carry the topic, kind and payload that were submitted, and a data frame an
      inner envelope verified under the registered revision, however long it was queued. */
  lemma LegacyBytesAreFaithful(o: Oracle, ws: seq<World>, steps: seq<Step>, i: nat)
    requires IsRun(o, ws, steps) && i < |steps|
    requires Enabled(ws[i], steps[i]) && LegacyFrame(o, ws[i], steps[i]).Some?
    requires var f := LegacyFrame(o, ws[i], steps[i]).value; f.outbound && f.known
    ensures steps[i].Admit? && Do(o, ws[i], steps[i]).sent.Some?
    ensures var q := ws[i].sends[steps[i].id];
            && Variants.Faithful(o.codec, Do(o, ws[i], steps[i]).sent.value, q.msg, 1)
            && o.codec.decode(q.wire) == Some(q.msg) && InnerOk(o, ws[i + 1].state, q.msg)
  {
    RunKeepsInv(o, ws, steps, i);
    assert Next(o, ws[i], steps[i], ws[i + 1]);
    FrameStep(o, ws[i], steps[i]);
    var e := steps[i];
    assert SendOk(o, ws[i].state.topics, ws[i].sends[e.id]);
    AdmitLicensed(o, ws[i], e.id, e.session, e.at);
  }

  /** A send whose destination has no grant at the routing decision is not queued as legacy. */
  lemma UngrantedIsNotQueued(w: World, id: nat, via: Option<Session>, r: Reads)
    requires At(w, id, Verified) && (w.sends[id].peer, w.sends[id].msg.header.topic) !in w.state.grants
    ensures var x := DoRoute(w, id, via, r).sends[id]; x.Sending? && (x.stage == Unlicensed || x.stage.Ready?)
  {
  }

  // ---- The lookup decides ----

  /** Send `id` began at an earlier step, with a lookup that found its topic registered or not. */
  ghost predicate BeganWith(
    o: Oracle, ws: seq<World>, steps: seq<Step>, n: nat, id: nat, peer: Peer, wire: seq<Byte>, known: bool)
    requires n <= |steps| < |ws|
  {
    exists j :: 0 <= j < n && steps[j] == LookUp(id, peer, wire) && o.codec.header(wire).Some?
                && (o.codec.header(wire).value.topic in ws[j].state.topics) == known
  }

  ghost predicate AllBegan(o: Oracle, ws: seq<World>, steps: seq<Step>, n: nat)
    requires n <= |steps| < |ws|
  {
    forall id :: id in ws[n].sends ==>
      BeganWith(o, ws, steps, n, id, ws[n].sends[id].peer, ws[n].sends[id].wire, ws[n].sends[id].Sending?)
  }

  /** Steps keep the peer, the wire bytes and the kind of every send but a new one. */
  lemma SendKept(o: Oracle, w: World, e: Step, id: nat)
    requires Enabled(w, e) && id in Do(o, w, e).world.sends
    ensures var y := Do(o, w, e).world.sends[id];
            if id in w.sends
            then y.peer == w.sends[id].peer && y.wire == w.sends[id].wire && y.Sending? == w.sends[id].Sending?
            else e == LookUp(id, y.peer, y.wire) && o.codec.header(y.wire).Some?
                 && (o.codec.header(y.wire).value.topic in w.state.topics) == y.Sending?
  {
  }

  lemma {:induction false} RunBegan(o: Oracle, ws: seq<World>, steps: seq<Step>, n: nat)
    requires IsRun(o, ws, steps) && n < |ws|
    ensures AllBegan(o, ws, steps, n)
  {
    if n > 0 {
      RunBegan(o, ws, steps, n - 1);
      forall id | id in ws[n].sends
        ensures BeganWith(o, ws, steps, n, id, ws[n].sends[id].peer, ws[n].sends[id].wire, ws[n].sends[id].Sending?)
      {
        BeganStep(o, ws, steps, n - 1, id);
      }
    }
  }

  lemma BeganStep(o: Oracle, ws: seq<World>, steps: seq<Step>, n: nat, id: nat)
    requires IsRun(o, ws, steps) && n < |steps| && AllBegan(o, ws, steps, n) && id in ws[n + 1].sends
    ensures var y := ws[n + 1].sends[id]; BeganWith(o, ws, steps, n + 1, id, y.peer, y.wire, y.Sending?)
  {
    var y := ws[n + 1].sends[id];
    assert Next(o, ws[n], steps[n], ws[n + 1]);
    SendKept(o, ws[n], steps[n], id);
    if id in ws[n].sends {
      assert BeganWith(o, ws, steps, n, id, y.peer, y.wire, y.Sending?);
      var j :| 0 <= j < n && steps[j] == LookUp(id, y.peer, y.wire)
               && (o.codec.header(y.wire).value.topic in ws[j].state.topics) == y.Sending?;
      assert steps[j] == LookUp(id, y.peer, y.wire);
    } else {
      assert steps[n] == LookUp(id, y.peer, y.wire);
    }
  }

  /** `known` is what the lookup of that very send found: an outbound outer-v1 frame began
      with a lookup that found its topic registered, exactly if it is `known`. */
  lemma KnownMeansRegisteredAtLookup(o: Oracle, ws: seq<World>, steps: seq<Step>, i: nat)
    requires IsRun(o, ws, steps) && i < |steps|
    requires Enabled(ws[i], steps[i]) && LegacyFrame(o, ws[i], steps[i]).Some?
    requires LegacyFrame(o, ws[i], steps[i]).value.outbound
    ensures steps[i].HandOver? || steps[i].Admit?
    ensures var x := ws[i].sends[steps[i].id];
            BeganWith(o, ws, steps, i, steps[i].id, x.peer, x.wire, LegacyFrame(o, ws[i], steps[i]).value.known)
  {
    RunBegan(o, ws, steps, i);
  }

  /** And the lookup is what matters: whatever the state, an outer-v1 frame looked up while its
      topic is not registered can be overtaken by the registration. It is then handed over
      on a registered topic on which nobody is licensed. */
  lemma RegistrationOvertakes(o: Oracle, w: World, id: nat, to: Peer, wire: seq<Byte>)
    requires id !in w.sends && o.codec.header(wire).Some? && o.codec.header(wire).value.version == 1
    requires o.codec.header(wire).value.topic !in w.state.topics && |w.state.topics| < MAX_TOPICS
    ensures var t := o.codec.header(wire).value.topic;
            var w1 := DoLookUp(o, w, id, to, wire);
            var w2 := DoConfigure(w1, Register(t, 1, false));
            && t in w2.state.topics && Enabled(w2, HandOver(id))
            && LegacyFrame(o, w2, HandOver(id)) == Some(Frame(true, false, to, t, None))
            && forall session, r :: !Licensed(DoHandOver(w2, id).world.state, t, session, r)
  {
  }

  /** A grant does what it is for: until its deadline and expiry, with the clock not going
      back, the floors unchanged and nothing else changed, its session is admitted. */
  lemma GrantIsUsable(s: State, g: Grant, session: Session, at: GrantReads, r: Reads)
    requires GrantStep(s, g, session, at).ok && r.disk == Same && at.wall0 <= r.wall1
    requires r.wall0 < g.expires && r.wall2 < g.expires
    requires r.mono0 < at.mono + (g.expires - at.wall1) && r.mono1 < at.mono + (g.expires - at.wall1)
    ensures PermitStep(GrantStep(s, g, session, at).state, g.topic, session, r).ok
  {
    PermitIff(GrantStep(s, g, session, at).state, g.topic, session, r);
  }

  // ---- What never goes back ----

  predicate RevisionsGrow(a: map<Key, nat>, b: map<Key, nat>) {
    forall k :: k in a ==> k in b && a[k] <= b[k]
  }

  predicate TopicsGrow(a: map<Topic, nat>, b: map<Topic, nat>) {
    forall t :: t in a ==> t in b && a[t] <= b[t]
  }

  predicate Forward(s: State, s': State) {
    && RevisionsGrow(s.revisions, s'.revisions) && TopicsGrow(s.topics, s'.topics)
    && FloorsGrow(s.floors, s'.floors) && (s.floorFailed ==> s'.floorFailed)
  }

  lemma StepForward(o: Oracle, w: World, e: Step)
    requires Enabled(w, e)
    ensures Forward(w.state, Do(o, w, e).world.state)
  {
    if e.Configure? {
      ChangeForward(w.state, e.change);
    } else {
      TrafficDrops(o, w, e);
    }
  }

  lemma IssueForward(s: State, g: Grant, session: Session, r: GrantReads)
    ensures Forward(s, GrantStep(s, g, session, r).state)
  {
    var c := ClockStep(s, r.wall0).state;
    ClockDrops(s, r.wall0);
    FloorDrops(c, r.disk);
    DropsCompose(s, c, FloorStep(c, r.disk).state);
  }

  lemma ChangeForward(s: State, c: Change)
    ensures Forward(s, ChangeStep(s, c).state)
  {
    match c
    case Install(_) =>
    case Register(_, _, _) =>
    case RequireV2(p, disk, durable) => RequireDrops(s, p, disk, durable);
    case Issue(g, session, r) => IssueForward(s, g, session, r);
    case Revoke(_, _) =>
    case SetPolicy(_) =>
  }

  lemma {:induction false} RunForward(o: Oracle, ws: seq<World>, steps: seq<Step>, i: nat, j: nat)
    requires IsRun(o, ws, steps) && i <= j < |ws|
    ensures Forward(ws[i].state, ws[j].state)
  {
    if i < j {
      RunForward(o, ws, steps, i, j - 1);
      assert Next(o, ws[j - 1], steps[j - 1], ws[j - 1 + 1]);
      StepForward(o, ws[j - 1], steps[j - 1]);
    }
  }

  /** A grant or a revocation of `k` that was accepted, and its revision. */
  function Recorded(s: State, e: Step, k: Key): Option<nat> {
    if !e.Configure? || !ChangeStep(s, e.change).ok then None
    else match e.change
      case Issue(g, _, _) => if (g.peer, g.topic) == k then Some(g.revision) else None
      case Revoke(x, revision) => if x == k then Some(revision) else None
      case _ => None
  }

  lemma RecordedIsLatest(s: State, e: Step, k: Key)
    requires Recorded(s, e, k).Some?
    ensures var s' := ChangeStep(s, e.change).state;
            k in s'.revisions && s'.revisions[k] == Recorded(s, e, k).value
    ensures k in s.revisions ==> s.revisions[k] < Recorded(s, e, k).value
  {
  }

  /** Accepted revisions of a pair strictly increase over the whole run, across grants and
      revocations: none is ever replayed. */
  lemma NoReplay(o: Oracle, ws: seq<World>, steps: seq<Step>, i: nat, j: nat, k: Key)
    requires IsRun(o, ws, steps) && i < j < |steps|
    requires Recorded(ws[i].state, steps[i], k).Some? && Recorded(ws[j].state, steps[j], k).Some?
    ensures Recorded(ws[i].state, steps[i], k).value < Recorded(ws[j].state, steps[j], k).value
  {
    assert Next(o, ws[i], steps[i], ws[i + 1]);
    RecordedIsLatest(ws[i].state, steps[i], k);
    RunForward(o, ws, steps, i + 1, j);
    RecordedIsLatest(ws[j].state, steps[j], k);
  }

  /** Under RejectV1 there are no grants, in every reachable state. */
  lemma RejectV1MeansNoGrants(o: Oracle, ws: seq<World>, steps: seq<Step>, i: nat)
    requires IsRun(o, ws, steps) && i < |ws| && ws[i].state.rejectV1
    ensures ws[i].state.grants == map[]
  {
    RunKeepsInv(o, ws, steps, i);
  }

  /** A modern floor is for ever: once a peer has one, no outer-v1 frame of that peer on a
      topic registered at its lookup is sent or accepted again, whatever is granted later. */
  lemma FlooredForever(o: Oracle, ws: seq<World>, steps: seq<Step>, i: nat, j: nat)
    requires IsRun(o, ws, steps) && i <= j < |steps|
    requires Enabled(ws[j], steps[j]) && LegacyFrame(o, ws[j], steps[j]).Some?
    requires LegacyFrame(o, ws[j], steps[j]).value.known && ws[i].state.floors.Some?
    ensures LegacyFrame(o, ws[j], steps[j]).value.peer !in ws[i].state.floors.value
  {
    LegacyFramesAreLicensed(o, ws, steps, j);
    RunForward(o, ws, steps, i, j + 1);
  }

  /** So is a failure of the floor store: from then on no outer-v1 frame at all passes on a
      topic registered at its lookup, though grants may still be in the table. */
  lemma FailedFloorsBarAll(o: Oracle, ws: seq<World>, steps: seq<Step>, i: nat, j: nat)
    requires IsRun(o, ws, steps) && i <= j < |steps| && ws[i].state.floorFailed && Enabled(ws[j], steps[j])
    ensures var f := LegacyFrame(o, ws[j], steps[j]); f.Some? ==> !f.value.known
  {
    var f := LegacyFrame(o, ws[j], steps[j]);
    if f.Some? && f.value.known {
      LegacyFramesAreLicensed(o, ws, steps, j);
      RunForward(o, ws, steps, i, j + 1);
    }
  }

  // ---- Revocation ----

  lemma IssueElsewhere(s: State, g: Grant, session: Session, r: GrantReads, k: Key)
    requires k !in s.grants && ((g.peer, g.topic) != k || !GrantStep(s, g, session, r).ok)
    ensures k !in GrantStep(s, g, session, r).state.grants
  {
    var c := ClockStep(s, r.wall0).state;
    ClockDrops(s, r.wall0);
    FloorDrops(c, r.disk);
    DropsCompose(s, c, FloorStep(c, r.disk).state);
  }

  lemma ChangeElsewhere(s: State, c: Change, k: Key)
    requires k !in s.grants && Recorded(s, Configure(c), k).None?
    ensures k !in ChangeStep(s, c).state.grants
  {
    match c
    case Install(_) =>
    case Register(_, _, _) =>
    case RequireV2(p, disk, durable) => RequireDrops(s, p, disk, durable);
    case Issue(g, session, r) => IssueElsewhere(s, g, session, r, k);
    case Revoke(_, _) =>
    case SetPolicy(_) =>
  }

  /** Only an accepted grant of the pair puts the pair into the table. */
  lemma GrantsOnlyIssued(o: Oracle, w: World, e: Step, k: Key)
    requires Enabled(w, e) && k !in w.state.grants && Recorded(w.state, e, k).None?
    ensures k !in Do(o, w, e).world.state.grants
  {
    if e.Configure? {
      ChangeElsewhere(w.state, e.change, k);
    } else {
      TrafficDrops(o, w, e);
    }
  }

  predicate Unrecorded(ws: seq<World>, steps: seq<Step>, i: nat, j: nat, k: Key)
    requires j <= |steps| < |ws|
  {
    forall n :: i <= n < j ==> Recorded(ws[n].state, steps[n], k).None?
  }

  lemma {:induction false} StaysUngranted(o: Oracle, ws: seq<World>, steps: seq<Step>, i: nat, j: nat, k: Key)
    requires IsRun(o, ws, steps) && i <= j < |ws| && k !in ws[i].state.grants
    requires Unrecorded(ws, steps, i, j, k)
    ensures k !in ws[j].state.grants
  {
    if i < j {
      assert Unrecorded(ws, steps, i, j - 1, k);
      StaysUngranted(o, ws, steps, i, j - 1, k);
      UngrantedStep(o, ws, steps, j - 1, k);
    }
  }

  lemma UngrantedStep(o: Oracle, ws: seq<World>, steps: seq<Step>, n: nat, k: Key)
    requires IsRun(o, ws, steps) && n < |steps| && k !in ws[n].state.grants
    requires Recorded(ws[n].state, steps[n], k).None?
    ensures k !in ws[n + 1].state.grants
  {
    assert Next(o, ws[n], steps[n], ws[n + 1]);
    GrantsOnlyIssued(o, ws[n], steps[n], k);
  }

  /** Revocation reaches queued sends: after an accepted revocation of (peer, topic) at step
      `i`, no outer-v1 frame of the pair that was looked up as registered passes until a later
      grant of the pair is accepted. */
  lemma RevokedUntilRegranted(o: Oracle, ws: seq<World>, steps: seq<Step>, i: nat, j: nat, k: Key, revision: nat)
    requires IsRun(o, ws, steps) && i < j < |steps|
    requires steps[i] == Configure(Revoke(k, revision)) && Advances(ws[i].state, k, revision)
    requires Unrecorded(ws, steps, i + 1, j, k) && Enabled(ws[j], steps[j])
    ensures var f := LegacyFrame(o, ws[j], steps[j]);
            f.Some? && f.value.known ==> (f.value.peer, f.value.topic) != k
  {
    assert Next(o, ws[i], steps[i], ws[i + 1]);
    StaysUngranted(o, ws, steps, i + 1, j, k);
    var f := LegacyFrame(o, ws[j], steps[j]);
    if f.Some? && f.value.known && (f.value.peer, f.value.topic) == k {
      LegacyFramesAreLicensed(o, ws, steps, j);
      UngrantedStep(o, ws, steps, j, k);
    }
  }
}
