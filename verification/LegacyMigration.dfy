/** The policy object itself, updated in place under its lock
    (crates/pubsub/src/compat.rs:334-380, 431-912). Every method keeps the invariant of
    MigrationRuns, is a step of its machine, and says what its caller can rely on. */
module LegacyMigrationObject {
  import opened Common
  import opened Wire
  import opened MigrationPolicy
  import opened MigrationRuns
  import Variants = VariantCache

  class LegacyMigration {
    const o: Oracle
    var topics: map<Topic, nat>
    var grants: map<Key, Bound>
    var revisions: map<Key, nat>
    var floors: Option<set<Peer>>
    var floorFailed: bool
    var rejectV1: bool
    var lastWall: Option<Time>
    var controlWindow: Option<Time>
    var controlWork: nat
    var variants: map<Variants.VariantKey, seq<Byte>>
    var variantBytes: nat

    function View(): State
      reads this
    {
      State(topics, grants, revisions, floors, floorFailed, rejectV1, lastWall, controlWindow, controlWork)
    }

    function Cache(): Variants.Cache
      reads this
    {
      Variants.Cache(variants, variantBytes)
    }

    ghost predicate Valid()
      reads this
    {
      o.codec.Sound() && Inv(View()) && Variants.Inv(o.codec, o.key, Cache())
    }

    constructor (o: Oracle)
      requires o.codec.Sound()
      ensures Valid() && this.o == o && World(View(), Cache(), map[]) == START
    {
      this.o := o;
      topics, grants, revisions, floors := map[], map[], map[], None;
      floorFailed, rejectV1, lastWall, controlWindow, controlWork := false, false, None, None, 0;
      variants, variantBytes := map[], 0;
    }

    // ---- The code, under the lock: each method is a step ----

    method RegisterLocked(t: Topic, revision: nat, reserved: bool) returns (ok: bool)
      modifies this`grants, this`topics, this`variants, this`variantBytes
      ensures Outcome(View(), ok) == RegisterStep(old(View()), t, revision, reserved)
      ensures Cache() == if ok then Variants.EMPTY else old(Cache())
    {
      if reserved {
        return false;
      }
      if t in topics {
        if revision <= topics[t] {
          return false;
        }
      } else if |topics| >= MAX_TOPICS {
        return false;
      }
      grants := OtherTopics(grants, t);
      variants, variantBytes := map[], 0;
      topics := topics[t := revision];
      return true;
    }

    method RequireV2Locked(p: Peer, disk: Disk, durable: bool) returns (ok: bool)
      modifies this`floors, this`floorFailed, this`grants
      ensures Outcome(View(), ok) == RequireStep(old(View()), p, disk, durable)
    {
      if floors.None? {
        return false;
      }
      var read := Refreshed(floors.value, disk);
      ok := false;
      if read.Some? {
        floors := read;
        if p in read.value {
          ok := true;
        } else if |read.value| < MAX_FLOORS && durable {
          floors := Some(read.value + {p});
          ok := true;
        }
      }
      if !ok {
        floorFailed := true;
      }
      grants := OtherPeers(grants, p);
    }

    /** The remembered wall time never goes back; a reading below it costs every grant. */
    method CheckClock(wall: Time) returns (ok: bool)
      modifies this`lastWall, this`grants
      ensures Outcome(View(), ok) == ClockStep(old(View()), wall)
      ensures ok <==> (old(lastWall).Some? ==> old(lastWall).value <= wall)
      ensures old(lastWall).Some? ==> lastWall.Some? && old(lastWall).value <= lastWall.value
      ensures if ok then grants == old(grants) && lastWall == Some(wall) else grants == map[]
    {
      if lastWall.Some? && wall < lastWall.value {
        grants := map[];
        return false;
      }
      lastWall := Some(wall);
      return true;
    }

    /** Success means a usable floor store that still has every known floor; a failure is
        remembered, and a store that fails costs every grant. */
    method CheckFloors(disk: Disk) returns (ok: bool)
      modifies this`floors, this`floorFailed, this`grants
      ensures Outcome(View(), ok) == FloorStep(old(View()), disk)
      ensures FloorsGrow(old(floors), floors)
      ensures ok <==> floors.Some? && !floorFailed
      ensures ok ==> grants == old(grants)
      ensures !ok && old(floors).Some? ==> floorFailed
      ensures !ok && !old(floorFailed) && (old(floors).None? ==> old(grants) == map[]) ==> grants == map[]
    {
      if floorFailed || floors.None? {
        return false;
      }
      var read := Refreshed(floors.value, disk);
      if read.None? {
        floorFailed, grants := true, map[];
        return false;
      }
      floors := read;
      return true;
    }

    method PermittedLocked(topic: Topic, session: Session, r: Reads) returns (valid: bool)
      modifies this`lastWall, this`floors, this`floorFailed, this`grants
      ensures Outcome(View(), valid) == PermitStep(old(View()), topic, session, r)
    {
      var k := (session.peer, topic);
      if k in grants && (r.mono0 >= grants[k].deadline || r.wall0 >= grants[k].grant.expires) {
        grants := grants - {k};
      }
      if rejectV1 {
        return false;
      }
      valid := CheckClock(r.wall1);
      if !valid {
        return;
      }
      valid := && k in grants && grants[k].session == session
               && r.mono1 < grants[k].deadline && r.wall2 < grants[k].grant.expires
               && topic in topics && topics[topic] == grants[k].grant.verifierRevision;
      if !valid {
        return;
      }
      valid := CheckFloors(r.disk);
      valid := valid && session.peer !in floors.value;
    }

    method GrantLocked(g: Grant, session: Session, r: GrantReads) returns (ok: bool)
      modifies this`lastWall, this`floors, this`floorFailed, this`grants, this`revisions
      ensures Outcome(View(), ok) == GrantStep(old(View()), g, session, r)
    {
      if rejectV1 || !Attributed(g) || g.peer != session.peer {
        return false;
      }
      if g.topic !in topics || topics[g.topic] != g.verifierRevision {
        return false;
      }
      ok := CheckClock(r.wall0);
      if !ok {
        return;
      }
      ok := CheckFloors(r.disk);
      if !ok {
        return;
      }
      if g.peer in floors.value {
        return false;
      }
      var k := (g.peer, g.topic);
      if g.revision <= (if k in revisions then revisions[k] else 0) {
        return false;
      }
      if k !in revisions && |revisions| >= MAX_GRANTS {
        return false;
      }
      var remaining := g.expires - r.wall1;
      if remaining <= 0 || remaining > DAY_MS {
        return false;
      }
      revisions := revisions[k := g.revision];
      grants := grants[k := Bound(g, r.mono + remaining, session)];
      return true;
    }

    method RevokeLocked(k: Key, revision: nat) returns (ok: bool)
      modifies this`grants, this`revisions
      ensures Outcome(View(), ok) == RevokeStep(old(View()), k, revision)
    {
      if revision <= (if k in revisions then revisions[k] else 0) {
        return false;
      }
      if k !in revisions && |revisions| >= MAX_GRANTS {
        return false;
      }
      revisions := revisions[k := revision];
      grants := grants - {k};
      return true;
    }

    /** An admitted control frame comes from the adjacent peer that signed it, and the work
        admitted in the current window, this frame included, stays within the budget. */
    method AdmitControl(from: Peer, session: Option<Session>, m: Message, mono: Time) returns (ok: bool)
      modifies this`controlWindow, this`controlWork
      ensures Outcome(View(), ok) == ControlStep(o, old(View()), from, session, m, mono)
      ensures old(controlWork) <= MAX_CONTROL_WORK ==> controlWork <= MAX_CONTROL_WORK
      ensures ok ==> && Adjacent(o, from, session, m) && o.work(m).Some?
                     && o.work(m).value <= controlWork <= MAX_CONTROL_WORK
    {
      if session.None? || session.value.peer != from || o.peerOf(m.publicKey) != from {
        return false;
      }
      var work := o.work(m);
      if work.None? {
        return false;
      }
      if controlWindow.None? || mono - controlWindow.value >= 1000 {
        controlWindow, controlWork := Some(mono), 0;
      }
      if controlWork + work.value > MAX_CONTROL_WORK {
        return false;
      }
      controlWork := controlWork + work.value;
      return true;
    }

    method IngressLocked(from: Peer, session: Option<Session>, m: Message, r: Reads, mono: Time) returns (ok: bool)
      modifies this`lastWall, this`floors, this`floorFailed, this`grants, this`controlWindow, this`controlWork
      ensures Outcome(View(), ok) == ReceiveStep(o, old(View()), from, session, m, r, mono)
    {
      if m.header.topic !in topics {
        return true;
      }
      if m.header.kind == OutOfScope {
        return false;
      }
      if m.header.version == 1 {
        if session.None? || session.value.peer != from {
          return false;
        }
        ok := PermittedLocked(m.header.topic, session.value, r);
        if !ok {
          return;
        }
      }
      if m.header.kind != Eager {
        ok := AdmitControl(from, session, m, mono);
        return;
      }
      return true;
    }

    method VariantLocked(m: Message, version: nat, wire: seq<Byte>) returns (out: seq<Byte>)
      modifies this`variants, this`variantBytes
      ensures Variants.Found(Cache(), out) == Variants.Lookup(o.codec, old(Cache()), m, version, o.key, wire)
    {
      var k := (o.codec.digest(wire), version);
      if k in variants {
        return variants[k];
      }
      out := o.codec.encode(Variants.Resigned(o.codec, m, version, o.key));
      if variantBytes + |out| > Variants.MAX_VARIANT_BYTES {
        variants, variantBytes := map[], 0;
      }
      if |out| <= Variants.MAX_VARIANT_BYTES {
        variantBytes := variantBytes + |out|;
        variants := variants[k := out];
      }
    }

    method RouteLocked(peer: Peer, m: Message, session: Option<Session>, r: Reads) returns (legacy: bool)
      modifies this`lastWall, this`floors, this`floorFailed, this`grants
      ensures Outcome(View(), legacy) == RouteStep(old(View()), peer, m, session, r)
    {
      if (peer, m.header.topic) !in grants || session.None? {
        return false;
      }
      legacy := PermittedLocked(m.header.topic, session.value, r);
    }

    // ---- What callers rely on ----

    /** Floors are installed at most once, and never after a failure. */
    method InstallFloors(known: set<Peer>) returns (ok: bool)
      requires Valid()
      modifies this`floors
      ensures Valid() && Outcome(View(), ok) == InstallStep(old(View()), known)
      ensures ok <==> old(floors).None? && !floorFailed
      ensures FloorsGrow(old(floors), floors) && (ok ==> floors == Some(known) && grants == map[])
    {
      if floors.Some? || floorFailed {
        return false;
      }
      floors := Some(known);
      return true;
    }

    /** An accepted registration advances the topic's verifier revision and leaves none of
        its grants and no cached variant; a refused one changes nothing. */
    method Register(t: Topic, revision: nat, reserved: bool) returns (ok: bool)
      requires Valid()
      modifies this`grants, this`topics, this`variants, this`variantBytes
      ensures Valid() && Outcome(View(), ok) == RegisterStep(old(View()), t, revision, reserved)
      ensures ok <==> !reserved && if t in old(topics) then old(topics[t]) < revision else |old(topics)| < MAX_TOPICS
      ensures Registered(old(View()), View(), t, revision, ok)
      ensures Cache() == if ok then Variants.EMPTY else old(Cache())
    {
      RegisterKeeps(View(), t, revision, reserved);
      RegisterMeans(View(), t, revision, reserved);
      ok := RegisterLocked(t, revision, reserved);
    }

    /** The floor is durable before the live policy changes; a failure is remembered and
        still takes the peer's grants away. */
    method RequireV2(p: Peer, disk: Disk, durable: bool) returns (ok: bool)
      requires Valid()
      modifies this`floors, this`floorFailed, this`grants
      ensures Valid() && Outcome(View(), ok) == RequireStep(old(View()), p, disk, durable)
      ensures OnlyDrops(old(View()), View()) && Barred(old(View()), View(), p, ok)
      ensures ok <==> && old(floors).Some? && Refreshed(old(floors).value, disk).Some?
                      && var known := Refreshed(old(floors).value, disk).value;
                         p in known || (|known| < MAX_FLOORS && durable)
    {
      RequireIff(View(), p, disk, durable);
      RequireDrops(View(), p, disk, durable);
      DropsKeepInv(View(), RequireStep(View(), p, disk, durable).state);
      RequireMeans(View(), p, disk, durable);
      ok := RequireV2Locked(p, disk, durable);
    }

    /** True exactly when everything an admission depends on holds, and then the state left
        behind licenses the session. */
    method Permitted(topic: Topic, session: Session, r: Reads) returns (valid: bool)
      requires Valid()
      modifies this`lastWall, this`floors, this`floorFailed, this`grants
      ensures Valid() && Outcome(View(), valid) == PermitStep(old(View()), topic, session, r)
      ensures OnlyDrops(old(View()), View())
      ensures valid <==> Allowed(old(View()), topic, session, r)
      ensures valid ==> Licensed(View(), topic, session, r)
    {
      PermitMeans(View(), topic, session, r);
      valid := PermittedLocked(topic, session, r);
    }

    /** A grant is accepted exactly when everything it depends on holds. It then has a revision
        above every one recorded for its pair, is bound to its session, lasts at most a day, and
        its peer has no floor. A refused one records nothing and adds nothing. */
    method GrantLegacy(g: Grant, session: Session, r: GrantReads) returns (ok: bool)
      requires Valid()
      modifies this`lastWall, this`floors, this`floorFailed, this`grants, this`revisions
      ensures Valid() && Outcome(View(), ok) == GrantStep(old(View()), g, session, r)
      ensures ok <==> Grantable(old(View()), g, session, r)
      ensures ok ==> Granted(old(View()), View(), g, session, r)
      ensures !ok ==> OnlyDrops(old(View()), View())
    {
      GrantIff(View(), g, session, r);
      IssueKeeps(View(), g, session, r);
      GrantMeans(View(), g, session, r);
      ok := GrantLocked(g, session, r);
    }

    /** An accepted revocation leaves the pair without a grant and with a revision above every
        earlier one, so no earlier grant can come back; other pairs are untouched. */
    method Revoke(k: Key, revision: nat) returns (ok: bool)
      requires Valid()
      modifies this`grants, this`revisions
      ensures Valid() && Outcome(View(), ok) == RevokeStep(old(View()), k, revision)
      ensures ok <==> Revocable(old(View()), k, revision)
      ensures if ok then Revoked(old(View()), View(), k, revision) else View() == old(View())
    {
      RevokeKeeps(View(), k, revision);
      RevokeMeans(View(), k, revision);
      ok := RevokeLocked(k, revision);
    }

    /** Under RejectV1 there are no grants, and lifting it brings none back. */
    method SetSignaturePolicy(reject: bool)
      requires Valid()
      modifies this`grants, this`rejectV1
      ensures Valid() && View() == PolicyStep(old(View()), reject)
      ensures rejectV1 ==> grants == map[]
      ensures SubMap(grants, old(grants)) && (rejectV1 <==> reject)
    {
      rejectV1 := reject;
      if rejectV1 {
        grants := map[];
      }
    }

    /** A frame is accepted exactly when its topic is not registered, or it is in scope, allowed
        if outer v1, and adjacent and within the current window's budget if a control frame.
        Nothing is ever granted by traffic. */
    method Ingress(from: Peer, session: Option<Session>, m: Message, r: Reads, mono: Time) returns (ok: bool)
      requires Valid()
      modifies this`lastWall, this`floors, this`floorFailed, this`grants, this`controlWindow, this`controlWork
      ensures Valid() && Outcome(View(), ok) == ReceiveStep(o, old(View()), from, session, m, r, mono)
      ensures OnlyDrops(old(View()), View())
      ensures ok <==> Admissible(o, old(View()), from, session, m, r, mono)
      ensures BudgetLeft(View(), mono) == BudgetLeft(old(View()), mono) - if ok then Charge(o, old(View()), m) else 0
      ensures m.header.topic !in topics ==> View() == old(View())
      ensures ok && m.header.topic in topics ==> Accepted(o, View(), from, session, m, r)
    {
      ReceiveIff(o, View(), from, session, m, r, mono);
      ReceiveMeans(o, View(), from, session, m, r, mono);
      ok := IngressLocked(from, session, m, r, mono);
    }

    /** The bytes are the message under the version asked for, signed by the relay where they had
        to be converted; the cache's account stays
        exact and bounded. */
    method Variant(m: Message, version: nat, wire: seq<Byte>) returns (out: seq<Byte>)
      requires Valid() && o.codec.decode(wire) == Some(m)
      modifies this`variants, this`variantBytes
      ensures Valid()
      ensures Variants.Found(Cache(), out) == Variants.Lookup(o.codec, old(Cache()), m, version, o.key, wire)
      ensures Variants.Faithful(o.codec, out, m, version) && Variants.SignedBy(o.codec, out, m, version, o.key)
      ensures variantBytes == Variants.Total(variants) <= Variants.MAX_VARIANT_BYTES
    {
      Variants.LookupKeeps(o.codec, Cache(), m, version, o.key, wire);
      out := VariantLocked(m, version, wire);
    }

    /** The lookup at the start of `send`: only a frame whose topic is registered now, and that
        decodes, goes on under the policy. */
    method LookUpSend(wire: seq<Byte>) returns (r: Lookup)
      requires Valid()
      ensures r == LookupStep(o, View(), wire)
      ensures r.Unregistered? <==> o.codec.header(wire).Some? && o.codec.header(wire).value.topic !in topics
      ensures r.Known? <==> o.codec.decode(wire).Some? && o.codec.decode(wire).value.header.topic in topics
      ensures r.Known? ==> o.codec.decode(wire) == Some(r.msg)
    {
      var h := o.codec.header(wire);
      if h.None? {
        return Unreadable;
      }
      if h.value.topic !in topics {
        return Unregistered;
      }
      var d := o.codec.decode(wire);
      return if d.None? then Unreadable else Known(d.value);
    }

    /** The routing decision of `send`: legacy exactly with a grant, a session and everything an
        admission depends on, and then the session is licensed. */
    method RouteSend(peer: Peer, m: Message, session: Option<Session>, r: Reads) returns (legacy: bool)
      requires Valid()
      modifies this`lastWall, this`floors, this`floorFailed, this`grants
      ensures Valid() && Outcome(View(), legacy) == RouteStep(old(View()), peer, m, session, r)
      ensures OnlyDrops(old(View()), View())
      ensures legacy <==> && (peer, m.header.topic) in old(grants) && session.Some?
                          && Allowed(old(View()), m.header.topic, session.value, r)
      ensures legacy ==> Licensed(View(), m.header.topic, session.value, r)
    {
      if session.Some? { PermitMeans(View(), m.header.topic, session.value, r); }
      RouteDrops(View(), peer, m, session, r);
      legacy := RouteLocked(peer, m, session, r);
    }

    /** The guard of a queued legacy send. Bytes leave exactly with a licence at that moment and a
        payload that still verifies, or a control frame that the relay itself signed, and they are
        the queued message as outer v1. */
    method Admit(peer: Peer, wire: seq<Byte>, m: Message, session: Session, r: Reads)
      returns (out: Option<seq<Byte>>)
      requires Valid() && o.codec.decode(wire) == Some(m)
      modifies this`lastWall, this`floors, this`floorFailed, this`grants, this`variants, this`variantBytes
      ensures Valid() && Outcome(View(), out.Some?) == AdmitStep(o, old(View()), peer, m, session, r)
      ensures OnlyDrops(old(View()), View())
      ensures out.Some? <==>
                && session.peer == peer && Allowed(old(View()), m.header.topic, session, r)
                && if m.header.kind == Eager
                   then m.payload.Some? && o.verify(m.header.topic, old(topics)[m.header.topic], m.payload.value)
                   else && m.header.kind != OutOfScope && o.work(m).Some?
                        && o.peerOf(m.publicKey) == o.peerOf(o.key)
      ensures out.Some? ==> Licensed(View(), m.header.topic, session, r)
      ensures out.Some? ==> Variants.Faithful(o.codec, out.value, m, 1)
      ensures out.Some? ==> Variants.SignedBy(o.codec, out.value, m, 1, o.key)
    {
      AdmitIff(o, View(), peer, m, session, r);
      if session.peer != peer {
        return None;
      }
      var ok := Permitted(m.header.topic, session, r);
      if !ok || !InnerOk(o, View(), m) {
        return None;
      }
      if m.header.kind != Eager && o.peerOf(m.publicKey) != o.peerOf(o.key) {
        return None;
      }
      var bytes := Variant(m, 1, wire);
      return Some(bytes);
    }
  }

  // ---- The same, of the steps ----

  predicate Registered(s: State, s': State, t: Topic, revision: nat, ok: bool) {
    && TopicsGrow(s.topics, s'.topics) && SubMap(s'.grants, s.grants) && s'.revisions == s.revisions
    && (ok ==> t in s'.topics && s'.topics[t] == revision && (t in s.topics ==> s.topics[t] < revision))
    && (ok ==> forall k :: k in s.grants ==> (k in s'.grants <==> k.1 != t))
    && (!ok ==> s' == s)
  }

  lemma RegisterMeans(s: State, t: Topic, revision: nat, reserved: bool)
    ensures var x := RegisterStep(s, t, revision, reserved); Registered(s, x.state, t, revision, x.ok)
  {
  }

  /** The peer has its floor on success, and no grant either way once floors are installed. */
  predicate Barred(s: State, s': State, p: Peer, ok: bool) {
    && (ok ==> s'.floors.Some? && p in s'.floors.value)
    && (s.floors.Some? ==> forall k :: k in s'.grants ==> k.0 != p)
    && (!ok && s.floors.Some? ==> s'.floorFailed)
  }

  lemma RequireMeans(s: State, p: Peer, disk: Disk, durable: bool)
    ensures var x := RequireStep(s, p, disk, durable); Barred(s, x.state, p, x.ok)
  {
  }

  predicate Granted(s: State, s': State, g: Grant, session: Session, r: GrantReads) {
    var k := (g.peer, g.topic);
    && k in s'.grants && s'.grants[k].grant == g && s'.grants[k].session == session
    && s'.grants[k].deadline - r.mono == g.expires - r.wall1 && 0 < g.expires - r.wall1 <= DAY_MS
    && k in s'.revisions && s'.revisions[k] == g.revision && (k in s.revisions ==> s.revisions[k] < g.revision)
    && RevisionsGrow(s.revisions, s'.revisions) && FloorsGrow(s.floors, s'.floors)
    && !s'.rejectV1 && s'.floors.Some? && g.peer !in s'.floors.value
  }

  lemma GrantMeans(s: State, g: Grant, session: Session, r: GrantReads)
    ensures var x := GrantStep(s, g, session, r);
            if x.ok then Granted(s, x.state, g, session, r) else OnlyDrops(s, x.state)
  {
    var c := ClockStep(s, r.wall0).state;
    ClockDrops(s, r.wall0);
    FloorDrops(c, r.disk);
    DropsCompose(s, c, FloorStep(c, r.disk).state);
  }

  predicate Revoked(s: State, s': State, k: Key, revision: nat) {
    && k !in s'.grants && k in s'.revisions && s'.revisions[k] == revision
    && (k in s.revisions ==> s.revisions[k] < revision)
    && s'.grants == s.grants - {k} && s'.revisions - {k} == s.revisions - {k}
  }

  predicate Revocable(s: State, k: Key, revision: nat) {
    if k in s.revisions then s.revisions[k] < revision else 0 < revision && |s.revisions| < MAX_GRANTS
  }

  lemma RevokeMeans(s: State, k: Key, revision: nat)
    ensures var x := RevokeStep(s, k, revision);
            && (if x.ok then Revoked(s, x.state, k, revision) else x.state == s)
            && (x.ok <==> Revocable(s, k, revision))
  {
    assert s.revisions[k := revision] - {k} == s.revisions - {k};
  }

  lemma PermitMeans(s: State, topic: Topic, session: Session, r: Reads)
    requires Inv(s)
    ensures var x := PermitStep(s, topic, session, r);
            && Inv(x.state) && OnlyDrops(s, x.state) && (x.ok <==> Allowed(s, topic, session, r))
            && (x.ok ==> Licensed(x.state, topic, session, r))
  {
    PermitIff(s, topic, session, r);
    PermitDrops(s, topic, session, r);
    DropsKeepInv(s, PermitStep(s, topic, session, r).state);
    if PermitStep(s, topic, session, r).ok { PermitLicenses(s, topic, session, r); }
  }

  /** What acceptance on a registered topic means. */
  predicate Accepted(o: Oracle, s: State, from: Peer, session: Option<Session>, m: Message, r: Reads) {
    && m.header.kind != OutOfScope && (m.header.kind != Eager ==> Adjacent(o, from, session, m))
    && (m.header.version == 1 ==>
          session.Some? && session.value.peer == from && Licensed(s, m.header.topic, session.value, r))
  }

  lemma ReceiveMeans(o: Oracle, s: State, from: Peer, via: Option<Session>, m: Message, r: Reads, mono: Time)
    requires Inv(s)
    ensures var x := ReceiveStep(o, s, from, via, m, r, mono);
            && Inv(x.state) && OnlyDrops(s, x.state)
            && (x.ok && m.header.topic in s.topics ==> Accepted(o, x.state, from, via, m, r))
  {
    ReceiveDrops(o, s, from, via, m, r, mono);
    DropsKeepInv(s, ReceiveStep(o, s, from, via, m, r, mono).state);
    if m.header.topic in s.topics && m.header.version == 1 && ReceiveStep(o, s, from, via, m, r, mono).ok {
      ReceiveLicensed(o, s, from, via, m, r, mono);
    }
  }
}
