/** What an exchange of membership messages achieves, on the hosts before and after: the JOIN
    walk, the NEIGHBOR handshake, direct and indirect probes, DISCONNECT and SHUFFLE
    (crates/membership/src/lib.rs:520-576, 638-713, 1727-1929). */
module Exchanges {
  import opened Common
  import opened Sets
  import opened Node
  import opened NodeTheorems
  import opened Drain

  const ALIVE := Entry(Alive, None)

  lemma MarkedEntries(d: Data, p: Peer)
    ensures forall q :: EntryOf(Marked(d, p, MarkAlive), q) == if q == p then Some(ALIVE) else EntryOf(d, q)
    ensures forall q :: EntryOf(Marked(d, p, MarkDead), q) ==
                        if q == p then Some(Entry(Dead, None)) else EntryOf(d, q)
  {
  }

  // ---- JOIN ----

  lemma {:induction false} FanOutAt(from: Peer, to: seq<Peer>, m: Message, i: nat)
    requires i < |to|
    ensures |FanOut(from, to, m)| == |to| && FanOut(from, to, m)[i] == Packet(from, to[i], m)
  {
    if |to| > 1 { FanOutAt(from, to[1..], m, if i == 0 then 0 else i - 1); }
  }

  /** A JOIN makes the newcomer active and announces it, with one hop less, exactly once to every
      other active peer; without a hop left it is announced to nobody. */
  lemma JoinAnnounces(h: Host, src: Peer, p: Peer, ttl: nat, t: Turn)
    requires h.cfg.Sound() && Possible(h, Packet(src, h.cfg.local, Join(p, ttl)), t)
    ensures var r := Handle(h, Packet(src, h.cfg.local, Join(p, ttl)), t);
            && Joined(h.cfg, h.data, r.data, p)
            && (ttl == 0 ==> r.out == [])
            && (ttl > 0 ==>
                  && |r.out| == |r.data.active - {p}|
                  && (forall i :: 0 <= i < |r.out| ==>
                        && r.out[i] == Packet(h.cfg.local, r.out[i].dst, ForwardJoin(p, ttl - 1))
                        && r.out[i].dst in r.data.active - {p})
                  && (forall i, j :: 0 <= i < j < |r.out| ==> r.out[i].dst != r.out[j].dst))
  {
    CommittedJoins(h.cfg, h.data, p, t.demote);
    if ttl > 0 {
      var m := ForwardJoin(p, ttl - 1);
      var out := FanOut(h.cfg.local, t.order, m);
      ListLength(t.order, Committed(h.cfg, h.data, p, t.demote).active - {p});
      assert |out| == |t.order| by { if t.order != [] { FanOutAt(h.cfg.local, t.order, m, 0); } }
      forall i | 0 <= i < |out| ensures out[i] == Packet(h.cfg.local, t.order[i], m) {
        FanOutAt(h.cfg.local, t.order, m, i);
      }
    }
  }

  /** A walk ends at a host with room or at its last hop: the newcomer is active there and asked
      for the link, with high priority exactly when the host had nobody. */
  lemma WalkEnds(h: Host, src: Peer, p: Peer, ttl: nat, t: Turn)
    requires h.cfg.Sound() && Possible(h, Packet(src, h.cfg.local, ForwardJoin(p, ttl)), t) && t.sent
    requires ttl == 0 || |h.data.active| < h.cfg.activeDegree
    ensures var r := Handle(h, Packet(src, h.cfg.local, ForwardJoin(p, ttl)), t);
            && p in r.data.active && EntryOf(r.data, p) == Some(ALIVE)
            && r.out == [Packet(h.cfg.local, p, Neighbor(h.cfg.local, h.data.active == {}))]
  {
    CommittedJoins(h.cfg, h.data, p, t.demote);
  }

  lemma AddPassiveTakes(cfg: Config, d: Data, p: Peer)
    ensures var d' := AddPassive(cfg, d, p);
            && d'.active == d.active && d'.states == d.states
            && (p in d'.passive <==>
                  p in d.passive || (p != cfg.local && p !in d.active && |d.passive| < cfg.maxPassive))
  {
  }

  /** Elsewhere it goes on to another active peer with one hop less, changes neither the active
      view nor SWIM, and leaves the newcomer passive, room permitting, at its third hop. */
  lemma WalkGoesOn(h: Host, src: Peer, p: Peer, ttl: nat, t: Turn)
    requires Possible(h, Packet(src, h.cfg.local, ForwardJoin(p, ttl)), t) && t.sent
    requires ttl > 0 && |h.data.active| >= h.cfg.activeDegree
    ensures var r := Handle(h, Packet(src, h.cfg.local, ForwardJoin(p, ttl)), t);
            && r.data.active == h.data.active && r.data.states == h.data.states
            && (if h.data.active - {p} == {} then r.out == []
                else && |r.out| == 1 && r.out[0].dst in h.data.active - {p}
                     && r.out[0].msg == ForwardJoin(p, ttl - 1))
            && (p in r.data.passive <==>
                  || p in h.data.passive
                  || (ttl == 3 && p != h.cfg.local && p !in h.data.active && |h.data.passive| < h.cfg.maxPassive))
  {
    AddPassiveTakes(h.cfg, h.data, p);
    assert Finds(t.next, h.data.active, p);
  }

  // ---- NEIGHBOR ----

  /** A NEIGHBOR request is accepted exactly when it has high priority or the active view is below
      its maximum. Accepted, each side ends with the other active and Alive; refused, the side
      that was asked is unchanged and the asking side has the link no longer, and the peer passive
      when there is room. */
  lemma NeighborHandshake(a: Host, b: Host, high: bool, tb: Turn, ta: Turn)
    requires b.cfg.Sound() && b.cfg.local in a.data.active && a.cfg.local != b.cfg.local
    requires Possible(b, Packet(a.cfg.local, b.cfg.local, Neighbor(a.cfg.local, high)), tb)
    ensures var atB := Handle(b, Packet(a.cfg.local, b.cfg.local, Neighbor(a.cfg.local, high)), tb);
            var ok := high || |b.data.active| < b.cfg.maxActive;
            && atB.out == [Packet(b.cfg.local, a.cfg.local, NeighborReply(ok))]
            && var atA := Handle(a, atB.out[0], ta);
               && atA.out == []
               && (ok ==> && Joined(b.cfg, b.data, atB.data, a.cfg.local)
                          && a.cfg.local in atB.data.active && b.cfg.local in atA.data.active
                          && (forall q :: EntryOf(atA.data, q) ==
                                          if q == b.cfg.local then Some(ALIVE) else EntryOf(a.data, q)))
               && (!ok ==> && atB.data == b.data && atA.data.active == a.data.active - {b.cfg.local}
                           && atA.data.states == a.data.states
                           && (b.cfg.local in atA.data.passive <==>
                                 b.cfg.local in a.data.passive || |a.data.passive| < a.cfg.maxPassive))
  {
    if Admits(b, high) {
      CommittedJoins(b.cfg, b.data, a.cfg.local, tb.demote);
      MarkedEntries(a.data, b.cfg.local);
    }
  }

  // ---- Probes ----

  /** A PING and its ACK: each side ends with the other Alive, and the probing side with no probe
      of the other pending; no view changes. */
  lemma PingExchange(a: Host, b: Host, tb: Turn, ta: Turn)
    ensures var atB := Handle(b, Packet(a.cfg.local, b.cfg.local, Ping), tb);
            && atB.out == [Packet(b.cfg.local, a.cfg.local, Ack)]
            && var atA := Handle(a, atB.out[0], ta);
               && EntryOf(atB.data, a.cfg.local) == Some(ALIVE) && EntryOf(atA.data, b.cfg.local) == Some(ALIVE)
               && (forall q :: q != a.cfg.local ==> EntryOf(atB.data, q) == EntryOf(b.data, q))
               && (forall q :: q != b.cfg.local ==> EntryOf(atA.data, q) == EntryOf(a.data, q))
               && atA.data.probes == a.data.probes - {b.cfg.local}
               && atA.data.active == a.data.active && atB.data.active == b.data.active
               && atA.data.passive == a.data.passive && atB.data.passive == b.data.passive
  {
    MarkedEntries(b.data, a.cfg.local);
    MarkedEntries(a.data.(probes := a.data.probes - {b.cfg.local}), b.cfg.local);
  }

  lemma {:induction false} ResponsesAt(from: Peer, target: Peer, to: seq<Peer>, i: nat)
    requires i < |to|
    ensures |Responses(from, target, to)| == |to|
    ensures Responses(from, target, to)[i] == Packet(from, to[i], AckResponse(target, to[i]))
  {
    if |to| > 1 { ResponsesAt(from, target, to[1..], if i == 0 then 0 else i - 1); }
  }

  /** An indirect probe, whole: the relay pings the target for the requester and remembers it; the
      target's ACK makes the relay answer every requester it remembers, this one among them; and
      the answer leaves the target Alive at the requester with no probe pending. */
  lemma IndirectProbe(a: Host, relay: Host, target: Peer, t1: Turn, t2: Turn, t3: Turn) returns (i: nat)
    requires t1.sent
    requires var asked := Handle(relay, Packet(a.cfg.local, relay.cfg.local, PingReq(target, a.cfg.local)), t1);
             Possible(relay.(data := asked.data), Packet(target, relay.cfg.local, Ack), t2)
    requires (target, a.cfg.local) !in t2.expired
    ensures var asked := Handle(relay, Packet(a.cfg.local, relay.cfg.local, PingReq(target, a.cfg.local)), t1);
            var acked := Handle(relay.(data := asked.data), Packet(target, relay.cfg.local, Ack), t2);
            && asked.out == [Packet(relay.cfg.local, target, Ping)]
            && (target, a.cfg.local) in asked.data.indirect && (target, a.cfg.local) !in acked.data.indirect
            && i < |acked.out|
            && acked.out[i] == Packet(relay.cfg.local, a.cfg.local, AckResponse(target, a.cfg.local))
            && var told := Handle(a, acked.out[i], t3);
               && told.out == [] && told.data.probes == a.data.probes - {target}
               && (forall q :: EntryOf(told.data, q) == if q == target then Some(ALIVE) else EntryOf(a.data, q))
  {
    var asked := Handle(relay, Packet(a.cfg.local, relay.cfg.local, PingReq(target, a.cfg.local)), t1);
    var x := (target, a.cfg.local);
    assert x in asked.data.indirect - t2.expired;
    assert x.1 in Requesters(asked.data.indirect - t2.expired, target);
    i :| 0 <= i < |t2.order| && t2.order[i] == a.cfg.local;
    ResponsesAt(relay.cfg.local, target, t2.order, i);
    MarkedEntries(a.data.(probes := a.data.probes - {target}), target);
  }

  // ---- DISCONNECT and SHUFFLE ----

  /** A DISCONNECT of an active peer leaves it Dead and, unless it is itself the passive peer that
      is promoted next, out of the active view; some passive peer, if there is one, takes a place. */
  lemma DisconnectPromotes(h: Host, p: Peer, t: Turn)
    requires h.cfg.Sound() && Possible(h, Packet(p, h.cfg.local, Disconnect), t)
    ensures var r := Handle(h, Packet(p, h.cfg.local, Disconnect), t);
            var d := h.data.(active := h.data.active - {p},
                             states := if p in h.data.active then h.data.states[p := Entry(Dead, None)]
                                       else h.data.states);
            && r.out == []
            && (h.data.passive == {} ==> r.data == d)
            && (h.data.passive != {} ==>
                  exists q :: q in h.data.passive && Joined(h.cfg, d.(passive := d.passive - {q}), r.data, q))
  {
    var d := Removed(h.data, p);
    assert p !in h.data.active ==> h.data.active - {p} == h.data.active;
    if h.data.passive != {} {
      var q := t.candidate.value;
      CommittedJoins(h.cfg, d.(passive := d.passive - {q}), q, t.demote);
    }
  }

  /** Taking in peers adds nobody but them, never the host itself nor an active peer, only as
      long as there is room, and everybody it may while there is. */
  lemma {:induction false} AddPassivesTakes(cfg: Config, d: Data, peers: seq<Peer>)
    ensures var d' := AddPassives(cfg, d, peers);
            && d'.active == d.active && d'.states == d.states && d.passive <= d'.passive
            && (forall q :: q in d'.passive && q !in d.passive ==> q in peers && q != cfg.local && q !in d.active)
            && (|d.passive| <= cfg.maxPassive ==> |d'.passive| <= cfg.maxPassive)
            && (|d'.passive| < cfg.maxPassive ==>
                  forall q :: q in peers && q != cfg.local && q !in d.active ==> q in d'.passive)
    decreases |peers|
  {
    if peers != [] {
      var d1 := AddPassive(cfg, d, peers[0]);
      AddPassivesTakes(cfg, d1, peers[1..]);
      SubsetSize(d1.passive, AddPassives(cfg, d1, peers[1..]).passive);
    }
  }

  /** A SHUFFLE with hops left, at a host with a second active peer, goes on unchanged with one hop
      less to an active peer other than its origin. Where it ends, its peers are taken in and the
      reply goes back to its origin, whose own view takes in what the reply lists. */
  lemma ShuffleExchange(a: Host, b: Host, src: Peer, peers: seq<Peer>, ttl: nat, tb: Turn, ta: Turn)
    requires Possible(b, Packet(src, b.cfg.local, Shuffle(a.cfg.local, peers, ttl)), tb) && tb.sent
    ensures var atB := Handle(b, Packet(src, b.cfg.local, Shuffle(a.cfg.local, peers, ttl)), tb);
            if ttl > 0 && |b.data.active| > 1 then
              && atB.data == b.data && |atB.out| == 1 && atB.out[0].dst in b.data.active - {a.cfg.local}
              && atB.out[0].msg == Shuffle(a.cfg.local, peers, ttl - 1)
            else
              && atB.data == AddPassives(b.cfg, b.data, peers)
              && atB.out == [Packet(b.cfg.local, a.cfg.local, ShuffleReply(tb.sample))]
              && Handle(a, atB.out[0], ta) == Handled(AddPassives(a.cfg, a.data, tb.sample), [])
  {
    if b.data.active - {a.cfg.local} == {} { SubsetSize(b.data.active, {a.cfg.local}); }
  }
}
