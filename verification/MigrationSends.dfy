/** A send on a registered topic from its lookup to the transport: what each lock section of
    `send` (crates/pubsub/src/compat.rs:752-845) decides, and what comes out at the end. */
module MigrationSends {
  import opened Common
  import opened Wire
  import opened MigrationPolicy
  import opened MigrationRuns
  import Variants = VariantCache

  /** The verification: the send goes on exactly with a payload that verifies under the topic's
      revision, or as a control frame of known work under the transport's own key; otherwise it
      ends. */
  lemma VerifyDecides(o: Oracle, w: World, id: nat)
    requires WorldInv(o, w) && At(w, id, Looked)
    ensures var m, w', t := w.sends[id].msg, DoVerify(o, w, id), w.sends[id].msg.header.topic;
            && t in w.state.topics
            && (id in w'.sends <==>
                  if m.header.kind == Eager
                  then m.payload.Some? && o.verify(t, w.state.topics[t], m.payload.value)
                  else m.header.kind != OutOfScope && o.work(m).Some? && o.peerOf(o.key) == o.local)
            && (id in w'.sends ==> w'.sends[id] == w.sends[id].(stage := Verified))
            && w'.state == w.state && w'.cache == w.cache
  {
    assert SendOk(o, w.state.topics, w.sends[id]);
    SendableIff(o, w.state, w.sends[id].msg);
  }

  /** The route: legacy exactly with a grant of the pair, a session and all an admission depends
      on; otherwise an outer-v2 frame is ready as it is and another one is to be converted. */
  lemma RouteDecides(w: World, id: nat, via: Option<Session>, r: Reads)
    requires At(w, id, Verified)
    ensures var x := w.sends[id];
            var legacy := && (x.peer, x.msg.header.topic) in w.state.grants && via.Some?
                          && Allowed(w.state, x.msg.header.topic, via.value, r);
            DoRoute(w, id, via, r).sends[id] ==
            x.(stage := if legacy then Waiting else if x.msg.header.version == 2 then Ready(x.wire) else Unlicensed)
  {
    if via.Some? { PermitIff(w.state, w.sends[id].msg.header.topic, via.value, r); }
  }

  /** The admission of a queued legacy send: bytes leave exactly with the destination's session,
      all an admission depends on at this moment, and a payload that still verifies, or a control
      frame that the relay signed; the send ends either way. */
  lemma AdmissionDecides(o: Oracle, w: World, id: nat, session: Session, r: Reads)
    requires WorldInv(o, w) && At(w, id, Waiting)
    ensures var q, x := w.sends[id], DoAdmit(o, w, id, session, r);
            && id !in x.world.sends
            && (x.sent.Some? <==>
                  && session.peer == q.peer && Allowed(w.state, q.msg.header.topic, session, r)
                  && if q.msg.header.kind == Eager
                     then && q.msg.payload.Some?
                          && o.verify(q.msg.header.topic, w.state.topics[q.msg.header.topic], q.msg.payload.value)
                     else && q.msg.header.kind != OutOfScope && o.work(q.msg).Some?
                          && o.peerOf(q.msg.publicKey) == o.peerOf(o.key))
  {
    AdmitIff(o, w.state, w.sends[id].peer, w.sends[id].msg, session, r);
  }

  /** The send a step is about. */
  function About(e: Step): Option<nat> {
    match e
    case Configure(_) => None
    case Receive(_, _, _, _, _) => None
    case LookUp(id, _, _) => Some(id)
    case Verify(id) => Some(id)
    case Route(id, _, _) => Some(id)
    case Convert(id) => Some(id)
    case HandOver(id) => Some(id)
    case Admit(id, _, _) => Some(id)
    case Drop(id) => Some(id)
  }

  /** No step touches another send, and an accepted registration, nothing else, empties the cache
      of variants. */
  lemma StepsAreApart(o: Oracle, w: World, e: Step, id: nat)
    requires Enabled(w, e)
    ensures var w' := Do(o, w, e).world;
            && (About(e) != Some(id) ==>
                  (id in w'.sends <==> id in w.sends) && (id in w.sends ==> w'.sends[id] == w.sends[id]))
            && (e.Configure? ==>
                  w'.cache == (if e.change.Register? && ChangeStep(w.state, e.change).ok then Variants.EMPTY
                               else w.cache))
            && (e.Receive? || e.LookUp? || e.Verify? || e.Route? || e.HandOver? || e.Drop? ==> w'.cache == w.cache)
  {
  }

  /** A frame that will pass the lookup and the verification, under an id that is free. */
  predicate Submitted(o: Oracle, w: World, id: nat, wire: seq<Byte>, m: Message) {
    && id !in w.sends && o.codec.decode(wire) == Some(m) && m.header.topic in w.state.topics
    && Sendable(o, w.state, m)
  }

  lemma SubmitVerifies(o: Oracle, w: World, id: nat, to: Peer, wire: seq<Byte>, m: Message)
    requires o.codec.Sound() && WorldInv(o, w) && Submitted(o, w, id, wire, m)
    ensures var w1 := DoLookUp(o, w, id, to, wire);
            && Enabled(w, LookUp(id, to, wire)) && At(w1, id, Looked)
            && var w2 := DoVerify(o, w1, id);
               && At(w2, id, Verified) && w2.sends[id] == Sending(to, wire, m, Verified)
               && w2.state == w.state && w2.cache == w.cache && WorldInv(o, w2)
  {
    LookUpKeeps(o, w, id, to, wire);
    VerifyKeeps(o, DoLookUp(o, w, id, to, wire), id);
  }

  /** Without a licence the transport gets outer v2: an outer-v2 frame byte for byte, any other
      one as the same message re-signed by the relay. */
  lemma ModernSend(o: Oracle, w: World, id: nat, to: Peer, wire: seq<Byte>, m: Message, via: Option<Session>, r: Reads)
    requires o.codec.Sound() && WorldInv(o, w) && Submitted(o, w, id, wire, m)
    requires !RouteStep(w.state, to, m, via, r).ok
    ensures At(DoLookUp(o, w, id, to, wire), id, Looked)
    ensures At(DoVerify(o, DoLookUp(o, w, id, to, wire), id), id, Verified)
    ensures var w3 := DoRoute(DoVerify(o, DoLookUp(o, w, id, to, wire), id), id, via, r);
            if m.header.version == 2 then
              Enabled(w3, HandOver(id)) && DoHandOver(w3, id).sent == Some(wire)
            else
              && At(w3, id, Unlicensed) && var w4 := DoConvert(o, w3, id);
              && Enabled(w4, HandOver(id)) && var sent := DoHandOver(w4, id).sent;
              && sent.Some? && Variants.Faithful(o.codec, sent.value, m, 2)
              && Variants.SignedBy(o.codec, sent.value, m, 2, o.key)
  {
    SubmitVerifies(o, w, id, to, wire, m);
    var w2 := DoVerify(o, DoLookUp(o, w, id, to, wire), id);
    RouteKeeps(o, w2, id, via, r);
    var w3 := DoRoute(w2, id, via, r);
    if m.header.version != 2 { Variants.LookupKeeps(o.codec, w3.cache, m, 2, o.key, wire); }
  }

  lemma LegacyAdmission(o: Oracle, w: World, id: nat, via: Session, again: Reads)
    requires o.codec.Sound() && WorldInv(o, w) && At(w, id, Waiting) && via.peer == w.sends[id].peer
    requires Sendable(o, w.state, w.sends[id].msg) && Allowed(w.state, w.sends[id].msg.header.topic, via, again)
    requires w.sends[id].msg.header.kind != Eager ==> o.peerOf(w.sends[id].msg.publicKey) == o.peerOf(o.key)
    ensures var sent, m := DoAdmit(o, w, id, via, again).sent, w.sends[id].msg;
            && sent.Some? && Variants.Faithful(o.codec, sent.value, m, 1)
            && Variants.SignedBy(o.codec, sent.value, m, 1, o.key)
  {
    var q := w.sends[id];
    assert SendOk(o, w.state.topics, q);
    SendableIff(o, w.state, q.msg);
    AdmissionDecides(o, w, id, via, again);
    Variants.LookupKeeps(o.codec, w.cache, q.msg, 1, o.key, q.wire);
  }

  /** With a licence at the route and at the admission the transport gets outer v1: the same
      message, re-signed by the relay if it was not outer v1 already. */
  lemma LegacySend(
    o: Oracle, w: World, id: nat, to: Peer, wire: seq<Byte>, m: Message, via: Session, r: Reads, again: Reads)
    requires o.codec.Sound() && WorldInv(o, w) && Submitted(o, w, id, wire, m)
    requires (to, m.header.topic) in w.state.grants && via.peer == to && Allowed(w.state, m.header.topic, via, r)
    requires m.header.kind != Eager ==> o.peerOf(m.publicKey) == o.peerOf(o.key)
    ensures At(DoLookUp(o, w, id, to, wire), id, Looked)
    ensures At(DoVerify(o, DoLookUp(o, w, id, to, wire), id), id, Verified)
    ensures var w3 := DoRoute(DoVerify(o, DoLookUp(o, w, id, to, wire), id), id, Some(via), r);
            && At(w3, id, Waiting)
            && (Allowed(w3.state, m.header.topic, via, again) ==>
                  var sent := DoAdmit(o, w3, id, via, again).sent;
                  && sent.Some? && Variants.Faithful(o.codec, sent.value, m, 1)
                  && Variants.SignedBy(o.codec, sent.value, m, 1, o.key))
  {
    SubmitVerifies(o, w, id, to, wire, m);
    var w2 := DoVerify(o, DoLookUp(o, w, id, to, wire), id);
    RouteDecides(w2, id, Some(via), r);
    RouteKeeps(o, w2, id, Some(via), r);
    RouteDrops(w2.state, to, m, Some(via), r);
    var w3 := DoRoute(w2, id, Some(via), r);
    if Allowed(w3.state, m.header.topic, via, again) { LegacyAdmission(o, w3, id, via, again); }
  }
}
