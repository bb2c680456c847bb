/** What the steps of a run do to replicas and to the tables of delivered versions, stated on
    the worlds before and after; where messages come from; what a sync round achieves. */
module ReplicationLaws {
  import opened Common
  import opened OrSetSpec
  import opened Replication

  ghost predicate StepIs(w: World, w': World, step: Step) {
    Enabled(w, step) && w' == Do(w, step)
  }

  // ---- The table of delivered versions ----

  /** The row of `j` at `i` moves in three ways only: it appears at zero when `j` is added,
      it goes when `j` is removed, and an acknowledged delta sets it to the version the
      delta was taken at. Adding a peer that has a row leaves the row alone. */
  lemma RowMoves(w: World, step: Step, i: Peer, j: Peer)
    requires Enabled(w, step)
    ensures var was, now := RowOf(w, i, j), RowOf(Do(w, step), i, j);
            if step == AddPeer(i, j) then now == if was.Some? then was else Some(0)
            else if step == RemovePeer(i, j) then now == None
            else if step.Acknowledge? && step.plan.src == i && step.plan.dst == j then now == Some(step.flight.sent)
            else now == was
  {
  }

  /** The delta `f` was taken in the world `w`: from its base to the version of that moment. */
  ghost predicate TakenAt(w: World, f: Flight) {
    && f.src in w.reps && f.base < f.sent == w.reps[f.src].orset.version
    && Delta(w.reps[f.src].orset, f.base) == Some(f.delta)
  }

  lemma NewFlight(w: World, step: Step, f: Flight)
    requires Enabled(w, step) && f in Do(w, step).flights && f !in w.flights
    ensures step == Extract(f.src, f.base) && TakenAt(w, f)
  {
  }

  /** Every delta in flight was taken at an earlier moment of the run. */
  lemma {:induction false} FlightOrigin(ws: seq<World>, n: nat, f: Flight) returns (m: nat)
    requires Run(ws) && n < |ws| && f in ws[n].flights
    ensures m < n && TakenAt(ws[m], f)
  {
    assert n > 0;
    assert Next(ws[n - 1], ws[n]);
    if f in ws[n - 1].flights {
      m := FlightOrigin(ws, n - 1, f);
    } else {
      var step: Step :| Enabled(ws[n - 1], step) && ws[n] == Do(ws[n - 1], step);
      NewFlight(ws[n - 1], step, f);
      m := n - 1;
    }
  }

  lemma AcknowledgeRows(w: World, plan: Plan, f: Flight)
    requires Enabled(w, Acknowledge(plan, f))
    ensures var w' := Do(w, Acknowledge(plan, f));
            && (forall i, j :: RowOf(w', i, j) ==
                               (if i == plan.src && j == plan.dst then Some(f.sent) else RowOf(w, i, j)))
            && (forall i :: i in w.reps ==> i in w'.reps && w'.reps[i].orset == w.reps[i].orset)
  {
  }

  /** An acknowledgement moves exactly one row, forward, to the version its source had when the
      delta was taken, a version the peer dominates by now; no set and no other row changes. */
  lemma AcknowledgeRecords(ws: seq<World>, n: nat, plan: Plan, f: Flight) returns (m: nat)
    requires Run(ws) && n + 1 < |ws| && StepIs(ws[n], ws[n + 1], Acknowledge(plan, f))
    ensures forall i, j :: RowOf(ws[n + 1], i, j) ==
                           (if i == plan.src && j == plan.dst then Some(f.sent) else RowOf(ws[n], i, j))
    ensures plan.base == f.base < f.sent && m < n && plan.src in ws[m].reps
    ensures f.sent == ws[m].reps[plan.src].orset.version
    ensures Mark(ws[n + 1].reps, plan.src, plan.dst, f.sent)
    ensures forall i :: i in ws[n].reps ==> i in ws[n + 1].reps && ws[n + 1].reps[i].orset == ws[n].reps[i].orset
  {
    AcknowledgeRows(ws[n], plan, f);
    RunKeepsInv(ws, n);
    assert (f, plan.dst) in ws[n].landed;
    m := FlightOrigin(ws, n, f);
    AcknowledgeStep(ws[n], plan, f);
  }

  /** When nothing changed locally since the delta was taken, its acknowledgement leaves the row
      at the local version: the peer dominates the whole local state and no delta is left for it. */
  lemma QuietRoundLeavesNothing(ws: seq<World>, n: nat, plan: Plan, f: Flight)
    requires Run(ws) && n + 1 < |ws| && StepIs(ws[n], ws[n + 1], Acknowledge(plan, f))
    requires ws[n].reps[plan.src].orset.version == f.sent
    ensures plan.src in ws[n + 1].reps && plan.dst in ws[n + 1].reps
    ensures var r := ws[n + 1].reps[plan.src];
            && RowOf(ws[n + 1], plan.src, plan.dst) == Some(r.orset.version)
            && Delta(r.orset, r.orset.version) == None
            && Leq(r.orset.core, ws[n + 1].reps[plan.dst].orset.core)
  {
    RunKeepsInv(ws, n);
    AcknowledgeStep(ws[n], plan, f);
    assert StateInv(ws[n].ops, ws[n].reps[plan.src]);
  }

  /** The sync loop has nothing to send to a peer exactly when its row is at the local version,
      or below the compaction floor. */
  lemma NothingToSendIff(ws: seq<World>, n: nat, i: Peer, j: Peer)
    requires Run(ws) && n < |ws| && RowOf(ws[n], i, j).Some?
    ensures var v, s := RowOf(ws[n], i, j).value, ws[n].reps[i].orset;
            Delta(s, v) == None <==> v == s.version || v < s.floor
  {
    RunState(ws, n, i);
    WatermarkIsSafe(ws, n, i, j);
    DeltaIsExact(ws[n].reps[i].orset, ws[n].reps[i].hist, RowOf(ws[n], i, j).value);
  }

  lemma OwnDeltaIsNoNews(s: Core, d: Core)
    requires d.Known() <= s.Known() && d.dead <= s.dead
    ensures News(s, d) == BOTTOM
  {
  }

  lemma DeliverEnds(w: World, f: Flight, j: Peer)
    requires Enabled(w, Deliver(f, j)) && StateInv(w.ops, w.reps[f.src]) && StateInv(w.ops, w.reps[j])
    requires TakenAt(w, f) && Leq(w.reps[f.src].hist[f.base], w.reps[j].orset.core)
    ensures var w' := Do(w, Deliver(f, j));
            && f.src in w'.reps && w'.reps[f.src].orset.version == f.sent
            && w'.reps[j].orset.core == Join(w.reps[j].orset.core, w.reps[f.src].orset.core)
            && w'.plans == w.plans && (f, j) in w'.landed
  {
    var r, s := w.reps[f.src], w.reps[j].orset.core;
    DeltaIsExact(r.orset, r.hist, f.base);
    ApplyIsJoin(w.reps[j].orset, f.delta);
    if j == f.src { OwnDeltaIsNoNews(s, f.delta); }
  }

  lemma TakeDelta(w: World, i: Peer, j: Peer) returns (w1: World, w2: World, f: Flight)
    requires RowOf(w, i, j).Some? && Delta(w.reps[i].orset, RowOf(w, i, j).value).Some?
    ensures var v := RowOf(w, i, j).value;
            && StepIs(w, w1, ReadRow(i, j)) && StepIs(w1, w2, Extract(i, v))
            && w2.reps == w.reps && w2.ops == w.ops && Plan(i, j, v) in w2.plans
            && f in w2.flights && f.src == i && f.base == v && TakenAt(w2, f)
  {
    var v, r := RowOf(w, i, j).value, w.reps[i];
    w1 := Do(w, ReadRow(i, j));
    w2 := Do(w1, Extract(i, v));
    f := Flight(i, v, r.orset.version, Delta(r.orset, v).value, r.seen, r.exact);
  }

  lemma RowFacts(w: World, i: Peer, j: Peer)
    requires Inv(w) && RowOf(w, i, j).Some?
    ensures j in w.reps && StateInv(w.ops, w.reps[i]) && StateInv(w.ops, w.reps[j])
    ensures Mark(w.reps, i, j, RowOf(w, i, j).value)
  {
    assert TableInv(w.reps, i);
  }

  lemma LandDelta(w: World, v: nat, f: Flight, j: Peer) returns (w3: World, w4: World)
    requires f in w.flights && TakenAt(w, f) && f.base == v && Plan(f.src, j, v) in w.plans
    requires Mark(w.reps, f.src, j, v) && StateInv(w.ops, w.reps[f.src]) && StateInv(w.ops, w.reps[j])
    ensures StepIs(w, w3, Deliver(f, j)) && StepIs(w3, w4, Acknowledge(Plan(f.src, j, v), f))
    ensures f.src in w4.reps && j in w4.reps
    ensures w4.reps[j].orset.core == Join(w.reps[j].orset.core, w.reps[f.src].orset.core)
    ensures RowOf(w4, f.src, j) == Some(w4.reps[f.src].orset.version) && w4.reps[f.src].orset.version == f.sent
  {
    w3 := Do(w, Deliver(f, j));
    DeliverEnds(w, f, j);
    w4 := Do(w3, Acknowledge(Plan(f.src, j, v), f));
    AcknowledgeRows(w3, Plan(f.src, j, v), f);
  }

  /** A sync round that is not disturbed, from any reachable world and for any peer the local set
      has a delta for: its four steps are enabled one after the other, and at the end the peer
      holds the join of both states, its row is at the local version and nothing is left to send. */
  lemma RoundCompletes(w: World, i: Peer, j: Peer) returns (w1: World, w2: World, w3: World, w4: World, f: Flight)
    requires Inv(w) && RowOf(w, i, j).Some? && Delta(w.reps[i].orset, RowOf(w, i, j).value).Some?
    ensures var v := RowOf(w, i, j).value;
            && StepIs(w, w1, ReadRow(i, j)) && StepIs(w1, w2, Extract(i, v))
            && StepIs(w2, w3, Deliver(f, j)) && StepIs(w3, w4, Acknowledge(Plan(i, j, v), f))
    ensures i in w4.reps && j in w.reps && j in w4.reps
    ensures w4.reps[j].orset.core == Join(w.reps[j].orset.core, w.reps[i].orset.core)
    ensures RowOf(w4, i, j) == Some(w4.reps[i].orset.version)
    ensures w4.reps[i].orset.version == w.reps[i].orset.version
  {
    RowFacts(w, i, j);
    w1, w2, f := TakeDelta(w, i, j);
    w3, w4 := LandDelta(w2, RowOf(w, i, j).value, f, j);
  }

  // ---- Sets ----

  /** A snapshot in transit is the whole state some replica had at an earlier moment. */
  ghost predicate PublishedAt(w: World, m: Snapshot) {
    exists i :: i in w.reps && m.core == w.reps[i].orset.core
  }

  lemma {:induction false} SnapOrigin(ws: seq<World>, n: nat, m: Snapshot) returns (k: nat)
    requires Run(ws) && n < |ws| && m in ws[n].snaps
    ensures k < n && PublishedAt(ws[k], m)
  {
    assert n > 0;
    assert Next(ws[n - 1], ws[n]);
    if m in ws[n - 1].snaps {
      k := SnapOrigin(ws, n - 1, m);
    } else {
      var step: Step :| Enabled(ws[n - 1], step) && ws[n] == Do(ws[n - 1], step);
      NewSnap(ws[n - 1], step, m);
      k := n - 1;
    }
  }

  lemma NewSnap(w: World, step: Step, m: Snapshot)
    requires Enabled(w, step) && m in Do(w, step).snaps && m !in w.snaps
    ensures step.Publish? && PublishedAt(w, m)
  {
    assert step.Publish?;
    assert step.i in w.reps && m.core == w.reps[step.i].orset.core;
  }

  /** The replica a step works on; the others keep their sets. */
  function Target(step: Step): Option<Peer> {
    match step
    case Issue(i, _, _) => Some(i)
    case Erase(i, _) => Some(i)
    case Absorb(i, _) => Some(i)
    case Deliver(_, i) => Some(i)
    case CompactLog(i, _) => Some(i)
    case _ => None
  }

  /** What a step does to the sets: a merge lands on the join with the whole snapshot or delta
      in transit, an add and a remove decide the visibility of their element, everything else
      leaves every state as it is, compaction included. */
  lemma StatesMove(ws: seq<World>, n: nat, step: Step, i: Peer)
    requires Run(ws) && n + 1 < |ws| && StepIs(ws[n], ws[n + 1], step) && i in ws[n].reps
    ensures i in ws[n + 1].reps
    ensures var s, s' := ws[n].reps[i].orset.core, ws[n + 1].reps[i].orset.core;
            && (Target(step) != Some(i) || step.CompactLog? ==> s' == s)
            && (step.Absorb? && step.i == i ==> s' == Join(s, step.snap.core))
            && (step.Deliver? && step.i == i ==> s' == Join(s, step.flight.delta))
            && (step.Issue? && step.i == i ==>
                  forall e :: Contains(ws[n + 1], i, e) <==> e == step.elem || Contains(ws[n], i, e))
            && (step.Erase? && step.i == i ==>
                  forall e :: Contains(ws[n + 1], i, e) <==> e != step.elem && Contains(ws[n], i, e))
  {
    RunState(ws, n, i);
    var r := ws[n].reps[i];
    match step
    case Issue(o, e, num) => if o == i { IssueShows(ws[n], ws[n + 1], i, e, num); }
    case Erase(o, e) => if o == i { EraseShows(ws[n], ws[n + 1], i, e); }
    case Absorb(o, m) => if o == i { ApplyIsJoin(r.orset, m.core); }
    case Deliver(f, o) => if o == i { ApplyIsJoin(r.orset, f.delta); }
    case _ =>
  }

  lemma IssueShows(w: World, w': World, i: Peer, elem: Element, num: nat)
    requires StepIs(w, w', Issue(i, elem, num))
    ensures forall e :: Contains(w', i, e) <==> e == elem || Contains(w, i, e)
  {
    var p, s, s' := Pair(elem, Tag(i, num)), w.reps[i].orset.core.live, w'.reps[i].orset.core.live;
    assert s' == s + {p};
    forall e ensures Contains(w', i, e) <==> e == elem || Contains(w, i, e) {
      if e == elem { assert Pair(e, Tag(i, num)) in s'; }
      if t :| Pair(e, t) in s { assert Pair(e, t) in s'; }
    }
  }

  lemma EraseShows(w: World, w': World, i: Peer, elem: Element)
    requires StepIs(w, w', Erase(i, elem))
    ensures forall e :: Contains(w', i, e) <==> e != elem && Contains(w, i, e)
  {
    var s, s' := w.reps[i].orset.core.live, w'.reps[i].orset.core.live;
    assert s' == s - TagsOf(s, elem);
    forall e ensures Contains(w', i, e) <==> e != elem && Contains(w, i, e) {
      if e != elem { if t :| Pair(e, t) in s { assert Pair(e, t) in s'; } }
    }
  }
}
