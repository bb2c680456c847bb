/** What every run of the node machine keeps: lock exclusion, the ACK-against-timeout
    ordering, the commit's retry bound and the view bounds. */
module NodeInvariants {
  import opened Common
  import opened Sets
  import opened Node

  // ---- Invariants ----

  /** A write lock is held by one task, to the exclusion of readers. */
  ghost predicate Exclusive(s: State) {
    forall a, b :: a in s.tasks && b in s.tasks && a != b ==> HoldsW(s.tasks[a].task) !! Holds(s.tasks[b].task)
  }

  predicate IsDataLock(l: Lock) { l in {Swim, Active, Passive} }

  ghost predicate CommitInv(cfg: Config, k: Commit, d: Data) {
    match k
    case AtGate => true
    case Round(busy, next) => busy <= COMMIT_TRY_ROUNDS && (next.Some? ==> IsDataLock(next.value))
    case WaitFor(busy, l) => busy < COMMIT_TRY_ROUNDS && IsDataLock(l)
    case TrySwim(busy, pre) => busy < COMMIT_TRY_ROUNDS && (pre.Some? ==> IsDataLock(pre.value))
    case TryActive(busy, pre) => busy < COMMIT_TRY_ROUNDS && (pre.Some? ==> IsDataLock(pre.value))
    case TryPassive(busy, pre) => busy < COMMIT_TRY_ROUNDS && (pre.Some? ==> IsDataLock(pre.value))
    case OrderSwim(busy) => busy == COMMIT_TRY_ROUNDS
    case OrderActive(busy) => busy == COMMIT_TRY_ROUNDS
    case Decide(busy) => busy == COMMIT_TRY_ROUNDS
    case OrderPassive(busy, q) => busy == COMMIT_TRY_ROUNDS && IsDemotion(cfg, d.active, Some(q))
    case ApplyAll(busy, q) => busy == COMMIT_TRY_ROUNDS && IsDemotion(cfg, d.active, Some(q))
  }

  /** What holds at each program point. */
  ghost predicate TaskInv(cfg: Config, t: Task, d: Data) {
    match t
    case Section(a, _) =>
      a.AckMark? ==> a.cut <= d.clock && (a.p in d.probes ==> a.cut <= d.probes[a.p])
    case Committing(_, k) => CommitInv(cfg, k, d)
    case Rechecking(at, todo) =>
      todo != [] && (at.Write? ==> todo[0].peer in d.probes && d.probes[todo[0].peer] == todo[0].stamp)
    case Maintaining(k, job) => k <= 5 && job.InRange(cfg)
    case Done => true
  }

  ghost predicate SuspectOk(d: Data, p: Peer, e: Entry) {
    e.health == Suspect && e.cause.Some? ==>
      e.cause.value < d.clock && (p in d.acked ==> d.acked[p] <= e.cause.value)
  }

  ghost predicate DataInv(d: Data) {
    && (forall p :: p in d.probes ==> d.probes[p] < d.clock)
    && (forall p :: p in d.acked ==> d.acked[p] <= d.clock)
    && (forall p :: p in d.acked && p in d.probes ==> d.acked[p] <= d.probes[p])
    && (forall p :: p in d.states ==> SuspectOk(d, p, d.states[p]))
  }

  predicate Bounded(cfg: Config, d: Data) {
    |d.active| <= cfg.maxActive && |d.passive| <= cfg.maxPassive
  }

  ghost predicate Inv(s: State) {
    && s.cfg.Sound() && Exclusive(s) && DataInv(s.data) && Bounded(s.cfg, s.data)
    && forall id :: id in s.tasks ==> TaskInv(s.cfg, s.tasks[id].task, s.data)
  }

  // ---- Lock discipline ----

  /** Data changes only under its write lock, and new probe stamps come from the clock. */
  ghost predicate Guarded(held: set<Lock>, d: Data, d': Data) {
    && (Probe in held || d'.probes == d.probes)
    && (Indirect in held || d'.indirect == d.indirect)
    && (Swim in held || (d'.states == d.states && d'.acked == d.acked))
    && (Active in held || d'.active == d.active)
    && (Passive in held || d'.passive == d.passive)
    && d.clock <= d'.clock
    && forall p :: p in d'.probes ==> (p in d.probes && d'.probes[p] == d.probes[p]) || d.clock <= d'.probes[p]
  }

  lemma ProbesAreGuarded(a: Action, d: Data, c: Choice)
    ensures var d' := ActOnProbes(a, d, c).data; d' == d.(probes := d'.probes, clock := d'.clock)
    ensures Guarded({Probe}, d, ActOnProbes(a, d, c).data)
    ensures a.ScanProbes? || a.ReadOnly? ==> ActOnProbes(a, d, c).data == d
  {
  }

  lemma StatesAreGuarded(a: Action, d: Data, c: Choice)
    ensures var d' := ActOnStates(a, d, c).data; d' == d.(states := d'.states, acked := d'.acked)
    ensures a.AskOthers? || a.PickTargets? || a.ReadOnly? ==> ActOnStates(a, d, c).data == d
  {
  }

  lemma ViewsAreGuarded(cfg: Config, a: Action, d: Data)
    ensures var d' := ActOnViews(cfg, a, d).data; d' == d.(active := d'.active, passive := d'.passive)
    ensures !a.DropActive? ==> ActOnViews(cfg, a, d).data.active == d.active
    ensures !a.InsertPassive? && !a.TakePassive? ==> ActOnViews(cfg, a, d).data.passive == d.passive
  {
  }

  lemma ActIsGuarded(cfg: Config, a: Action, d: Data, c: Choice)
    ensures Guarded(if Needs(a).mode == W then {Needs(a).lock} else {}, d, Act(cfg, a, d, c).data)
  {
    ProbesAreGuarded(a, d, c);
    StatesAreGuarded(a, d, c);
    ViewsAreGuarded(cfg, a, d);
  }

  lemma CommitIsGuarded(cfg: Config, p: Peer, k: Commit, d: Data, free: set<Lock>, demote: Option<Peer>)
    requires CommitWant(k).None?
    ensures Guarded(CommitHolds(k) + (free * {Passive}), d, CommitStep(cfg, p, k, d, free, demote).data)
  {
  }

  lemma MaintainIsGuarded(cfg: Config, d: Data, job: Job, c: Choice)
    ensures Guarded(MaintainHolds(5), d, Maintained(cfg, d, job, c))
  {
  }

  /** A step writes only what its write locks (or the passive lock it just tried) cover. */
  lemma BodyIsGuarded(cfg: Config, t: Task, d: Data, free: set<Lock>, c: Choice)
    requires Want(t).None?
    ensures Guarded(HoldsW(t) + (free * {Passive}), d, Body(cfg, t, d, free, c).data)
  {
    match t
    case Section(a, _) => ActIsGuarded(cfg, a, d, c);
    case Committing(p, k) => CommitIsGuarded(cfg, p, k, d, free, c.demote);
    case Rechecking(_, _) =>
    case Maintaining(_, job) => MaintainIsGuarded(cfg, d, job, c);
    case Done =>
  }

  lemma BodyHolds(cfg: Config, t: Task, d: Data, free: set<Lock>, c: Choice)
    requires Want(t).None?
    ensures HoldsW(Body(cfg, t, d, free, c).task) <= HoldsW(t) + free
    ensures HoldsR(Body(cfg, t, d, free, c).task) <= HoldsR(t)
  {
  }

  lemma GrantedHolds(t: Task)
    requires Want(t).Some?
    ensures var r := Want(t).value;
            && HoldsW(Granted(t)) <= HoldsW(t) + (if r.mode == W then {r.lock} else {})
            && HoldsR(Granted(t)) <= HoldsR(t) + (if r.mode == R then {r.lock} else {})
  {
  }

  // ---- Each kind of step keeps the data invariants and its own program-point invariant ----

  /** Probe-table changes: entries leave, or arrive with a stamp from the clock. */
  lemma ProbesKeep(d: Data, d': Data)
    requires DataInv(d) && d' == d.(probes := d'.probes, clock := d'.clock) && d.clock <= d'.clock
    requires forall p :: p in d'.probes ==>
               (p in d.probes && d'.probes[p] == d.probes[p]) || d.clock <= d'.probes[p] < d'.clock
    ensures DataInv(d')
  {
    forall p | p in d'.states ensures SuspectOk(d', p, d'.states[p]) { assert SuspectOk(d, p, d.states[p]); }
  }

  /** State changes that leave no new probe-caused suspicion. */
  lemma StatesKeep(d: Data, d': Data)
    requires DataInv(d) && d' == d.(states := d'.states)
    requires forall p :: p in d'.states ==>
               || (p in d.states && d'.states[p] == d.states[p])
               || d'.states[p].health != Suspect || d'.states[p].cause.None?
    ensures DataInv(d')
  {
    forall p | p in d'.states ensures SuspectOk(d', p, d'.states[p]) {
      if p in d.states { assert SuspectOk(d, p, d.states[p]); }
    }
  }

  /** The ACK's mark: its cut-off is at or below any probe now pending for the peer. */
  lemma AckedKeep(d: Data, p: Peer, cut: Stamp)
    requires DataInv(d) && cut <= d.clock && (p in d.probes ==> cut <= d.probes[p])
    ensures DataInv(Acked(d, p, cut))
  {
    var d' := Acked(d, p, cut);
    forall q | q in d'.states ensures SuspectOk(d', q, d'.states[q]) {
      if q != p { assert SuspectOk(d, q, d.states[q]); }
    }
  }

  lemma ProbeActKeeps(cfg: Config, a: Action, d: Data, c: Choice)
    requires DataInv(d)
    ensures var o := ActOnProbes(a, d, c); DataInv(o.data) && TaskInv(cfg, o.task, o.data)
  {
    ProbesAreGuarded(a, d, c);
    ProbesKeep(d, ActOnProbes(a, d, c).data);
  }

  lemma StateActKeeps(cfg: Config, a: Action, d: Data, c: Choice)
    requires TaskInv(cfg, Section(a, true), d) && DataInv(d)
    ensures var o := ActOnStates(a, d, c); DataInv(o.data) && TaskInv(cfg, o.task, o.data)
  {
    if a.AckMark? {
      AckedKeep(d, a.p, a.cut);
    } else {
      StatesKeep(d, ActOnStates(a, d, c).data);
    }
  }

  /** The data invariant does not mention the views or the indirect table. */
  lemma ViewsKeep(d: Data, d': Data)
    requires DataInv(d) && d' == d.(indirect := d'.indirect, active := d'.active, passive := d'.passive)
    ensures DataInv(d')
  {
    forall p | p in d'.states ensures SuspectOk(d', p, d'.states[p]) { assert SuspectOk(d, p, d.states[p]); }
  }

  lemma ActKeeps(cfg: Config, a: Action, d: Data, c: Choice)
    requires TaskInv(cfg, Section(a, true), d) && DataInv(d)
    ensures var o := Act(cfg, a, d, c); DataInv(o.data) && TaskInv(cfg, o.task, o.data)
  {
    match Needs(a).lock
    case Gate =>
    case Probe => ProbeActKeeps(cfg, a, d, c);
    case Swim => StateActKeeps(cfg, a, d, c);
    case Indirect => ViewsKeep(d, ActOnIndirect(a, d, c).data);
    case Active => ViewsKeep(d, ActOnViews(cfg, a, d).data);
    case Passive => ViewsKeep(d, ActOnViews(cfg, a, d).data);
  }

  lemma ViewActBounds(cfg: Config, a: Action, d: Data)
    requires Bounded(cfg, d)
    ensures Bounded(cfg, ActOnViews(cfg, a, d).data)
  {
    if a.DropActive? { SubsetSize(d.active - {a.p}, d.active); }
    if a.TakePassive? { SubsetSize(d.passive - {a.p}, d.passive); }
  }

  lemma ActBounds(cfg: Config, a: Action, d: Data, c: Choice)
    requires Bounded(cfg, d)
    ensures Bounded(cfg, Act(cfg, a, d, c).data)
  {
    ViewActBounds(cfg, a, d);
    ProbesAreGuarded(a, d, c);
    StatesAreGuarded(a, d, c);
  }

  lemma CommittedBounds(cfg: Config, d: Data, p: Peer, demote: Option<Peer>)
    requires Bounded(cfg, d) && cfg.Sound()
    requires demote.Some? ==> demote.value in d.active
    requires demote.None? ==> |d.active| < cfg.activeDegree || d.active == {}
    ensures Bounded(cfg, Committed(cfg, d, p, demote))
  {
    if demote.Some? { DifferenceSize(d.active, {demote.value}); }
  }

  lemma CommittedKeeps(cfg: Config, d: Data, p: Peer, demote: Option<Peer>)
    requires DataInv(d)
    ensures DataInv(Committed(cfg, d, p, demote))
  {
    StatesKeep(d, d.(states := d.states[p := Entry(Alive, None)]));
    var d' := Committed(cfg, d, p, demote);
    forall q | q in d'.states ensures SuspectOk(d', q, d'.states[q]) {
      if q != p { assert SuspectOk(d, q, d.states[q]); }
    }
  }

  lemma CommitKeeps(cfg: Config, p: Peer, k: Commit, d: Data, free: set<Lock>, demote: Option<Peer>)
    requires CommitInv(cfg, k, d) && CommitWant(k).None? && DataInv(d) && Bounded(cfg, d) && cfg.Sound()
    requires IsDemotion(cfg, d.active, demote)
    ensures var o := CommitStep(cfg, p, k, d, free, demote);
            DataInv(o.data) && Bounded(cfg, o.data) && TaskInv(cfg, o.task, o.data)
  {
    var who := if k.ApplyAll? then Some(k.demote) else demote;
    CommittedBounds(cfg, d, p, who);
    CommittedKeeps(cfg, d, p, who);
  }

  lemma RecheckKeeps(cfg: Config, at: Recheck, todo: seq<Probed>, d: Data)
    requires TaskInv(cfg, Rechecking(at, todo), d) && DataInv(d) && Bounded(cfg, d)
    ensures var o := RecheckStep(at, todo, d);
            DataInv(o.data) && Bounded(cfg, o.data) && TaskInv(cfg, o.task, o.data)
  {
  }

  lemma MaintainedActive(cfg: Config, d: Data, job: Job, c: Choice)
    requires PromoteOk(cfg, d, job, c) && DemoteOk(cfg, d, job, c)
    ensures |ConnectedActive(d, job)| <= |d.active|
    ensures |ConnectedActive(d, job) + c.promoted - c.demoted|
            == |ConnectedActive(d, job)| + PromoteCount(cfg, d, job) - DemoteCount(cfg, d, job)
  {
    SubsetSize(ConnectedActive(d, job), d.active);
    UnionSize(ConnectedActive(d, job), c.promoted);
    DifferenceSize(ConnectedActive(d, job) + c.promoted, c.demoted);
  }

  lemma MaintainedPassive(passive: set<Peer>, job: Job, c: Choice)
    requires TrimOk(passive, job, c)
    ensures |passive - c.trimmed| <= job.passiveMax
  {
    DifferenceSize(passive, c.trimmed);
  }

  lemma CountsFit(cfg: Config, d: Data, job: Job)
    requires job.target <= cfg.maxActive
    ensures |ConnectedActive(d, job)| + PromoteCount(cfg, d, job) - DemoteCount(cfg, d, job) <= cfg.maxActive
  {
  }

  lemma MaintainBounds(cfg: Config, d: Data, job: Job, c: Choice)
    requires job.InRange(cfg) && Bounded(cfg, d) && MaintainChoice(cfg, d, job, c)
    ensures Bounded(cfg, Maintained(cfg, d, job, c))
  {
    MaintainedActive(cfg, d, job, c);
    CountsFit(cfg, d, job);
    MaintainedPassive(Candidates(cfg, d, job) - c.promoted + c.kept, job, c);
  }

  lemma MaintainKeeps(cfg: Config, d: Data, job: Job, c: Choice)
    requires DataInv(d)
    ensures DataInv(Maintained(cfg, d, job, c))
  {
    var d' := Maintained(cfg, d, job, c);
    forall p | p in d'.states ensures SuspectOk(d', p, d'.states[p]) {
      if p !in c.promoted { assert d'.states[p] == d.states[p] && SuspectOk(d, p, d.states[p]); }
    }
  }

  lemma BodyKeeps(cfg: Config, t: Task, d: Data, free: set<Lock>, c: Choice)
    requires Want(t).None? && TaskInv(cfg, t, d) && DataInv(d) && Bounded(cfg, d) && cfg.Sound()
    requires ChoiceOk(cfg, t, d, c)
    ensures var o := Body(cfg, t, d, free, c);
            DataInv(o.data) && Bounded(cfg, o.data) && TaskInv(cfg, o.task, o.data)
  {
    match t
    case Section(a, _) => ActKeeps(cfg, a, d, c); ActBounds(cfg, a, d, c);
    case Committing(p, k) => CommitKeeps(cfg, p, k, d, free, c.demote);
    case Rechecking(at, todo) => RecheckKeeps(cfg, at, todo, d);
    case Maintaining(_, job) => MaintainKeeps(cfg, d, job, c); MaintainBounds(cfg, d, job, c);
    case Done =>
  }

  /** A step under locks that another task does not hold leaves that task's
      program-point invariant standing. */
  lemma OthersKeep(cfg: Config, t: Task, held: set<Lock>, d: Data, d': Data)
    requires TaskInv(cfg, t, d) && Guarded(held, d, d') && held !! Holds(t)
    ensures TaskInv(cfg, t, d')
  {
    if t.Committing? && (t.commit.OrderPassive? || t.commit.ApplyAll?) { assert Active in Holds(t); }
    if t.Rechecking? && t.at.Write? { assert Probe in Holds(t); }
  }

  // ---- One step of the machine ----

  lemma ExclusiveAfter(s: State, s': State, id: nat, t': Task)
    requires Exclusive(s) && s'.tasks.Keys <= s.tasks.Keys + {id} && id in s'.tasks && s'.tasks[id].task == t'
    requires forall o :: o in s'.tasks && o != id ==> o in s.tasks && s'.tasks[o] == s.tasks[o]
    requires forall o :: o in s.tasks && o != id ==>
               HoldsW(t') !! Holds(s.tasks[o].task) && HoldsR(t') !! HoldsW(s.tasks[o].task)
    ensures Exclusive(s')
  {
  }

  lemma RunExclusive(s: State, id: nat, c: Choice)
    requires Exclusive(s) && Enabled(s, Run(id, c))
    ensures Exclusive(Do(s, Run(id, c)))
  {
    var t := s.tasks[id].task;
    var t' := Body(s.cfg, t, s.data, Free(s), c).task;
    BodyHolds(s.cfg, t, s.data, Free(s), c);
    forall o | o in s.tasks && o != id
      ensures HoldsW(t') !! Holds(s.tasks[o].task) && HoldsR(t') !! HoldsW(s.tasks[o].task)
    {
      FreeIsUnheld(s, o);
      assert HoldsW(t) !! Holds(s.tasks[o].task) && HoldsW(s.tasks[o].task) !! Holds(t);
    }
    ExclusiveAfter(s, Do(s, Run(id, c)), id, t');
  }

  lemma FreeIsUnheld(s: State, o: nat)
    requires o in s.tasks
    ensures Free(s) !! Holds(s.tasks[o].task)
  {
    forall l | l in Free(s) ensures l !in Holds(s.tasks[o].task) { assert IsFree(s, l); }
  }

  lemma RunOthers(s: State, id: nat, c: Choice, o: nat)
    requires Inv(s) && Enabled(s, Run(id, c)) && o in s.tasks && o != id
    ensures TaskInv(s.cfg, s.tasks[o].task, Body(s.cfg, s.tasks[id].task, s.data, Free(s), c).data)
  {
    var t := s.tasks[id].task;
    var held := HoldsW(t) + (Free(s) * {Passive});
    BodyIsGuarded(s.cfg, t, s.data, Free(s), c);
    FreeIsUnheld(s, o);
    assert HoldsW(t) !! Holds(s.tasks[o].task);
    OthersKeep(s.cfg, s.tasks[o].task, held, s.data, Body(s.cfg, t, s.data, Free(s), c).data);
  }

  lemma RunStep(s: State, id: nat, c: Choice)
    requires Inv(s) && Enabled(s, Run(id, c))
    ensures Inv(Do(s, Run(id, c)))
  {
    RunExclusive(s, id, c);
    BodyKeeps(s.cfg, s.tasks[id].task, s.data, Free(s), c);
    var s' := Do(s, Run(id, c));
    forall o | o in s'.tasks ensures TaskInv(s.cfg, s'.tasks[o].task, s'.data) {
      if o != id { RunOthers(s, id, c, o); }
    }
  }

  lemma GrantExclusive(s: State, id: nat)
    requires Exclusive(s) && CanGrant(s, id)
    ensures Exclusive(Do(s, Grant(id)))
  {
    var t := s.tasks[id].task;
    var r := Want(t).value;
    GrantedHolds(t);
    forall o | o in s.tasks && o != id
      ensures HoldsW(Granted(t)) !! Holds(s.tasks[o].task) && HoldsR(Granted(t)) !! HoldsW(s.tasks[o].task)
    {
      assert !Conflicts(s, o, r);
      assert HoldsW(t) !! Holds(s.tasks[o].task) && HoldsW(s.tasks[o].task) !! Holds(t);
    }
    ExclusiveAfter(s, Do(s, Grant(id)), id, Granted(t));
  }

  lemma GrantedKeeps(cfg: Config, t: Task, d: Data)
    requires Want(t).Some? && TaskInv(cfg, t, d)
    ensures TaskInv(cfg, Granted(t), d)
  {
  }

  lemma GrantStep(s: State, id: nat)
    requires Inv(s) && Enabled(s, Grant(id))
    ensures Inv(Do(s, Grant(id)))
  {
    GrantExclusive(s, id);
    GrantedKeeps(s.cfg, s.tasks[id].task, s.data);
  }

  lemma StepKeepsInv(s: State, step: Step)
    requires Inv(s) && Enabled(s, step)
    ensures Inv(Do(s, step)) && Do(s, step).cfg == s.cfg
  {
    match step
    case Spawn(id, t) => ExclusiveAfter(s, Do(s, step), id, t);
    case Grant(id) => GrantStep(s, id);
    case Run(id, c) => RunStep(s, id, c);
    case Cancel(_) =>
  }

  // ---- Whole runs ----

  ghost predicate Init(s: State) {
    && s.cfg.Sound() && s.tasks == map[]
    && s.data == Data(map[], {}, map[], {}, {}, 0, map[])
  }

  ghost predicate Next(s: State, s': State) {
    exists step: Step :: Enabled(s, step) && s' == Do(s, step)
  }

  ghost predicate IsRun(ss: seq<State>) {
    |ss| > 0 && Init(ss[0]) && forall n :: 0 < n < |ss| ==> Next(ss[n - 1], ss[n])
  }

  lemma {:induction false} RunKeepsInv(ss: seq<State>, n: nat)
    requires IsRun(ss) && n < |ss|
    ensures Inv(ss[n])
  {
    if n > 0 {
      RunKeepsInv(ss, n - 1);
      assert Next(ss[n - 1], ss[n]);
      var step: Step :| Enabled(ss[n - 1], step) && ss[n] == Do(ss[n - 1], step);
      StepKeepsInv(ss[n - 1], step);
    }
  }
}
