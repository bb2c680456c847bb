/** The theorems about whole runs of a membership node. */
module NodeTheorems {
  import opened Common
  import opened Sets
  import opened Node
  import opened NodeInvariants

  // ---- Deadlock freedom ----

  ghost function NoChoice(): Choice {
    Choice(None, [], [], {}, {}, {}, {}, {}, {})
  }

  lemma MaintainHasChoice(cfg: Config, d: Data, job: Job) returns (c: Choice)
    ensures MaintainChoice(cfg, d, job, c)
  {
    var active1, passive1 := ConnectedActive(d, job), Candidates(cfg, d, job);
    var promoted := Take(passive1 * job.connected, PromoteCount(cfg, d, job));
    SubsetSize(active1, active1 + promoted);
    var demoted := Take(active1 + promoted, DemoteCount(cfg, d, job));
    var kept, trimmed := KeepAndTrim(passive1 - promoted, demoted, job);
    c := NoChoice().(promoted := promoted, demoted := demoted, kept := kept, trimmed := trimmed);
  }

  lemma KeepAndTrim(passive: set<Peer>, demoted: set<Peer>, job: Job) returns (kept: set<Peer>, trimmed: set<Peer>)
    ensures forall c: Choice :: c.demoted == demoted && c.kept == kept && c.trimmed == trimmed ==>
              KeepOk(passive, job, c) && TrimOk(passive + kept, job, c)
  {
    kept := Take(demoted, Min(|demoted|, Excess(job.passiveMax, |passive|)));
    var all := passive + kept;
    trimmed := Take(all, Excess(|all|, job.passiveMax));
  }

  /** A task that is not waiting can always take its next step. */
  lemma RunnableHasStep(s: State, id: nat) returns (c: Choice)
    requires id in s.tasks && Want(s.tasks[id].task).None?
    ensures Enabled(s, Run(id, c))
  {
    var t := s.tasks[id].task;
    c := NoChoice();
    if t.Maintaining? {
      c := MaintainHasChoice(s.cfg, s.data, t.job);
    } else if t.Committing? && |s.data.active| >= s.cfg.activeDegree && s.data.active != {} {
      var q :| q in s.data.active;
      c := c.(demote := Some(q));
    }
  }

  /** In every run, whatever tasks there are: when some task waits for a lock, then a chain
      of tasks, each in the way of the one before, leads to one that can step: it is at the
      front of a lock's queue, or holds a lock and waits for nothing. */
  lemma NoRunDeadlocks(ss: seq<State>, n: nat, id: nat) returns (chain: seq<nat>, step: Step)
    requires IsRun(ss) && n < |ss|
    requires id in ss[n].tasks && Want(ss[n].tasks[id].task).Some?
    ensures chain != [] && chain[0] == id && IsChain(ss[n], chain) && Enabled(ss[n], step)
    ensures var mover := chain[|chain| - 1];
            && mover in ss[n].tasks
            && (step == Grant(mover) || (step.Run? && step.id == mover && Holds(ss[n].tasks[mover].task) != {}))
  {
    RunKeepsInv(ss, n);
    var s := ss[n];
    forall o | o in s.tasks ensures WellFormed(s.tasks[o].task) { assert TaskInv(s.cfg, s.tasks[o].task, s.data); }
    chain := NoDeadlock(s, id);
    var mover := chain[|chain| - 1];
    if CanGrant(s, mover) {
      step := Grant(mover);
    } else {
      var c := RunnableHasStep(s, mover);
      step := Run(mover, c);
    }
  }

  ghost predicate StepIs(s: State, s': State, step: Step) {
    Enabled(s, step) && s' == Do(s, step)
  }

  ghost predicate CausedBy(d: Data, p: Peer, k: Stamp) {
    p in d.states && d.states[p] == Entry(Suspect, Some(k))
  }

  function EntryOf(d: Data, p: Peer): Option<Entry> { if p in d.states then Some(d.states[p]) else None }

  /** The cut-off of an ACK is the clock at the moment it clears the probe table: every
      probe recorded so far is stamped below it. */
  lemma AckCutsAtClear(ss: seq<State>, n: nat, id: nat, c: Choice)
    requires IsRun(ss) && n + 1 < |ss| && StepIs(ss[n], ss[n + 1], Run(id, c))
    requires ss[n].tasks[id].task.Section? && ss[n].tasks[id].task.action.AckClear?
    ensures var a, d, d' := ss[n].tasks[id].task.action, ss[n].data, ss[n + 1].data;
            && ss[n + 1].tasks[id].task == Section(AckMark(a.p, a.full, d.clock), false)
            && a.p !in d'.probes
            && (forall j, q :: 0 <= j <= n && q in ss[j].data.probes ==> ss[j].data.probes[q] < d.clock)
            && d'.states == d.states
  {
    forall j, q | 0 <= j <= n && q in ss[j].data.probes ensures ss[j].data.probes[q] < ss[n].data.clock {
      RunKeepsInv(ss, j);
      ClockOfRun(ss, j, n);
    }
  }

  predicate AckedUp(d: Data, d': Data, p: Peer) {
    p in d.acked ==> p in d'.acked && d.acked[p] <= d'.acked[p]
  }

  lemma BodyAcked(cfg: Config, t: Task, d: Data, free: set<Lock>, c: Choice, p: Peer)
    requires Want(t).None?
    ensures AckedUp(d, Body(cfg, t, d, free, c).data, p)
  {
  }

  lemma AckedNext(s: State, s': State, p: Peer)
    requires Next(s, s')
    ensures AckedUp(s.data, s'.data, p)
  {
    var step: Step :| Enabled(s, step) && s' == Do(s, step);
    if step.Run? {
      BodyAcked(s.cfg, s.tasks[step.id].task, s.data, Free(s), step.choice, p);
    }
  }

  lemma {:induction false} AckedUps(ss: seq<State>, m: nat, n: nat, p: Peer)
    requires m <= n < |ss| && forall k :: m < k <= n ==> AckedUp(ss[k - 1].data, ss[k].data, p)
    ensures AckedUp(ss[m].data, ss[n].data, p)
    decreases n
  {
    if m < n {
      AckedUps(ss, m, n - 1, p);
    }
  }

  lemma AckedStays(ss: seq<State>, m: nat, n: nat, p: Peer)
    requires IsRun(ss) && m <= n < |ss| && p in ss[m].data.acked
    ensures p in ss[n].data.acked && ss[m].data.acked[p] <= ss[n].data.acked[p]
  {
    forall k | m < k <= n ensures AckedUp(ss[k - 1].data, ss[k].data, p) {
      assert Next(ss[k - 1], ss[k]);
      AckedNext(ss[k - 1], ss[k], p);
    }
    AckedUps(ss, m, n, p);
  }

  lemma AckedEntries(d: Data, p: Peer, cut: Stamp)
    ensures forall q :: EntryOf(Acked(d, p, cut), q) == (if q == p then Some(Entry(Alive, None)) else EntryOf(d, q))
  {
    forall q
      ensures EntryOf(Acked(d, p, cut), q) == (if q == p then Some(Entry(Alive, None)) else EntryOf(d, q))
    {
    }
  }

  /** An ACK of `p` marks `p` Alive, and from then on `p` is never Suspect because of a probe
      recorded before that ACK cleared the table, in any interleaving. */
  lemma AckIsNotUndone(ss: seq<State>, m: nat, n: nat, id: nat, c: Choice, k: Stamp)
    requires IsRun(ss) && m < n < |ss| && StepIs(ss[m], ss[m + 1], Run(id, c))
    requires ss[m].tasks[id].task.Section? && ss[m].tasks[id].task.action.AckMark?
    requires CausedBy(ss[n].data, ss[m].tasks[id].task.action.p, k)
    ensures EntryOf(ss[m + 1].data, ss[m].tasks[id].task.action.p) == Some(Entry(Alive, None))
    ensures ss[m].tasks[id].task.action.cut <= k
  {
    var a := ss[m].tasks[id].task.action;
    AckedStays(ss, m + 1, n, a.p);
    RunKeepsInv(ss, n);
    assert SuspectOk(ss[n].data, a.p, ss[n].data.states[a.p]);
  }

  lemma BodyClock(cfg: Config, t: Task, d: Data, free: set<Lock>, c: Choice)
    requires Want(t).None?
    ensures d.clock <= Body(cfg, t, d, free, c).data.clock
  {
  }

  lemma ClockGrows(s: State, s': State)
    requires Next(s, s')
    ensures s.data.clock <= s'.data.clock
  {
    var step: Step :| Enabled(s, step) && s' == Do(s, step);
    if step.Run? {
      BodyClock(s.cfg, s.tasks[step.id].task, s.data, Free(s), step.choice);
    }
  }

  predicate ClockUp(s: State, s': State) { s.data.clock <= s'.data.clock }

  lemma {:induction false} ClockUps(ss: seq<State>, j: nat, l: nat)
    requires j <= l < |ss| && forall n :: j < n <= l ==> ClockUp(ss[n - 1], ss[n])
    ensures ClockUp(ss[j], ss[l])
    decreases l
  {
    if j < l {
      ClockUps(ss, j, l - 1);
    }
  }

  lemma ClockOfRun(ss: seq<State>, j: nat, l: nat)
    requires IsRun(ss) && j <= l < |ss|
    ensures ClockUp(ss[j], ss[l])
  {
    forall n | j < n <= l ensures ClockUp(ss[n - 1], ss[n]) {
      assert Next(ss[n - 1], ss[n]);
      ClockGrows(ss[n - 1], ss[n]);
    }
    ClockUps(ss, j, l);
  }

  /** The cut-off of task `id` while it is an ACK of `p` about to mark `p` alive. */
  function CutOf(s: State, id: nat, p: Peer): Option<Stamp> {
    if id !in s.tasks || !s.tasks[id].task.Section? then None
    else match s.tasks[id].task.action
      case AckMark(q, _, cut) => if q == p then Some(cut) else None
      case _ => None
  }

  lemma CutKept(s: State, s': State, id: nat, p: Peer)
    requires Next(s, s') && CutOf(s, id, p).Some? && CutOf(s', id, p).Some?
    ensures CutOf(s', id, p) == CutOf(s, id, p)
  {
  }

  lemma {:induction false} CutOfTask(ss: seq<State>, l: nat, m: nat, id: nat, p: Peer)
    requires IsRun(ss) && l <= m < |ss| && forall i :: l <= i <= m ==> CutOf(ss[i], id, p).Some?
    ensures CutOf(ss[m], id, p) == CutOf(ss[l], id, p)
    decreases m
  {
    if l < m {
      CutOfTask(ss, l, m - 1, id, p);
      assert Next(ss[m - 1], ss[m]);
      CutKept(ss[m - 1], ss[m], id, p);
    }
  }

  /** ACK against timeout, whole: a probe of `p` pending at step `j` with stamp `k`, and one ACK
      task of `p` that clears the table at step `l >= j` and marks `p` at step `m`. That step
      leaves `p` Alive, and from then on `p` is never Suspect because of that probe, in any interleaving. */
  lemma AckBeatsTimeout(
    ss: seq<State>, j: nat, l: nat, m: nat, n: nat, id: nat, p: Peer, k: Stamp, c: Choice, c': Choice)
    requires IsRun(ss) && j <= l < m < n < |ss|
    requires p in ss[j].data.probes && ss[j].data.probes[p] == k
    requires StepIs(ss[l], ss[l + 1], Run(id, c)) && ss[l].tasks[id].task.Section?
    requires ss[l].tasks[id].task.action.AckClear? && ss[l].tasks[id].task.action.p == p
    requires (forall i :: l < i <= m ==> CutOf(ss[i], id, p).Some?) && StepIs(ss[m], ss[m + 1], Run(id, c'))
    ensures EntryOf(ss[m + 1].data, p) == Some(Entry(Alive, None))
    ensures !CausedBy(ss[n].data, p, k)
  {
    AckCutsAtClear(ss, l, id, c);
    CutOfTask(ss, l + 1, m, id, p);
    assert CutOf(ss[m], id, p).Some?;
    if CausedBy(ss[n].data, p, k) {
      AckIsNotUndone(ss, m, n, id, c', k);
    }
  }

  /** A timeout makes a peer Suspect only while that very probe is still pending. */
  lemma SuspectOnlyWhilePending(ss: seq<State>, n: nat, p: Peer, k: Stamp)
    requires IsRun(ss) && n + 1 < |ss|
    requires CausedBy(ss[n + 1].data, p, k) && !CausedBy(ss[n].data, p, k)
    ensures p in ss[n].data.probes && ss[n].data.probes[p] == k
    ensures p in ss[n].data.states && ss[n].data.states[p].health == Alive
  {
    RunKeepsInv(ss, n);
    var s := ss[n];
    assert Next(s, ss[n + 1]);
    var step: Step :| Enabled(s, step) && ss[n + 1] == Do(s, step);
    assert step.Run?;
    var t := s.tasks[step.id].task;
    assert TaskInv(s.cfg, t, s.data);
    if !t.Rechecking? { NoNewCause(s.cfg, t, s.data, Free(s), step.choice, p, k); }
  }

  lemma NoNewCause(cfg: Config, t: Task, d: Data, free: set<Lock>, c: Choice, p: Peer, k: Stamp)
    requires Want(t).None? && !t.Rechecking? && CausedBy(Body(cfg, t, d, free, c).data, p, k)
    ensures CausedBy(d, p, k)
  {
  }

  // ---- Commits ----

  /** Cancelling any task, at any await, changes no data. */
  lemma CancelChangesNothing(s: State, id: nat)
    requires Enabled(s, Cancel(id))
    ensures Do(s, Cancel(id)).data == s.data
    ensures forall o :: o in Do(s, Cancel(id)).tasks ==> o in s.tasks && Do(s, Cancel(id)).tasks[o] == s.tasks[o]
  {
  }

  /** What a commit does to the data: the peer is Active and Alive; below the active degree
      nobody leaves, otherwise one member does and becomes passive when there is room. */
  ghost predicate Joined(cfg: Config, d: Data, d': Data, p: Peer) {
    && d'.probes == d.probes && d'.indirect == d.indirect
    && (forall q :: EntryOf(d', q) == if q == p then Some(Entry(Alive, None)) else EntryOf(d, q))
    && (|d.active| < cfg.activeDegree ==> d'.active == d.active + {p} && d'.passive == d.passive)
    && (|d.active| >= cfg.activeDegree ==> exists q :: Swapped(cfg, d, d', p, q))
  }

  ghost predicate Swapped(cfg: Config, d: Data, d': Data, p: Peer, q: Peer) {
    && q in d.active && d'.active == d.active - {q} + {p}
    && (|d.passive| < cfg.maxPassive ==> d'.passive == d.passive + {q})
    && (|d.passive| >= cfg.maxPassive ==> d'.passive == d.passive)
  }

  lemma CommittedJoins(cfg: Config, d: Data, p: Peer, demote: Option<Peer>)
    requires cfg.Sound() && IsDemotion(cfg, d.active, demote)
    ensures Joined(cfg, d, Committed(cfg, d, p, demote), p)
  {
    var d' := Committed(cfg, d, p, demote);
    assert |d.active| >= cfg.activeDegree ==> d.active != {};
    if demote.Some? { assert Swapped(cfg, d, d', p, demote.value); }
  }

  /** A commit changes nothing until its last step; that step makes the demotion, the
      insertion and the Alive mark together, holding every lock it needs against all
      other tasks. */
  lemma CommitIsAtomic(ss: seq<State>, n: nat, id: nat, c: Choice)
    requires IsRun(ss) && n + 1 < |ss| && StepIs(ss[n], ss[n + 1], Run(id, c))
    requires ss[n].tasks[id].task.Committing?
    ensures var s, s', t := ss[n], ss[n + 1], ss[n].tasks[id].task;
            || (s'.data == s.data && s'.tasks[id].task.Committing?)
            || (&& s'.tasks[id].task == Done
                && Joined(s.cfg, s.data, s'.data, t.p)
                && forall o, l :: o in s.tasks && o != id && l in Written(s.cfg, s.data) ==>
                                    l !in Holds(s.tasks[o].task))
  {
    RunKeepsInv(ss, n);
    var s, t := ss[n], ss[n].tasks[id].task;
    assert TaskInv(s.cfg, t, s.data);
    if ss[n + 1].tasks[id].task == Done {
      CommittedJoins(s.cfg, s.data, t.p, if t.commit.ApplyAll? then Some(t.commit.demote) else c.demote);
      forall o, l | o in s.tasks && o != id && l in Written(s.cfg, s.data) ensures l !in Holds(s.tasks[o].task) {
        assert l in HoldsW(t) || l in Free(s);
      }
    }
  }

  /** The locks a commit writes under: the passive view only when it demotes. */
  function Written(cfg: Config, d: Data): set<Lock> {
    {Swim, Active} + if |d.active| >= cfg.activeDegree then {Passive} else {}
  }

  /** A commit waits for a data lock while it holds another one only after eight busy
      rounds, and then in the order SWIM, active, passive. */
  lemma CommitHoldsNothingWhileWaiting(ss: seq<State>, n: nat, id: nat)
    requires IsRun(ss) && n < |ss| && id in ss[n].tasks && ss[n].tasks[id].task.Committing?
    requires Want(ss[n].tasks[id].task).Some?
    ensures var k := ss[n].tasks[id].task.commit;
            || CommitHolds(k) <= {Gate}
            || (k == OrderActive(COMMIT_TRY_ROUNDS) && CommitHolds(k) == {Gate, Swim})
            || (k.OrderPassive? && k.busy == COMMIT_TRY_ROUNDS && CommitHolds(k) == {Gate, Swim, Active})
  {
    RunKeepsInv(ss, n);
    assert TaskInv(ss[n].cfg, ss[n].tasks[id].task, ss[n].data);
  }

  /** Steps a commit may still take itself. */
  function CommitFuel(k: Commit): int {
    match k
    case AtGate => 47
    case Round(busy, _) => 6 + (COMMIT_TRY_ROUNDS - busy) * 5
    case WaitFor(busy, _) => 5 + (COMMIT_TRY_ROUNDS - busy) * 5
    case TrySwim(busy, _) => 4 + (COMMIT_TRY_ROUNDS - busy) * 5
    case TryActive(busy, _) => 3 + (COMMIT_TRY_ROUNDS - busy) * 5
    case TryPassive(busy, _) => 2 + (COMMIT_TRY_ROUNDS - busy) * 5
    case OrderSwim(_) => 5
    case OrderActive(_) => 4
    case Decide(_) => 3
    case OrderPassive(_, _) => 2
    case ApplyAll(_, _) => 1
  }

  function Fuel(t: Task): int { if t.Committing? then CommitFuel(t.commit) else 0 }

  /** Each step of a commit's own uses fuel, of which it has 47 at the gate: a commit
      retries a bounded number of times. */
  lemma CommitIsBounded(ss: seq<State>, n: nat, id: nat, step: Step)
    requires IsRun(ss) && n + 1 < |ss| && StepIs(ss[n], ss[n + 1], step)
    requires id in ss[n].tasks && ss[n].tasks[id].task.Committing? && id in ss[n + 1].tasks
    ensures 0 < Fuel(ss[n].tasks[id].task) <= 47
    ensures var own := (step.Run? || step.Grant?) && step.id == id;
            if own then 0 <= Fuel(ss[n + 1].tasks[id].task) < Fuel(ss[n].tasks[id].task)
            else ss[n + 1].tasks[id] == ss[n].tasks[id]
  {
    RunKeepsInv(ss, n);
    RunKeepsInv(ss, n + 1);
    assert TaskInv(ss[n].cfg, ss[n].tasks[id].task, ss[n].data);
    assert TaskInv(ss[n + 1].cfg, ss[n + 1].tasks[id].task, ss[n + 1].data);
  }

  ghost predicate Follows(ss: seq<State>, steps: seq<Step>) {
    IsRun(ss) && |ss| == |steps| + 1 && forall i :: 0 <= i < |steps| ==> StepIs(ss[i], ss[i + 1], steps[i])
  }

  predicate IsOwn(step: Step, id: nat) { (step.Run? || step.Grant?) && step.id == id }

  function OwnSteps(steps: seq<Step>, id: nat): nat {
    if steps == [] then 0
    else OwnSteps(steps[..|steps| - 1], id) + if IsOwn(steps[|steps| - 1], id) then 1 else 0
  }

  predicate InCommit(s: State, id: nat) { id in s.tasks && s.tasks[id].task.Committing? }

  /** A step of the commit's own uses fuel, any other leaves it. */
  predicate UsesFuel(s: State, s': State, step: Step, id: nat) {
    && id in s.tasks && id in s'.tasks && 0 <= Fuel(s'.tasks[id].task)
    && Fuel(s'.tasks[id].task) + (if IsOwn(step, id) then 1 else 0) <= Fuel(s.tasks[id].task) <= 47
  }

  lemma {:induction false} FuelSpent(ss: seq<State>, steps: seq<Step>, a: nat, b: nat, id: nat)
    requires |ss| == |steps| + 1 && a <= b < |ss| && id in ss[a].tasks
    requires forall n :: a <= n < b ==> UsesFuel(ss[n], ss[n + 1], steps[n], id)
    ensures id in ss[b].tasks
    ensures OwnSteps(steps[a..b], id) + Fuel(ss[b].tasks[id].task) <= Fuel(ss[a].tasks[id].task)
    decreases b
  {
    if a < b {
      FuelSpent(ss, steps, a, b - 1, id);
      assert UsesFuel(ss[b - 1], ss[b - 1 + 1], steps[b - 1], id);
      assert steps[a..b][..|steps[a..b]| - 1] == steps[a..b - 1];
    }
  }

  /** The steps a commit takes itself, from its start to its end, number at most 47 in any
      run. */
  lemma CommitTakesFewSteps(ss: seq<State>, steps: seq<Step>, a: nat, b: nat, id: nat)
    requires Follows(ss, steps) && a < b < |ss| && id in ss[b].tasks
    requires forall n :: a <= n < b ==> InCommit(ss[n], id)
    ensures OwnSteps(steps[a..b], id) <= 47
  {
    forall n | a <= n < b ensures UsesFuel(ss[n], ss[n + 1], steps[n], id) {
      assert InCommit(ss[n], id) && (n + 1 < b ==> InCommit(ss[n + 1], id));
      FuelStep(ss, steps, n, id);
    }
    assert InCommit(ss[a], id) && UsesFuel(ss[a], ss[a + 1], steps[a], id);
    assert UsesFuel(ss[b - 1], ss[b - 1 + 1], steps[b - 1], id);
    FuelSpent(ss, steps, a, b, id);
  }

  lemma FuelStep(ss: seq<State>, steps: seq<Step>, n: nat, id: nat)
    requires Follows(ss, steps) && n < |steps| && InCommit(ss[n], id) && id in ss[n + 1].tasks
    ensures UsesFuel(ss[n], ss[n + 1], steps[n], id)
  {
    assert StepIs(ss[n], ss[n + 1], steps[n]);
    CommitIsBounded(ss, n, id, steps[n]);
  }

  // ---- Views ----

  /** At every moment of every run both views are within their bounds. */
  lemma ViewsAreBounded(ss: seq<State>, n: nat)
    requires IsRun(ss) && n < |ss|
    ensures |ss[n].data.active| <= ss[n].cfg.maxActive
    ensures |ss[n].data.passive| <= ss[n].cfg.maxPassive
  {
    RunKeepsInv(ss, n);
  }

  lemma MaintenanceFills(cfg: Config, d: Data, job: Job, c: Choice)
    requires MaintainChoice(cfg, d, job, c) && job.target <= cfg.maxActive
    requires |Maintained(cfg, d, job, c).active| < job.target
    ensures c.demoted == {} && c.kept == {} && c.promoted == Candidates(cfg, d, job) * job.connected
  {
    MaintainedActive(cfg, d, job, c);
    SubsetOfSameSize(c.promoted, Candidates(cfg, d, job) * job.connected);
  }

  /** Only connected peers are left in the active view, in SWIM and in the probe tables, and
      what the tables say about connected peers survives the pass: an entry stays as it was
      unless its peer is promoted, and the pending probes and indirect requests stay. */
  lemma MaintenanceConnects(cfg: Config, d: Data, job: Job, c: Choice)
    requires c.promoted <= Candidates(cfg, d, job) * job.connected
    ensures var d' := Maintained(cfg, d, job, c);
            && d'.active <= job.connected && d'.states.Keys <= job.connected
            && (forall p :: p in d'.probes <==> p in d.probes && p in job.connected)
            && (forall p :: p in d'.probes ==> d'.probes[p] == d.probes[p])
            && (forall x :: x in d'.indirect <==> x in d.indirect && x.0 in job.connected && x.1 in job.connected)
            && (forall p :: p in job.connected ==>
                              EntryOf(d', p) == if p in c.promoted then Some(Entry(Alive, None)) else EntryOf(d, p))
  {
  }

  lemma RoomKeepsAll(rest: set<Peer>, job: Job, c: Choice)
    requires KeepOk(rest, job, c) && TrimOk(rest + c.kept, job, c) && rest !! c.demoted
    requires |rest + c.kept - c.trimmed| < job.passiveMax
    ensures c.kept == c.demoted && c.trimmed == {}
  {
    UnionSize(rest, c.kept);
    DifferenceSize(rest + c.kept, c.trimmed);
    SubsetOfSameSize(c.kept, c.demoted);
  }

  lemma UntrimmedKeepsAll(cfg: Config, d: Data, job: Job, c: Choice, p: Peer)
    requires c.kept == c.demoted && c.trimmed == {} && p in d.active + d.passive && p != cfg.local
    ensures p in Maintained(cfg, d, job, c).active + Maintained(cfg, d, job, c).passive
  {
  }

  lemma DemotedAreNoCandidates(cfg: Config, d: Data, job: Job, c: Choice)
    requires DemoteOk(cfg, d, job, c)
    ensures Candidates(cfg, d, job) - c.promoted !! c.demoted
  {
  }

  /** A pass loses nobody from the two views, itself apart, while the passive view has room. */
  lemma MaintenanceLosesNobody(cfg: Config, d: Data, job: Job, c: Choice)
    requires MaintainChoice(cfg, d, job, c) && |Maintained(cfg, d, job, c).passive| < job.passiveMax
    ensures var d' := Maintained(cfg, d, job, c);
            forall p :: p in d.active + d.passive && p != cfg.local ==> p in d'.active + d'.passive
  {
    DemotedAreNoCandidates(cfg, d, job, c);
    RoomKeepsAll(Candidates(cfg, d, job) - c.promoted, job, c);
    forall p | p in d.active + d.passive && p != cfg.local
      ensures p in Maintained(cfg, d, job, c).active + Maintained(cfg, d, job, c).passive
    {
      UntrimmedKeepsAll(cfg, d, job, c, p);
    }
  }

  /** A pass drops a connected active peer only above the maximum, and promotes no further than
      the target. */
  lemma MaintenanceKeepsConnected(cfg: Config, d: Data, job: Job, c: Choice)
    requires MaintainChoice(cfg, d, job, c) && job.target <= cfg.maxActive
    ensures |d.active * job.connected| <= cfg.maxActive ==>
              forall p :: p in d.active && p in job.connected ==> p in Maintained(cfg, d, job, c).active
    ensures |Maintained(cfg, d, job, c).active| <= Max(job.target, Min(|d.active * job.connected|, cfg.maxActive))
  {
    MaintainedActive(cfg, d, job, c);
  }

  lemma MaintenanceSeparates(cfg: Config, d: Data, job: Job, c: Choice)
    requires c.promoted <= Candidates(cfg, d, job) && c.kept <= c.demoted
    ensures Maintained(cfg, d, job, c).active !! Maintained(cfg, d, job, c).passive
  {
  }

  /** A maintenance pass leaves only connected peers active and tracked, keeps the views
      apart and bounded, and heals: below its target it leaves no connected peer passive. */
  lemma MaintenanceHeals(cfg: Config, d: Data, job: Job, c: Choice)
    requires MaintainChoice(cfg, d, job, c) && job.target <= cfg.maxActive
    ensures var d' := Maintained(cfg, d, job, c);
            && d'.active <= job.connected && d'.states.Keys <= job.connected
            && d'.active !! d'.passive && |d'.passive| <= job.passiveMax
            && (|d'.active| < job.target ==> d'.passive !! job.connected)
  {
    MaintenanceConnects(cfg, d, job, c);
    MaintenanceSeparates(cfg, d, job, c);
    MaintainedPassive(Candidates(cfg, d, job) - c.promoted + c.kept, job, c);
    if |Maintained(cfg, d, job, c).active| < job.target { MaintenanceFills(cfg, d, job, c); }
  }

  /** The same, for every maintenance pass of every run. */
  lemma EveryPassHeals(ss: seq<State>, n: nat, id: nat, c: Choice)
    requires IsRun(ss) && n + 1 < |ss| && StepIs(ss[n], ss[n + 1], Run(id, c))
    requires ss[n].tasks[id].task.Maintaining?
    ensures var d', job := ss[n + 1].data, ss[n].tasks[id].task.job;
            && d'.active <= job.connected && d'.states.Keys <= job.connected && d'.active !! d'.passive
            && (|d'.active| < job.target ==> d'.passive !! job.connected)
  {
    RunKeepsInv(ss, n);
    var t := ss[n].tasks[id].task;
    assert TaskInv(ss[n].cfg, t, ss[n].data);
    MaintenanceHeals(ss[n].cfg, ss[n].data, t.job, c);
  }
}
