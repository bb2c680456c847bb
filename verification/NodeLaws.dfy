/** What the steps of a run do to the node's data, stated on the data before and after: when
    a peer enters, leaves or changes in each table, and through which step. */
module NodeLaws {
  import opened Common
  import opened Node
  import opened NodeInvariants
  import opened NodeTheorems

  predicate IsAlive(d: Data, p: Peer) { p in d.states && d.states[p].health == Alive }

  /** The step is one of a task that is at a program point of its own. */
  ghost predicate RunsAt(s: State, s': State, step: Step, t: Task) {
    StepIs(s, s', step) && step.Run? && s.tasks[step.id].task == t
  }

  // ---- SWIM states ----

  /** How a section that holds the state lock may change the entry of `p`. */
  predicate EntrySection(a: Action, p: Peer, was: Option<Entry>, now: Option<Entry>) {
    match a
    case AckMark(q, _, _) => q == p && now == Some(Entry(Alive, None))
    case ScanSuspects => was.Some? && was.value.health == Suspect && now == Some(Entry(Dead, None))
    case SetHealth(q, what) =>
      q == p && (match what
                 case MarkAlive => now == Some(Entry(Alive, None))
                 case MarkDead => now == Some(Entry(Dead, None))
                 case Forget => now == None
                 case MarkSuspect => was.Some? && was.value.health == Alive && now == Some(Entry(Suspect, None)))
    case _ => false
  }

  /** How a step of a task may change the entry of `p`. */
  predicate EntryChange(t: Task, p: Peer, was: Option<Entry>, now: Option<Entry>) {
    match t
    case Committing(q, _) => q == p && now == Some(Entry(Alive, None))
    case Rechecking(at, todo) =>
      && at.Write? && todo != [] && todo[0].peer == p
      && was.Some? && was.value.health == Alive && now == Some(Entry(Suspect, Some(todo[0].stamp)))
    case Maintaining(_, job) => now == if p in job.connected then Some(Entry(Alive, None)) else None
    case Section(a, _) => EntrySection(a, p, was, now)
    case Done => false
  }

  lemma EntryInSection(cfg: Config, a: Action, d: Data, c: Choice, p: Peer)
    requires ActionChoice(a, d, c) && EntryOf(d, p) != EntryOf(Act(cfg, a, d, c).data, p)
    ensures EntrySection(a, p, EntryOf(d, p), EntryOf(Act(cfg, a, d, c).data, p))
  {
  }

  lemma EntryInPass(cfg: Config, job: Job, d: Data, c: Choice, p: Peer)
    requires PromoteOk(cfg, d, job, c) && EntryOf(d, p) != EntryOf(Maintained(cfg, d, job, c), p)
    ensures EntryOf(Maintained(cfg, d, job, c), p) == if p in job.connected then Some(Entry(Alive, None)) else None
  {
  }

  lemma EntryInBody(cfg: Config, t: Task, d: Data, free: set<Lock>, c: Choice, p: Peer)
    requires Want(t).None? && ChoiceOk(cfg, t, d, c)
    requires EntryOf(d, p) != EntryOf(Body(cfg, t, d, free, c).data, p)
    ensures EntryChange(t, p, EntryOf(d, p), EntryOf(Body(cfg, t, d, free, c).data, p))
  {
    match t
    case Section(a, _) => EntryInSection(cfg, a, d, c, p);
    case Maintaining(_, job) => EntryInPass(cfg, job, d, c, p);
    case _ =>
  }

  /** The SWIM entry of `p` changes only in a step that is about `p`, in the suspect-timeout
      scan, which buries Suspects only, or in a maintenance pass. */
  lemma EntryMoves(ss: seq<State>, n: nat, step: Step, p: Peer)
    requires IsRun(ss) && n + 1 < |ss| && StepIs(ss[n], ss[n + 1], step)
    requires EntryOf(ss[n].data, p) != EntryOf(ss[n + 1].data, p)
    ensures step.Run?
    ensures EntryChange(ss[n].tasks[step.id].task, p, EntryOf(ss[n].data, p), EntryOf(ss[n + 1].data, p))
  {
    EntryInBody(ss[n].cfg, ss[n].tasks[step.id].task, ss[n].data, Free(ss[n]), step.choice, p);
  }

  /** The timeout of a probe of `p` that is pending in this very step. */
  ghost predicate ByTimeout(s: State, s': State, t: Task, p: Peer) {
    && t.Rechecking? && t.at.Write? && t.todo != [] && t.todo[0].peer == p
    && p in s.data.probes && s.data.probes[p] == t.todo[0].stamp
    && CausedBy(s'.data, p, t.todo[0].stamp)
  }

  /** `mark_suspect`, `mark_dead` or `remove_peer` of `p`, or a pass that finds it disconnected. */
  predicate ByCommand(t: Task, p: Peer) {
    || (t.Section? && t.action.SetHealth? && t.action.p == p && t.action.what != MarkAlive)
    || (t.Maintaining? && p !in t.job.connected)
  }

  /** An Alive peer stops being Alive in one of two ways only: the timeout of a probe of it
      that is pending, which makes it Suspect because of that probe, or a command. */
  lemma LeavesAlive(ss: seq<State>, n: nat, step: Step, p: Peer)
    requires IsRun(ss) && n + 1 < |ss| && StepIs(ss[n], ss[n + 1], step)
    requires IsAlive(ss[n].data, p) && !IsAlive(ss[n + 1].data, p)
    ensures step.Run?
    ensures var t := ss[n].tasks[step.id].task; ByCommand(t, p) || ByTimeout(ss[n], ss[n + 1], t, p)
  {
    EntryMoves(ss, n, step, p);
    RunKeepsInv(ss, n);
    assert TaskInv(ss[n].cfg, ss[n].tasks[step.id].task, ss[n].data);
  }

  /** The marking step of an ACK makes its peer Alive, without a cause, and touches no other
      entry, no view and no probe. */
  lemma AckMarksAlive(ss: seq<State>, m: nat, id: nat, c: Choice, p: Peer)
    requires IsRun(ss) && m + 1 < |ss| && StepIs(ss[m], ss[m + 1], Run(id, c)) && CutOf(ss[m], id, p).Some?
    ensures forall q :: EntryOf(ss[m + 1].data, q) ==
                        (if q == p then Some(Entry(Alive, None)) else EntryOf(ss[m].data, q))
    ensures ss[m + 1].data.active == ss[m].data.active && ss[m + 1].data.passive == ss[m].data.passive
    ensures ss[m + 1].data.probes == ss[m].data.probes && ss[m + 1].data.indirect == ss[m].data.indirect
  {
    AckedEntries(ss[m].data, p, CutOf(ss[m], id, p).value);
  }

  /** `p` stops being Alive by a command or the timeout of a pending probe stamped `cut` or later. */
  ghost predicate LeavesAfter(s: State, s': State, t: Task, p: Peer, cut: Stamp) {
    ByCommand(t, p) || (ByTimeout(s, s', t, p) && cut <= t.todo[0].stamp)
  }

  ghost predicate CausesFrom(d: Data, p: Peer, cut: Stamp) { forall k :: CausedBy(d, p, k) ==> cut <= k }

  lemma CausesAfterCut(ss: seq<State>, m: nat, id: nat, c: Choice, n: nat, p: Peer)
    requires IsRun(ss) && m < n < |ss| && StepIs(ss[m], ss[m + 1], Run(id, c)) && CutOf(ss[m], id, p).Some?
    ensures CausesFrom(ss[n].data, p, CutOf(ss[m], id, p).value)
  {
    forall k | CausedBy(ss[n].data, p, k) ensures CutOf(ss[m], id, p).value <= k {
      AckIsNotUndone(ss, m, n, id, c, k);
    }
  }

  /** After an ACK has marked `p` Alive, every step in which `p` stops being Alive (a `Run` step,
      by LeavesAlive) is a command or the timeout of a probe recorded after that ACK cleared the
      table. */
  lemma AckedPeerStaysAlive(ss: seq<State>, m: nat, id: nat, c: Choice, n: nat, o: nat, c': Choice, p: Peer)
    requires IsRun(ss) && m < n && n + 1 < |ss|
    requires StepIs(ss[m], ss[m + 1], Run(id, c)) && CutOf(ss[m], id, p).Some?
    requires StepIs(ss[n], ss[n + 1], Run(o, c')) && IsAlive(ss[n].data, p) && !IsAlive(ss[n + 1].data, p)
    ensures LeavesAfter(ss[n], ss[n + 1], ss[n].tasks[o].task, p, CutOf(ss[m], id, p).value)
  {
    CausesAfterCut(ss, m, id, c, n + 1, p);
    LeavesAlive(ss, n, Run(o, c'), p);
  }

  /** The other half: a marking section that runs does mark. */
  lemma MarksTakeEffect(ss: seq<State>, n: nat, step: Step, a: Action, p: Peer)
    requires IsRun(ss) && n + 1 < |ss| && RunsAt(ss[n], ss[n + 1], step, Section(a, true))
    ensures a == SetHealth(p, MarkAlive) ==> EntryOf(ss[n + 1].data, p) == Some(Entry(Alive, None))
    ensures a == SetHealth(p, MarkDead) ==> EntryOf(ss[n + 1].data, p) == Some(Entry(Dead, None))
    ensures a == SetHealth(p, Forget) ==> EntryOf(ss[n + 1].data, p) == None
    ensures a == SetHealth(p, MarkSuspect) && IsAlive(ss[n].data, p)
            ==> EntryOf(ss[n + 1].data, p) == Some(Entry(Suspect, None))
    ensures a == ScanSuspects && p in step.choice.overdue ==> EntryOf(ss[n + 1].data, p) == Some(Entry(Dead, None))
  {
  }

  /** The timeout of a probe that is still pending makes an Alive peer Suspect because of it;
      that of a probe cleared or replaced meanwhile changes nothing at all. */
  lemma TimeoutDecides(ss: seq<State>, n: nat, step: Step, at: Recheck, todo: seq<Probed>)
    requires IsRun(ss) && n + 1 < |ss| && RunsAt(ss[n], ss[n + 1], step, Rechecking(at, todo))
    ensures todo != [] && at in {Check, Write}
    ensures var x, d, d' := todo[0], ss[n].data, ss[n + 1].data;
            && (at.Check? ==> d' == d && (ss[n + 1].tasks[step.id].task == Rechecking(Write, todo) <==>
                                          x.peer in d.probes && d.probes[x.peer] == x.stamp))
            && (at.Write? && IsAlive(d, x.peer) ==> CausedBy(d', x.peer, x.stamp))
            && (at.Write? && !IsAlive(d, x.peer) ==> d' == d)
            && (at.Write? ==> ss[n + 1].tasks[step.id].task == Section(RemoveTimedOut(todo), false))
  {
    RunKeepsInv(ss, n);
    assert TaskInv(ss[n].cfg, Rechecking(at, todo), ss[n].data);
  }

  // ---- Pending probes ----

  function ProbeOf(d: Data, p: Peer): Option<Stamp> { if p in d.probes then Some(d.probes[p]) else None }

  /** How a section may change the pending probe of `p`: a new stamp is above every stamp
      before it, and a periodic probe never replaces a pending one. */
  predicate ProbeSection(a: Action, p: Peer, clock: Stamp, was: Option<Stamp>, now: Option<Stamp>) {
    match a
    case RecordProbe(q) => q == p && now == Some(clock)
    case PutProbe(qs) => qs != [] && qs[0] == p && was.None? && now == Some(clock)
    case AckClear(q, _) => q == p && now.None?
    case ClearProbe(q) => q == p && now.None?
    case RemoveTimedOut(todo) => todo != [] && todo[0].peer == p && now.None?
    case _ => false
  }

  lemma ProbeInBody(cfg: Config, t: Task, d: Data, free: set<Lock>, c: Choice, p: Peer)
    requires Want(t).None? && ProbeOf(d, p) != ProbeOf(Body(cfg, t, d, free, c).data, p)
    ensures var now := ProbeOf(Body(cfg, t, d, free, c).data, p);
            || (t.Section? && ProbeSection(t.action, p, d.clock, ProbeOf(d, p), now))
            || (t.Maintaining? && p !in t.job.connected && now.None?)
  {
  }

  lemma ProbesBelowClock(ss: seq<State>, n: nat)
    requires IsRun(ss) && n < |ss|
    ensures forall j, q :: 0 <= j <= n && q in ss[j].data.probes ==> ss[j].data.probes[q] < ss[n].data.clock
  {
    forall j, q | 0 <= j <= n && q in ss[j].data.probes ensures ss[j].data.probes[q] < ss[n].data.clock {
      RunKeepsInv(ss, j);
      ClockOfRun(ss, j, n);
    }
  }

  /** A pending probe appears, is replaced or goes only in a section about its peer, or in a
      pass that finds the peer disconnected; a new stamp is above every stamp of the run. */
  lemma ProbeMoves(ss: seq<State>, n: nat, step: Step, p: Peer)
    requires IsRun(ss) && n + 1 < |ss| && StepIs(ss[n], ss[n + 1], step)
    requires ProbeOf(ss[n].data, p) != ProbeOf(ss[n + 1].data, p)
    ensures step.Run?
    ensures var t, was, now := ss[n].tasks[step.id].task, ProbeOf(ss[n].data, p), ProbeOf(ss[n + 1].data, p);
            || (t.Section? && ProbeSection(t.action, p, ss[n].data.clock, was, now))
            || (t.Maintaining? && p !in t.job.connected && now.None?)
    ensures forall j, q :: 0 <= j <= n && q in ss[j].data.probes ==> ss[j].data.probes[q] < ss[n].data.clock
  {
    ProbeInBody(ss[n].cfg, ss[n].tasks[step.id].task, ss[n].data, Free(ss[n]), step.choice, p);
    ProbesBelowClock(ss, n);
  }

  /** The other half: after a probe section its peer is pending, after a clearing one it is not. */
  lemma ProbesTakeEffect(ss: seq<State>, n: nat, step: Step, a: Action)
    requires IsRun(ss) && n + 1 < |ss| && RunsAt(ss[n], ss[n + 1], step, Section(a, true))
    ensures a.RecordProbe? ==> ProbeOf(ss[n + 1].data, a.p) == Some(ss[n].data.clock)
    ensures a.PutProbe? && a.targets != [] ==> ProbeOf(ss[n + 1].data, a.targets[0]).Some?
    ensures a.AckClear? || a.ClearProbe? ==> ProbeOf(ss[n + 1].data, a.p) == None
    ensures a.RemoveTimedOut? && a.todo != [] ==> ProbeOf(ss[n + 1].data, a.todo[0].peer) == None
  {
  }

  // ---- Views ----

  lemma ActiveInBody(cfg: Config, t: Task, d: Data, free: set<Lock>, c: Choice, p: Peer)
    requires Want(t).None? && (p in d.active <==> p !in Body(cfg, t, d, free, c).data.active)
    ensures || t.Maintaining? || (t.Committing? && Body(cfg, t, d, free, c).task == Done)
            || (t.Section? && t.action.DropActive? && t.action.p == p && p in d.active)
  {
  }

  /** A peer enters the active view by its own commit or a pass, and leaves it by its own
      removal, a commit that finds the view full, or a pass. */
  lemma ActiveMoves(ss: seq<State>, n: nat, step: Step, p: Peer)
    requires IsRun(ss) && n + 1 < |ss| && StepIs(ss[n], ss[n + 1], step)
    requires p in ss[n].data.active <==> p !in ss[n + 1].data.active
    ensures step.Run?
    ensures var t, d := ss[n].tasks[step.id].task, ss[n].data;
            || t.Maintaining?
            || (t.Committing? && if p in d.active then |d.active| >= ss[n].cfg.activeDegree else t.p == p)
            || (t.Section? && t.action.DropActive? && t.action.p == p && p in d.active)
  {
    var t := ss[n].tasks[step.id].task;
    ActiveInBody(ss[n].cfg, t, ss[n].data, Free(ss[n]), step.choice, p);
    if t.Committing? { CommitIsAtomic(ss, n, step.id, step.choice); }
  }

  /** Sections on the views, on the views before and after. */
  lemma ViewSections(ss: seq<State>, n: nat, step: Step, a: Action)
    requires IsRun(ss) && n + 1 < |ss| && RunsAt(ss[n], ss[n + 1], step, Section(a, true))
    ensures var d, d', t' := ss[n].data, ss[n + 1].data, ss[n + 1].tasks[step.id].task;
            && (a.InsertPassive? ==> d'.active == d.active &&
                                     d'.passive == d.passive + if |d.passive| < ss[n].cfg.maxPassive then {a.p} else {})
            && (a.DropActive? ==> d'.active == d.active - {a.p} && d'.passive == d.passive)
            && (a.TakePassive? ==> d'.passive == d.passive - {a.p} && d'.active == d.active)
            && (a.TakePassive? ==> (t'.Committing? <==> a.p in d.passive))
            && (a.CheckNotActive? ==> (t' == Section(InsertPassive(a.p), false) <==> a.p !in d.active))
  {
  }

  // ---- Indirect probes and what follows a section ----

  /** An entry of the indirect-probe table is added by its own request; it goes when it is
      cleared, when its target acknowledges, when it is past its age, or when a pass finds one of
      the two peers disconnected. */
  lemma IndirectSections(ss: seq<State>, n: nat, step: Step, a: Action, x: (Peer, Peer))
    requires IsRun(ss) && n + 1 < |ss| && RunsAt(ss[n], ss[n + 1], step, Section(a, true))
    ensures var was, now, old' := x in ss[n].data.indirect, x in ss[n + 1].data.indirect, x in step.choice.expired;
            match a
            case RecordIndirect(target, requester) => now <==> x == (target, requester) || (was && !old')
            case ClearIndirect(target, requester) => now <==> was && x != (target, requester)
            case AckTake(target) => now <==> was && x.0 != target && !old'
            case _ => now <==> was
  {
  }

  /** The timed-out probes a task of the timeout scan still has to look at. */
  function Todo(t: Task): seq<Probed> {
    match t
    case Rechecking(_, todo) => todo
    case Section(a, _) => (match a case RemoveTimedOut(todo) => todo case AskOthers(todo) => todo case _ => [])
    case _ => []
  }

  /** Every timed-out probe that a scan finds is looked at: a task drops the first of its list
      only after others were asked about it, or when it is no longer pending. */
  lemma TimeoutsAreWorkedOff(ss: seq<State>, n: nat, step: Step, t: Task)
    requires IsRun(ss) && n + 1 < |ss| && RunsAt(ss[n], ss[n + 1], step, t)
    ensures var t' := ss[n + 1].tasks[step.id].task;
            && (t == Section(ScanProbes, true) ==> Todo(t') == step.choice.timedOut)
            && (Todo(t) != [] ==>
                  var x, d := Todo(t)[0], ss[n].data;
                  if t.Section? && t.action.AskOthers? then Todo(t') == Todo(t)[1..]
                  else if t.Rechecking? && t.at.Check? && !(x.peer in d.probes && d.probes[x.peer] == x.stamp)
                  then Todo(t') == Todo(t)[1..]
                  else Todo(t') == Todo(t))
  {
    RunKeepsInv(ss, n);
    assert TaskInv(ss[n].cfg, t, ss[n].data);
  }

  /** What follows a section: an ACK goes on to mark and to take its requesters, the probe task to
      probe every target it picked, a removal to mark the peer Dead, a rejection to keep the peer
      passive. */
  lemma SectionsFollow(ss: seq<State>, n: nat, step: Step, a: Action)
    requires IsRun(ss) && n + 1 < |ss| && RunsAt(ss[n], ss[n + 1], step, Section(a, true))
    ensures var d, t' := ss[n].data, ss[n + 1].tasks[step.id].task;
            match a
            case AckMark(p, full, _) => t' == if full then Section(AckTake(p), false) else Done
            case PickTargets => t' == if step.choice.targets == [] then Done
                                      else Section(PutProbe(step.choice.targets), false)
            case PutProbe(ps) => t' == if |ps| <= 1 then Done else Section(PutProbe(ps[1..]), false)
            case DropActive(p, reject) =>
              t' == (if p !in d.active then Done
                     else if reject then if p == ss[n].cfg.local then Done else Section(CheckNotActive(p), false)
                     else Section(SetHealth(p, MarkDead), false))
            case _ => true
  {
  }
}
