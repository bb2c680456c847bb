/** One membership node (crates/membership/src/lib.rs) as a machine of concurrent tasks
    over its lock-protected state. A task is its program point: which locks it holds and
    which one it waits for are functions of that point, as in the source. A handler is a
    succession of these lock sections; sections may start at any time with any argument,
    so the machine has every interleaving of every set of handlers and background tasks.
    The `peer_addrs` and `seen_peers` locks are only ever held alone and are left out. */
module Node {
  import opened Common

  type Peer = nat
  type Stamp = nat

  datatype Lock = Gate | Probe | Indirect | Swim | Active | Passive
  datatype Mode = R | W
  datatype Request = Request(lock: Lock, mode: Mode)

  const COMMIT_TRY_ROUNDS := 8

  function Rank(l: Lock): nat {
    match l
    case Gate => 0
    case Probe => 1
    case Indirect => 2
    case Swim => 3
    case Active => 4
    case Passive => 5
  }

  /** A SWIM entry; `cause` remembers the probe whose timeout made the peer Suspect. */
  datatype Entry = Entry(health: Health, cause: Option<Stamp>)

  datatype Config = Config(local: Peer, activeDegree: nat, maxActive: nat, maxPassive: nat) {
    /** What `clamp` in the degree computation needs not to panic, and a positive degree. */
    predicate Sound() {
      1 <= activeDegree <= maxActive && 8 * activeDegree <= maxPassive
    }
  }

  /** `clock` issues probe stamps, each used once. `acked[p]` is bookkeeping: every probe
      of `p` stamped below it was recorded before an ACK of `p` cleared the probe table,
      and that ACK has since marked `p` alive. */
  datatype Data = Data(
    probes: map<Peer, Stamp>,
    indirect: set<(Peer, Peer)>,
    states: map<Peer, Entry>,
    active: set<Peer>,
    passive: set<Peer>,
    clock: Stamp,
    acked: map<Peer, Stamp>)

  datatype HealthChange = MarkAlive | MarkSuspect | MarkDead | Forget

  /** The parameters of one maintenance pass: the smoothed targets and the peers the
      transport reported as connected. */
  datatype Job = Job(target: nat, passiveMax: nat, connected: set<Peer>) {
    predicate InRange(cfg: Config) {
      cfg.activeDegree <= target <= cfg.maxActive && passiveMax <= cfg.maxPassive
    }
  }

  datatype Probed = Probed(peer: Peer, stamp: Stamp)

  /** Sections that hold one lock: wait for it, act, release. */
  datatype Action =
    | AckClear(p: Peer, full: bool)               // handle_ack (full) and handle_ack_response
    | AckMark(p: Peer, full: bool, cut: Stamp)
    | AckTake(p: Peer)
    | ScanProbes                                  // probe-timeout task
    | RemoveTimedOut(todo: seq<Probed>)
    | AskOthers(todo: seq<Probed>)
    | PickTargets                                 // probe task
    | PutProbe(targets: seq<Peer>)
    | RecordProbe(p: Peer)                        // record_probe, clear_probe
    | ClearProbe(p: Peer)
    | ScanSuspects                                // suspect-timeout task
    | SetHealth(p: Peer, what: HealthChange)      // mark_alive, mark_suspect, mark_dead, remove_peer
    | RecordIndirect(target: Peer, requester: Peer)
    | ClearIndirect(target: Peer, requester: Peer)
    | CheckNotActive(p: Peer)                     // add_to_passive
    | InsertPassive(p: Peer)
    | DropActive(p: Peer, reject: bool)           // remove_active; rejected handle_neighbor_reply
    | TakePassive(p: Peer)                        // promote
    | ReadOnly(lock: Lock)                        // sampling a view, reading a state

  /** commit_active: the gate, rounds of tries, the fallback in lock order. */
  datatype Commit =
    | AtGate
    | Round(busy: nat, next: Option<Lock>)
    | WaitFor(busy: nat, lock: Lock)
    | TrySwim(busy: nat, pre: Option<Lock>)
    | TryActive(busy: nat, pre: Option<Lock>)
    | TryPassive(busy: nat, pre: Option<Lock>)
    | OrderSwim(busy: nat)
    | OrderActive(busy: nat)
    | Decide(busy: nat)
    | OrderPassive(busy: nat, demote: Peer)
    | ApplyAll(busy: nat, demote: Peer)

  /** The probe-timeout task's re-check under the probe table (read) and the state lock. */
  datatype Recheck = ToProbe | ToSwim | Check | Write

  datatype Task =
    | Section(action: Action, inside: bool)
    | Committing(p: Peer, commit: Commit)
    | Rechecking(at: Recheck, todo: seq<Probed>)
    | Maintaining(stage: nat, job: Job)
    | Done

  function Needs(a: Action): Request {
    match a
    case AckClear(_, _) => Request(Probe, W)
    case AckMark(_, _, _) => Request(Swim, W)
    case AckTake(_) => Request(Indirect, W)
    case ScanProbes => Request(Probe, R)
    case RemoveTimedOut(_) => Request(Probe, W)
    case AskOthers(_) => Request(Swim, R)
    case PickTargets => Request(Swim, R)
    case PutProbe(_) => Request(Probe, W)
    case RecordProbe(_) => Request(Probe, W)
    case ClearProbe(_) => Request(Probe, W)
    case ScanSuspects => Request(Swim, W)
    case SetHealth(_, _) => Request(Swim, W)
    case RecordIndirect(_, _) => Request(Indirect, W)
    case ClearIndirect(_, _) => Request(Indirect, W)
    case CheckNotActive(_) => Request(Active, R)
    case InsertPassive(_) => Request(Passive, W)
    case DropActive(_, _) => Request(Active, W)
    case TakePassive(_) => Request(Passive, W)
    case ReadOnly(l) => Request(l, R)
  }

  function CommitWant(c: Commit): Option<Lock> {
    match c
    case AtGate => Some(Gate)
    case WaitFor(_, l) => Some(l)
    case OrderSwim(_) => Some(Swim)
    case OrderActive(_) => Some(Active)
    case OrderPassive(_, _) => Some(Passive)
    case _ => None
  }

  function Single(l: Option<Lock>): set<Lock> {
    if l.Some? then {l.value} else {}
  }

  function CommitHolds(c: Commit): set<Lock> {
    match c
    case AtGate => {}
    case Round(_, _) => {Gate}
    case WaitFor(_, _) => {Gate}
    case TrySwim(_, pre) => {Gate} + Single(pre)
    case TryActive(_, pre) => {Gate, Swim} + Single(pre)
    case TryPassive(_, pre) => {Gate, Swim, Active} + Single(pre)
    case OrderSwim(_) => {Gate}
    case OrderActive(_) => {Gate, Swim}
    case Decide(_) => {Gate, Swim, Active}
    case OrderPassive(_, _) => {Gate, Swim, Active}
    case ApplyAll(_, _) => {Gate, Swim, Active, Passive}
  }

  function CommitGranted(c: Commit): Commit
    requires CommitWant(c).Some?
  {
    match c
    case AtGate => Round(0, None)
    case WaitFor(busy, l) => TrySwim(busy, Some(l))
    case OrderSwim(busy) => OrderActive(busy)
    case OrderActive(busy) => Decide(busy)
    case OrderPassive(busy, q) => ApplyAll(busy, q)
  }

  /** Maintenance takes the probe tables, SWIM, active, passive, in this order. */
  function MaintainLock(stage: nat): Lock
    requires stage < 5
  {
    if stage == 0 then Probe else if stage == 1 then Indirect
    else if stage == 2 then Swim else if stage == 3 then Active else Passive
  }

  function MaintainHolds(stage: nat): set<Lock> {
    if stage == 0 then {} else if stage == 1 then {Probe} else if stage == 2 then {Probe, Indirect}
    else if stage == 3 then {Probe, Indirect, Swim} else if stage == 4 then {Probe, Indirect, Swim, Active}
    else {Probe, Indirect, Swim, Active, Passive}
  }

  /** The lock a task waits for, at an await point. */
  function Want(t: Task): Option<Request> {
    match t
    case Section(a, inside) => if inside then None else Some(Needs(a))
    case Committing(_, c) => if CommitWant(c).Some? then Some(Request(CommitWant(c).value, W)) else None
    case Rechecking(at, _) =>
      if at.ToProbe? then Some(Request(Probe, R)) else if at.ToSwim? then Some(Request(Swim, W)) else None
    case Maintaining(k, _) => if k < 5 then Some(Request(MaintainLock(k), W)) else None
    case Done => None
  }

  function HoldsW(t: Task): set<Lock> {
    match t
    case Section(a, inside) => if inside && Needs(a).mode == W then {Needs(a).lock} else {}
    case Committing(_, c) => CommitHolds(c)
    case Rechecking(at, _) => if at.Check? || at.Write? then {Swim} else {}
    case Maintaining(k, _) => MaintainHolds(k)
    case Done => {}
  }

  function HoldsR(t: Task): set<Lock> {
    match t
    case Section(a, inside) => if inside && Needs(a).mode == R then {Needs(a).lock} else {}
    case Rechecking(at, _) => if at.ToProbe? then {} else {Probe}
    case _ => {}
  }

  function Holds(t: Task): set<Lock> { HoldsW(t) + HoldsR(t) }

  /** Where a waiting task continues once it has its lock. */
  function Granted(t: Task): Task
    requires Want(t).Some?
  {
    match t
    case Section(a, _) => Section(a, true)
    case Committing(p, c) => Committing(p, CommitGranted(c))
    case Rechecking(at, todo) => Rechecking(if at.ToProbe? then ToSwim else Check, todo)
    case Maintaining(k, job) => Maintaining(k + 1, job)
  }

  // ---- What the sections do to the data ----

  /** `apply_commit`. */
  function Committed(cfg: Config, d: Data, p: Peer, demote: Option<Peer>): Data {
    d.(active := d.active - (if demote.Some? then {demote.value} else {}) + {p},
       passive := if demote.Some? && |d.passive| < cfg.maxPassive then d.passive + {demote.value} else d.passive,
       states := d.states[p := Entry(Alive, None)])
  }

  /** `demotion`: some member of a full active view. */
  predicate IsDemotion(cfg: Config, active: set<Peer>, demote: Option<Peer>) {
    if |active| >= cfg.activeDegree && active != {} then demote.Some? && demote.value in active
    else demote.None?
  }

  function Marked(d: Data, p: Peer, what: HealthChange): Data {
    match what
    case MarkAlive => d.(states := d.states[p := Entry(Alive, None)])
    case MarkDead => d.(states := d.states[p := Entry(Dead, None)])
    case Forget => d.(states := d.states - {p})
    case MarkSuspect =>
      if p in d.states && d.states[p].health == Alive then d.(states := d.states[p := Entry(Suspect, None)]) else d
  }

  function TimedOut(d: Data, x: Probed): Data {
    if x.peer in d.states && d.states[x.peer].health == Alive
    then d.(states := d.states[x.peer := Entry(Suspect, Some(x.stamp))]) else d
  }

  function Max(a: nat, b: nat): nat { if a < b then b else a }
  function Min(a: nat, b: nat): nat { if a < b then a else b }

  function Acked(d: Data, p: Peer, cut: Stamp): Data {
    d.(states := d.states[p := Entry(Alive, None)],
       acked := d.acked[p := if p in d.acked then Max(d.acked[p], cut) else cut])
  }

  /** What the source leaves to hash iteration order, random choice and elapsed time. */
  datatype Choice = Choice(
    demote: Option<Peer>,
    timedOut: seq<Probed>,
    targets: seq<Peer>,
    expired: set<(Peer, Peer)>,
    overdue: set<Peer>,
    promoted: set<Peer>,
    demoted: set<Peer>,
    kept: set<Peer>,
    trimmed: set<Peer>)

  // Degree maintenance, in the order of the source: drop what is not connected, promote,
  // demote, trim.

  function ConnectedActive(d: Data, job: Job): set<Peer> { d.active * job.connected }

  function Candidates(cfg: Config, d: Data, job: Job): set<Peer> {
    (d.passive + (d.active - job.connected)) - {cfg.local} - ConnectedActive(d, job)
  }

  function PromoteCount(cfg: Config, d: Data, job: Job): nat {
    Min(Excess(job.target, |ConnectedActive(d, job)|), |Candidates(cfg, d, job) * job.connected|)
  }

  function DemoteCount(cfg: Config, d: Data, job: Job): nat {
    Excess(|ConnectedActive(d, job)|, cfg.maxActive)
  }

  predicate PromoteOk(cfg: Config, d: Data, job: Job, c: Choice) {
    c.promoted <= Candidates(cfg, d, job) * job.connected && |c.promoted| == PromoteCount(cfg, d, job)
  }

  predicate DemoteOk(cfg: Config, d: Data, job: Job, c: Choice) {
    c.demoted <= ConnectedActive(d, job) + c.promoted && |c.demoted| == DemoteCount(cfg, d, job)
  }

  function Excess(size: nat, max: nat): nat { if size > max then size - max else 0 }

  /** Demoted peers stay passive as long as there is room. */
  predicate KeepOk(passive: set<Peer>, job: Job, c: Choice) {
    c.kept <= c.demoted && |c.kept| == Min(|c.demoted|, Excess(job.passiveMax, |passive|))
  }

  predicate TrimOk(passive: set<Peer>, job: Job, c: Choice) {
    c.trimmed <= passive && |c.trimmed| == Excess(|passive|, job.passiveMax)
  }

  predicate MaintainChoice(cfg: Config, d: Data, job: Job, c: Choice) {
    && PromoteOk(cfg, d, job, c)
    && DemoteOk(cfg, d, job, c)
    && KeepOk(Candidates(cfg, d, job) - c.promoted, job, c)
    && TrimOk(Candidates(cfg, d, job) - c.promoted + c.kept, job, c)
  }

  function OnlyProbes(m: map<Peer, Stamp>, keep: set<Peer>): map<Peer, Stamp> {
    map p | p in m && p in keep :: m[p]
  }

  function OnlyStates(m: map<Peer, Entry>, keep: set<Peer>): map<Peer, Entry> {
    map p | p in m && p in keep :: m[p]
  }

  function OnlyPairs(s: set<(Peer, Peer)>, keep: set<Peer>): set<(Peer, Peer)> {
    set x | x in s && x.0 in keep && x.1 in keep
  }

  function AliveAll(states: map<Peer, Entry>, s: set<Peer>): map<Peer, Entry> {
    map p | p in states.Keys + s :: if p in s then Entry(Alive, None) else states[p]
  }

  function Maintained(cfg: Config, d: Data, job: Job, c: Choice): Data {
    d.(probes := OnlyProbes(d.probes, job.connected),
       indirect := OnlyPairs(d.indirect, job.connected),
       states := AliveAll(OnlyStates(d.states, job.connected), c.promoted),
       active := ConnectedActive(d, job) + c.promoted - c.demoted,
       passive := Candidates(cfg, d, job) - c.promoted + c.kept - c.trimmed)
  }

  datatype Outcome = Outcome(task: Task, data: Data)

  /** What the source leaves open at this point, and what it must satisfy. */
  predicate ActionChoice(a: Action, d: Data, c: Choice) {
    match a
    case ScanProbes => forall x :: x in c.timedOut ==> x.peer in d.probes && d.probes[x.peer] == x.stamp
    case PickTargets => forall p :: p in c.targets ==> p in d.states && d.states[p].health == Alive
    case ScanSuspects => forall p :: p in c.overdue ==> p in d.states && d.states[p].health == Suspect
    case _ => true
  }

  predicate ChoiceOk(cfg: Config, t: Task, d: Data, c: Choice) {
    match t
    case Section(a, _) => ActionChoice(a, d, c)
    case Committing(_, _) => IsDemotion(cfg, d.active, c.demote)
    case Maintaining(_, job) => MaintainChoice(cfg, d, job, c)
    case _ => true
  }

  function Recheckings(todo: seq<Probed>): Task {
    if todo == [] then Done else Rechecking(ToProbe, todo)
  }

  function Probings(ps: seq<Peer>): Task {
    if ps == [] then Done else Section(PutProbe(ps), false)
  }

  function Rest<T>(xs: seq<T>): seq<T> { if xs == [] then [] else xs[1..] }

  function ActOnProbes(a: Action, d: Data, c: Choice): Outcome {
    match a
    case AckClear(p, full) =>
      Outcome(Section(AckMark(p, full, d.clock), false), d.(probes := d.probes - {p}))
    case ScanProbes => Outcome(Recheckings(c.timedOut), d)
    case RemoveTimedOut(todo) =>
      Outcome(Section(AskOthers(todo), false),
              if todo == [] then d else d.(probes := d.probes - {todo[0].peer}))
    case PutProbe(ps) =>
      Outcome(Probings(Rest(ps)),
              if ps == [] || ps[0] in d.probes then d
              else d.(probes := d.probes[ps[0] := d.clock], clock := d.clock + 1))
    case RecordProbe(p) => Outcome(Done, d.(probes := d.probes[p := d.clock], clock := d.clock + 1))
    case ClearProbe(p) => Outcome(Done, d.(probes := d.probes - {p}))
    case _ => Outcome(Done, d)
  }

  function ActOnStates(a: Action, d: Data, c: Choice): Outcome {
    match a
    case AckMark(p, full, cut) =>
      Outcome(if full then Section(AckTake(p), false) else Done, Acked(d, p, cut))
    case AskOthers(todo) => Outcome(Recheckings(Rest(todo)), d)
    case PickTargets => Outcome(Probings(c.targets), d)
    case ScanSuspects =>
      Outcome(Done, d.(states := map p | p in d.states ::
                         if p in c.overdue then Entry(Dead, None) else d.states[p]))
    case SetHealth(p, what) => Outcome(Done, Marked(d, p, what))
    case _ => Outcome(Done, d)
  }

  function ActOnIndirect(a: Action, d: Data, c: Choice): Outcome {
    match a
    case AckTake(p) =>
      Outcome(Done, d.(indirect := set x | x in d.indirect && x.0 != p && x !in c.expired))
    case RecordIndirect(x, y) => Outcome(Done, d.(indirect := (d.indirect - c.expired) + {(x, y)}))
    case ClearIndirect(x, y) => Outcome(Done, d.(indirect := d.indirect - {(x, y)}))
    case _ => Outcome(Done, d)
  }

  function ActOnViews(cfg: Config, a: Action, d: Data): Outcome {
    match a
    case CheckNotActive(p) => Outcome(if p in d.active then Done else Section(InsertPassive(p), false), d)
    case InsertPassive(p) =>
      Outcome(Done, if |d.passive| < cfg.maxPassive then d.(passive := d.passive + {p}) else d)
    case DropActive(p, reject) =>
      Outcome(if p !in d.active then Done
              else if !reject then Section(SetHealth(p, MarkDead), false)
              else if p == cfg.local then Done
              else Section(CheckNotActive(p), false), d.(active := d.active - {p}))
    case TakePassive(p) =>
      Outcome(if p in d.passive then Committing(p, AtGate) else Done, d.(passive := d.passive - {p}))
    case _ => Outcome(Done, d)
  }

  function Act(cfg: Config, a: Action, d: Data, c: Choice): Outcome {
    match Needs(a).lock
    case Gate => Outcome(Done, d)
    case Probe => ActOnProbes(a, d, c)
    case Swim => ActOnStates(a, d, c)
    case Indirect => ActOnIndirect(a, d, c)
    case Active => ActOnViews(cfg, a, d)
    case Passive => ActOnViews(cfg, a, d)
  }

  /** One step of a commit. `free` is the set of locks a try would get. */
  function CommitStep(cfg: Config, p: Peer, k: Commit, d: Data, free: set<Lock>, demote: Option<Peer>): Outcome
    requires CommitWant(k).None?
  {
    match k
    case Round(busy, next) =>
      Outcome(Committing(p, if busy == COMMIT_TRY_ROUNDS then OrderSwim(busy)
                            else if next.Some? then WaitFor(busy, next.value)
                            else TrySwim(busy, None)), d)
    case TrySwim(busy, pre) =>
      Outcome(Committing(p, if pre == Some(Swim) || Swim in free then TryActive(busy, pre)
                            else Round(busy + 1, Some(Swim))), d)
    case TryActive(busy, pre) =>
      Outcome(Committing(p, if pre == Some(Active) || Active in free then TryPassive(busy, pre)
                            else Round(busy + 1, Some(Active))), d)
    case TryPassive(busy, pre) =>
      if demote.None? || pre == Some(Passive) || Passive in free
      then Outcome(Done, Committed(cfg, d, p, demote))
      else Outcome(Committing(p, Round(busy + 1, Some(Passive))), d)
    case Decide(busy) =>
      if demote.Some? then Outcome(Committing(p, OrderPassive(busy, demote.value)), d)
      else Outcome(Done, Committed(cfg, d, p, None))
    case ApplyAll(busy, q) => Outcome(Done, Committed(cfg, d, p, Some(q)))
  }

  function RecheckStep(at: Recheck, todo: seq<Probed>, d: Data): Outcome {
    if todo == [] then Outcome(Done, d)
    else if at.Write? then Outcome(Section(RemoveTimedOut(todo), false), TimedOut(d, todo[0]))
    else if todo[0].peer in d.probes && d.probes[todo[0].peer] == todo[0].stamp
    then Outcome(Rechecking(Write, todo), d)
    else Outcome(Recheckings(todo[1..]), d)
  }

  /** One step of a task that is not waiting. */
  function Body(cfg: Config, t: Task, d: Data, free: set<Lock>, c: Choice): Outcome
    requires Want(t).None?
  {
    match t
    case Section(a, _) => Act(cfg, a, d, c)
    case Committing(p, k) => CommitStep(cfg, p, k, d, free, c.demote)
    case Rechecking(at, todo) => RecheckStep(at, todo, d)
    case Maintaining(_, job) => Outcome(Done, Maintained(cfg, d, job, c))
    case Done => Outcome(Done, d)
  }

  // ---- The machine ----

  /** A task and, while it waits, its place in the lock's queue. */
  datatype Slot = Slot(task: Task, ticket: nat)
  datatype State = State(cfg: Config, tasks: map<nat, Slot>, data: Data, next: nat)

  datatype Step =
    | Spawn(id: nat, task: Task)
    | Grant(id: nat)
    | Run(id: nat, choice: Choice)
    | Cancel(id: nat)

  /** The points where handlers and background tasks start. */
  predicate IsEntry(cfg: Config, t: Task) {
    match t
    case Section(a, inside) =>
      !inside && (match a
                  case AckMark(_, _, _) => false
                  case AckTake(_) => false
                  case RemoveTimedOut(_) => false
                  case AskOthers(_) => false
                  case PutProbe(_) => false
                  case InsertPassive(_) => false
                  case CheckNotActive(p) => p != cfg.local
                  case ReadOnly(l) => l != Gate
                  case _ => true)
    case Committing(_, k) => k == AtGate
    case Maintaining(k, job) => k == 0 && job.InRange(cfg)
    case _ => false
  }

  ghost predicate Waits(s: State, id: nat, l: Lock) {
    id in s.tasks && Want(s.tasks[id].task).Some? && Want(s.tasks[id].task).value.lock == l
  }

  ghost predicate Conflicts(s: State, id: nat, r: Request) {
    id in s.tasks && (r.lock in HoldsW(s.tasks[id].task) || (r.mode == W && r.lock in HoldsR(s.tasks[id].task)))
  }

  /** Tokio's locks are fair: only the oldest waiter can get the lock, and only when no
      holder conflicts with it. */
  ghost predicate CanGrant(s: State, id: nat) {
    && id in s.tasks && Want(s.tasks[id].task).Some?
    && var r := Want(s.tasks[id].task).value;
       && (forall o :: Waits(s, o, r.lock) ==> s.tasks[id].ticket <= s.tasks[o].ticket)
       && (forall o :: !Conflicts(s, o, r))
  }

  const ALL_LOCKS := {Gate, Probe, Indirect, Swim, Active, Passive}

  /** A try succeeds when nobody holds the lock and nobody waits for it. */
  ghost predicate IsFree(s: State, l: Lock) {
    && (forall o :: o in s.tasks ==> l !in Holds(s.tasks[o].task))
    && (forall o :: !Waits(s, o, l))
  }

  ghost function Free(s: State): set<Lock> {
    set l | l in ALL_LOCKS && IsFree(s, l)
  }

  ghost predicate Enabled(s: State, step: Step) {
    match step
    case Spawn(id, t) => id !in s.tasks && IsEntry(s.cfg, t)
    case Grant(id) => CanGrant(s, id)
    case Run(id, c) => id in s.tasks && Want(s.tasks[id].task).None? && ChoiceOk(s.cfg, s.tasks[id].task, s.data, c)
    case Cancel(id) => id in s.tasks && Want(s.tasks[id].task).Some?
  }

  ghost function Do(s: State, step: Step): State
    requires Enabled(s, step)
  {
    match step
    case Spawn(id, t) => s.(tasks := s.tasks[id := Slot(t, s.next)], next := s.next + 1)
    case Grant(id) => s.(tasks := s.tasks[id := Slot(Granted(s.tasks[id].task), s.next)], next := s.next + 1)
    case Run(id, c) =>
      var o := Body(s.cfg, s.tasks[id].task, s.data, Free(s), c);
      s.(tasks := s.tasks[id := Slot(o.task, s.next)], next := s.next + 1, data := o.data)
    case Cancel(id) => s.(tasks := s.tasks - {id})
  }

  // ---- Deadlock freedom ----

  /** A commit waits in its rounds for a data lock, never for the gate it holds. */
  predicate WellFormed(t: Task) {
    t.Committing? && t.commit.WaitFor? ==> t.commit.lock != Gate
  }

  /** Every blocking acquire, on every path, is of a lock ranked above all locks held. */
  lemma AcquiresFollowRank(t: Task, l: Lock)
    requires WellFormed(t) && Want(t).Some? && l in Holds(t)
    ensures Rank(l) < Rank(Want(t).value.lock)
  {
  }

  lemma {:induction false} OldestWaiter(s: State, l: Lock, ids: set<nat>) returns (id: nat)
    requires ids != {} && forall o :: o in ids ==> o in s.tasks && Waits(s, o, l)
    ensures id in ids && forall o :: o in ids ==> s.tasks[id].ticket <= s.tasks[o].ticket
    decreases ids
  {
    var x :| x in ids;
    if ids == {x} {
      id := x;
    } else {
      var y := OldestWaiter(s, l, ids - {x});
      id := if s.tasks[x].ticket <= s.tasks[y].ticket then x else y;
    }
  }

  /** A task that can take a step now and on which a waiter depends: the front of a lock's
      queue that can be granted, or a lock holder that is not waiting. */
  ghost predicate CanMove(s: State, id: nat) {
    || CanGrant(s, id)
    || (id in s.tasks && Want(s.tasks[id].task).None? && Holds(s.tasks[id].task) != {})
  }

  /** `o` is in the way of `id`: it holds the lock `id` waits for in a conflicting mode, or
      waits for it ahead of `id`. */
  ghost predicate Blocks(s: State, o: nat, id: nat) {
    && id in s.tasks && Want(s.tasks[id].task).Some?
    && var r := Want(s.tasks[id].task).value;
       Conflicts(s, o, r) || (o != id && Waits(s, o, r.lock) && s.tasks[o].ticket <= s.tasks[id].ticket)
  }

  /** Each task of the chain is in the way of the one before it. */
  ghost predicate IsChain(s: State, chain: seq<nat>) {
    forall i :: 0 <= i < |chain| - 1 ==> Blocks(s, chain[i + 1], chain[i])
  }

  lemma ChainCons(s: State, id: nat, chain: seq<nat>)
    requires chain != [] && IsChain(s, chain) && Blocks(s, chain[0], id)
    ensures IsChain(s, [id] + chain)
  {
    var c := [id] + chain;
    forall i | 0 <= i < |c| - 1 ensures Blocks(s, c[i + 1], c[i]) {
      if i > 0 { assert c[i + 1] == chain[i] && c[i] == chain[i - 1]; }
    }
  }

  /** Deadlock freedom for any number of tasks, with fair queues: whenever some task waits,
      a chain of tasks, each in the way of the one before, leads from it to one that can
      move. */
  lemma {:induction false} NoDeadlock(s: State, id: nat) returns (chain: seq<nat>)
    requires forall o :: o in s.tasks ==> WellFormed(s.tasks[o].task)
    requires id in s.tasks && Want(s.tasks[id].task).Some?
    ensures chain != [] && chain[0] == id && IsChain(s, chain) && CanMove(s, chain[|chain| - 1])
    decreases 5 - Rank(Want(s.tasks[id].task).value.lock)
  {
    var l := Want(s.tasks[id].task).value.lock;
    var waiters := set o | o in s.tasks && Waits(s, o, l);
    assert id in waiters;
    var first := OldestWaiter(s, l, waiters);
    var r := Want(s.tasks[first].task).value;
    if holder :| Conflicts(s, holder, r) {
      var t := s.tasks[holder].task;
      assert r.lock in Holds(t);
      chain := [holder];
      if Want(t).Some? {
        AcquiresFollowRank(t, l);
        chain := NoDeadlock(s, holder);
      }
      ChainCons(s, first, chain);
      chain := [first] + chain;
    } else {
      assert forall o :: Waits(s, o, l) ==> o in waiters;
      chain := [first];
    }
    if first != id {
      ChainCons(s, id, chain);
      chain := [id] + chain;
    }
  }
}
