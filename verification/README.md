# Verified model of saorsa-gossip

A Dafny model of the stateful core of saorsa-gossip: the delta OR-Set and its
anti-entropy, one HyParView + SWIM membership node as a set of concurrent lock-taking
tasks, networks of such nodes, the JOIN ledger, the legacy migration policy of the
pub-sub layer with its floor journal and variant cache, the presence rate limiter and the
coordinator's query deduplication. `dafny verify dfyconfig.toml` checks everything.

| file | what it holds |
|---|---|
| `OrSetSpec.dfy`, `OrSet.dfy` | the OR-Set as a join of (live, dead) tag pairs, and the class with its maps, changelog and loops |
| `Replication.dfy`, `ReplicationLaws.dfy` | any number of replicas with anti-entropy tables; messages lost, repeated, reordered; what each step and a whole sync round does |
| `Node.dfy`, `NodeInvariants.dfy`, `NodeTheorems.dfy`, `NodeLaws.dfy` | one node at lock granularity, its invariant, the theorems over runs, and how each table may change |
| `Maintenance.dfy` | the degree-maintenance pass with its loops |
| `Join.dfy` | the step-wise JOIN against the 0.5.87 loop |
| `Drain.dfy`, `Exchanges.dfy` | message cascades between any number of nodes, and what an exchange of messages achieves |
| `FailureDetector.dfy` | SWIM timing |
| `MigrationPolicy.dfy`, `MigrationRuns.dfy`, `MigrationSends.dfy`, `LegacyMigration.dfy` | the policy's steps with their exact conditions, its runs lock section by lock section, with cache and emitted bytes, a send from lookup to transport, the object updated in place |
| `FloorJournal.dfy`, `VariantCache.dfy` | the floor file and the re-signed variants |
| `RateLimiter.dfy`, `QueryDedup.dfy` | the token bucket and the query table |
| `Wire.dfy` | frames and codecs |
| `Sets.dfy`, `Common.dfy` | cardinality facts, shared types |

How the parts fit: an object that the source updates in place is a class whose methods
are proved against functions on values; the theorems are about those functions. A protocol
is a machine over its steps, and a run is a sequence of states. What the source leaves to
hash order, random choice, the clock, the file system or the transport is a parameter of a
step, so every theorem holds for every such choice. Locks are fair queues (tickets), and
which locks a task holds or waits for is a function of its program point. Serialisation,
hashing and signing are function parameters; the migration runs ask that decoding undoes
encoding, that a frame's header is the front of the frame, and that the wire digest has no
collisions, and nothing else asks anything of them.

Results that differ from what one might expect of the code:

- `OrSet::add` with a tombstoned tag takes the tombstone back. `AddIsExactIff` gives the
  exact condition under which an add only grows the set: the tag is not tombstoned.
- A delta merged by a replica that lacks what came before it is absorbed tag by tag, and
  visibility and convergence hold by the tags that arrived. The operations of its source
  describe the result exactly when the replica and the delta together cover the delta's
  base (`OperationsIff`; `GapShows` has an input where they do not).
- A peer whose recorded version falls below the compaction floor gets no delta any more:
  the sync loop then skips it exactly as it skips a peer that is up to date
  (`NothingToSendIff`). Otherwise an undisturbed round completes it (`RoundCompletes`).
- A coordinator query can be answered twice even if it was created before its first receipt
  (`TruncationShows`): pruning compares instants, expiry compares truncated milliseconds.
  It cannot when its creation millisecond is below that of the instant after the first
  receipt (`AnsweredAtMostOnce`), however calls interleave, and it can in every other case
  (`AnsweredTwice`).
- `cleanup_stale` is invisible, and the window bound holds, exactly when its age covers a
  full refill (`CleanupIsInvisible`, `WindowBound`, `HastyCleanupShows`,
  `HastyCleanupExceedsBound`), or when the capacity is below one token (`NothingAdmitted`).
  The shipped call satisfies the condition.
- A floor journal that lost a known peer is accepted when its modification time and length
  are unchanged, because nothing is read then (`LossUnnoticedIff`, `SameStampHidesLoss`).
  The peer stays known to the running instance, and a file too short for the known peers is
  never accepted (`Refresh`).
- `send` looks the topic up and hands the frame over in different lock sections. A v1 frame
  looked up just before its topic is registered goes out on a registered topic without a
  licence (`RegistrationOvertakes`). Every v1 frame whose topic was registered at its
  lookup is licensed (`LegacyFramesAreLicensed`, `KnownMeansRegisteredAtLookup`).
- A failed `require_v2` leaves the grants of other peers in the table; they license
  nothing from then on (`FailedFloorsBarAll`).

## Model

| member | source | states |
|---|---|---|
| `OrSetSpec.JoinIsLeastUpperBound` | crates/crdt-sync/src/lib.rs:235-306 | merging is the least upper bound of the order "knows more, has removed more": commutative, associative, idempotent, antisymmetric order |
| `OrSetSpec.AddIsExactIff` | crates/crdt-sync/src/lib.rs:143-170 | an add is the join with the one new pair, and never loses anything, if and only if its tag is not tombstoned |
| `OrSetSpec.AddKeepsChronicle` | crates/crdt-sync/src/lib.rs:143-170 | an add with a tag that is not tombstoned keeps the changelog a true account of every version since the floor |
| `OrSetSpec.RemoveKeepsChronicle` | crates/crdt-sync/src/lib.rs:173-200 | a remove is the join with the observed tags as tombstones, leaves no live tag of the element, and keeps the changelog true |
| `OrSetSpec.ApplyIsJoin` | crates/crdt-sync/src/lib.rs:235-296 | merging a delta is the join, and what is logged stands in for the whole delta |
| `OrSetSpec.ApplyKeepsChronicle` | crates/crdt-sync/src/lib.rs:235-296 | a merge keeps the changelog true, so it can be passed on |
| `OrSetSpec.RecordKeepsChronicle` | crates/crdt-sync/src/lib.rs:222-233 | one logged entry extends the account by one version |
| `OrSetSpec.CollectReaches` | crates/crdt-sync/src/lib.rs:363-390 | the union of the entries between two retained versions accounts for everything known and removed between them |
| `OrSetSpec.DeltaCompletesIff` | crates/crdt-sync/src/lib.rs:363-390 | for every state whatsoever, merging a delta equals merging the state it leads to if and only if the state and the delta together cover the delta's base |
| `OrSetSpec.DeltaIsExact` | crates/crdt-sync/src/lib.rs:363-390 | there is a delta exactly from floor to below version, and for every state above the set's state at that version, merging the delta equals merging the whole set |
| `OrSetSpec.CompactIsInvisibleAboveFloor` | crates/crdt-sync/src/lib.rs:309-322 | compaction changes neither the set nor any delta at or above the new floor, which is the larger of the old floor and version − keep, and gives no partial delta below it |
| `OrSet.OrSet.constructor` | crates/crdt-sync/src/lib.rs:129-140 | a new set is empty at version 0 |
| `OrSet.OrSet.Add` | crates/crdt-sync/src/lib.rs:143-170 | the maps, log and version after an add are those of the specified add |
| `OrSet.OrSet.Remove` | crates/crdt-sync/src/lib.rs:173-200 | likewise for a remove, including the remove of an absent element |
| `OrSet.OrSet.Log` | crates/crdt-sync/src/lib.rs:222-233 | one more version, one more changelog entry, the others unchanged |
| `OrSet.OrSet.Contains` | crates/crdt-sync/src/lib.rs:203-205 | visible exactly when some tag of the element is live |
| `OrSet.OrSet.AdoptAdded` | crates/crdt-sync/src/lib.rs:243-262 | the first loop adopts exactly the incoming tags that are not tombstoned and reports exactly the new ones |
| `OrSet.OrSet.AdoptRemoved` | crates/crdt-sync/src/lib.rs:264-293 | the second loop tombstones every incoming removal, drops it from the live tags and reports exactly the new ones |
| `OrSet.OrSet.ApplyDeltaParts` | crates/crdt-sync/src/lib.rs:235-296 | both loops and the conditional log entry together are the specified merge |
| `OrSet.OrSet.MergeState` | crates/crdt-sync/src/lib.rs:302-306 | merging a whole set, also with itself, is the specified merge of its state |
| `OrSet.OrSet.Compact` | crates/crdt-sync/src/lib.rs:309-322 | the retained log and floor are the specified ones |
| `OrSet.OrSet.DeltaSince` | crates/crdt-sync/src/lib.rs:363-390 | the loop finds a delta exactly when the specification has one, and it carries the same pairs |
| `OrSet.OrSet.MaxRetainedSequenceForPeer` | crates/crdt-sync/src/lib.rs:325-333 | the largest sequence of the peer among live and tombstoned tags, or none when there is none |
| `OrSet.MaxIn` | crates/crdt-sync/src/lib.rs:325-333 | the maximum within one map |
| `Replication.IssueStep` | crates/crdt-sync/src/lib.rs:143-170 | issuing max-retained + 1 on one's own replica keeps the system invariant |
| `Replication.EraseStep` | crates/crdt-sync/src/lib.rs:173-200 | so does a remove |
| `Replication.MergeStep` | crates/crdt-sync/src/lib.rs:235-306 | so does merging any update that no one invented, whatever the replica lacks |
| `Replication.CompactStep` | crates/crdt-sync/src/lib.rs:309-322 | so does compaction at any time |
| `Replication.RegisterStep` | crates/crdt-sync/src/lib.rs:695-698 | so does adding a peer at version 0 |
| `Replication.ExtractStep` | crates/crdt-sync/src/lib.rs:363-390 | so does taking a delta from any retained version, of any replica, at any time |
| `Replication.DeliverStep` | crates/crdt-sync/src/lib.rs:676-692 | so does merging any delta at any replica, gaps included, any number of times, late or out of order |
| `Replication.AcknowledgeStep` | crates/crdt-sync/src/lib.rs:599-670 | so does an acknowledgement: the row of the peer becomes the version the delta was taken at, and the peer dominates the state of that version |
| `Replication.StepKeepsInv` | crates/crdt-sync/src/lib.rs:536-709 | every step keeps the invariant, and every replica's history and state only grow |
| `Replication.RunKeepsInv` | crates/crdt-sync/src/lib.rs:536-709 | the invariant holds in every state of every run |
| `Replication.VisibleIffReached` | crates/crdt-sync/src/lib.rs:143-306 | in every run, with states and deltas merged anywhere in any order, an element is visible exactly when an add of it reached the replica and a tombstone of that tag did not |
| `Replication.SameUpdatesConverge` | crates/crdt-sync/src/lib.rs:235-306 | in every such run, replicas reached by the same adds and tombstones have equal live tags and tombstones, whatever order, repetition and gaps |
| `Replication.NothingIsInvented` | crates/crdt-sync/src/lib.rs:235-306 | in every such run, every known tag was added by some operation and every tombstone observed by some remove |
| `Replication.OperationsIff` | crates/crdt-sync/src/lib.rs:235-306 | where operations describe a replica and a source, they describe the merge of a delta if and only if the replica and the delta together cover the delta's base |
| `Replication.VisibleIffSurvivingAdd` | crates/crdt-sync/src/lib.rs:143-306 | at a replica where every merge met that condition, an element is visible exactly when an add of it was absorbed and no remove that had observed its tag was |
| `Replication.RunsWithoutGapsAreExact` | crates/crdt-sync/src/lib.rs:599-704 | every replica is such a replica in every run whose deltas are merged where their base is dominated |
| `Replication.GapShows` | crates/crdt-sync/src/lib.rs:363-390 | a delta with a gap, merged by an empty replica, leaves an operation of its source out |
| `Replication.LiveIffSurvivingAdd` | crates/crdt-sync/src/lib.rs:143-306 | the same for a single absorbed state |
| `Replication.Convergence` | crates/crdt-sync/src/lib.rs:235-306 | such replicas that absorbed the same operations are equal |
| `Replication.WatermarkIsSafe` | crates/crdt-sync/src/lib.rs:599-704 | every recorded peer version is at most the local one, the peer dominates the local state at it, and a delta from it brings the peer fully up to date |
| `Replication.TagsAreUnique` | crates/crdt-sync/src/lib.rs:143-333 | no (peer, sequence) tag is issued twice in any run |
| `ReplicationLaws.RowMoves` | crates/crdt-sync/src/lib.rs:621-704 | a row of the delivered-version table appears at zero when its peer is added, goes when it is removed, is set by an acknowledged delta to the version that was sent, and never moves otherwise; adding a peer again leaves its row alone |
| `ReplicationLaws.FlightOrigin` | crates/crdt-sync/src/lib.rs:609-617 | every delta in flight was taken at an earlier moment of the run, from its base to the version of that moment |
| `ReplicationLaws.AcknowledgeRecords` | crates/crdt-sync/src/lib.rs:617-625 | an acknowledgement moves exactly one row, forward, to the version its source had when the delta was taken, which the peer dominates by then; no set and no other row changes |
| `ReplicationLaws.QuietRoundLeavesNothing` | crates/crdt-sync/src/lib.rs:601-627 | without a local change since the delta was taken, the row ends at the local version, the peer dominates the whole local state, and no delta is left for it |
| `ReplicationLaws.NothingToSendIff` | crates/crdt-sync/src/lib.rs:609-626 | the sync loop has nothing to send to a peer exactly when its row is at the local version or below the compaction floor |
| `ReplicationLaws.RoundCompletes` | crates/crdt-sync/src/lib.rs:601-627 | from every reachable world, for every peer there is a delta for, the four steps of a round are enabled one after the other and end with the join of both states at the peer and its row at the local version |
| `ReplicationLaws.SnapOrigin` | crates/crdt-sync/src/lib.rs:302-306 | every whole state in transit is the state some replica had at an earlier moment |
| `ReplicationLaws.StatesMove` | crates/crdt-sync/src/lib.rs:143-322 | a merge lands on the join with what was in transit, an add makes exactly its element visible, a remove makes exactly its element invisible, and nothing else, compaction included, changes a state |
| `Replication.FreshTag` | crates/crdt-sync/src/lib.rs:325-333 | max-retained + 1 was never issued before |
| `Node.AcquiresFollowRank` | crates/membership/src/lib.rs:1410-1487 | every blocking acquire is of a lock ranked above all locks the task holds |
| `Node.NoDeadlock` | crates/membership/src/lib.rs:1380-1487 | with any number of tasks and fair queues, a chain of tasks, each holding or queued ahead for the lock the one before waits for, leads from every waiting task to one that can move |
| `NodeInvariants.BodyIsGuarded` | crates/membership/src/lib.rs:716-779 | every write of every task is made under the exclusive lock of what it writes |
| `NodeInvariants.BodyKeeps` | crates/membership/src/lib.rs:1242-1519 | every section keeps the probe, state and view invariants |
| `NodeInvariants.CommittedBounds` | crates/membership/src/lib.rs:1490-1519 | a commit keeps both views within their bounds |
| `NodeInvariants.MaintainBounds` | crates/membership/src/lib.rs:2107-2187 | so does a maintenance pass |
| `NodeInvariants.OthersKeep` | crates/membership/src/lib.rs:716-779 | a section cannot break what another task relies on under the locks that task holds |
| `NodeInvariants.StepKeepsInv` | crates/membership/src/lib.rs:716-2193 | every step, spawn, grant and cancellation keeps the invariant |
| `NodeInvariants.RunKeepsInv` | crates/membership/src/lib.rs:716-2193 | the invariant holds in every state of every run |
| `NodeTheorems.RunnableHasStep` | crates/membership/src/lib.rs:2107-2187 | a task that is not waiting always has a step |
| `NodeTheorems.NoRunDeadlocks` | crates/membership/src/lib.rs:747-779 | in every run such a chain ends at a task with an enabled step |
| `NodeTheorems.AckCutsAtClear` | crates/membership/src/lib.rs:541-548 | the first section of an ACK clears the probe, changes no state, and every probe pending then or earlier is stamped below its cut-off |
| `NodeTheorems.AckBeatsTimeout` | crates/membership/src/lib.rs:541-779 | for a probe pending when or before an ACK clears the table: the marking step leaves the peer Alive, and from then on that probe never makes it Suspect, in any interleaving |
| `NodeTheorems.AckIsNotUndone` | crates/membership/src/lib.rs:541-576 | an ACK marks its peer Alive, and from then on no suspicion of the peer comes from a probe below the cut-off |
| `NodeTheorems.AckedStays` | crates/membership/src/lib.rs:541-576 | the cut-off of an ACK only grows over a run |
| `NodeTheorems.SuspectOnlyWhilePending` | crates/membership/src/lib.rs:740-773 | a timeout makes an Alive peer Suspect only while that same probe is pending |
| `NodeTheorems.CancelChangesNothing` | crates/membership/src/lib.rs:1378-1412 | dropping any task at any await changes no data |
| `NodeTheorems.CommitIsAtomic` | crates/membership/src/lib.rs:1410-1519 | a commit changes nothing until one step, taken with no other task holding the locks involved, that makes the peer active and Alive: below the degree nobody leaves, at or above it exactly one member does and becomes passive exactly when there is room, and nothing else changes |
| `NodeTheorems.CommittedJoins` | crates/membership/src/lib.rs:1490-1519 | what `apply_commit` with the chosen demotion does to views, SWIM and probe tables, below the degree and at or above it |
| `NodeTheorems.CommitHoldsNothingWhileWaiting` | crates/membership/src/lib.rs:1410-1487 | a commit waits holding a data lock only after eight busy rounds, and then in lock order |
| `NodeTheorems.CommitIsBounded` | crates/membership/src/lib.rs:1410-1487 | each step of a commit's own uses up one of at most 47, and no other task changes where it is |
| `NodeTheorems.CommitTakesFewSteps` | crates/membership/src/lib.rs:1410-1487 | in every run a commit takes at most 47 steps of its own from start to end |
| `NodeTheorems.ViewsAreBounded` | crates/membership/src/lib.rs:1242-1519 | in every state of every run both views are within their configured maxima |
| `NodeTheorems.MaintenanceConnects` | crates/membership/src/lib.rs:2107-2140 | after a pass the active view, SWIM and the probe tables name connected peers only; of connected peers every pending probe, every indirect request and every SWIM entry survives, promoted ones becoming Alive |
| `NodeTheorems.MaintenanceKeepsConnected` | crates/membership/src/lib.rs:2141-2174 | a pass drops a connected active peer only above the maximum, and promotes no further than the target |
| `NodeTheorems.MaintenanceLosesNobody` | crates/membership/src/lib.rs:2121-2187 | while the passive view has room, everybody in the two views but the node itself is still in one of them after a pass |
| `NodeTheorems.MaintenanceSeparates` | crates/membership/src/lib.rs:2121-2187 | after a pass the views are disjoint |
| `NodeTheorems.MaintenanceFills` | crates/membership/src/lib.rs:2141-2174 | a pass that ends below its target has promoted every connected candidate and demoted nobody |
| `NodeTheorems.MaintenanceHeals` | crates/membership/src/lib.rs:2107-2187 | connected, disjoint, bounded; below the target no connected peer is left passive |
| `NodeTheorems.EveryPassHeals` | crates/membership/src/lib.rs:2051-2187 | the same for every pass in every run |
| `NodeLaws.EntryMoves` | crates/membership/src/lib.rs:415-476 | in every run the SWIM entry of a peer changes only in a step about that peer, in the suspect scan, which buries Suspects only, or in a maintenance pass, and how |
| `NodeLaws.MarksTakeEffect` | crates/membership/src/lib.rs:415-476 | the other half: every explicit mark, removal and scan that runs has exactly its effect |
| `NodeLaws.LeavesAlive` | crates/membership/src/lib.rs:433-476 | an Alive peer stops being Alive only by the timeout of a probe of it that is pending, or by an explicit mark, removal or disconnection |
| `NodeLaws.AckMarksAlive` | crates/membership/src/lib.rs:541-548 | the marking step of an ACK leaves its peer Alive without a cause and every other entry, view and table as it was |
| `NodeLaws.AckedPeerStaysAlive` | crates/membership/src/lib.rs:541-779 | from then on the peer stops being Alive only by a command or the timeout of a probe recorded after that ACK cleared the table |
| `NodeLaws.TimeoutDecides` | crates/membership/src/lib.rs:747-779 | a timed-out probe that is still pending makes an Alive peer Suspect because of it; one cleared or replaced meanwhile changes nothing |
| `NodeLaws.ProbeMoves` | crates/membership/src/lib.rs:498-515 | a pending probe appears, is replaced or goes only in a section about its peer or when its peer is disconnected; a new stamp is above every stamp of the run, and a periodic probe replaces none |
| `NodeLaws.ProbesTakeEffect` | crates/membership/src/lib.rs:498-515 | the other half: after a probe is recorded it is pending, after it is cleared it is not |
| `NodeLaws.ActiveMoves` | crates/membership/src/lib.rs:2272-2301 | a peer enters the active view by its own commit or a pass, and leaves it by its own removal, a commit that finds the view full, or a pass |
| `NodeLaws.ViewSections` | crates/membership/src/lib.rs:1242-1258 | a passive insertion happens exactly with room, a removal and a promotion take exactly their peer, and a promotion commits exactly a peer that was passive |
| `NodeLaws.IndirectSections` | crates/membership/src/lib.rs:665-698 | an indirect request enters with its own record, and goes when cleared, past its age, or when its target acknowledges |
| `NodeLaws.TimeoutsAreWorkedOff` | crates/membership/src/lib.rs:729-820 | every timed-out probe a scan finds is looked at: the task drops one from its list only after others were asked about it or when it is no longer pending |
| `NodeLaws.SectionsFollow` | crates/membership/src/lib.rs:541-577 | what follows a section: the marking and the requesters after an ACK, every picked target of the probe task, the Dead mark after a removal, the passive view after a rejection |
| `Maintenance.Targets.constructor` | crates/membership/src/lib.rs:2039-2056 | the targets start at the configured degree and passive maximum |
| `Maintenance.Targets.Tick` | crates/membership/src/lib.rs:2057-2106 | each tick moves each of the two targets by at most two, exactly two closer to its goal or onto it, and never out of range |
| `Maintenance.TakeSome` | crates/membership/src/lib.rs:2145-2187 | taking n of a hash set gives n distinct members, or all |
| `Maintenance.Views.DropDisconnected` | crates/membership/src/lib.rs:2121-2130 | unconnected active peers move to the passive view |
| `Maintenance.Views.Disconnect` | crates/membership/src/lib.rs:2112-2140 | the tables are restricted to connected peers and the views are separated |
| `Maintenance.Views.PromoteAll` | crates/membership/src/lib.rs:2145-2160 | the promotion loop moves every chosen peer and marks it alive |
| `Maintenance.Views.Promote` | crates/membership/src/lib.rs:2145-2160 | as many connected passive peers as the target lacks, or all |
| `Maintenance.Views.DemoteOne` | crates/membership/src/lib.rs:2162-2174 | one demoted peer stays passive exactly when there is room |
| `Maintenance.Views.DemoteAll` | crates/membership/src/lib.rs:2162-2174 | the demotion loop keeps as many as fit |
| `Maintenance.Views.Demote` | crates/membership/src/lib.rs:2162-2174 | the chosen number of active peers is demoted |
| `Maintenance.Views.Trim` | crates/membership/src/lib.rs:2176-2187 | exactly the excess over the passive target goes |
| `Maintenance.Views.Shrink` | crates/membership/src/lib.rs:2162-2187 | demotion down to the maximum, then trimming |
| `Maintenance.Views.Rebalance` | crates/membership/src/lib.rs:2142-2187 | promotion, demotion and trimming in this order |
| `Maintenance.Views.Maintain` | crates/membership/src/lib.rs:2107-2187 | the whole pass is a maintenance step of the node machine |
| `Join.Jitter` | crates/membership/src/lib.rs:142-144 | the jitter is at most an eighth of the delay |
| `Join.ReferenceSeedLoop` | crates/membership/src/join_budget_tests.rs:277-343 | the 0.5.87 inner loop computes the reference for one entry |
| `Join.ReferenceJoinLoop` | crates/membership/src/join_budget_tests.rs:256-349 | the 0.5.87 loop computes the reference for a seed list |
| `Join.JoinLedger.constructor` | crates/membership/src/lib.rs:149-152 | a new ledger knows no seed |
| `Join.JoinLedger.RecordLoss` | crates/membership/src/lib.rs:199-215 | a loss doubles the capped cooldown and never makes a seed ready earlier; attempts, dial backoff and other seeds are untouched |
| `Join.Joiner.JoinDial` | crates/membership/src/lib.rs:1522-1582 | the four results, exactly when each occurs, and the ledger and trace after each |
| `Join.Joiner.JoinSend` | crates/membership/src/lib.rs:1584-1610 | the address is stored, the frame sent, and the peer committed only if the send succeeded |
| `Join.Joiner.JoinAnswered` | crates/membership/src/lib.rs:2206-2248 | an answered step is one answered pass of the 0.5.87 loop |
| `Join.Joiner.SleepAfterFailure` | crates/membership/src/lib.rs:2206-2248 | a failed step and its sleep are one failed pass of the 0.5.87 loop |
| `Join.Joiner.JoinPass` | crates/membership/src/lib.rs:2206-2248 | one pass ends the entry as the 0.5.87 loop would, or leaves exactly the passes it would have left; NotReady cannot occur |
| `Join.Joiner.JoinSeed` | crates/membership/src/lib.rs:2206-2248 | one entry does exactly what the 0.5.87 loop did, and never meets NotReady |
| `Join.Joiner.Join` | crates/membership/src/lib.rs:2206-2248 | for every seed list and environment, the rest of the node changing views and states between events included: the same dials, stored addresses, frames, sleeps, views and result as the 0.5.87 loop |
| `Join.CommitIsReferenceAddActive` | crates/membership/src/join_budget_tests.rs:351-377 | the all-at-once commit makes the changes of the 0.5.87 `add_active` |
| `Join.BackoffDoubles` | crates/membership/src/lib.rs:1522-1582 | the backoff after k failures is the capped initial delay times 2^k |
| `Join.SeedStaysInBudget` | crates/membership/src/lib.rs:2206-2248 | one entry makes at most its budget of dials, exactly its budget unless it connects, connects exactly when its last event is a completed JOIN, and its sleeps follow that backoff plus at most an eighth |
| `Join.EntryBudget` | crates/membership/src/lib.rs:84-91 | with the shipped constants: at most ten dials, exactly ten without a completed JOIN, sleeps min(100·2^k, 30000) ms plus at most an eighth |
| `Drain.CommitBounded` | crates/membership/src/lib.rs:1490-1519 | a commit keeps every bound on the active view that covers the degree |
| `Drain.JoinPays` | crates/membership/src/lib.rs:1779-1814 | a JOIN weighs more than all its forwards |
| `Drain.ForwardJoinPays` | crates/membership/src/lib.rs:1817-1871 | a FORWARDJOIN weighs more than its forward or its NEIGHBOR |
| `Drain.NeighborPays` | crates/membership/src/lib.rs:1874-1895 | a NEIGHBOR weighs more than its reply |
| `Drain.NeighborReplyPays` | crates/membership/src/lib.rs:1898-1914 | a reply causes no message |
| `Drain.ShufflePays` | crates/membership/src/lib.rs:1727-1767 | a SHUFFLE weighs more than its forward or its reply |
| `Drain.ShuffleReplyPays` | crates/membership/src/lib.rs:1770-1776 | a shuffle reply causes no message |
| `Drain.DisconnectPays` | crates/membership/src/lib.rs:1917-1929 | a DISCONNECT, with its promotion, causes no message and keeps the view bound |
| `Drain.PingPays` | crates/membership/src/lib.rs:520-536 | a Ping weighs more than its Ack |
| `Drain.PingReqPays` | crates/membership/src/lib.rs:638-677 | a PingReq weighs more than its Ping and its table entry |
| `Drain.AckPays` | crates/membership/src/lib.rs:541-576 | an Ack and the entries it takes weigh more than the responses it causes |
| `Drain.TableSplits` | crates/membership/src/lib.rs:679-698 | the requesters taken for one target and the entries left for the others are no more than the table had |
| `Drain.StepDescends` | crates/membership/src/lib.rs:1636-1691 | every delivery and every loss lowers the potential and keeps the view bound |
| `Drain.NetworkDrains` | crates/membership/src/lib.rs:1727-1929 | any run of deliveries and losses is no longer than the potential it starts with, and every active view stays within the bound |
| `Drain.JoinCascade` | crates/membership/src/lib.rs:1779-1871 | one fresh JOIN causes at most 8 d + 1 deliveries when active views have at most d members |
| `Drain.NoPacketIsStuck` | crates/membership/src/lib.rs:1636-1691 | every packet for an existing node can be delivered, so a run that cannot go on has nothing left for one |
| `Exchanges.JoinAnnounces` | crates/membership/src/lib.rs:1779-1815 | a JOIN makes the newcomer active and announces it, one hop less, exactly once to every other active peer; without a hop left to nobody |
| `Exchanges.WalkEnds` | crates/membership/src/lib.rs:1832-1852 | a walk ends at a host with room or at its last hop, with the newcomer active there and asked for the link, at high priority exactly when the host had nobody |
| `Exchanges.WalkGoesOn` | crates/membership/src/lib.rs:1853-1871 | elsewhere it goes on to another active peer with one hop less, changes neither active view nor SWIM, and leaves the newcomer passive, room permitting, at its third hop |
| `Exchanges.NeighborHandshake` | crates/membership/src/lib.rs:1874-1914 | a request is accepted exactly at high priority or below the maximum; accepted, both sides end active and Alive to each other; refused, the asked side is unchanged and the asking side moves the peer to passive, room permitting |
| `Exchanges.PingExchange` | crates/membership/src/lib.rs:520-576 | a PING and its ACK leave each side Alive to the other and no probe pending, and touch no view and no other entry |
| `Exchanges.IndirectProbe` | crates/membership/src/lib.rs:638-713 | an indirect probe reaches back: the relay pings for the requester, the ACK makes it answer that requester, and the target ends Alive there with no probe pending |
| `Exchanges.DisconnectPromotes` | crates/membership/src/lib.rs:1917-1929 | a DISCONNECT takes an active peer out and marks it Dead, and some passive peer, if there is one, takes a place by a commit |
| `Exchanges.ShuffleExchange` | crates/membership/src/lib.rs:1727-1776 | a shuffle goes on with one hop less or ends; where it ends its peers are taken in and the reply reaches its origin, which takes in what it lists |
| `Exchanges.AddPassivesTakes` | crates/membership/src/lib.rs:1242-1258 | taking in peers adds only listed ones, never the node itself or an active peer, stays within the bound, and takes everybody it may while there is room |
| `FailureDetector.Detector.CollectTimedOut` | crates/membership/src/lib.rs:731-744 | the scan collects exactly the probes pending for the ACK timeout or longer |
| `FailureDetector.Detector.ProbeTimeoutScan` | crates/membership/src/lib.rs:731-780 | exactly the timed-out probes leave the table and exactly their Alive peers become Suspect now |
| `FailureDetector.Detector.CollectOverdue` | crates/membership/src/lib.rs:933-943 | the scan collects exactly the suspects older than the timeout, strictly |
| `FailureDetector.Detector.SuspectTimeoutScan` | crates/membership/src/lib.rs:930-957 | exactly those become Dead now |
| `FailureDetector.SilentStep` | crates/membership/src/lib.rs:716-957 | with punctual ticks, each step that is no sign of life keeps the detection on schedule |
| `FailureDetector.DetectionBound` | crates/membership/src/lib.rs:716-957 | an Alive peer probed at t and silent from then on is Suspect with a stamp in [t+500, t+1000), not Alive from t+1000, and Dead with a stamp before t+2000+timeout |
| `FailureDetector.ShippedDetectionBound` | crates/membership/src/lib.rs:35-43 | with the shipped timeout it is Dead before t+5000 |
| `FailureDetector.BurialStep` | crates/membership/src/lib.rs:917-957 | only a scan that finds the suspicion strictly older than the timeout turns a peer Dead, explicit marks aside |
| `FailureDetector.DeathIsEarned` | crates/membership/src/lib.rs:917-957 | in every run without an explicit mark, a peer that became Dead was a suspect with a stamp more than the timeout before its death |
| `FloorJournal.DecodeEncode` | crates/pubsub/src/compat.rs:277-293 | what was written is read back |
| `FloorJournal.EncodeDecode` | crates/pubsub/src/compat.rs:277-293 | every file that is accepted is the encoding of exactly one list of peers |
| `FloorJournal.Decode` | crates/pubsub/src/compat.rs:277-293 | the record loop accepts and rejects exactly as specified |
| `FloorJournal.RaggedBody` | crates/pubsub/src/compat.rs:280-283 | a body that is not whole records is rejected |
| `FloorJournal.ModernFloors.constructor` | crates/pubsub/src/compat.rs:256-263 | an instance starts valid, with no peer and no stamp |
| `FloorJournal.DecodedLength` | crates/pubsub/src/compat.rs:277-293 | an accepted file is long enough for a record of every peer it lists |
| `FloorJournal.ModernFloors.Refresh` | crates/pubsub/src/compat.rs:295-313 | a known peer is never given up; accepted exactly when the stamp is the remembered one, or the file decodes, did not change while read and lists every known peer; a file too short for the known peers is always refused |
| `FloorJournal.LossUnnoticedIff` | crates/pubsub/src/compat.rs:295-313 | a journal that lost a known peer goes unnoticed if and only if its stamp is still the remembered one |
| `FloorJournal.SameStampHidesLoss` | crates/pubsub/src/compat.rs:296-299 | and it does then: a file of the same length with another peer's record in its place, under the old stamp, is accepted |
| `FloorJournal.ModernFloors.RequireV2` | crates/pubsub/src/compat.rs:315-331 | success means the peer is known; the file is only appended to; with no other writer the result is the specified one for every way the write can end |
| `FloorJournal.TornIsRejected` | crates/pubsub/src/compat.rs:277-293 | a torn last record is always noticed |
| `FloorJournal.CallKeeps` | crates/pubsub/src/compat.rs:315-331 | every call keeps the file the whole records of the acknowledged and the written but unacknowledged peers, plus at most one torn record |
| `FloorJournal.ReopenFinds` | crates/pubsub/src/compat.rs:256-331 | after any calls, however their appends ended, reopening fails exactly when some append was cut inside its record, and otherwise finds the acknowledged peers and those written in full without success, nobody else |
| `FloorJournal.CrashDuringAppend` | crates/pubsub/src/compat.rs:315-331 | in every state calls lead to with the file whole, an append cut at any byte: nothing written changes nothing, a whole record adds the one peer, anything between is rejected |
| `LegacyMigrationObject.LegacyMigration.constructor` | crates/pubsub/src/compat.rs:334-380 | the policy starts with nothing registered, granted or recorded |
| `LegacyMigrationObject.LegacyMigration.InstallFloors` | crates/pubsub/src/compat.rs:431-442 | accepted exactly when no floors are installed and none failed; floors are never given up, and no grant predates them |
| `LegacyMigrationObject.LegacyMigration.Register` | crates/pubsub/src/compat.rs:445-465 | accepted exactly for a higher revision of a known topic or a new topic with room, never the reserved one; acceptance leaves none of the topic's grants, all the others and an empty variant cache; refusal changes nothing |
| `LegacyMigrationObject.LegacyMigration.RequireV2` | crates/pubsub/src/compat.rs:468-483 | succeeds exactly when the store is there, reads, and has the peer or takes it; once floors are installed the peer has no grant left either way, and a failure is remembered |
| `LegacyMigrationObject.LegacyMigration.GrantLegacy` | crates/pubsub/src/compat.rs:487-548 | accepted exactly under the condition of `GrantIff`; it then has a revision above all recorded for the pair, its session, the wall lifetime of at most a day as its deadline, and a peer without a floor; a refused one adds and records nothing |
| `LegacyMigrationObject.LegacyMigration.Revoke` | crates/pubsub/src/compat.rs:551-569 | accepted exactly for a revision above the recorded one, or a positive one with room; the pair is then without a grant and every other pair untouched; refusal changes nothing |
| `LegacyMigrationObject.LegacyMigration.SetSignaturePolicy` | crates/pubsub/src/compat.rs:586-593 | under RejectV1 there are no grants, and lifting it brings none back |
| `LegacyMigrationObject.LegacyMigration.CheckClock` | crates/pubsub/src/compat.rs:648-656 | exactly a reading below the remembered wall time fails and costs every grant; otherwise the reading is remembered, so the remembered time never goes back |
| `LegacyMigrationObject.LegacyMigration.CheckFloors` | crates/pubsub/src/compat.rs:658-670 | success means a usable store that still has every known floor; failure is remembered and, when new, costs every grant |
| `MigrationPolicy.PermitIff` | crates/pubsub/src/compat.rs:672-699 | the sequence of checks, with expiry, clock and floor effects in between, passes exactly when one flat condition on the state before holds |
| `LegacyMigrationObject.LegacyMigration.Permitted` | crates/pubsub/src/compat.rs:672-699 | true exactly under that condition, and then the state left behind licenses the session; nothing is added |
| `MigrationPolicy.GrantIff` | crates/pubsub/src/compat.rs:487-548 | a grant is accepted exactly under a condition on the state before: attribution, session, verifier revision, clock, floors, revision, inventory and lifetime; its monotonic deadline is as far away as its wall expiry |
| `MigrationPolicy.RequireIff` | crates/pubsub/src/compat.rs:468-483 | a floor is recorded exactly when the store is there, reads, and has the peer or takes it, and then the known floors are what was read and the peer |
| `MigrationPolicy.ReceiveIff` | crates/pubsub/src/compat.rs:701-749 | a frame is accepted exactly under a condition on the state before, outer v2 and v1 alike, and an accepted control frame uses exactly its work of what the current window has left |
| `MigrationPolicy.AdmitIff` | crates/pubsub/src/compat.rs:786-827 | a queued legacy send is admitted exactly with its destination's session, all an admission depends on, and a payload that verifies under the revision of this moment, or as the relay's own control frame |
| `MigrationPolicy.SendableIff` | crates/pubsub/src/compat.rs:848-861 | a frame on a registered topic goes on exactly with a payload that verifies, or as a control frame of known work under the transport's own key |
| `LegacyMigrationObject.LegacyMigration.AdmitControl` | crates/pubsub/src/compat.rs:725-747 | an admitted control frame was signed by the adjacent peer, and the work admitted in the window, this frame included, stays within 4096 |
| `LegacyMigrationObject.LegacyMigration.Ingress` | crates/pubsub/src/compat.rs:701-749 | accepted exactly when the topic is not registered, or the frame is in scope, allowed if outer v1, and adjacent with its work within what the current window has left if control; exactly that work is then used; traffic grants nothing |
| `LegacyMigrationObject.LegacyMigration.LookUpSend` | crates/pubsub/src/compat.rs:751-766 | a send goes on under the policy exactly when its frame decodes and its topic is registered now, and passes exactly when the header's topic is not |
| `LegacyMigrationObject.LegacyMigration.RouteSend` | crates/pubsub/src/compat.rs:774-785 | legacy exactly with a grant, a session and everything an admission depends on, and then the session is licensed; nothing is added |
| `LegacyMigrationObject.LegacyMigration.Admit` | crates/pubsub/src/compat.rs:786-827 | bytes leave exactly with the destination's session, all an admission depends on, and an envelope that still verifies or the relay's own control frame; they are the queued message as outer v1, signed by the relay where converted |
| `MigrationSends.VerifyDecides` | crates/pubsub/src/compat.rs:767-773 | a send goes on past the verification exactly under that condition, unchanged, and ends otherwise |
| `MigrationSends.RouteDecides` | crates/pubsub/src/compat.rs:774-785 | legacy exactly with a grant, a session and all an admission depends on; otherwise an outer-v2 frame is ready as it is and another one is to be converted |
| `MigrationSends.AdmissionDecides` | crates/pubsub/src/compat.rs:786-827 | bytes of a queued send leave exactly under the condition of `AdmitIff`, and the send ends either way |
| `MigrationSends.StepsAreApart` | crates/pubsub/src/compat.rs:445-465 | no step touches another send, and exactly an accepted registration empties the variant cache |
| `MigrationSends.ModernSend` | crates/pubsub/src/compat.rs:828-845 | without a licence the transport gets outer v2: an outer-v2 frame byte for byte, any other one as the same message re-signed by the relay |
| `MigrationSends.LegacySend` | crates/pubsub/src/compat.rs:786-827 | with a licence at the route and at the admission it gets the same message as outer v1, re-signed by the relay if it was not outer v1 |
| `MigrationRuns.PermitLicenses` | crates/pubsub/src/compat.rs:672-699 | a passed check leaves a state in which the live grant, both revisions, the floors and the policy all agree |
| `MigrationRuns.TrafficDrops` | crates/pubsub/src/compat.rs:701-845 | no traffic adds a grant, changes a revision, a topic or the policy, or gives up a floor |
| `MigrationRuns.StepKeeps` | crates/pubsub/src/compat.rs:431-912 | every lock section keeps each grant attributed, at its pair's latest revision and its topic's verifier revision, none under RejectV1, all tables within limits, the variant cache exact and faithful, and every send under way the submitted frame, outer v2 once ready to hand over |
| `MigrationRuns.RunKeepsInv` | crates/pubsub/src/compat.rs:431-912 | that holds in every state of every run; in particular the cached bytes are the summed lengths, at most 4 MiB, and each entry decodes to its message under its version |
| `MigrationRuns.LegacyFramesAreLicensed` | crates/pubsub/src/compat.rs:672-845 | in every run of the single lock sections, any bytes handed to the transport whose header says v1, and any such frame accepted, on a topic registered at its lookup, have at that moment a live grant for their exact session at the latest revision and the registered verifier revision, no floor and no RejectV1 |
| `MigrationRuns.KnownMeansRegisteredAtLookup` | crates/pubsub/src/compat.rs:751-766 | whether a frame counts as registered at its lookup is what the lookup of that very send found, earlier in the run |
| `MigrationRuns.RegistrationOvertakes` | crates/pubsub/src/compat.rs:761-764 | the condition is needed everywhere: in any state, a v1 frame looked up while its topic is not registered can be overtaken by the registration and be handed over on a registered topic where nobody is licensed |
| `MigrationRuns.LegacyBytesAreFaithful` | crates/pubsub/src/compat.rs:786-827 | such bytes carry the submitted topic, kind and payload, and a data frame an envelope verified under the registered revision at that moment, however long it was queued |
| `MigrationRuns.HandOverIsModern` | crates/pubsub/src/compat.rs:828-845 | bytes handed over without the legacy guard are the submitted frame as outer v2, if its topic was registered at the lookup |
| `MigrationRuns.UngrantedIsNotQueued` | crates/pubsub/src/compat.rs:774-785 | a send whose destination has no grant at the routing decision is never queued as legacy |
| `MigrationRuns.GrantIsUsable` | crates/pubsub/src/compat.rs:487-548 | an accepted grant admits its session until its deadline and expiry, the clock not going back |
| `MigrationRuns.NoReplay` | crates/pubsub/src/compat.rs:487-569 | accepted revisions of a pair strictly increase over the run, across grants and revocations |
| `MigrationRuns.RejectV1MeansNoGrants` | crates/pubsub/src/compat.rs:586-593 | RejectV1 implies no grants in every reachable state |
| `MigrationRuns.FlooredForever` | crates/pubsub/src/compat.rs:468-483 | once a peer has a floor, none of its v1 frames looked up on a registered topic passes again |
| `MigrationRuns.FailedFloorsBarAll` | crates/pubsub/src/compat.rs:658-670 | once the floor store has failed, no v1 frame at all looked up on a registered topic passes again, though grants may remain |
| `MigrationRuns.RunForward` | crates/pubsub/src/compat.rs:445-569 | revisions, registered topics and floors only grow over a run, and a failure of the floor store stays |
| `MigrationRuns.GrantsOnlyIssued` | crates/pubsub/src/compat.rs:487-548 | only an accepted grant of a pair puts it into the table |
| `MigrationRuns.RevokedUntilRegranted` | crates/pubsub/src/compat.rs:551-569 | after a revocation no v1 frame of the pair looked up on a registered topic passes, queued ones included, until a later grant of the pair is accepted |
| `VariantCache.TotalWithout` | crates/pubsub/src/compat.rs:904-910 | the summed size is the size of any one entry plus the rest |
| `VariantCache.ResignedIsFaithful` | crates/pubsub/src/compat.rs:891-903 | a re-signed message keeps topic, kind, id, hops and payload under the version asked for, sealed if that is v2, with the relay's signature over its own header; a message of that version is left as it is |
| `VariantCache.HitIsFaithful` | crates/pubsub/src/compat.rs:887-890 | a cached entry was made for this very message and signed by the relay's key |
| `VariantCache.LookupKeeps` | crates/pubsub/src/compat.rs:880-912 | a lookup keeps the account exact and bounded, returns a faithful variant signed by the relay where converted, caches it whenever it fits, and changes nothing on a hit |
| `VariantCache.SecondLookupHits` | crates/pubsub/src/compat.rs:887-912 | looking the same frame up again yields the same bytes without a second signature, whenever they fit the cache |
| `LegacyMigrationObject.LegacyMigration.Variant` | crates/pubsub/src/compat.rs:880-912 | the bytes are the message under the version asked for, signed by the relay where converted, and the byte count stays the summed length within 4 MiB |
| `RateLimiter.Limiter.constructor` | crates/presence/src/rate_limiter.rs:79-84 | a new limiter tracks nobody |
| `RateLimiter.Limiter.CheckRateLimit` | crates/presence/src/rate_limiter.rs:45-98 | allowed exactly when a whole token is there, which is spent; other peers are untouched |
| `RateLimiter.Limiter.CleanupStale` | crates/presence/src/rate_limiter.rs:103-112 | exactly the stale buckets go, and their number is returned |
| `RateLimiter.LevelGrows` | crates/presence/src/rate_limiter.rs:45-54 | a level stays within 0 and the capacity and grows by at most rate times time |
| `RateLimiter.CleanedBucketWasFull` | crates/presence/src/rate_limiter.rs:103-112 | a bucket dropped after an age that covers a full refill was full |
| `RateLimiter.WindowBound` | crates/presence/src/rate_limiter.rs:45-112 | in every run whose cleanups wait for a full refill, every window from t to u admits at most maxTokens + refillRate · (u − t) messages of a peer |
| `RateLimiter.HastyCleanupExceedsBound` | crates/presence/src/rate_limiter.rs:103-112 | for every shorter cleanup age there is a run that admits more than that |
| `RateLimiter.CleanupIsInvisible` | crates/presence/src/rate_limiter.rs:103-112 | when every cleanup age covers a full refill, no answer differs from the run without cleanups |
| `RateLimiter.ShippedCleanupIsInvisible` | crates/presence/src/lib.rs:562-570 | so for the 300 s call with the default rates |
| `RateLimiter.TellApart` | crates/presence/src/rate_limiter.rs:59-68 | two limiters at which a peer has different levels answer some sequence of checks differently |
| `RateLimiter.HastyCleanupShows` | crates/presence/src/rate_limiter.rs:103-112 | for every shorter age there is a run in which a cleanup changes an answer |
| `RateLimiter.NothingAdmitted` | crates/presence/src/rate_limiter.rs:59-68 | with a capacity below one token nothing is ever admitted, and no cleanup shows |
| `QueryDedup.Handler.constructor` | crates/coordinator/src/handler.rs:25-33 | a new handler has seen nothing |
| `QueryDedup.Handler.NoteQuery` | crates/coordinator/src/handler.rs:123-130 | the noting event of the machine: a new id is noted whatever follows, a known one ends the call |
| `QueryDedup.Handler.HandleFindQuery` | crates/coordinator/src/handler.rs:118-139 | a whole call is a noting and a checking event of the machine: it answers exactly when the check replies, and continues with one hop less |
| `QueryDedup.Handler.CollectOld` | crates/coordinator/src/handler.rs:184-189 | collects exactly the ids older than 30 s |
| `QueryDedup.Handler.Prune` | crates/coordinator/src/handler.rs:180-194 | the pruning event of the machine: exactly the ids older than 30 s go |
| `QueryDedup.SettledStep` | crates/coordinator/src/handler.rs:118-194 | once expired, or noted with a stamp that cannot be pruned before expiry, no copy of a query can be noted as new and still be fresh |
| `QueryDedup.AnsweredAtMostOnce` | crates/coordinator/src/handler.rs:118-194 | in every run, other calls and prunings falling anywhere between noting an id and its expiry check, a query whose creation millisecond is below that of the instant after its first receipt is answered at most once, and never if that first copy is expired or has no hop left |
| `QueryDedup.HistoryIsRun` | crates/coordinator/src/handler.rs:118-194 | every sequence of whole calls of the handler is a run of the machine with the same answers and the same first copy |
| `QueryDedup.CallsAnswerAtMostOnce` | crates/coordinator/src/handler.rs:118-194 | any sequence of finds and prunings on a new handler answers such a query at most once, and never if its first copy is expired when noted or has no hop left |
| `QueryDedup.FirstCallDecides` | crates/coordinator/src/handler.rs:118-139 | the first call for a query answers exactly when the query has a hop left and has not expired when its age is looked at |
| `QueryDedup.FirstCopyIsAnswered` | crates/coordinator/src/handler.rs:118-139 | and exactly once if that first copy has a hop left and is checked, fresh, before another event |
| `QueryDedup.AnsweredTwice` | crates/coordinator/src/foaf.rs:55-59 | for every later creation time there is a run that answers it twice |
| `QueryDedup.TruncationShows` | crates/types/src/lib.rs:518-523 | a query created 0.2 ms before its first receipt is answered twice, because expiry is read in whole milliseconds |

## Left out

- Cryptography and serialisation: function parameters; the inner envelope parser and the control-work estimate of `compat.rs` are parameters too.
- `canonical_retained_wire`: a set decoded from it has version 0 with a non-empty state, outside the histories modelled here.
- `VectorClock` and `LwwRegister`: the register is not convergent for three replicas, and the pairwise facts would only add easy members.
- `update_peer_version` with a version that was not delivered: the caller's contract is to call it after a successful send, and the table is modelled under that contract.
- 64-bit wrap-around of versions, sequences and revisions: natural numbers without bound.
- `peer_addrs` and `seen_peers` locks: only ever held alone; they cannot take part in a deadlock.
- Elapsed time in the node machine: which probes have timed out and which suspects are overdue is a free choice there; `FailureDetector` has the timing, with each scan as one instant.
- `ln` in the adaptive degree: an arbitrary target before clamping.
- `Drain`: a handler runs to completion at its delivery; the interleavings inside one node are those of `Node`.
- `Drain.NetworkDrains`: bounds runs of deliveries only; timers, shuffles and probes that start new messages are outside, as in "no timers firing".
- `key_cache` paths of the migration policy and their v3 frames: they depend on code outside this model.
- Migration statistics and the cache-serve byte rate: plain counters.
- MigrationRuns.LegacyFramesAreLicensed: speaks of frames whose topic was registered when `send` or `ingress` looked it up; for others there is nothing to promise, as `RegistrationOvertakes` shows.
- `SignedKvTopic` rosters: verification under a topic and revision is a parameter.
- `RateLimiter`: exact reals in place of 64-bit floats.
- Adverts and their ranking in coordinator answers, and the advert cache.
- Presence beyond the limiter, pub-sub trees, groups, identity, transport, binaries and scripts.
