/** Values of the tagged, tombstoned OR-Set of crates/crdt-sync, seen as sets of
    (element, tag) pairs, and the changelog arithmetic that deltas rest on. */
module OrSetSpec {
  import opened Common

  // Elements are opaque to the set; the source asks only for equality.
  type Element(==, !new)
  type Peer = nat
  datatype Tag = Tag(peer: Peer, num: nat)
  datatype Pair = Pair(elem: Element, tag: Tag)

  /** The merge-relevant part of a set (live and tombstoned pairs), and also the shape
      of a delta (added and removed pairs). */
  datatype Core = Core(live: set<Pair>, dead: set<Pair>) {
    function Known(): set<Pair> { live + dead }
    predicate Disjoint() { live !! dead }
  }

  const BOTTOM := Core({}, {})

  function Join(s: Core, d: Core): Core {
    Core((s.live + d.live) - (s.dead + d.dead), s.dead + d.dead)
  }

  /** `b` has absorbed everything `a` knows. */
  predicate Leq(a: Core, b: Core) {
    a.Known() <= b.Known() && a.dead <= b.dead
  }

  /** Join is the least upper bound of two states, so the order, the grouping and the
      repetition of merges do not matter. */
  lemma JoinIsLeastUpperBound(a: Core, b: Core, c: Core)
    requires a.Disjoint() && b.Disjoint() && c.Disjoint()
    ensures Join(a, b).Disjoint() && Leq(a, Join(a, b)) && Leq(b, Join(a, b))
    ensures Leq(a, c) && Leq(b, c) ==> Leq(Join(a, b), c)
    ensures Leq(a, b) && Leq(b, a) ==> a == b
    ensures Join(a, b) == Join(b, a)
    ensures Join(Join(a, b), c) == Join(a, Join(b, c))
    ensures Join(a, a) == a && Join(Join(a, b), b) == Join(a, b)
  {
    if Leq(a, b) && Leq(b, a) {
      assert a.live == a.Known() - a.dead && b.live == b.Known() - b.dead;
    }
  }

  lemma JoinKnown(s: Core, d: Core)
    ensures Join(s, d).Known() == s.Known() + d.Known()
    ensures Join(s, d).Disjoint()
  {
  }

  /** Two disjoint states with the same known and the same dead pairs are equal. */
  lemma CoreExtensional(a: Core, b: Core)
    requires a.Disjoint() && b.Disjoint() && a.Known() == b.Known() && a.dead == b.dead
    ensures a == b
  {
    assert a.live == a.Known() - a.dead;
    assert b.live == b.Known() - b.dead;
  }

  // ---- The set with its version, changelog and compaction floor ----

  datatype OrVal = OrVal(core: Core, version: nat, floor: nat, changelog: map<nat, Core>)

  const NEW := OrVal(BOTTOM, 0, 0, map[])

  function Record(s: OrVal, core: Core, entry: Core): OrVal {
    OrVal(core, s.version + 1, s.floor, s.changelog[s.version + 1 := entry])
  }

  function Add(s: OrVal, p: Pair): OrVal {
    Record(s, Core(s.core.live + {p}, s.core.dead - {p}), Core({p}, {}))
  }

  function TagsOf(s: set<Pair>, e: Element): set<Pair> {
    set p | p in s && p.elem == e
  }

  function Remove(s: OrVal, e: Element): OrVal {
    var gone := TagsOf(s.core.live, e);
    if gone == {} then s
    else Record(s, Core(s.core.live - gone, s.core.dead + gone), Core({}, gone))
  }

  /** What a merge of `d` logs: only the pairs that were news to this replica. */
  function News(s: Core, d: Core): Core {
    Core(d.live - s.dead - s.live, d.dead - s.dead)
  }

  function Apply(s: OrVal, d: Core): OrVal {
    var news := News(s.core, d);
    if news == BOTTOM then s else Record(s, Join(s.core, d), news)
  }

  function Compact(s: OrVal, keep: nat): OrVal {
    if s.version > keep then
      var min := s.version - keep;
      s.(changelog := map v | v in s.changelog && v > min :: s.changelog[v],
         floor := if s.floor < min then min else s.floor)
    else s
  }

  /** Union of the entries of versions (lo, hi]; None when one of them is gone. */
  function Collect(log: map<nat, Core>, lo: nat, hi: nat): Option<Core>
    requires lo <= hi
    decreases hi - lo
  {
    if lo == hi then Some(BOTTOM)
    else if hi !in log then None
    else match Collect(log, lo, hi - 1)
      case None => None
      case Some(d) => Some(Core(d.live + log[hi].live, d.dead + log[hi].dead))
  }

  function Delta(s: OrVal, since: nat): Option<Core> {
    if since >= s.version || since < s.floor then None
    else Collect(s.changelog, since, s.version)
  }

  // ---- Histories ----

  /** `h[v]` is the state the set had at version `v`, starting from the empty set; the
      changelog holds exactly the versions above the floor, and each entry leads from one
      state to the next. */
  ghost predicate Chronicle(s: OrVal, h: seq<Core>) {
    && |h| == s.version + 1 && h[0] == BOTTOM && h[s.version] == s.core
    && s.floor <= s.version
    && (forall v :: 0 <= v <= s.version ==> h[v].Disjoint())
    && (forall v :: v in s.changelog <==> s.floor < v <= s.version)
    && (forall v :: s.floor < v <= s.version ==> h[v] == Join(h[v - 1], s.changelog[v]))
  }

  function Extend(h: seq<Core>, s: OrVal, s': OrVal): seq<Core> {
    if s'.version == s.version then h else h + [s'.core]
  }

  lemma RecordKeepsChronicle(s: OrVal, h: seq<Core>, core: Core, entry: Core)
    requires Chronicle(s, h) && core == Join(s.core, entry)
    ensures Chronicle(Record(s, core, entry), h + [core])
  {
    var s', h' := Record(s, core, entry), h + [core];
    forall v | s'.floor < v <= s'.version
      ensures h'[v] == Join(h'[v - 1], s'.changelog[v])
    {
      if v <= s.version { assert h'[v] == h[v] && h'[v - 1] == h[v - 1]; }
    }
  }

  /** An add is an inflation that its own changelog entry describes if and only if the
      tag is not tombstoned: re-adding a tombstoned tag drops the tombstone. */
  lemma AddIsExactIff(s: OrVal, p: Pair)
    requires s.core.Disjoint()
    ensures Add(s, p).core == Join(s.core, Core({p}, {})) <==> p !in s.core.dead
    ensures Leq(s.core, Add(s, p).core) <==> p !in s.core.dead
  {
    if p !in s.core.dead {
      assert s.core.dead - {p} == s.core.dead;
      assert s.core.live + {p} == (s.core.live + {p}) - s.core.dead;
    } else {
      assert p !in Add(s, p).core.dead;
    }
  }

  lemma AddKeepsChronicle(s: OrVal, h: seq<Core>, p: Pair)
    requires Chronicle(s, h) && p !in s.core.dead
    ensures Chronicle(Add(s, p), Extend(h, s, Add(s, p)))
  {
    AddIsExactIff(s, p);
    RecordKeepsChronicle(s, h, Add(s, p).core, Core({p}, {}));
  }

  lemma RemoveKeepsChronicle(s: OrVal, h: seq<Core>, e: Element)
    requires Chronicle(s, h)
    ensures Chronicle(Remove(s, e), Extend(h, s, Remove(s, e)))
    ensures Remove(s, e).core == Join(s.core, Core({}, TagsOf(s.core.live, e)))
    ensures TagsOf(Remove(s, e).core.live, e) == {}
  {
    var gone := TagsOf(s.core.live, e);
    assert h[s.version].Disjoint();
    assert s.core.live - gone == s.core.live - (s.core.dead + gone);
    if gone == {} {
      assert s.core == Join(s.core, Core({}, gone));
    } else {
      RecordKeepsChronicle(s, h, Remove(s, e).core, Core({}, gone));
    }
  }

  /** A merge lands on the join, whether or not it logs anything. */
  lemma ApplyIsJoin(s: OrVal, d: Core)
    requires s.core.Disjoint()
    ensures Apply(s, d).core == Join(s.core, d) == Join(s.core, News(s.core, d))
  {
    var n := News(s.core, d);
    assert s.core.dead + d.dead == s.core.dead + n.dead;
    assert (s.core.live + d.live) - (s.core.dead + d.dead) == (s.core.live + n.live) - (s.core.dead + n.dead);
    if n == BOTTOM { assert Join(s.core, n) == s.core; }
  }

  lemma ApplyKeepsChronicle(s: OrVal, h: seq<Core>, d: Core)
    requires Chronicle(s, h)
    ensures Chronicle(Apply(s, d), Extend(h, s, Apply(s, d)))
    ensures Apply(s, d).core == Join(s.core, d)
  {
    assert h[s.version].Disjoint();
    ApplyIsJoin(s, d);
    if News(s.core, d) != BOTTOM {
      RecordKeepsChronicle(s, h, Join(s.core, d), News(s.core, d));
    }
  }

  // ---- Deltas ----

  lemma {:induction false} CollectReaches(s: OrVal, h: seq<Core>, lo: nat, hi: nat)
    requires Chronicle(s, h) && s.floor <= lo <= hi <= s.version
    ensures Collect(s.changelog, lo, hi).Some?
    ensures var d := Collect(s.changelog, lo, hi).value;
            h[hi].dead == h[lo].dead + d.dead && h[hi].Known() == h[lo].Known() + d.Known()
    decreases hi - lo
  {
    if lo < hi {
      CollectReaches(s, h, lo, hi - 1);
      JoinKnown(h[hi - 1], s.changelog[hi]);
    }
  }

  /** `full` is `base` with everything in `delta`. */
  predicate Spans(base: Core, delta: Core, full: Core) {
    full.dead == base.dead + delta.dead && full.Known() == base.Known() + delta.Known()
  }

  /** Whatever of the delta's base is not at `x` is in the delta itself. */
  predicate Covers(x: Core, delta: Core, base: Core) {
    base.Known() <= x.Known() + delta.Known() && base.dead <= x.dead + delta.dead
  }

  /** Merging a delta into any state at all: it stands in for the whole state it leads to if
      and only if the state and the delta together cover the delta's base. */
  lemma DeltaCompletesIff(x: Core, base: Core, delta: Core, full: Core)
    requires x.Disjoint() && full.Disjoint() && Spans(base, delta, full)
    ensures Join(x, delta) == Join(x, full) <==> Covers(x, delta, base)
    ensures Leq(base, x) ==> Covers(x, delta, base)
  {
    JoinKnown(x, delta);
    JoinKnown(x, full);
    if Covers(x, delta, base) {
      assert x.dead + delta.dead == x.dead + full.dead;
      assert x.Known() + delta.Known() == x.Known() + full.Known();
      CoreExtensional(Join(x, delta), Join(x, full));
    }
  }

  /** A delta exists exactly for the retained versions, and for any state that dominates
      the set's state at that version it stands in for the whole current state. */
  lemma DeltaIsExact(s: OrVal, h: seq<Core>, since: nat)
    requires Chronicle(s, h)
    ensures Delta(s, since).Some? <==> s.floor <= since < s.version
    ensures Delta(s, since).Some? ==> Spans(h[since], Delta(s, since).value, s.core)
    ensures Delta(s, since).Some? ==>
              forall x: Core :: x.Disjoint() && Leq(h[since], x) ==>
                Join(x, Delta(s, since).value) == Join(x, s.core)
  {
    if s.floor <= since < s.version {
      CollectReaches(s, h, since, s.version);
      var d := Delta(s, since).value;
      forall x: Core | x.Disjoint() && Leq(h[since], x)
        ensures Join(x, d) == Join(x, s.core)
      {
        DeltaCompletesIff(x, h[since], d, s.core);
      }
    }
  }

  lemma {:induction false} CollectFrame(log: map<nat, Core>, log': map<nat, Core>, lo: nat, hi: nat)
    requires lo <= hi
    requires forall v :: lo < v <= hi ==> (v in log <==> v in log') && (v in log ==> log[v] == log'[v])
    ensures Collect(log, lo, hi) == Collect(log', lo, hi)
    decreases hi - lo
  {
    if lo < hi { CollectFrame(log, log', lo, hi - 1); }
  }

  /** Compaction never touches the state and keeps the last `keep` versions: at or above the
      new floor every delta is unchanged, and below it there is none. */
  lemma CompactIsInvisibleAboveFloor(s: OrVal, h: seq<Core>, keep: nat, since: nat)
    requires Chronicle(s, h)
    ensures Chronicle(Compact(s, keep), h)
    ensures Compact(s, keep).core == s.core && Compact(s, keep).version == s.version
    ensures s.version <= keep ==> Compact(s, keep).floor == s.floor
    ensures s.version > keep ==>
              Compact(s, keep).floor == if s.floor < s.version - keep then s.version - keep else s.floor
    ensures s.floor <= since && s.version <= since + keep ==> Delta(Compact(s, keep), since) == Delta(s, since)
    ensures Delta(Compact(s, keep), since) == if since >= Compact(s, keep).floor then Delta(s, since) else None
  {
    var s' := Compact(s, keep);
    if s'.floor <= since < s.version {
      CollectFrame(s.changelog, s'.changelog, since, s.version);
    }
  }

  // ---- Tag allocation ----

  ghost function SeqsOf(s: set<Pair>, peer: Peer): (r: set<nat>)
    ensures forall n :: n in r <==> exists p :: p in s && p.tag == Tag(peer, n)
  {
    var r := set p | p in s && p.tag.peer == peer :: p.tag.num;
    assert forall p :: p in s && p.tag.peer == peer ==> p.tag == Tag(peer, p.tag.num);
    r
  }

  ghost predicate IsMaxRetained(s: Core, peer: Peer, m: Option<nat>) {
    match m
    case None => SeqsOf(s.Known(), peer) == {}
    case Some(n) => n in SeqsOf(s.Known(), peer) && forall k :: k in SeqsOf(s.Known(), peer) ==> k <= n
  }
}
