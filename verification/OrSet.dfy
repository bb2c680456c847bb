/** The OR-Set object of crates/crdt-sync/src/lib.rs: maps from element to tag set that
    its methods update in place, proved against the pair-level values of OrSetSpec. */
module OrSet {
  import opened Common
  import opened Spec = OrSetSpec

  type TagMap = map<Element, set<Tag>>
  datatype Entry = Entry(added: TagMap, removed: TagMap)

  function Get(m: TagMap, e: Element): set<Tag> {
    if e in m then m[e] else {}
  }

  function Pairs(m: TagMap): (r: set<Pair>)
    ensures forall p :: p in r <==> p.tag in Get(m, p.elem)
  {
    var r := set e, t | e in m && t in m[e] :: Pair(e, t);
    assert forall p :: p in r <==> p.tag in Get(m, p.elem) by {
      forall p ensures p in r <==> p.tag in Get(m, p.elem) {
        assert p == Pair(p.elem, p.tag);
      }
    }
    r
  }

  function AsPairs(e: Element, ts: set<Tag>): (r: set<Pair>)
    ensures forall p :: p in r <==> p.elem == e && p.tag in ts
  {
    var r := set t | t in ts :: Pair(e, t);
    assert forall p: Pair :: p.elem == e && p.tag in ts ==> p == Pair(e, p.tag);
    r
  }

  /** Replace the tags of one element; an element without tags has no entry. */
  function Put(m: TagMap, e: Element, ts: set<Tag>): (r: TagMap)
    ensures Pairs(r) == (Pairs(m) - TagsOf(Pairs(m), e)) + AsPairs(e, ts)
    ensures NoEmpty(m) ==> NoEmpty(r)
  {
    var r := if ts == {} then m - {e} else m[e := ts];
    assert forall x :: Get(r, x) == if x == e then ts else Get(m, x);
    r
  }

  predicate NoEmpty(m: TagMap) {
    forall e :: e in m ==> m[e] != {}
  }

  lemma GetIsTags(m: TagMap, e: Element)
    ensures AsPairs(e, Get(m, e)) == TagsOf(Pairs(m), e)
  {
  }

  lemma NoPairs(m: TagMap)
    requires NoEmpty(m)
    ensures m == map[] <==> Pairs(m) == {}
  {
    if m != map[] {
      var e :| e in m;
      var t :| t in m[e];
      assert Pair(e, t) in Pairs(m);
    }
  }

  /** The pairs whose element has been processed already. */
  ghost function Done(s: set<Pair>, todo: set<Element>): set<Pair> {
    set p | p in s && p.elem !in todo
  }

  function EntryCore(e: Entry): Core {
    Core(Pairs(e.added), Pairs(e.removed))
  }

  function LogCore(log: map<nat, Entry>): map<nat, Core> {
    map v | v in log :: EntryCore(log[v])
  }

  lemma LogCoreUpdate(log: map<nat, Entry>, v: nat, e: Entry)
    ensures LogCore(log[v := e]) == LogCore(log)[v := EntryCore(e)]
  {
  }

  /** One round of the first merge loop, on values. */
  lemma AdoptAddedStep(elements: TagMap, tombstones: TagMap, incoming: TagMap, added: TagMap,
                       e: Element, todo: set<Element>, live: set<Pair>)
    requires e in incoming && e in todo
    requires Pairs(elements) == live + (Done(Pairs(incoming), todo) - Pairs(tombstones))
    requires Pairs(added) == Done(Pairs(incoming), todo) - Pairs(tombstones) - live
    ensures var tags := incoming[e] - Get(tombstones, e);
            var todo' := todo - {e};
            && Pairs(Put(elements, e, Get(elements, e) + tags))
               == live + (Done(Pairs(incoming), todo') - Pairs(tombstones))
            && Pairs(Put(added, e, tags - Get(elements, e)))
               == Done(Pairs(incoming), todo') - Pairs(tombstones) - live
  {
    var all, dead := Pairs(incoming), Pairs(tombstones);
    var tags := incoming[e] - Get(tombstones, e);
    GetIsTags(incoming, e);
    GetIsTags(tombstones, e);
    assert AsPairs(e, tags) == TagsOf(all, e) - dead;
    DoneStep(all, e, todo);
    AdoptTags(live, Done(all, todo), TagsOf(all, e), dead, e);
    assert AsPairs(e, Get(elements, e) + tags) == TagsOf(live, e) + (TagsOf(all, e) - dead) by {
      GetIsTags(elements, e);
    }
    assert AsPairs(e, tags - Get(elements, e)) == TagsOf(all, e) - dead - live by {
      GetIsTags(elements, e);
    }
  }

  lemma AdoptTags(live: set<Pair>, done: set<Pair>, now: set<Pair>, dead: set<Pair>, e: Element)
    requires forall p :: p in done ==> p.elem != e
    requires forall p :: p in now ==> p.elem == e
    ensures var have := live + (done - dead);
            (have - TagsOf(have, e)) + (TagsOf(live, e) + (now - dead)) == live + ((done + now) - dead)
    ensures var have := done - dead - live;
            (have - TagsOf(have, e)) + (now - dead - live) == (done + now) - dead - live
    ensures TagsOf(live + (done - dead), e) == TagsOf(live, e)
  {
  }

  lemma DoneStep(all: set<Pair>, e: Element, todo: set<Element>)
    requires e in todo
    ensures Done(all, todo - {e}) == Done(all, todo) + TagsOf(all, e)
    ensures forall p :: p in Done(all, todo) ==> p.elem != e
  {
  }

  /** One round of the second merge loop, on values. */
  lemma AdoptRemovedStep(elements: TagMap, tombstones: TagMap, incoming: TagMap, removed: TagMap,
                         e: Element, todo: set<Element>, live: set<Pair>, dead: set<Pair>)
    requires e in incoming && e in todo && live !! dead
    requires Pairs(tombstones) == dead + Done(Pairs(incoming), todo)
    requires Pairs(elements) == live - Done(Pairs(incoming), todo)
    requires Pairs(removed) == Done(Pairs(incoming), todo) - dead
    ensures var todo' := todo - {e};
            var tombstones' := tombstones[e := Get(tombstones, e) + incoming[e]];
            && Pairs(tombstones') == dead + Done(Pairs(incoming), todo')
            && Pairs(Put(elements, e, Get(elements, e) - tombstones'[e])) == live - Done(Pairs(incoming), todo')
            && Pairs(Put(removed, e, incoming[e] - Get(tombstones, e))) == Done(Pairs(incoming), todo') - dead
  {
    var all := Pairs(incoming);
    var tombstones' := tombstones[e := Get(tombstones, e) + incoming[e]];
    GetIsTags(incoming, e);
    DoneStep(all, e, todo);
    assert Pairs(tombstones') == Pairs(tombstones) + TagsOf(all, e);
    assert AsPairs(e, Get(elements, e) - tombstones'[e]) == TagsOf(live, e) - TagsOf(all, e) by {
      GetIsTags(elements, e);
    }
    assert AsPairs(e, incoming[e] - Get(tombstones, e)) == TagsOf(all, e) - dead by {
      GetIsTags(tombstones, e);
    }
    ReplaceTags(live, Done(all, todo), TagsOf(all, e), dead, e);
  }

  lemma ReplaceTags(live: set<Pair>, done: set<Pair>, now: set<Pair>, dead: set<Pair>, e: Element)
    requires forall p :: p in done ==> p.elem != e
    requires forall p :: p in now ==> p.elem == e
    ensures ((live - done) - TagsOf(live - done, e)) + (TagsOf(live, e) - now) == live - (done + now)
    ensures ((done - dead) - TagsOf(done - dead, e)) + (now - dead) == (done + now) - dead
  {
  }

  function WithTag(m: TagMap, e: Element, t: Tag): (r: TagMap)
    ensures Pairs(r) == Pairs(m) + {Pair(e, t)}
    ensures NoEmpty(m) ==> NoEmpty(r)
  {
    GetIsTags(m, e);
    assert AsPairs(e, Get(m, e) + {t}) == TagsOf(Pairs(m), e) + {Pair(e, t)};
    Put(m, e, Get(m, e) + {t})
  }

  function WithoutTag(m: TagMap, e: Element, t: Tag): (r: TagMap)
    ensures Pairs(r) == Pairs(m) - {Pair(e, t)}
  {
    GetIsTags(m, e);
    assert AsPairs(e, Get(m, e) - {t}) == TagsOf(Pairs(m), e) - {Pair(e, t)};
    if e in m then Put(m, e, m[e] - {t}) else m
  }

  lemma MovePairs(elements: TagMap, tombstones: TagMap, e: Element)
    requires e in elements && elements[e] != {}
    ensures var gone := TagsOf(Pairs(elements), e);
            && gone != {}
            && Pairs(Put(elements, e, {})) == Pairs(elements) - gone
            && Pairs(Put(tombstones, e, Get(tombstones, e) + elements[e])) == Pairs(tombstones) + gone
            && Pairs(map[e := elements[e]]) == gone
  {
    var gone := TagsOf(Pairs(elements), e);
    GetIsTags(elements, e);
    GetIsTags(tombstones, e);
    var t :| t in elements[e];
    assert Pair(e, t) in gone;
    assert AsPairs(e, Get(tombstones, e) + elements[e]) == TagsOf(Pairs(tombstones), e) + gone;
  }

  /** What the two merge loops leave behind is the join, and what they logged is news. */
  lemma MergeParts(s: Core, d: Core, added: TagMap, removed: TagMap)
    requires s.Disjoint() && NoEmpty(added) && NoEmpty(removed)
    requires Pairs(added) == d.live - s.dead - s.live && Pairs(removed) == d.dead - s.dead
    ensures Core((s.live + (d.live - s.dead)) - d.dead, s.dead + d.dead) == Join(s, d)
    ensures EntryCore(Entry(added, removed)) == News(s, d)
    ensures added == map[] && removed == map[] <==> News(s, d) == BOTTOM
    ensures News(s, d) == BOTTOM ==> Join(s, d) == s
  {
    NoPairs(added);
    NoPairs(removed);
    ApplyIsJoin(OrVal(s, 0, 0, map[]), d);
  }

  class OrSet {
    var elements: TagMap
    var tombstones: TagMap
    var version: nat
    var changelogFloor: nat
    var changelog: map<nat, Entry>

    function State(): OrVal
      reads this
    {
      OrVal(Core(Pairs(elements), Pairs(tombstones)), version, changelogFloor,
            LogCore(changelog))
    }

    /** A live element keeps at least one tag, no pair is both live and tombstoned, and
        the next changelog slot is free. */
    ghost predicate Valid()
      reads this
    {
      && NoEmpty(elements)
      && Pairs(elements) !! Pairs(tombstones)
      && (forall v :: v in changelog ==> v <= version)
    }

    constructor ()
      ensures Valid() && State() == NEW
    {
      elements, tombstones, version, changelogFloor, changelog := map[], map[], 0, 0, map[];
      new;
      assert Pairs(elements) == {};
      assert State().changelog == map[];
    }

    method Add(element: Element, tag: Tag)
      requires Valid()
      modifies this
      ensures Valid() && State() == Spec.Add(old(State()), Pair(element, tag))
    {
      elements := WithTag(elements, element, tag);
      tombstones := WithoutTag(tombstones, element, tag);
      assert Pairs(map[element := {tag}]) == {Pair(element, tag)} && Pairs(map[]) == {};
      Log(map[element := {tag}], map[]);
    }

    method Remove(element: Element)
      requires Valid()
      modifies this
      ensures Valid() && State() == Spec.Remove(old(State()), element)
    {
      if element in elements {
        var tags := elements[element];
        MovePairs(elements, tombstones, element);
        tombstones := Put(tombstones, element, Get(tombstones, element) + tags);
        elements := Put(elements, element, {});
        assert Pairs(map[]) == {};
        Log(map[], map[element := tags]);
      } else {
        GetIsTags(elements, element);
      }
    }

    /** Open the next version with one changelog entry. */
    method Log(added: TagMap, removed: TagMap)
      requires forall v :: v in changelog ==> v <= version
      modifies this`version, this`changelog
      ensures forall v :: v in changelog ==> v <= version
      ensures version == old(version) + 1
      ensures LogCore(changelog) == old(LogCore(changelog))[version := EntryCore(Entry(added, removed))]
    {
      LogCoreUpdate(changelog, version + 1, Entry(added, removed));
      version := version + 1;
      changelog := changelog[version := Entry(added, removed)];
    }

    method Contains(element: Element) returns (r: bool)
      requires Valid()
      ensures r <==> exists t :: Pair(element, t) in State().core.live
    {
      r := element in elements;
      if r {
        var t :| t in elements[element];
        assert Pair(element, t) in State().core.live;
      }
    }

    /** The first loop of a merge: adopt the incoming tags that are not tombstoned. */
    method AdoptAdded(incoming: TagMap) returns (added: TagMap)
      requires Valid()
      modifies this`elements
      ensures Valid() && NoEmpty(added)
      ensures Pairs(elements) == old(Pairs(elements)) + (Pairs(incoming) - Pairs(tombstones))
      ensures Pairs(added) == Pairs(incoming) - Pairs(tombstones) - old(Pairs(elements))
    {
      added := map[];
      var todo := incoming.Keys;
      ghost var all, dead, live := Pairs(incoming), Pairs(tombstones), Pairs(elements);
      while todo != {}
        invariant todo <= incoming.Keys && Valid() && NoEmpty(added)
        invariant Pairs(elements) == live + (Done(all, todo) - dead)
        invariant Pairs(added) == Done(all, todo) - dead - live
        decreases todo
      {
        var e :| e in todo;
        AdoptAddedStep(elements, tombstones, incoming, added, e, todo, live);
        todo := todo - {e};
        var tags := incoming[e] - Get(tombstones, e);
        if tags != {} {
          added := Put(added, e, tags - Get(elements, e));
          elements := Put(elements, e, Get(elements, e) + tags);
        }
      }
      assert Done(all, todo) == all;
    }

    /** The second loop of a merge: absorb the incoming tombstones and drop the live
        tags they cover. */
    method AdoptRemoved(incoming: TagMap) returns (removed: TagMap)
      requires Valid()
      modifies this`elements, this`tombstones
      ensures Valid() && NoEmpty(removed)
      ensures Pairs(tombstones) == old(Pairs(tombstones)) + Pairs(incoming)
      ensures Pairs(elements) == old(Pairs(elements)) - Pairs(incoming)
      ensures Pairs(removed) == Pairs(incoming) - old(Pairs(tombstones))
    {
      removed := map[];
      var todo := incoming.Keys;
      ghost var all, dead, live := Pairs(incoming), Pairs(tombstones), Pairs(elements);
      while todo != {}
        invariant todo <= incoming.Keys && Valid() && NoEmpty(removed)
        invariant Pairs(tombstones) == dead + Done(all, todo)
        invariant Pairs(elements) == live - Done(all, todo)
        invariant Pairs(removed) == Done(all, todo) - dead
        decreases todo
      {
        var e :| e in todo;
        AdoptRemovedStep(elements, tombstones, incoming, removed, e, todo, live, dead);
        todo := todo - {e};
        removed := Put(removed, e, incoming[e] - Get(tombstones, e));
        tombstones := tombstones[e := Get(tombstones, e) + incoming[e]];
        if e in elements {
          elements := Put(elements, e, elements[e] - tombstones[e]);
        }
      }
      assert Done(all, todo) == all;
    }

    method ApplyDeltaParts(incomingAdded: TagMap, incomingRemoved: TagMap)
      requires Valid()
      modifies this
      ensures Valid()
      ensures State() == Apply(old(State()), Core(Pairs(incomingAdded), Pairs(incomingRemoved)))
    {
      ghost var before := State();
      ghost var d := Core(Pairs(incomingAdded), Pairs(incomingRemoved));
      var added := AdoptAdded(incomingAdded);
      var removed := AdoptRemoved(incomingRemoved);
      MergeParts(before.core, d, added, removed);
      if added != map[] || removed != map[] {
        Log(added, removed);
      }
    }

    method MergeState(other: OrSet)
      requires Valid()
      modifies this
      ensures Valid() && State() == Apply(old(State()), old(other.State().core))
    {
      ApplyDeltaParts(other.elements, other.tombstones);
    }

    method Compact(keepVersions: nat)
      requires Valid()
      modifies this`changelog, this`changelogFloor
      ensures Valid() && State() == Spec.Compact(old(State()), keepVersions)
    {
      ghost var before := State();
      if version > keepVersions {
        var minVersion := version - keepVersions;
        changelog := map v | v in changelog && v > minVersion :: changelog[v];
        changelogFloor := if changelogFloor < minVersion then minVersion else changelogFloor;
        assert State().changelog == map v | v in before.changelog && v > minVersion :: before.changelog[v];
      }
    }

    method DeltaSince(since: nat) returns (delta: Option<Entry>)
      requires Valid()
      ensures delta.None? <==> Delta(State(), since).None?
      ensures delta.Some? ==> Delta(State(), since) == Some(EntryCore(delta.value))
    {
      if since >= version || since < changelogFloor {
        return None;
      }
      var added: TagMap, removed: TagMap := map[], map[];
      assert EntryCore(Entry(added, removed)) == BOTTOM;
      ghost var log := State().changelog;
      var v := since;
      while v < version
        invariant since <= v <= version
        invariant Collect(log, since, v) == Some(EntryCore(Entry(added, removed)))
      {
        v := v + 1;
        if v !in changelog {
          CollectGap(log, since, v, version);
          return None;
        }
        var entry := changelog[v];
        ghost var before := EntryCore(Entry(added, removed));
        added := UnionMaps(added, entry.added);
        removed := UnionMaps(removed, entry.removed);
        assert EntryCore(Entry(added, removed)) ==
               Core(before.live + log[v].live, before.dead + log[v].dead);
      }
      return Some(Entry(added, removed));
    }

    method MaxRetainedSequenceForPeer(peer: Peer) returns (m: Option<nat>)
      requires Valid()
      ensures IsMaxRetained(State().core, peer, m)
    {
      var live := MaxIn(elements, peer);
      var dead := MaxIn(tombstones, peer);
      m := if live.None? || (dead.Some? && dead.value > live.value) then dead else live;
      ghost var all := State().core.Known();
      assert SeqsOf(all, peer) == SeqsOf(Pairs(elements), peer) + SeqsOf(Pairs(tombstones), peer);
    }
  }

  lemma {:induction false} CollectGap(log: map<nat, Core>, lo: nat, gap: nat, hi: nat)
    requires lo < gap <= hi && gap !in log
    ensures Collect(log, lo, hi).None?
    decreases hi
  {
    if gap < hi { CollectGap(log, lo, gap, hi - 1); }
  }

  function UnionMaps(a: TagMap, b: TagMap): (r: TagMap)
    ensures Pairs(r) == Pairs(a) + Pairs(b)
  {
    map e | e in a.Keys + b.Keys :: Get(a, e) + Get(b, e)
  }

  method MaxIn(m: TagMap, peer: Peer) returns (r: Option<nat>)
    ensures r.None? ==> SeqsOf(Pairs(m), peer) == {}
    ensures r.Some? ==> r.value in SeqsOf(Pairs(m), peer) && forall k :: k in SeqsOf(Pairs(m), peer) ==> k <= r.value
  {
    r := None;
    var todo := set p | p in Pairs(m) && p.tag.peer == peer;
    while todo != {}
      invariant forall p :: p in todo ==> p in Pairs(m) && p.tag.peer == peer
      invariant r.Some? ==> r.value in SeqsOf(Pairs(m), peer)
      invariant forall p :: p in Pairs(m) && p.tag.peer == peer && p !in todo ==> r.Some? && p.tag.num <= r.value
      decreases todo
    {
      var p :| p in todo;
      todo := todo - {p};
      assert p.tag == Tag(peer, p.tag.num);
      r := if r.None? || r.value < p.tag.num then Some(p.tag.num) else r;
    }
  }
}
