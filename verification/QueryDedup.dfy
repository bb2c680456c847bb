/** Deduplication of FIND_COORDINATOR queries (crates/coordinator/src/handler.rs:118-139,
    180-194; crates/coordinator/src/foaf.rs:45-59). Instants are nanoseconds of one clock
    that never goes back; each call is given the instants it reads. A creation time and the
    expiry test use that clock truncated to milliseconds (crates/types/src/lib.rs:516-522),
    while pruning compares instants. The adverts in an answer are left out. */
module QueryDedup {
  import opened Common

  type Id = nat
  type Millis = nat
  type Time = nat

  const NANOS_PER_MILLI := 1000000
  const QUERY_EXPIRY_MS := 30000
  const MAX_QUERY_AGE := QUERY_EXPIRY_MS * NANOS_PER_MILLI

  /** `unix_millis`. */
  function UnixMillis(t: Time): Millis { t / NANOS_PER_MILLI }

  datatype Query = Query(id: Id, ttl: nat, createdAt: Millis)

  predicate Expired(q: Query, now: Time) { UnixMillis(now) > q.createdAt + QUERY_EXPIRY_MS }

  predicate Old(seen: map<Id, Time>, now: Time, x: Id)
    requires x in seen
  {
    now - seen[x] > MAX_QUERY_AGE
  }

  function OldIds(seen: map<Id, Time>, now: Time): set<Id> { set x | x in seen && Old(seen, now, x) }

  class Handler {
    var seen: map<Id, Time>

    constructor ()
      ensures seen == map[]
    {
      seen := map[];
    }

    /** The locked part of a call: a new id is noted whatever follows, a known one ends it. */
    method NoteQuery(q: Query, at: Time) returns (isNew: bool)
      modifies this
      ensures isNew <==> q.id !in old(seen)
      ensures seen == Next(Table(old(seen), map[]), Note(0, q, at)).seen
    {
      isNew := q.id !in seen;
      if isNew {
        seen := seen[q.id := at];
      }
    }

    /** A whole call that no other call comes between is a note and a check of the machine below:
        it answers exactly when the check replies. An answered query continues with one hop
        less. */
    method HandleFindQuery(q: Query, at: Time, check: Time) returns (answer: Option<Query>)
      modifies this
      ensures Serves(old(seen), Find(q, at, check), seen, answer.Some?)
      ensures answer.Some? ==> answer.value == q.(ttl := q.ttl - 1)
    {
      var isNew := NoteQuery(q, at);
      if !isNew {
        return None;
      }
      if UnixMillis(check) > q.createdAt + QUERY_EXPIRY_MS {
        return None;
      }
      if q.ttl == 0 {
        return None;
      }
      return Some(q.(ttl := q.ttl - 1));
    }

    /** The ids past their age, collected in one pass. */
    method CollectOld(now: Time) returns (old': set<Id>)
      ensures old' == OldIds(seen, now)
    {
      old' := {};
      var todo := seen.Keys;
      while todo != {}
        invariant todo <= seen.Keys
        invariant old' == set x | x in seen && x !in todo && Old(seen, now, x)
        decreases |todo|
      {
        var x :| x in todo;
        todo := todo - {x};
        if now - seen[x] > MAX_QUERY_AGE {
          old' := old' + {x};
        }
      }
    }

    /** A pruning of the machine below: exactly the ids past their age go. */
    method Prune(now: Time)
      modifies this
      ensures Serves(old(seen), Sweep(now), seen, false)
      ensures forall x :: x in seen <==> x in old(seen) && now <= old(seen)[x] + MAX_QUERY_AGE
    {
      var all := CollectOld(now);
      ghost var before := seen;
      PruneEnds(seen, all);
      var todo := all;
      while todo != {}
        invariant todo <= all && seen == Pruning(before, all, todo)
        decreases |todo|
      {
        var x :| x in todo;
        PruneStep(before, all, todo, x);
        todo := todo - {x};
        seen := seen - {x};
      }
    }
  }

  /** The table while a pruning pass still has `todo` of `all` to remove. */
  function Pruning(seen: map<Id, Time>, all: set<Id>, todo: set<Id>): map<Id, Time> { seen - (all - todo) }

  lemma PruneEnds(seen: map<Id, Time>, all: set<Id>)
    ensures Pruning(seen, all, all) == seen && Pruning(seen, all, {}) == seen - all
  {
    assert all - {} == all;
  }

  lemma PruneStep(seen: map<Id, Time>, all: set<Id>, todo: set<Id>, x: Id)
    requires x in todo && todo <= all
    ensures Pruning(seen, all, todo - {x}) == Pruning(seen, all, todo) - {x}
  {
  }

  // ---- Runs ----

  /** `open` holds the calls that have noted their query and not yet looked at its age: the
      lock is free in between. */
  datatype Table = Table(seen: map<Id, Time>, open: map<nat, Query>)

  const START := Table(map[], map[])

  datatype Event =
    | Note(call: nat, query: Query, at: Time)
    | Check(call: nat, at: Time)
    | PruneAt(at: Time)

  /** The clock never goes back, and a call checks what it noted, once. */
  predicate Enabled(t: Table, now: Time, e: Event) {
    && now <= e.at && (e.Note? ==> e.call !in t.open) && (e.Check? ==> e.call in t.open)
  }

  function Next(t: Table, e: Event): Table {
    match e
    case Note(call, q, at) => if q.id in t.seen then t else Table(t.seen[q.id := at], t.open[call := q])
    case Check(call, _) => t.(open := t.open - {call})
    case PruneAt(at) => t.(seen := t.seen - OldIds(t.seen, at))
  }

  /** The event is a check that answers query `x`. */
  predicate Replies(t: Table, e: Event, x: Id) {
    && e.Check? && e.call in t.open && t.open[e.call].id == x
    && !Expired(t.open[e.call], e.at) && t.open[e.call].ttl > 0
  }

  /** A call of the handler, made while no other call is open. */
  datatype Call = Find(query: Query, at: Time, check: Time) | Sweep(at: Time)

  /** The call takes the table from `seen` to `seen'` and answers or not. */
  predicate Serves(seen: map<Id, Time>, c: Call, seen': map<Id, Time>, answered: bool) {
    var t := Table(seen, map[]);
    match c
    case Find(q, at, check) =>
      var noted := Next(t, Note(0, q, at));
      seen' == Next(noted, Check(0, check)).seen && (answered <==> Replies(noted, Check(0, check), q.id))
    case Sweep(at) => seen' == Next(t, PruneAt(at)).seen && !answered
  }

  function Answered(t: Table, events: seq<Event>, x: Id): nat
    decreases |events|
  {
    if events == [] then 0
    else (if Replies(t, events[0], x) then 1 else 0) + Answered(Next(t, events[0]), events[1..], x)
  }

  predicate IsRun(t: Table, events: seq<Event>, now: Time)
    decreases |events|
  {
    events == [] || (Enabled(t, now, events[0]) && IsRun(Next(t, events[0]), events[1..], events[0].at))
  }

  /** Every copy of query `x` carries the same creation time. */
  predicate IsCopy(e: Event, x: Id, created: Millis) {
    e.Note? && e.query.id == x ==> e.query.createdAt == created
  }

  predicate Copies(events: seq<Event>, x: Id, created: Millis) {
    forall e :: e in events ==> IsCopy(e, x, created)
  }

  /** The first copy of `x` to be noted. */
  function First(events: seq<Event>, x: Id): (r: Option<Event>)
    ensures r.Some? ==> r.value.Note? && r.value.query.id == x && r.value in events
  {
    if events == [] then None
    else if events[0].Note? && events[0].query.id == x then Some(events[0])
    else First(events[1..], x)
  }

  /** The millisecond of the next instant after `t`: the earliest one in which an id noted
      at `t` can have been pruned, thirty seconds later. */
  function NextMillis(t: Time): Millis { UnixMillis(t + 1) }

  predicate Over(now: Time, created: Millis) { UnixMillis(now) > created + QUERY_EXPIRY_MS }

  /** No copy of `x` can be noted as new and still be answered: it has expired, or its id is
      noted and will not be pruned before it has. */
  predicate Settled(seen: map<Id, Time>, now: Time, x: Id, created: Millis) {
    (x in seen && created < NextMillis(seen[x])) || Over(now, created)
  }

  function OpenCalls(open: map<nat, Query>, x: Id): set<nat> { set c | c in open && open[c].id == x }

  predicate OpenCopies(open: map<nat, Query>, x: Id, created: Millis) {
    forall c :: c in open && open[c].id == x ==> open[c].createdAt == created
  }

  /** What the first copy allows: one answer if it is fresh when noted and has a hop left. */
  function Cap(q: Query, at: Time): nat { if q.ttl > 0 && !Expired(q, at) then 1 else 0 }

  predicate OpenCapped(open: map<nat, Query>, x: Id, cap: nat) {
    forall c :: c in open && open[c].id == x && open[c].ttl > 0 ==> cap == 1
  }

  /** `n` answers so far; as long as the query has not expired, they and the calls that may
      still answer it are at most one, and none if the first copy does not allow it. */
  predicate AtMostOne(t: Table, now: Time, x: Id, created: Millis, n: nat, cap: nat) {
    && n <= cap <= 1 && Settled(t.seen, now, x, created) && OpenCopies(t.open, x, created)
    && (Over(now, created) || (|OpenCalls(t.open, x)| + n <= 1 && OpenCapped(t.open, x, cap)))
  }

  lemma SettledStep(t: Table, now: Time, e: Event, x: Id, created: Millis)
    requires Settled(t.seen, now, x, created) && now <= e.at
    ensures Settled(Next(t, e).seen, e.at, x, created)
    ensures e.Note? && e.query.id == x && x !in t.seen ==> Over(now, created)
  {
    if e.PruneAt? && x in t.seen {
      assert x in OldIds(t.seen, e.at) <==> Old(t.seen, e.at, x);
    }
  }

  lemma CheckStep(t: Table, call: nat, at: Time, x: Id)
    requires call in t.open
    ensures var calls := OpenCalls(t.open, x);
            |OpenCalls((t.open - {call}), x)| == |calls| - if t.open[call].id == x then 1 else 0
  {
    assert OpenCalls(t.open - {call}, x) == OpenCalls(t.open, x) - {call};
  }

  lemma NoteStep(open: map<nat, Query>, call: nat, q: Query, x: Id)
    requires call !in open && q.id != x
    ensures OpenCalls(open[call := q], x) == OpenCalls(open, x)
  {
  }

  lemma AtMostOneStep(t: Table, now: Time, e: Event, x: Id, created: Millis, n: nat, cap: nat)
    requires AtMostOne(t, now, x, created, n, cap) && Enabled(t, now, e) && IsCopy(e, x, created)
    ensures AtMostOne(Next(t, e), e.at, x, created, n + (if Replies(t, e, x) then 1 else 0), cap)
  {
    SettledStep(t, now, e, x, created);
    match e
    case Note(call, q, _) => if q.id != x { NoteStep(t.open, call, q, x); }
    case Check(call, at) => CheckStep(t, call, at, x);
    case PruneAt(_) =>
  }

  lemma {:induction false} NoMoreThanCap(
    t: Table, now: Time, events: seq<Event>, x: Id, created: Millis, n: nat, cap: nat)
    requires AtMostOne(t, now, x, created, n, cap) && IsRun(t, events, now) && Copies(events, x, created)
    ensures n + Answered(t, events, x) <= cap
    decreases |events|
  {
    if events != [] {
      var e := events[0];
      assert e in events;
      AtMostOneStep(t, now, e, x, created, n, cap);
      NoMoreThanCap(Next(t, e), e.at, events[1..], x, created, n + (if Replies(t, e, x) then 1 else 0), cap);
    }
  }

  /** Query `x` has not been seen. */
  predicate Unseen(t: Table, x: Id) { x !in t.seen && OpenCalls(t.open, x) == {} }

  lemma FirstNoted(t: Table, call: nat, q: Query, at: Time)
    requires Unseen(t, q.id) && call !in t.open && q.createdAt < NextMillis(at)
    ensures AtMostOne(Next(t, Note(call, q, at)), at, q.id, q.createdAt, 0, Cap(q, at))
  {
    var open := t.open[call := q];
    assert forall c :: c in t.open && t.open[c].id == q.id ==> c in OpenCalls(t.open, q.id);
    assert OpenCalls(open, q.id) == {call};
  }

  lemma StillUnseen(t: Table, e: Event, x: Id)
    requires Unseen(t, x) && (e.Note? ==> e.call !in t.open && e.query.id != x)
    ensures Unseen(Next(t, e), x) && !Replies(t, e, x)
  {
    assert forall c :: c in t.open && t.open[c].id == x ==> c in OpenCalls(t.open, x);
    if e.Note? { NoteStep(t.open, e.call, e.query, x); }
    if e.Check? { assert OpenCalls(t.open - {e.call}, x) <= OpenCalls(t.open, x); }
  }

  /** What the first copy in a run allows; nothing if there is none. */
  function Allowance(events: seq<Event>, x: Id): nat {
    var f := First(events, x);
    if f.Some? then Cap(f.value.query, f.value.at) else 0
  }

  lemma {:induction false} AnsweredFrom(t: Table, now: Time, events: seq<Event>, x: Id, created: Millis)
    requires Unseen(t, x) && IsRun(t, events, now) && Copies(events, x, created)
    requires First(events, x).Some? ==> created < NextMillis(First(events, x).value.at)
    ensures Answered(t, events, x) <= Allowance(events, x)
    decreases |events|
  {
    if events != [] {
      var e := events[0];
      assert e in events;
      if e.Note? && e.query.id == x {
        FirstNoted(t, e.call, e.query, e.at);
        NoMoreThanCap(Next(t, e), e.at, events[1..], x, created, 0, Cap(e.query, e.at));
      } else {
        StillUnseen(t, e, x);
        AnsweredFrom(Next(t, e), e.at, events[1..], x, created);
      }
    }
  }

  /** Despite pruning, and however calls and prunings fall between noting an id and looking at
      its age: a query whose creation millisecond is below that of the instant after its
      first receipt is answered at most once in any run, and never if that first copy is
      expired or has no hop left. */
  lemma AnsweredAtMostOnce(events: seq<Event>, x: Id, created: Millis)
    requires IsRun(START, events, 0) && Copies(events, x, created)
    requires First(events, x).Some? ==> created < NextMillis(First(events, x).value.at)
    ensures Answered(START, events, x) <= Allowance(events, x) <= 1
  {
    AnsweredFrom(START, 0, events, x, created);
  }

  /** And exactly once when the first copy has a hop left and is checked, fresh, before any
      other event. */
  lemma FirstCopyIsAnswered(t: Table, now: Time, call: nat, q: Query, at: Time, check: Time, rest: seq<Event>)
    requires Unseen(t, q.id) && q.createdAt < NextMillis(at) && !Expired(q, check) && q.ttl > 0
    requires IsRun(t, [Note(call, q, at), Check(call, check)] + rest, now) && Copies(rest, q.id, q.createdAt)
    ensures Answered(t, [Note(call, q, at), Check(call, check)] + rest, q.id) == 1
  {
    var events := [Note(call, q, at), Check(call, check)] + rest;
    var t1 := Next(t, events[0]);
    assert events[1..][0] == Check(call, check) && events[1..][1..] == rest;
    FirstNoted(t, call, q, at);
    AtMostOneStep(t1, at, Check(call, check), q.id, q.createdAt, 0, Cap(q, at));
    NoMoreThanCap(Next(t1, Check(call, check)), check, rest, q.id, q.createdAt, 1, Cap(q, at));
  }

  // ---- Sequences of calls of the handler ----

  function EndOf(c: Call): Time { if c.Find? then c.check else c.at }

  predicate IsFind(c: Call, x: Id) { c.Find? && c.query.id == x }

  /** `calls` made one after the other on a new handler: `seens[k]` is its table before call `k`,
      `answered[k]` whether that call returned an answer. */
  predicate History(calls: seq<Call>, seens: seq<map<Id, Time>>, answered: seq<bool>) {
    && |seens| == |calls| + 1 && |answered| == |calls| && seens[0] == map[]
    && (forall k :: 0 <= k < |calls| ==> calls[k].at <= EndOf(calls[k]))
    && (forall k :: 0 < k < |calls| ==> EndOf(calls[k - 1]) <= calls[k].at)
    && forall k :: 0 <= k < |calls| ==> Serves(seens[k], calls[k], seens[k + 1], answered[k])
  }

  /** The answers to query `x` from call `k` on. */
  function AnswersFrom(calls: seq<Call>, answered: seq<bool>, k: nat, x: Id): nat
    requires k <= |calls| == |answered|
    decreases |calls| - k
  {
    if k == |calls| then 0
    else (if IsFind(calls[k], x) && answered[k] then 1 else 0) + AnswersFrom(calls, answered, k + 1, x)
  }

  /** The first call for `x` from call `k` on. */
  function FirstFind(calls: seq<Call>, k: nat, x: Id): (r: Option<Call>)
    requires k <= |calls|
    ensures r.Some? ==> IsFind(r.value, x)
    decreases |calls| - k
  {
    if k == |calls| then None else if IsFind(calls[k], x) then Some(calls[k]) else FirstFind(calls, k + 1, x)
  }

  function NoteOf(c: Option<Call>): Option<Event> {
    if c.Some? && c.value.Find? then Some(Note(0, c.value.query, c.value.at)) else None
  }

  /** The events of a call: a known id ends it before its age is looked at. */
  function EventsOf(seen: map<Id, Time>, c: Call): seq<Event> {
    match c
    case Sweep(at) => [PruneAt(at)]
    case Find(q, at, check) => if q.id in seen then [Note(0, q, at)] else [Note(0, q, at)] + [Check(0, check)]
  }

  function EventsFrom(calls: seq<Call>, seens: seq<map<Id, Time>>, k: nat): seq<Event>
    requires k <= |calls| < |seens|
    decreases |calls| - k
  {
    if k == |calls| then [] else EventsOf(seens[k], calls[k]) + EventsFrom(calls, seens, k + 1)
  }

  /** One call in front of a run. */
  lemma CallFirst(
    seen: map<Id, Time>, c: Call, seen': map<Id, Time>, answered: bool, rest: seq<Event>, now: Time, x: Id)
    requires Serves(seen, c, seen', answered) && now <= c.at <= EndOf(c) && IsRun(Table(seen', map[]), rest, EndOf(c))
    ensures var events := EventsOf(seen, c) + rest;
            && IsRun(Table(seen, map[]), events, now)
            && Answered(Table(seen, map[]), events, x)
               == (if IsFind(c, x) && answered then 1 else 0) + Answered(Table(seen', map[]), rest, x)
            && First(events, x) == if IsFind(c, x) then Some(Note(0, c.query, c.at)) else First(rest, x)
  {
    var t := Table(seen, map[]);
    match c
    case Sweep(at) =>
      FirstEvent(t, PruneAt(at), rest, now, x);
      FirstSkips(PruneAt(at), rest, x);
    case Find(q, at, check) =>
      FirstEvent(t, Note(0, q, at), if q.id in seen then rest else [Check(0, check)] + rest, now, x);
      FirstSkips(Note(0, q, at), if q.id in seen then rest else [Check(0, check)] + rest, x);
      if q.id in seen {
        EarlierRun(Table(seen', map[]), rest, at, check);
      } else {
        var noted := Next(t, Note(0, q, at));
        assert noted.open - {0} == map[];
        FirstEvent(noted, Check(0, check), rest, at, x);
        FirstSkips(Check(0, check), rest, x);
        assert [Note(0, q, at)] + [Check(0, check)] + rest == [Note(0, q, at)] + ([Check(0, check)] + rest);
      }
  }

  lemma FirstSkips(e: Event, rest: seq<Event>, x: Id)
    ensures First([e] + rest, x) == if e.Note? && e.query.id == x then Some(e) else First(rest, x)
  {
    assert ([e] + rest)[1..] == rest;
  }

  lemma EarlierRun(t: Table, events: seq<Event>, now: Time, later: Time)
    requires IsRun(t, events, later) && now <= later
    ensures IsRun(t, events, now)
  {
  }

  lemma {:induction false} HistoryIsRun(
    calls: seq<Call>, seens: seq<map<Id, Time>>, answered: seq<bool>, k: nat, now: Time, x: Id)
    requires History(calls, seens, answered) && k <= |calls| && (k < |calls| ==> now <= calls[k].at)
    ensures var t, events := Table(seens[k], map[]), EventsFrom(calls, seens, k);
            && IsRun(t, events, now) && Answered(t, events, x) == AnswersFrom(calls, answered, k, x)
            && First(events, x) == NoteOf(FirstFind(calls, k, x))
    decreases |calls| - k
  {
    if k < |calls| {
      HistoryIsRun(calls, seens, answered, k + 1, EndOf(calls[k]), x);
      assert Serves(seens[k], calls[k], seens[k + 1], answered[k]);
      CallFirst(seens[k], calls[k], seens[k + 1], answered[k], EventsFrom(calls, seens, k + 1), now, x);
    }
  }

  lemma {:induction false} HistoryCopies(
    calls: seq<Call>, seens: seq<map<Id, Time>>, k: nat, x: Id, created: Millis)
    requires k <= |calls| < |seens| && forall c :: c in calls && IsFind(c, x) ==> c.query.createdAt == created
    ensures Copies(EventsFrom(calls, seens, k), x, created)
    decreases |calls| - k
  {
    if k < |calls| {
      HistoryCopies(calls, seens, k + 1, x, created);
      assert calls[k] in calls;
      assert forall e :: e in EventsOf(seens[k], calls[k]) ==> IsCopy(e, x, created);
    }
  }

  /** Any sequence of calls on a new handler, finds and prunings in any order: a query whose
      creation millisecond is below that of the instant after its first receipt is answered at
      most once, and never if that first copy is expired when noted or has no hop left. */
  lemma CallsAnswerAtMostOnce(
    calls: seq<Call>, seens: seq<map<Id, Time>>, answered: seq<bool>, x: Id, created: Millis)
    requires History(calls, seens, answered)
    requires forall c :: c in calls && IsFind(c, x) ==> c.query.createdAt == created
    requires var f := FirstFind(calls, 0, x); f.Some? ==> created < NextMillis(f.value.at)
    ensures AnswersFrom(calls, answered, 0, x) <= 1
    ensures var f := FirstFind(calls, 0, x);
            AnswersFrom(calls, answered, 0, x) <= if f.Some? then Cap(f.value.query, f.value.at) else 0
  {
    HistoryIsRun(calls, seens, answered, 0, 0, x);
    HistoryCopies(calls, seens, 0, x, created);
    AnsweredAtMostOnce(EventsFrom(calls, seens, 0), x, created);
  }

  lemma {:induction false} NotFoundNotSeen(
    calls: seq<Call>, seens: seq<map<Id, Time>>, answered: seq<bool>, k: nat, x: Id)
    requires History(calls, seens, answered) && k <= |calls|
    requires forall i :: 0 <= i < k ==> !IsFind(calls[i], x)
    ensures x !in seens[k]
  {
    if k > 0 {
      NotFoundNotSeen(calls, seens, answered, k - 1, x);
      assert Serves(seens[k - 1], calls[k - 1], seens[k - 1 + 1], answered[k - 1]);
    }
  }

  /** The first call for `x` answers exactly when the query has a hop left and has not expired
      when its age is looked at. */
  lemma FirstCallDecides(calls: seq<Call>, seens: seq<map<Id, Time>>, answered: seq<bool>, k: nat, x: Id)
    requires History(calls, seens, answered) && k < |calls| && IsFind(calls[k], x)
    requires forall i :: 0 <= i < k ==> !IsFind(calls[i], x)
    ensures answered[k] <==>
            calls[k].query.ttl > 0 && UnixMillis(calls[k].check) <= calls[k].query.createdAt + QUERY_EXPIRY_MS
  {
    NotFoundNotSeen(calls, seens, answered, k, x);
    assert Serves(seens[k], calls[k], seens[k + 1], answered[k]);
  }

  /** A first copy, a pruning, and a second copy. */
  function Twice(q: Query, first: Time, prune: Time, second: Time): seq<Event> {
    [Note(0, q, first), Check(0, first), PruneAt(prune), Note(1, q, second), Check(1, second)]
  }

  lemma TwiceAnswered(q: Query, first: Time, prune: Time, second: Time)
    requires q.ttl > 0 && first + MAX_QUERY_AGE < prune <= second
    requires UnixMillis(first) <= q.createdAt + QUERY_EXPIRY_MS
    requires UnixMillis(second) <= q.createdAt + QUERY_EXPIRY_MS
    ensures var events := Twice(q, first, prune, second);
            && IsRun(START, events, 0) && Copies(events, q.id, q.createdAt)
            && First(events, q.id) == Some(events[0]) && Answered(START, events, q.id) == 2
  {
    var events := Twice(q, first, prune, second);
    var e0, e1, e2, e3, e4 := events[0], events[1], events[2], events[3], events[4];
    var t1 := Next(START, e0);
    var t2 := Next(t1, e1);
    var t3 := Next(t2, e2);
    var t4 := Next(t3, e3);
    assert q.id in OldIds(t2.seen, prune);
    assert t1.open == map[0 := q] && t2.open == map[] && t4.open == map[1 := q];
    FirstEvent(t4, e4, [], second, q.id);
    FirstEvent(t3, e3, [e4], prune, q.id);
    FirstEvent(t2, e2, [e3] + [e4], first, q.id);
    FirstEvent(t1, e1, [e2] + ([e3] + [e4]), first, q.id);
    FirstEvent(START, e0, [e1] + ([e2] + ([e3] + [e4])), 0, q.id);
    assert [e4] + [] == [e4] && events == [e0] + ([e1] + ([e2] + ([e3] + [e4])));
  }

  lemma FirstEvent(t: Table, e: Event, rest: seq<Event>, now: Time, x: Id)
    ensures Answered(t, [e] + rest, x) == (if Replies(t, e, x) then 1 else 0) + Answered(Next(t, e), rest, x)
    ensures IsRun(t, [e] + rest, now) <==> Enabled(t, now, e) && IsRun(Next(t, e), rest, e.at)
  {
    assert ([e] + rest)[1..] == rest;
  }

  /** The condition is exact: for every later creation time there is a run that answers the
      query twice. */
  lemma AnsweredTwice(x: Id, ttl: nat, received: Time, created: Millis) returns (events: seq<Event>)
    requires NextMillis(received) <= created && ttl > 0
    ensures IsRun(START, events, 0) && Copies(events, x, created)
    ensures First(events, x).Some? && First(events, x).value.at == received
    ensures Answered(START, events, x) == 2
  {
    var later := received + MAX_QUERY_AGE + 1;
    assert UnixMillis(later) == NextMillis(received) + QUERY_EXPIRY_MS;
    TwiceAnswered(Query(x, ttl, created), received, later, later);
    events := Twice(Query(x, ttl, created), received, later, later);
  }

  /** A query can be answered twice although it was created before its first receipt:
      created in millisecond 0, received 0.2 ms later, pruned and received again within
      the millisecond that begins thirty seconds after. */
  lemma TruncationShows()
    ensures var q := Query(7, 3, 0);
            var events := Twice(q, 200000, 30000300000, 30000400000);
            IsRun(START, events, 0) && Copies(events, q.id, 0) && Answered(START, events, q.id) == 2
  {
    TwiceAnswered(Query(7, 3, 0), 200000, 30000300000, 30000400000);
  }
}
