/** The append-only journal of modern floors (crates/pubsub/src/compat.rs:201-331): a
    12-byte header, then one 64-byte record per peer, the peer id followed by its digest.
    The digest function, file errors and the moment of a crash are parameters. */
module FloorJournal {
  import opened Common
  import opened Sets

  type Byte = b: int | 0 <= b < 256
  type Peer = s: seq<Byte> | |s| == 32 witness seq(32, _ => 0)
  type Digest = s: seq<Byte> | |s| == 32 witness seq(32, _ => 0)
  type Hash = Peer -> Digest

  // "SG-FLOORS-1\n"
  const HEADER: seq<Byte> := [83, 71, 45, 70, 76, 79, 79, 82, 83, 45, 49, 10]
  const RECORD := 64
  const MAX_RECORDS := 65536

  // ---- What a journal of a list of peers looks like ----

  function Record(hash: Hash, p: Peer): (r: seq<Byte>)
    ensures |r| == RECORD
  {
    p + hash(p)
  }

  function Body(hash: Hash, ps: seq<Peer>): seq<Byte> {
    if ps == [] then [] else Record(hash, ps[0]) + Body(hash, ps[1..])
  }

  function Encode(hash: Hash, ps: seq<Peer>): seq<Byte> { HEADER + Body(hash, ps) }

  function Elems(ps: seq<Peer>): set<Peer> { set p | p in ps }

  ghost predicate Written(hash: Hash, bytes: seq<Byte>, ps: seq<Peer>) {
    bytes == Encode(hash, ps) && |ps| <= MAX_RECORDS
  }

  // ---- Reading it back ----

  function Parse(hash: Hash, body: seq<Byte>): Option<seq<Peer>>
    decreases |body|
  {
    if body == [] then Some([])
    else if |body| < RECORD then None
    else
      var p: Peer := body[..32];
      if hash(p) != body[32..64] then None
      else match Parse(hash, body[64..])
        case None => None
        case Some(rest) => Some([p] + rest)
  }

  function Decoded(hash: Hash, bytes: seq<Byte>): Option<set<Peer>> {
    if !(HEADER <= bytes) || |bytes| - 12 > RECORD * MAX_RECORDS then None
    else match Parse(hash, bytes[12..])
      case None => None
      case Some(ps) => Some(Elems(ps))
  }

  lemma {:induction false} ParseBody(hash: Hash, ps: seq<Peer>)
    ensures Parse(hash, Body(hash, ps)) == Some(ps) && |Body(hash, ps)| == RECORD * |ps|
  {
    if ps != [] {
      ParseBody(hash, ps[1..]);
      var b := Body(hash, ps);
      assert b[..32] == ps[0] && b[32..64] == hash(ps[0]) && b[64..] == Body(hash, ps[1..]);
      assert [ps[0]] + ps[1..] == ps;
    }
  }

  lemma {:induction false} BodyParse(hash: Hash, body: seq<Byte>)
    requires Parse(hash, body).Some?
    ensures Body(hash, Parse(hash, body).value) == body
    decreases |body|
  {
    if body != [] {
      BodyParse(hash, body[64..]);
      var ps := Parse(hash, body).value;
      assert ps[1..] == Parse(hash, body[64..]).value;
      assert body == body[..32] + body[32..64] + body[64..];
    }
  }

  /** Round trip: what was written is read back. */
  lemma DecodeEncode(hash: Hash, bytes: seq<Byte>, ps: seq<Peer>)
    requires Written(hash, bytes, ps)
    ensures Decoded(hash, bytes) == Some(Elems(ps))
  {
    ParseBody(hash, ps);
    assert bytes[12..] == Body(hash, ps);
  }

  /** Only journals decode: every accepted file is the encoding of exactly one list. */
  lemma EncodeDecode(hash: Hash, bytes: seq<Byte>) returns (ps: seq<Peer>)
    requires Decoded(hash, bytes).Some?
    ensures Written(hash, bytes, ps) && Decoded(hash, bytes) == Some(Elems(ps))
    ensures forall qs :: Written(hash, bytes, qs) ==> qs == ps
  {
    var body := bytes[12..];
    ps := Parse(hash, body).value;
    BodyParse(hash, body);
    assert bytes == HEADER + body;
    ParseBody(hash, ps);
    forall qs | Written(hash, bytes, qs) ensures qs == ps {
      ParseBody(hash, qs);
      assert bytes[12..] == Body(hash, qs);
    }
  }

  function Prefixed(done: seq<Peer>, rest: Option<seq<Peer>>): Option<seq<Peer>> {
    if rest.None? then None else Some(done + rest.value)
  }

  lemma PrefixEnds(done: seq<Peer>, all: Option<seq<Peer>>)
    ensures Prefixed([], all) == all && Prefixed(done, Some([])) == Some(done)
  {
    assert done + [] == done;
    assert all.Some? ==> [] + all.value == all.value;
  }

  lemma PrefixStep(done: seq<Peer>, p: Peer, rest: Option<seq<Peer>>)
    ensures Prefixed(done, Prefixed([p], rest)) == Prefixed(done + [p], rest)
  {
    if rest.Some? {
      assert done + ([p] + rest.value) == (done + [p]) + rest.value;
    }
  }

  lemma ParseRecord(hash: Hash, body: seq<Byte>, i: nat)
    requires i + RECORD <= |body|
    ensures var p: Peer := body[i..i + 32];
            Parse(hash, body[i..])
            == if hash(p) == body[i + 32..i + 64] then Prefixed([p], Parse(hash, body[i + 64..])) else None
  {
    var b := body[i..];
    assert b[..32] == body[i..i + 32] && b[32..64] == body[i + 32..i + 64] && b[64..] == body[i + 64..];
  }

  lemma {:induction false} FewElems(ps: seq<Peer>)
    ensures |Elems(ps)| <= |ps|
  {
    if ps != [] {
      var last := |ps| - 1;
      FewElems(ps[..last]);
      assert ps == ps[..last] + [ps[last]];
      ElemsSnoc(ps[..last], ps[last]);
    }
  }

  /** The length of a journal for this many peers without repetition. */
  function LengthFor(n: nat): nat { 12 + RECORD * n }

  /** An accepted file is long enough for all the peers it lists. */
  lemma DecodedLength(hash: Hash, bytes: seq<Byte>)
    requires Decoded(hash, bytes).Some?
    ensures |bytes| >= LengthFor(|Decoded(hash, bytes).value|)
  {
    var ps := EncodeDecode(hash, bytes);
    ParseBody(hash, ps);
    FewElems(ps);
  }

  /** `decode`, record by record. */
  method Decode(hash: Hash, bytes: seq<Byte>) returns (r: Option<set<Peer>>)
    ensures r == Decoded(hash, bytes)
  {
    if !(HEADER <= bytes) {
      return None;
    }
    var body := bytes[12..];
    if |body| % RECORD != 0 {
      RaggedBody(hash, body);
      return None;
    }
    if |body| > RECORD * MAX_RECORDS {
      return None;
    }
    var peers: set<Peer> := {};
    ghost var done: seq<Peer> := [];
    PrefixEnds(done, Parse(hash, body));
    assert body[0..] == body;
    for k := 0 to |body| / RECORD
      invariant peers == Elems(done) && Parse(hash, body) == Prefixed(done, Parse(hash, body[RECORD * k..]))
    {
      var i := RECORD * k;
      var p: Peer := body[i..i + 32];
      ParseRecord(hash, body, i);
      if hash(p) != body[i + 32..i + 64] {
        return None;
      }
      PrefixStep(done, p, Parse(hash, body[i + 64..]));
      ElemsSnoc(done, p);
      peers, done := peers + {p}, done + [p];
    }
    PrefixEnds(done, None);
    assert body[RECORD * (|body| / RECORD)..] == [];
    r := Some(peers);
  }

  lemma ElemsSnoc(ps: seq<Peer>, p: Peer)
    ensures Elems(ps + [p]) == Elems(ps) + {p}
  {
  }

  lemma {:induction false} RaggedBody(hash: Hash, body: seq<Byte>)
    requires |body| % RECORD != 0
    ensures Parse(hash, body).None?
    decreases |body|
  {
    if |body| > RECORD {
      RaggedBody(hash, body[64..]);
    }
  }

  // ---- The live instance ----

  /** `current` says that the remembered stamp is still the file's. */
  datatype Journal = Journal(bytes: seq<Byte>, peers: set<Peer>, current: bool)

  /** How an append ends: the file cannot be opened, or `kept` bytes reach it and the write
      and its sync succeed or not. A crash is an append that does not succeed. */
  datatype Write = CannotOpen | Wrote(kept: nat, ok: bool) {
    predicate Possible() { Wrote? ==> kept <= RECORD && (ok ==> kept == RECORD) }
  }

  datatype Outcome = Outcome(journal: Journal, ok: bool)

  function Refreshed(hash: Hash, j: Journal): Outcome {
    if j.current then Outcome(j, true)
    else match Decoded(hash, j.bytes)
      case None => Outcome(j, false)
      case Some(disk) => if j.peers <= disk then Outcome(Journal(j.bytes, disk, true), true) else Outcome(j, false)
  }

  function Required(hash: Hash, j: Journal, p: Peer, w: Write): Outcome
    requires w.Possible()
  {
    var r := Refreshed(hash, j);
    if !r.ok then r
    else if p in r.journal.peers then r
    else if |r.journal.peers| >= MAX_RECORDS || w.CannotOpen? then Outcome(r.journal, false)
    else if w.ok then Outcome(Journal(j.bytes + Record(hash, p), r.journal.peers + {p}, false), true)
    else Outcome(Journal(j.bytes + Record(hash, p)[..w.kept], r.journal.peers, false), false)
  }

  datatype Stamp = Stamp(modified: nat, len: nat)

  class Disk {
    var bytes: seq<Byte>
    var modified: nat

    function Now(): Stamp
      reads this
    {
      Stamp(modified, |bytes|)
    }
  }

  class ModernFloors {
    const hash: Hash
    const disk: Disk
    var peers: set<Peer>
    var stamp: Option<Stamp>

    /** A remembered stamp is that of a file with a record for every known peer. */
    predicate Valid()
      reads this
    {
      stamp.Some? ==> stamp.value.len >= LengthFor(|peers|)
    }

    function View(): Journal
      reads this, disk
    {
      Journal(disk.bytes, peers, stamp == Some(disk.Now()))
    }

    constructor (hash: Hash, disk: Disk)
      ensures Valid() && this.hash == hash && this.disk == disk && peers == {} && stamp == None
    {
      this.hash, this.disk, peers, stamp := hash, disk, {}, None;
    }

    /** `again` is the stamp read after the contents; a difference means another writer.
        Whatever is on disk, a known peer is never given up. A journal is accepted exactly
        when its stamp is the remembered one, in which case nothing is read, or when it
        decodes, did not change meanwhile, and lists every known peer. A file too short for
        the known peers is always refused. */
    method Refresh(again: Stamp) returns (ok: bool)
      requires Valid()
      modifies this
      ensures Valid() && old(peers) <= peers
      ensures |disk.bytes| < LengthFor(|old(peers)|) ==> !ok
      ensures var read := Decoded(hash, disk.bytes);
              ok <==> || old(stamp) == Some(disk.Now())
                      || (read.Some? && again == disk.Now() && old(peers) <= read.value)
      ensures !ok ==> peers == old(peers) && stamp == old(stamp)
      ensures ok && old(stamp) != Some(disk.Now()) ==> Decoded(hash, disk.bytes) == Some(peers)
      ensures again == disk.Now() ==> Outcome(View(), ok) == Refreshed(hash, old(View()))
    {
      var now := disk.Now();
      if stamp == Some(now) {
        return true;
      }
      var read := Decode(hash, disk.bytes);
      if read.Some? {
        DecodedLength(hash, disk.bytes);
        if peers <= read.value { SubsetSize(peers, read.value); }
      }
      if read.None? || again != now || !(peers <= read.value) {
        return false;
      }
      peers, stamp := read.value, Some(now);
      return true;
    }

    /** `at` is the file's modification time after the append. */
    method RequireV2(p: Peer, again: Stamp, w: Write, at: nat) returns (ok: bool)
      requires Valid() && w.Possible()
      modifies this, disk
      ensures Valid() && old(peers) <= peers && (ok ==> p in peers)
      ensures old(disk.bytes) <= disk.bytes
      ensures old(again == disk.Now()) ==> Outcome(View(), ok) == Required(hash, old(View()), p, w)
    {
      ok := Refresh(again);
      if !ok || p in peers {
        return;
      }
      if |peers| >= MAX_RECORDS || w.CannotOpen? {
        return false;
      }
      stamp := None;
      disk.bytes, disk.modified := disk.bytes + Record(hash, p)[..w.kept], at;
      if !w.ok {
        return false;
      }
      assert Record(hash, p)[..w.kept] == Record(hash, p);
      peers := peers + {p};
      return true;
    }
  }

  /** A journal that lost a known peer goes unnoticed if and only if its stamp is still the
      remembered one. */
  lemma LossUnnoticedIff(hash: Hash, j: Journal, p: Peer)
    requires p in j.peers && (Decoded(hash, j.bytes).Some? ==> p !in Decoded(hash, j.bytes).value)
    ensures Refreshed(hash, j).ok <==> j.current
  {
  }

  /** And it does go unnoticed then: another peer's record in its place, with the length and
      the modification time unchanged. */
  lemma SameStampHidesLoss(hash: Hash, p: Peer, q: Peer)
    requires p != q
    ensures var j := Journal(Encode(hash, [q]), {p}, true);
            && |j.bytes| == |Encode(hash, [p])| && Refreshed(hash, j).ok && Decoded(hash, j.bytes) == Some({q})
  {
    ParseBody(hash, [q]);
    ParseBody(hash, [p]);
    assert Elems([q]) == {q};
    DecodeEncode(hash, Encode(hash, [q]), [q]);
  }

  // ---- Runs of one writer ----

  /** The bytes of a call that reach the file, if it gets as far as writing. */
  function Appended(hash: Hash, j: Journal, p: Peer, w: Write): Option<nat> {
    var r := Refreshed(hash, j);
    if r.ok && p !in r.journal.peers && |r.journal.peers| < MAX_RECORDS && w.Wrote? then Some(w.kept) else None
  }

  datatype Call = Call(peer: Peer, write: Write)

  predicate Possible(calls: seq<Call>) { forall i :: 0 <= i < |calls| ==> calls[i].write.Possible() }

  /** A run of `require_v2` calls: the journal, the acknowledged peers, the peers whose record
      was written in full without the call succeeding, and whether an append was cut short. */
  datatype Run = Run(journal: Journal, acked: set<Peer>, unsynced: set<Peer>, torn: bool)

  function Called(hash: Hash, before: Run, p: Peer, w: Write): Run
    requires w.Possible()
  {
    var r, kept := Required(hash, before.journal, p, w), Appended(hash, before.journal, p, w);
    Run(r.journal,
        if r.ok then before.acked + {p} else before.acked,
        if !r.ok && kept == Some(RECORD) then before.unsynced + {p} else before.unsynced,
        before.torn || (kept.Some? && 0 < kept.value < RECORD))
  }

  function After(hash: Hash, calls: seq<Call>): Run
    requires Possible(calls)
  {
    if calls == [] then Run(Journal(HEADER, {}, true), {}, {}, false)
    else
      var c := calls[|calls| - 1];
      Called(hash, After(hash, calls[..|calls| - 1]), c.peer, c.write)
  }

  /** The file is whole records for `ps` and a torn one at the end; the records are those of
      the acknowledged and the unsynced peers. */
  predicate Holds(hash: Hash, r: Run, ps: seq<Peer>, tail: seq<Byte>) {
    && r.journal.bytes == Encode(hash, ps) + tail && |tail| < RECORD && (r.torn <==> tail != [])
    && |ps| == |Elems(ps)| <= MAX_RECORDS
    && Elems(ps) == r.acked + r.unsynced && r.journal.peers <= Elems(ps)
    && (r.journal.current ==> tail == [] && r.journal.peers == Elems(ps))
  }

  ghost predicate Inv(hash: Hash, r: Run) {
    exists ps, tail :: Holds(hash, r, ps, tail)
  }

  lemma {:induction false} BodyAppend(hash: Hash, ps: seq<Peer>, p: Peer)
    ensures Body(hash, ps + [p]) == Body(hash, ps) + Record(hash, p)
  {
    if ps == [] {
      assert ps + [p] == [p] && [p][1..] == [];
      assert Body(hash, [p]) == Record(hash, p) + [];
    } else {
      BodyAppend(hash, ps[1..], p);
      assert (ps + [p])[1..] == ps[1..] + [p];
      assert Body(hash, ps + [p]) == Record(hash, ps[0]) + (Body(hash, ps[1..]) + Record(hash, p));
    }
  }

  /** A torn record is always noticed. */
  lemma TornIsRejected(hash: Hash, ps: seq<Peer>, torn: seq<Byte>)
    requires 0 < |torn| < RECORD
    ensures Decoded(hash, Encode(hash, ps) + torn).None?
  {
    ParseBody(hash, ps);
    var bytes := Encode(hash, ps) + torn;
    assert bytes[12..] == Body(hash, ps) + torn;
    RaggedBody(hash, bytes[12..]);
  }

  lemma HoldsDecodes(hash: Hash, r: Run, ps: seq<Peer>, tail: seq<Byte>)
    requires Holds(hash, r, ps, tail)
    ensures Decoded(hash, r.journal.bytes) == if r.torn then None else Some(Elems(ps))
  {
    if tail == [] {
      assert r.journal.bytes == Encode(hash, ps);
      DecodeEncode(hash, r.journal.bytes, ps);
    } else {
      TornIsRejected(hash, ps, tail);
    }
  }

  lemma RefreshSees(hash: Hash, r: Run, ps: seq<Peer>, tail: seq<Byte>)
    requires Holds(hash, r, ps, tail)
    ensures Refreshed(hash, r.journal)
            == if r.torn then Outcome(r.journal, false) else Outcome(Journal(Encode(hash, ps), Elems(ps), true), true)
  {
    HoldsDecodes(hash, r, ps, tail);
    if tail == [] {
      assert r.journal.bytes == Encode(hash, ps);
    }
  }

  lemma AppendHolds(hash: Hash, r: Run, ps: seq<Peer>, p: Peer)
    requires |ps| == |Elems(ps)| < MAX_RECORDS && p !in Elems(ps) && !r.torn && !r.journal.current
    requires r.journal.bytes == Encode(hash, ps) + Record(hash, p)
    requires r.acked + r.unsynced == Elems(ps) + {p} && r.journal.peers <= Elems(ps) + {p}
    ensures Holds(hash, r, ps + [p], [])
  {
    BodyAppend(hash, ps, p);
    assert Encode(hash, ps) + Record(hash, p) == Encode(hash, ps + [p]) + [];
    assert Elems(ps + [p]) == Elems(ps) + {p};
  }

  lemma WriteKeeps(hash: Hash, r: Run, ps: seq<Peer>, p: Peer, w: Write)
    requires Holds(hash, r, ps, []) && w.Possible() && w.Wrote? && p !in Elems(ps) && |ps| < MAX_RECORDS
    requires Refreshed(hash, r.journal) == Outcome(Journal(Encode(hash, ps), Elems(ps), true), true)
    ensures Inv(hash, Called(hash, r, p, w))
  {
    var r' := Called(hash, r, p, w);
    assert r.journal.bytes == Encode(hash, ps);
    var cut := Record(hash, p)[..w.kept];
    if w.kept == RECORD {
      assert cut == Record(hash, p);
      AppendHolds(hash, r', ps, p);
    } else {
      assert Holds(hash, r', ps, cut);
    }
  }

  lemma QuietKeeps(hash: Hash, r: Run, ps: seq<Peer>, tail: seq<Byte>, p: Peer, w: Write)
    requires Holds(hash, r, ps, tail) && w.Possible() && Appended(hash, r.journal, p, w).None?
    ensures Inv(hash, Called(hash, r, p, w))
  {
    RefreshSees(hash, r, ps, tail);
    assert Encode(hash, ps) + [] == Encode(hash, ps);
    assert Holds(hash, Called(hash, r, p, w), ps, tail);
  }

  lemma CallKeeps(hash: Hash, r: Run, p: Peer, w: Write)
    requires Inv(hash, r) && w.Possible()
    ensures Inv(hash, Called(hash, r, p, w))
  {
    var ps, tail :| Holds(hash, r, ps, tail);
    RefreshSees(hash, r, ps, tail);
    if Appended(hash, r.journal, p, w).Some? {
      WriteKeeps(hash, r, ps, p, w);
    } else {
      QuietKeeps(hash, r, ps, tail, p, w);
    }
  }

  lemma {:induction false} RunKeeps(hash: Hash, calls: seq<Call>)
    requires Possible(calls)
    ensures Inv(hash, After(hash, calls))
  {
    if calls == [] {
      assert HEADER == Encode(hash, []) + [];
      assert Holds(hash, After(hash, []), [], []);
    } else {
      RunKeeps(hash, calls[..|calls| - 1]);
      var c := calls[|calls| - 1];
      CallKeeps(hash, After(hash, calls[..|calls| - 1]), c.peer, c.write);
    }
  }

  /** Crash safety, exactly: after any calls, however their appends ended, reopening the file
      fails if and only if some append was cut within its record, and otherwise finds the
      acknowledged peers and those whose record was written in full without the call
      succeeding, nobody else. */
  lemma ReopenFinds(hash: Hash, calls: seq<Call>)
    requires Possible(calls)
    ensures var r := After(hash, calls);
            Decoded(hash, r.journal.bytes) == if r.torn then None else Some(r.acked + r.unsynced)
  {
    RunKeeps(hash, calls);
    var r := After(hash, calls);
    var ps, tail :| Holds(hash, r, ps, tail);
    HoldsDecodes(hash, r, ps, tail);
  }

  lemma CutCall(hash: Hash, r: Run, p: Peer, kept: nat)
    requires Inv(hash, r) && !r.torn && kept <= RECORD
    requires p !in r.acked + r.unsynced && |r.acked + r.unsynced| < MAX_RECORDS
    ensures var r' := Called(hash, r, p, Wrote(kept, false));
            && r'.acked == r.acked && (r'.torn <==> 0 < kept < RECORD)
            && r'.unsynced == if kept == RECORD then r.unsynced + {p} else r.unsynced
  {
    var ps, tail :| Holds(hash, r, ps, tail);
    RefreshSees(hash, r, ps, tail);
  }

  /** A crash at any byte of the append of a new peer, in any state that calls can lead to
      with the file whole: nothing written changes nothing, a whole record adds the one peer
      in flight, and anything between is rejected. */
  lemma CrashDuringAppend(hash: Hash, r: Run, p: Peer, kept: nat)
    requires Inv(hash, r) && !r.torn && kept <= RECORD
    requires p !in r.acked + r.unsynced && |r.acked + r.unsynced| < MAX_RECORDS
    ensures var found := r.acked + r.unsynced;
            Decoded(hash, Required(hash, r.journal, p, Wrote(kept, false)).journal.bytes)
            == if kept == 0 then Some(found) else if kept < RECORD then None else Some(found + {p})
  {
    CutCall(hash, r, p, kept);
    CallKeeps(hash, r, p, Wrote(kept, false));
    var r' := Called(hash, r, p, Wrote(kept, false));
    var ps, tail :| Holds(hash, r', ps, tail);
    HoldsDecodes(hash, r', ps, tail);
    assert r.acked + (r.unsynced + {p}) == r.acked + r.unsynced + {p};
  }
}
