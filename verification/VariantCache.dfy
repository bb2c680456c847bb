/** The bounded cache of re-signed outer variants (crates/pubsub/src/compat.rs:829-845,
    880-912). Serialisation, hashing and signing are parameters: decoding undoes encoding
    and the wire digest has no collisions. */
module VariantCache {
  import opened Common
  import opened Wire

  const MAX_VARIANT_BYTES := 4 * 1024 * 1024

  /** `message` with the outer version `version`, sealed and re-signed if that changes it. */
  function Resigned(codec: Codec, m: Message, version: nat, key: PublicKey): Message {
    if m.header.version == version then m
    else
      var sealed := if version == 2 then Some(codec.digest(if m.payload.Some? then m.payload.value else [])) else None;
      var h := m.header.(version := version, payloadHash := sealed);
      Message(h, m.payload, codec.sign(key, h), key)
  }

  /** The same message to the application, under the outer version asked for. */
  predicate Faithful(codec: Codec, bytes: seq<Byte>, m: Message, version: nat) {
    var d := codec.decode(bytes);
    && d.Some? && d.value.header.version == version
    && d.value.header.topic == m.header.topic && d.value.header.kind == m.header.kind
    && d.value.header.msgId == m.header.msgId && d.value.payload == m.payload
    && d.value.header.hop == m.header.hop && d.value.header.ttl == m.header.ttl
    && (version == 2 && m.header.version != 2 ==>
          d.value.header.payloadHash == Some(codec.digest(if m.payload.Some? then m.payload.value else [])))
  }

  /** Bytes that had to be converted carry a signature of `key` over their own header, and the
      key; bytes of the version asked for are the message itself, with its author's signature. */
  predicate SignedBy(codec: Codec, bytes: seq<Byte>, m: Message, version: nat, key: PublicKey) {
    var d := codec.decode(bytes);
    && d.Some?
    && (m.header.version == version ==> d.value == m)
    && (m.header.version != version ==>
          d.value.publicKey == key && d.value.signature == codec.sign(key, d.value.header))
    && (m.header.version != version && version != 2 ==> d.value.header.payloadHash == None)
  }

  type VariantKey = (Digest, nat)

  datatype Cache = Cache(entries: map<VariantKey, seq<Byte>>, bytes: nat)

  const EMPTY := Cache(map[], 0)

  datatype Found = Found(cache: Cache, bytes: seq<Byte>)

  /** `variant`. */
  function Lookup(codec: Codec, c: Cache, m: Message, version: nat, key: PublicKey, wire: seq<Byte>): Found {
    var k := (codec.digest(wire), version);
    if k in c.entries then Found(c, c.entries[k])
    else
      var out := codec.encode(Resigned(codec, m, version, key));
      var c1 := if c.bytes + |out| > MAX_VARIANT_BYTES then EMPTY else c;
      Found(if |out| <= MAX_VARIANT_BYTES then Cache(c1.entries[k := out], c1.bytes + |out|) else c1, out)
  }

  // ---- The invariant ----

  ghost function Total(entries: map<VariantKey, seq<Byte>>): nat
    decreases |entries|
  {
    if entries == map[] then 0
    else
      var k :| k in entries;
      assert |entries - {k}| < |entries| by { Shrinks(entries, k); }
      |entries[k]| + Total(entries - {k})
  }

  lemma Shrinks(entries: map<VariantKey, seq<Byte>>, k: VariantKey)
    requires k in entries
    ensures |entries - {k}| == |entries| - 1
  {
    assert (entries - {k}).Keys == entries.Keys - {k};
    assert |entries.Keys| == |entries| && |(entries - {k}).Keys| == |entries - {k}|;
  }

  lemma {:induction false} TotalWithout(entries: map<VariantKey, seq<Byte>>, k: VariantKey)
    requires k in entries
    ensures Total(entries) == |entries[k]| + Total(entries - {k})
    decreases |entries|
  {
    var x :| x in entries && Total(entries) == |entries[x]| + Total(entries - {x});
    if x != k {
      Shrinks(entries, x);
      Shrinks(entries, k);
      TotalWithout(entries - {x}, k);
      TotalWithout(entries - {k}, x);
      assert entries - {x} - {k} == entries - {k} - {x};
    }
  }

  /** The entry is a variant of some message whose wire form has the digest in the key. */
  ghost predicate EntryOk(codec: Codec, key: PublicKey, k: VariantKey, bytes: seq<Byte>) {
    exists wire ::
      && codec.digest(wire) == k.0 && codec.decode(wire).Some?
      && Faithful(codec, bytes, codec.decode(wire).value, k.1)
      && SignedBy(codec, bytes, codec.decode(wire).value, k.1, key)
  }

  ghost predicate EntriesOk(codec: Codec, key: PublicKey, entries: map<VariantKey, seq<Byte>>) {
    forall k :: k in entries ==> EntryOk(codec, key, k, entries[k])
  }

  /** The relay signs with one key. */
  ghost predicate Inv(codec: Codec, key: PublicKey, c: Cache) {
    c.bytes == Total(c.entries) <= MAX_VARIANT_BYTES && EntriesOk(codec, key, c.entries)
  }

  lemma ResignedIsFaithful(codec: Codec, m: Message, version: nat, key: PublicKey)
    requires codec.Sound()
    ensures var bytes := codec.encode(Resigned(codec, m, version, key));
            Faithful(codec, bytes, m, version) && SignedBy(codec, bytes, m, version, key)
  {
  }

  /** A hit was made for this very message. */
  lemma HitIsFaithful(codec: Codec, key: PublicKey, c: Cache, m: Message, version: nat, wire: seq<Byte>)
    requires codec.Sound() && Inv(codec, key, c) && codec.decode(wire) == Some(m)
    requires (codec.digest(wire), version) in c.entries
    ensures var bytes := c.entries[(codec.digest(wire), version)];
            Faithful(codec, bytes, m, version) && SignedBy(codec, bytes, m, version, key)
  {
    assert EntryOk(codec, key, (codec.digest(wire), version), c.entries[(codec.digest(wire), version)]);
  }

  lemma InsertKeeps(codec: Codec, key: PublicKey, c: Cache, k: VariantKey, out: seq<Byte>)
    requires Inv(codec, key, c) && k !in c.entries && EntryOk(codec, key, k, out)
    requires c.bytes + |out| <= MAX_VARIANT_BYTES
    ensures Inv(codec, key, Cache(c.entries[k := out], c.bytes + |out|))
  {
    TotalWithout(c.entries[k := out], k);
    assert c.entries[k := out] - {k} == c.entries;
  }

  /** A lookup yields the message under the version asked for, signed by the relay where it had
      to be converted, keeps the account exact and bounded, and caches what it yields whenever
      that fits; a hit changes nothing. */
  lemma LookupKeeps(codec: Codec, c: Cache, m: Message, version: nat, key: PublicKey, wire: seq<Byte>)
    requires codec.Sound() && Inv(codec, key, c) && codec.decode(wire) == Some(m)
    ensures var f, k := Lookup(codec, c, m, version, key, wire), (codec.digest(wire), version);
            && Inv(codec, key, f.cache)
            && Faithful(codec, f.bytes, m, version) && SignedBy(codec, f.bytes, m, version, key)
            && (k in c.entries ==> f.cache == c)
            && (|f.bytes| <= MAX_VARIANT_BYTES ==> k in f.cache.entries && f.cache.entries[k] == f.bytes)
  {
    var k := (codec.digest(wire), version);
    if k in c.entries {
      HitIsFaithful(codec, key, c, m, version, wire);
    } else {
      ResignedIsFaithful(codec, m, version, key);
      var out := codec.encode(Resigned(codec, m, version, key));
      assert EntryOk(codec, key, k, out);
      assert Inv(codec, key, EMPTY);
      var c1 := if c.bytes + |out| > MAX_VARIANT_BYTES then EMPTY else c;
      if |out| <= MAX_VARIANT_BYTES {
        InsertKeeps(codec, key, c1, k, out);
      }
    }
  }

  /** Looking the same frame up again, when it fits, yields the same bytes and no second signature. */
  lemma SecondLookupHits(codec: Codec, c: Cache, m: Message, version: nat, key: PublicKey, wire: seq<Byte>)
    requires codec.Sound() && Inv(codec, key, c) && codec.decode(wire) == Some(m)
    requires |Lookup(codec, c, m, version, key, wire).bytes| <= MAX_VARIANT_BYTES
    ensures var f := Lookup(codec, c, m, version, key, wire); Lookup(codec, f.cache, m, version, key, wire) == f
  {
    LookupKeeps(codec, c, m, version, key, wire);
  }
}
