/** Outer gossip frames (crates/types/src/lib.rs:198-241, crates/pubsub/src/lib.rs:3219-3228)
    and what stands for serialisation, hashing and signing. */
module Wire {
  import opened Common

  type Byte = nat
  type Digest = nat
  type Topic = nat
  type PublicKey = nat

  /** The four kinds in the scope of the migration, and all others. */
  datatype Kind = Eager | IHave | IWant | AntiEntropy | OutOfScope

  datatype Header = Header(
    version: nat, topic: Topic, msgId: nat, kind: Kind, hop: nat, ttl: nat, payloadHash: Option<Digest>)

  datatype Message = Message(header: Header, payload: Option<seq<Byte>>, signature: nat, publicKey: PublicKey)

  /** `header` reads the header at the front of a frame, `decode` the whole frame with
      nothing trailing. */
  datatype Codec = Codec(
    encode: Message -> seq<Byte>,
    decode: seq<Byte> -> Option<Message>,
    header: seq<Byte> -> Option<Header>,
    digest: seq<Byte> -> Digest,
    sign: (PublicKey, Header) -> nat)
  {
    ghost predicate Sound() {
      && (forall m :: decode(encode(m)) == Some(m))
      && (forall b :: decode(b).Some? ==> header(b) == Some(decode(b).value.header))
      && (forall a, b :: digest(a) == digest(b) ==> a == b)
    }
  }
}
