/** Encoded internal keys: a user key and an eight-byte trailer that packs the
    sequence number and the kind, compared as bytes. */
module InternalKey {
  import opened Common
  import opened Codec
  import opened Keys

  const TRAILER_LEN: nat := 8

  const MAX_SEQ: nat := 0xFF_FFFF_FFFF_FFFF

  datatype Key = Key(user: Bytes, seqno: nat, kind: Kind)

  function KindNumber(k: Kind): nat {
    if k == Put then 1 else 0
  }

  function Trailer(s: nat, k: Kind): nat {
    s * 256 + KindNumber(k)
  }

  function Encode(k: Key): (b: Bytes)
    ensures |b| == |k.user| + TRAILER_LEN
  {
    k.user + PutLE(Trailer(k.seqno, k.kind), 8)
  }

  /** The key that positions a seek at the newest version visible at `s`. */
  function SeekKey(user: Bytes, s: nat): Key {
    Key(user, s, Put)
  }

  function UserOf(b: Bytes): Bytes
    requires |b| >= TRAILER_LEN
  {
    b[..|b| - TRAILER_LEN]
  }

  function TrailerOf(b: Bytes): nat
    requires |b| >= TRAILER_LEN
  {
    GetLE(b[|b| - TRAILER_LEN..])
  }

  /** Splits an encoded key; None when it is too short or its kind is unknown. */
  function Decode(b: Bytes): Option<Key> {
    if |b| < TRAILER_LEN then None
    else
      var t := TrailerOf(b);
      if t % 256 > 1 then None
      else Some(Key(UserOf(b), t / 256, if t % 256 == 1 then Put else Delete))
  }

  /** User key ascending, then trailer descending: newest first. */
  function Compare(a: Bytes, b: Bytes): int
    requires |a| >= TRAILER_LEN && |b| >= TRAILER_LEN
  {
    if UserOf(a) != UserOf(b) then (if KeyLess(UserOf(a), UserOf(b)) then -1 else 1)
    else if TrailerOf(a) > TrailerOf(b) then -1
    else if TrailerOf(a) < TrailerOf(b) then 1
    else 0
  }

  predicate EncLess(a: Bytes, b: Bytes) {
    |a| >= TRAILER_LEN && |b| >= TRAILER_LEN && Compare(a, b) < 0
  }

  function KeyOf(r: Record): Key {
    Key(r.key, r.seqno, r.kind)
  }

  lemma EncodedParts(k: Key)
    requires k.seqno <= MAX_SEQ
    ensures UserOf(Encode(k)) == k.user && TrailerOf(Encode(k)) == Trailer(k.seqno, k.kind)
  {
    hide PutLE, GetLE;
    Pow256Values();
    LERoundTrip(Trailer(k.seqno, k.kind), 8);
    assert Encode(k)[|k.user|..] == PutLE(Trailer(k.seqno, k.kind), 8);
  }

  lemma KeyRoundTrip(k: Key)
    requires k.seqno <= MAX_SEQ
    ensures Decode(Encode(k)) == Some(k)
  {
    hide PutLE, GetLE;
    EncodedParts(k);
  }

  /** Comparing encodings compares versions: user key first, then newest first. */
  lemma CompareIsOrder(a: Record, b: Record)
    requires a.seqno <= MAX_SEQ && b.seqno <= MAX_SEQ
    ensures Compare(Encode(KeyOf(a)), Encode(KeyOf(b))) < 0 <==> RecLess(a, b)
    ensures Compare(Encode(KeyOf(a)), Encode(KeyOf(b))) == 0 <==> KeyOf(a) == KeyOf(b)
    ensures Compare(Encode(KeyOf(a)), Encode(KeyOf(b))) > 0 <==> RecLess(b, a)
  {
    hide KeyLess, PutLE, GetLE, Encode;
    EncodedParts(KeyOf(a));
    EncodedParts(KeyOf(b));
    if a.key == b.key {
      KeyIrreflexive(a.key);
    } else {
      KeyTotal(a.key, b.key);
      if KeyLess(a.key, b.key) {
        KeyAsymmetric(a.key, b.key);
      }
    }
  }

  // ------------------------------------------------ the order on encodings

  lemma EncTransitive(a: Bytes, b: Bytes, c: Bytes)
    requires EncLess(a, b) && EncLess(b, c)
    ensures EncLess(a, c)
  {
    hide KeyLess, GetLE;
    if UserOf(a) != UserOf(b) && UserOf(b) != UserOf(c) {
      KeyTransitive(UserOf(a), UserOf(b), UserOf(c));
      KeyIrreflexive(UserOf(a));
    }
  }
}
