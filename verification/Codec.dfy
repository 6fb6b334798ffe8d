/** Integer and length-prefixed encodings on byte sequences. */
module Codec {
  import opened Common

  // ------------------------------------------------- fixed-width, little-endian

  const MAX_U32: nat := 0xFFFF_FFFF

  function Pow256(k: nat): (p: nat)
    ensures p > 0
  {
    if k == 0 then 1 else 256 * Pow256(k - 1)
  }

  function PutLE(n: nat, k: nat): (b: Bytes)
    ensures |b| == k
  {
    if k == 0 then [] else [(n % 256) as byte] + PutLE(n / 256, k - 1)
  }

  function GetLE(b: Bytes): (n: nat)
    ensures n < Pow256(|b|)
  {
    if b == [] then 0 else b[0] as nat + 256 * GetLE(b[1..])
  }

  lemma {:induction false} LERoundTrip(n: nat, k: nat)
    requires n < Pow256(k)
    ensures GetLE(PutLE(n, k)) == n
  {
    if k > 0 {
      LERoundTrip(n / 256, k - 1);
      assert PutLE(n, k)[1..] == PutLE(n / 256, k - 1);
    }
  }

  lemma Pow256Values()
    ensures Pow256(4) == 0x1_0000_0000 && Pow256(8) == 0x1_0000_0000_0000_0000
  {
    assert Pow256(2) == 65536;
    assert Pow256(4) == 65536 * 65536 by { assert Pow256(3) == 256 * 65536; }
    assert Pow256(6) == 65536 * 65536 * 65536 by { assert Pow256(5) == 256 * Pow256(4); }
    assert Pow256(7) == 256 * Pow256(6);
  }

  // ------------------------------------------------------------------ uvarint

  const MAX_VARINT_LEN: nat := 10

  const TWO_64: nat := 0x1_0000_0000_0000_0000

  function PutUvarint(n: nat): (b: Bytes)
    ensures |b| > 0
  {
    if n < 128 then [n as byte] else [(128 + n % 128) as byte] + PutUvarint(n / 128)
  }

  datatype Read = Read(value: nat, width: nat)

  /** Reads a uvarint; `i` bytes of it are behind. None when the bytes run out or
      the value does not fit 64 bits. */
  function GetUvarint(b: Bytes, i: nat): (r: Option<Read>)
    ensures r.Some? ==> 0 < r.value.width <= |b|
  {
    if b == [] || i >= MAX_VARINT_LEN then None
    else if b[0] < 128 then
      if i == MAX_VARINT_LEN - 1 && b[0] > 1 then None else Some(Read(b[0] as nat, 1))
    else
      match GetUvarint(b[1..], i + 1)
      case None => None
      case Some(r) => Some(Read((b[0] - 128) as nat + 128 * r.value, r.width + 1))
  }

  /** What still fits after `i` bytes of seven bits each. */
  function Cap(i: nat): nat
    decreases MAX_VARINT_LEN - i
  {
    if i >= MAX_VARINT_LEN - 1 then 2 else 128 * Cap(i + 1)
  }

  lemma CapIsWord()
    ensures Cap(0) == TWO_64
  {
    assert Cap(9) == 2;
    assert Cap(8) == 128 * Cap(9);
    assert Cap(7) == 128 * Cap(8);
    assert Cap(6) == 128 * Cap(7);
    assert Cap(5) == 128 * Cap(6);
    assert Cap(4) == 128 * Cap(5);
    assert Cap(3) == 128 * Cap(4);
    assert Cap(2) == 128 * Cap(3);
    assert Cap(1) == 128 * Cap(2);
  }

  /** One byte of a uvarint carries the low seven bits. */
  lemma SevenBits(n: nat, c: nat)
    requires n < 128 * c
    ensures n == 128 * (n / 128) + n % 128 && n / 128 < c
  {
  }

  /** Reading past a continuation byte. */
  lemma {:induction false} ReadOn(b: Bytes, i: nat, v: nat, w: nat)
    requires b != [] && b[0] >= 128 && i < MAX_VARINT_LEN && GetUvarint(b[1..], i + 1) == Some(Read(v, w))
    ensures GetUvarint(b, i) == Some(Read((b[0] - 128) as nat + 128 * v, w + 1))
  {
  }

  lemma {:induction false} ReadLast(b: Bytes, i: nat)
    requires b != [] && b[0] < 128 && i < MAX_VARINT_LEN && (i == MAX_VARINT_LEN - 1 ==> b[0] <= 1)
    ensures GetUvarint(b, i) == Some(Read(b[0] as nat, 1))
  {
  }

  lemma {:induction false} PutOn(n: nat)
    ensures n < 128 ==> PutUvarint(n) == [n as byte]
    ensures n >= 128 ==> PutUvarint(n) == [(128 + n % 128) as byte] + PutUvarint(n / 128)
  {
  }

  lemma {:induction false} UvarintFrom(n: nat, rest: Bytes, i: nat)
    requires i < MAX_VARINT_LEN && n < Cap(i)
    ensures GetUvarint(PutUvarint(n) + rest, i) == Some(Read(n, |PutUvarint(n)|))
  {
    hide GetUvarint, PutUvarint;
    var b := PutUvarint(n) + rest;
    PutOn(n);
    if n < 128 {
      assert b[0] == n as byte && (i == MAX_VARINT_LEN - 1 ==> n <= 1);
      ReadLast(b, i);
    } else {
      var q, r := n / 128, n % 128;
      SevenBits(n, Cap(i + 1));
      assert PutUvarint(n) == [(128 + r) as byte] + PutUvarint(q);
      assert b[0] == (128 + r) as byte && b[1..] == PutUvarint(q) + rest;
      UvarintFrom(q, rest, i + 1);
      ReadOn(b, i, q, |PutUvarint(q)|);
    }
  }

  lemma {:induction false} UvarintRoundTrip(n: nat, rest: Bytes)
    requires n < TWO_64
    ensures GetUvarint(PutUvarint(n) + rest, 0) == Some(Read(n, |PutUvarint(n)|))
  {
    CapIsWord();
    UvarintFrom(n, rest, 0);
  }

  /** A proper prefix of a uvarint is not one. */
  lemma {:induction false} UvarintTorn(n: nat, k: nat, i: nat)
    requires k < |PutUvarint(n)|
    ensures GetUvarint(PutUvarint(n)[..k], i) == None
  {
    var b := PutUvarint(n)[..k];
    if k > 0 && i < MAX_VARINT_LEN {
      assert b[0] == (128 + n % 128) as byte;
      assert b[1..] == PutUvarint(n / 128)[..k - 1];
      UvarintTorn(n / 128, k - 1, i + 1);
    }
  }

  // ---------------------------------------------------------- length-prefixed

  function PutBytes(v: Bytes): Bytes {
    PutUvarint(|v|) + v
  }

  datatype Split = Split(value: Bytes, rest: Bytes)

  /** One length-prefixed value and the unread remainder. */
  function GetBytes(b: Bytes): (r: Option<Split>)
    ensures r.Some? ==> |r.value.rest| < |b|
  {
    match GetUvarint(b, 0)
    case None => None
    case Some(u) =>
      if u.value > |b| - u.width then None
      else Some(Split(b[u.width..u.width + u.value], b[u.width + u.value..]))
  }

  lemma BytesRoundTrip(v: Bytes, rest: Bytes)
    requires |v| < TWO_64
    ensures GetBytes(PutBytes(v) + rest) == Some(Split(v, rest))
  {
    hide GetUvarint, PutUvarint;
    UvarintRoundTrip(|v|, v + rest);
    assert PutBytes(v) + rest == PutUvarint(|v|) + (v + rest);
  }

  /** A torn length-prefixed value is refused. */
  lemma BytesTorn(v: Bytes, k: nat)
    requires |v| < TWO_64 && k < |PutBytes(v)|
    ensures GetBytes(PutBytes(v)[..k]) == None
  {
    hide GetUvarint, PutUvarint;
    var u := PutUvarint(|v|);
    if k < |u| {
      assert PutBytes(v)[..k] == u[..k];
      UvarintTorn(|v|, k, 0);
    } else {
      assert PutBytes(v)[..k] == u + v[..k - |u|];
      UvarintRoundTrip(|v|, v[..k - |u|]);
    }
  }
}
