/** The bloom filter: a key that was added is never reported absent. */
module Bloom {
  import opened Common

  const TWO_32: nat := 0x1_0000_0000

  const MAX_PROBES: nat := 30

  type Filter = seq<bv8>

  /** `h` rotated right by 17 bits: the step between probes. */
  function Delta(h: nat): (d: nat)
    requires h < TWO_32
    ensures d < TWO_32
  {
    h / 131072 + (h % 131072) * 32768
  }

  /** The hash after `j` steps, in 32-bit arithmetic. */
  function Probe(h: nat, delta: nat, j: nat): (p: nat)
    requires h < TWO_32
    ensures p < TWO_32
  {
    if j == 0 then h else (Probe(h, delta, j - 1) + delta) % TWO_32
  }

  function Mask(i: nat): bv8
    requires i < 8
  {
    if i == 0 then 1 else if i == 1 then 2 else if i == 2 then 4 else if i == 3 then 8
    else if i == 4 then 16 else if i == 5 then 32 else if i == 6 then 64 else 128
  }

  /** Bit `n` of the bit array in `f`. */
  predicate BitAt(f: Filter, n: nat)
    requires n / 8 < |f|
  {
    f[n / 8] & Mask(n % 8) != 0
  }

  lemma SetKeeps(b: bv8, i: nat, j: nat)
    requires i < 8 && j < 8
    ensures (b | Mask(i)) & Mask(i) != 0 && (b & Mask(j) != 0 ==> (b | Mask(i)) & Mask(j) != 0)
  {
  }

  /** Every probe of `h` up to the `n`th finds its bit set in an array of `bits` bits. */
  ghost predicate Marked(f: Filter, bits: nat, h: nat, n: nat)
    requires h < TWO_32 && 0 < bits && (bits + 7) / 8 <= |f|
  {
    forall j | 0 <= j < n :: Hit(f, bits, Probe(h, Delta(h), j))
  }

  predicate Hit(f: Filter, bits: nat, p: nat)
    requires 0 < bits && (bits + 7) / 8 <= |f|
  {
    BitAt(f, p % bits)
  }

  /** Setting a bit clears none. */
  lemma MarkStays(f: Filter, g: Filter, bits: nat, at: nat, h: nat, n: nat)
    requires h < TWO_32 && 0 < bits && (bits + 7) / 8 <= |f| && at / 8 < |f| && Marked(f, bits, h, n)
    requires g == f[at / 8 := f[at / 8] | Mask(at % 8)]
    ensures Marked(g, bits, h, n)
  {
    hide Mask, Probe;
    forall j | 0 <= j < n
      ensures Hit(g, bits, Probe(h, Delta(h), j))
    {
      var p := Probe(h, Delta(h), j) % bits;
      assert Hit(f, bits, Probe(h, Delta(h), j));
      SetKeeps(f[p / 8], at % 8, p % 8);
    }
  }

  /** Sets the bits of one hash, stepping it as the filter format fixes. */
  method AddHash(f: Filter, bits: nat, h: nat, k: nat, ghost added: seq<nat>) returns (g: Filter)
    requires h < TWO_32 && 0 < bits && (bits + 7) / 8 < |f|
    requires forall i | 0 <= i < |added| :: added[i] < TWO_32 && Marked(f, bits, added[i], k)
    ensures |g| == |f| && g[|f| - 1] == f[|f| - 1] && Marked(g, bits, h, k)
    ensures forall i | 0 <= i < |added| :: Marked(g, bits, added[i], k)
  {
    hide Mask, Probe, Hit;
    g := f;
    var delta := Delta(h);
    var p := h;
    assert Probe(h, delta, 0) == h by { ProbeZero(h, delta); }
    var j := 0;
    while j < k
      invariant 0 <= j <= k && p < TWO_32 && p == Probe(h, delta, j)
      invariant |g| == |f| && g[|f| - 1] == f[|f| - 1] && Marked(g, bits, h, j)
      invariant forall i | 0 <= i < |added| :: Marked(g, bits, added[i], k)
    {
      var at := p % bits;
      ghost var was := g;
      g := g[at / 8 := g[at / 8] | Mask(at % 8)];
      MarkStays(was, g, bits, at, h, j);
      assert Hit(g, bits, p) by { HitSet(was, g, bits, p); }
      forall i | 0 <= i < |added|
        ensures Marked(g, bits, added[i], k)
      {
        MarkStays(was, g, bits, at, added[i], k);
      }
      ProbeStep(h, delta, j);
      p := (p + delta) % TWO_32;
      j := j + 1;
    }
  }

  lemma {:induction false} ProbeZero(h: nat, delta: nat)
    requires h < TWO_32
    ensures Probe(h, delta, 0) == h
  {
  }

  lemma {:induction false} ProbeStep(h: nat, delta: nat, j: nat)
    requires h < TWO_32
    ensures Probe(h, delta, j + 1) == (Probe(h, delta, j) + delta) % TWO_32
  {
  }

  lemma HitSet(f: Filter, g: Filter, bits: nat, p: nat)
    requires 0 < bits && (bits + 7) / 8 <= |f| && (p % bits) / 8 < |f|
    requires var at := p % bits; g == f[at / 8 := f[at / 8] | Mask(at % 8)]
    ensures Hit(g, bits, p)
  {
    hide Mask;
    var at := p % bits;
    SetKeeps(f[at / 8], at % 8, at % 8);
  }

  /** Bytes of the bit array for `n` keys. */
  function ArrayBytes(n: nat, bitsPerKey: nat): nat {
    (Max(n * bitsPerKey, 64) + 7) / 8
  }

  /** The bit count of a filter's array as 32-bit arithmetic sees it. */
  function BitCount(nBytes: nat): (b: nat)
    ensures (b + 7) / 8 <= nBytes && (nBytes * 8 < TWO_32 ==> b == nBytes * 8)
  {
    var b := (nBytes * 8) % TWO_32;
    assert b <= nBytes * 8;
    b
  }

  /** The filter's verdict; a malformed filter excludes nothing. */
  ghost predicate MayHold(f: Filter, h: nat)
    requires h < TWO_32
  {
    |f| >= 2 ==>
      var bits := BitCount(|f| - 1);
      bits != 0 && f[|f| - 1] as nat <= MAX_PROBES ==> Marked(f, bits, h, f[|f| - 1] as nat)
  }

  /** A filter in which every probe of `h` is set does not exclude it. */
  lemma MarkedHolds(f: Filter, h: nat)
    requires h < TWO_32 && |f| >= 2 && (|f| - 1) * 8 < TWO_32
    requires Marked(f, (|f| - 1) * 8, h, f[|f| - 1] as nat)
    ensures MayHold(f, h)
  {
    hide BitCount, Marked;
  }

  /** Builds the filter over a table's key hashes: a bit array, then the probe count.
      No false negatives: it excludes none of the hashes it was built over. */
  method BuildBloom(hashes: seq<nat>, bitsPerKey: nat, k: nat) returns (f: Filter)
    requires forall i | 0 <= i < |hashes| :: hashes[i] < TWO_32
    requires 1 <= k <= MAX_PROBES && ArrayBytes(|hashes|, bitsPerKey) * 8 < TWO_32
    ensures |f| == ArrayBytes(|hashes|, bitsPerKey) + 1 && f[|f| - 1] as nat == k
    ensures forall i | 0 <= i < |hashes| :: Marked(f, (|f| - 1) * 8, hashes[i], k)
    ensures forall i | 0 <= i < |hashes| :: MayHold(f, hashes[i])
  {
    hide Probe, Hit, Marked, MayHold;
    var nBytes := ArrayBytes(|hashes|, bitsPerKey);
    var bits := nBytes * 8;
    f := seq(nBytes, _ => 0) + [k as bv8];
    var i := 0;
    while i < |hashes|
      invariant 0 <= i <= |hashes| && |f| == nBytes + 1 && f[nBytes] as nat == k
      invariant forall j | 0 <= j < i :: Marked(f, bits, hashes[j], k)
    {
      f := AddHash(f, bits, hashes[i], k, hashes[..i]);
      i := i + 1;
    }
    forall i | 0 <= i < |hashes|
      ensures MayHold(f, hashes[i])
    {
      MarkedHolds(f, hashes[i]);
    }
  }

  /** Whether the filter may contain a key of this hash. */
  method MayContain(f: Filter, h: nat) returns (may: bool)
    requires h < TWO_32
    ensures may == MayHold(f, h)
  {
    hide BitCount, Probe, Mask;
    if |f| < 2 {
      return true;
    }
    var nBytes := |f| - 1;
    var bits := BitCount(nBytes);
    var k := f[nBytes] as nat;
    if bits == 0 || k > MAX_PROBES {
      return true;
    }
    may := AllSet(f, bits, h, k);
  }

  method AllSet(f: Filter, bits: nat, h: nat, k: nat) returns (all: bool)
    requires h < TWO_32 && 0 < bits && (bits + 7) / 8 <= |f|
    ensures all == Marked(f, bits, h, k)
  {
    hide Probe, Mask;
    var delta := Delta(h);
    var p := h;
    ProbeZero(h, delta);
    var j := 0;
    while j < k
      invariant 0 <= j <= k && p < TWO_32 && p == Probe(h, delta, j)
      invariant Marked(f, bits, h, j)
    {
      var at := p % bits;
      if f[at / 8] & Mask(at % 8) == 0 {
        assert !Hit(f, bits, Probe(h, delta, j));
        return false;
      }
      ProbeStep(h, delta, j);
      p := (p + delta) % TWO_32;
      j := j + 1;
    }
    return true;
  }
}
