/** Blocks of a table file: prefix-compressed entries with restart points. */
module Block {
  import opened Common
  import opened Codec
  import opened InternalKey

  datatype Item = Item(key: Bytes, value: Bytes)

  // -------------------------------------------------------------- the builder

  /** The longest common prefix of two keys. */
  function SharedLen(a: Bytes, b: Bytes): (n: nat)
    ensures n <= |a| && n <= |b| && a[..n] == b[..n]
    ensures n < |a| && n < |b| ==> a[n] != b[n]
  {
    if a != [] && b != [] && a[0] == b[0] then
      var n := SharedLen(a[1..], b[1..]);
      assert a[..n + 1] == [a[0]] + a[1..][..n] && b[..n + 1] == [b[0]] + b[1..][..n];
      n + 1
    else 0
  }

  method SharedPrefixLen(a: Bytes, b: Bytes) returns (i: nat)
    ensures i <= |a| && i <= |b| && a[..i] == b[..i] && (i < |a| && i < |b| ==> a[i] != b[i])
  {
    var n := Min(|a|, |b|);
    i := 0;
    while i < n && a[i] == b[i]
      invariant i <= n && a[..i] == b[..i]
    {
      assert a[..i + 1] == a[..i] + [a[i]] && b[..i + 1] == b[..i] + [b[i]];
      i := i + 1;
    }
  }

  lemma {:induction false} SharedUnique(a: Bytes, b: Bytes, i: nat)
    requires i <= |a| && i <= |b| && a[..i] == b[..i] && (i < |a| && i < |b| ==> a[i] != b[i])
    ensures i == SharedLen(a, b)
  {
    hide SharedLen;
    var n := SharedLen(a, b);
    assert forall j | 0 <= j < n :: a[..n][j] == b[..n][j];
    assert forall j | 0 <= j < i :: a[..i][j] == b[..i][j];
  }

  /** One entry: three lengths, the unshared rest of the key, the value. */
  function EntryBytes(shared: nat, it: Item): (b: Bytes)
    requires shared <= |it.key|
    ensures |b| >= 3
  {
    PutUvarint(shared) + PutUvarint(|it.key| - shared) + PutUvarint(|it.value|) + it.key[shared..] + it.value
  }

  datatype Built = Built(buf: Bytes, restarts: seq<nat>, lastKey: Bytes)

  /** Adds the `n`th item: a full key at a restart, a shared prefix otherwise. */
  function AddTo(b: Built, n: nat, it: Item, interval: nat): Built
    requires interval > 0
  {
    if n % interval == 0 then Built(b.buf + EntryBytes(0, it), b.restarts + [|b.buf|], it.key)
    else Built(b.buf + EntryBytes(SharedLen(b.lastKey, it.key), it), b.restarts, it.key)
  }

  function BuildAll(items: seq<Item>, interval: nat): Built
    requires interval > 0
  {
    if items == [] then Built([], [], [])
    else
      var n := |items| - 1;
      AddTo(BuildAll(items[..n], interval), n, items[n], interval)
  }

  /** Where entry `i` starts. */
  function Off(items: seq<Item>, interval: nat, i: nat): nat
    requires interval > 0 && i <= |items|
  {
    |BuildAll(items[..i], interval).buf|
  }

  function PutAll(ns: seq<nat>): (b: Bytes)
    ensures |b| == 4 * |ns|
  {
    if ns == [] then [] else PutLE(ns[0], 4) + PutAll(ns[1..])
  }

  /** An empty block still has one restart. */
  function RestartsOf(b: Built): seq<nat> {
    if b.restarts == [] then [0] else b.restarts
  }

  /** The finished block: entries, restart offsets, their count. */
  function Contents(b: Built): Bytes {
    b.buf + PutAll(RestartsOf(b)) + PutLE(|RestartsOf(b)|, 4)
  }

  /** Keys with trailers, lengths that fit a uvarint, and entries that start within 32 bits. */
  ghost predicate Encodable(items: seq<Item>, interval: nat)
    requires interval > 0
  {
    && (forall i | 0 <= i < |items| :: TRAILER_LEN <= |items[i].key| < TWO_64 && |items[i].value| < TWO_64)
    && (forall i | 0 <= i < |items| :: Off(items, interval, i) <= MAX_U32)
  }

  // ------------------------------------------------------------- the decoder

  datatype Decoded = Decoded(key: Bytes, value: Bytes, next: nat, shared: nat)

  /** The entry whose lengths are read and whose bytes start at `at`. */
  function DecodeBody(shared: nat, unshared: nat, vlen: nat, rest: Bytes, prev: Bytes, at: nat): (r: Option<Decoded>)
    ensures r.Some? ==> at <= r.value.next <= at + |rest| && |r.value.key| >= TRAILER_LEN
  {
    if shared > |prev| || unshared > |rest| || vlen > |rest| - unshared then None
    else
      var key := prev[..shared] + rest[..unshared];
      if |key| < TRAILER_LEN then None
      else Some(Decoded(key, rest[unshared..unshared + vlen], at + unshared + vlen, shared))
  }

  /** Decodes the entry at `off`, given the key before it; None when it is corrupt. */
  function DecodeAt(entries: Bytes, off: nat, prev: Bytes): (r: Option<Decoded>)
    requires off < |entries|
    ensures r.Some? ==> off < r.value.next <= |entries| && |r.value.key| >= TRAILER_LEN
  {
    var rest := entries[off..];
    match GetUvarint(rest, 0)
    case None => None
    case Some(a) =>
      var rest1 := rest[a.width..];
      match GetUvarint(rest1, 0)
      case None => None
      case Some(b) =>
        var rest2 := rest1[b.width..];
        match GetUvarint(rest2, 0)
        case None => None
        case Some(c) =>
          DecodeBody(a.value, b.value, c.value, rest2[c.width..], prev, off + a.width + b.width + c.width)
  }

  lemma DropFront(a: Bytes, b: Bytes)
    ensures (a + b)[|a|..] == b
  {
  }

  /** Three lengths in front of a tail read back in turn. */
  lemma {:induction false} ReadHeader(x: nat, y: nat, z: nat, tail: Bytes)
    requires x < TWO_64 && y < TWO_64 && z < TWO_64
    ensures var a, b, c := PutUvarint(x), PutUvarint(y), PutUvarint(z);
            var rest := a + (b + (c + tail));
            && GetUvarint(rest, 0) == Some(Read(x, |a|)) && rest[|a|..] == b + (c + tail)
            && GetUvarint(b + (c + tail), 0) == Some(Read(y, |b|)) && (b + (c + tail))[|b|..] == c + tail
            && GetUvarint(c + tail, 0) == Some(Read(z, |c|)) && (c + tail)[|c|..] == tail
  {
    hide GetUvarint, PutUvarint;
    var a, b, c := PutUvarint(x), PutUvarint(y), PutUvarint(z);
    UvarintRoundTrip(x, b + (c + tail));
    UvarintRoundTrip(y, c + tail);
    UvarintRoundTrip(z, tail);
    DropFront(a, b + (c + tail));
    DropFront(b, c + tail);
    DropFront(c, tail);
  }

  /** The key and value in front of whatever follows. */
  lemma ReadBody(shared: nat, it: Item, prev: Bytes, post: Bytes, at: nat)
    requires TRAILER_LEN <= |it.key| && shared <= |it.key| && shared <= |prev| && prev[..shared] == it.key[..shared]
    ensures var n := |it.key| - shared;
            DecodeBody(shared, n, |it.value|, it.key[shared..] + it.value + post, prev, at)
            == Some(Decoded(it.key, it.value, at + n + |it.value|, shared))
  {
    var tail := it.key[shared..] + it.value + post;
    var n := |it.key| - shared;
    assert tail[..n] == it.key[shared..];
    assert it.key == it.key[..shared] + it.key[shared..];
    assert tail[n..n + |it.value|] == it.value;
  }

  lemma {:induction false} EntryLayout(pre: Bytes, post: Bytes, shared: nat, it: Item)
    requires shared <= |it.key|
    ensures var a, b, c := PutUvarint(shared), PutUvarint(|it.key| - shared), PutUvarint(|it.value|);
            && |EntryBytes(shared, it)| == |a| + |b| + |c| + |it.key| - shared + |it.value|
            && (pre + EntryBytes(shared, it) + post)[|pre|..] == a + (b + (c + (it.key[shared..] + it.value + post)))
  {
    hide PutUvarint;
  }

  /** An entry decodes to its item after any key it shares its prefix with. */
  lemma DecodeEntry(pre: Bytes, post: Bytes, shared: nat, it: Item, prev: Bytes)
    requires TRAILER_LEN <= |it.key| < TWO_64 && |it.value| < TWO_64
    requires shared <= |it.key| && shared <= |prev| && prev[..shared] == it.key[..shared]
    ensures var e := EntryBytes(shared, it);
            |pre| < |pre + e + post|
            && DecodeAt(pre + e + post, |pre|, prev) == Some(Decoded(it.key, it.value, |pre| + |e|, shared))
  {
    hide GetUvarint, PutUvarint, EntryBytes, DecodeBody;
    EntryLayout(pre, post, shared, it);
    ReadHeader(shared, |it.key| - shared, |it.value|, it.key[shared..] + it.value + post);
    var a, b, c := PutUvarint(shared), PutUvarint(|it.key| - shared), PutUvarint(|it.value|);
    ReadBody(shared, it, prev, post, |pre| + |a| + |b| + |c|);
  }

  // --------------------------------------------------------- positions

  lemma {:induction false} LastKey(items: seq<Item>, interval: nat)
    requires interval > 0
    ensures BuildAll(items, interval).lastKey == if items == [] then [] else items[|items| - 1].key
  {
    hide EntryBytes, SharedLen;
  }

  /** What entry `i` was written as. */
  function SharedAt(items: seq<Item>, interval: nat, i: nat): (n: nat)
    requires interval > 0 && i < |items|
    ensures n <= |items[i].key|
  {
    if i % interval == 0 then 0 else SharedLen(items[i - 1].key, items[i].key)
  }

  lemma {:induction false} BuildStep(items: seq<Item>, interval: nat, i: nat)
    requires interval > 0 && i < |items|
    ensures BuildAll(items[..i + 1], interval).buf
            == BuildAll(items[..i], interval).buf + EntryBytes(SharedAt(items, interval, i), items[i])
    ensures BuildAll(items[..i + 1], interval).restarts
            == BuildAll(items[..i], interval).restarts + if i % interval == 0 then [Off(items, interval, i)] else []
  {
    hide EntryBytes, SharedLen;
    var p := items[..i + 1];
    assert p[..i] == items[..i] && p[i] == items[i];
    LastKey(items[..i], interval);
  }

  /** The bytes around entry `i`. */
  lemma {:induction false} BufSplit(items: seq<Item>, interval: nat, i: nat, n: nat)
    requires interval > 0 && i < n <= |items|
    ensures BuildAll(items[..i], interval).buf + EntryBytes(SharedAt(items, interval, i), items[i])
            <= BuildAll(items[..n], interval).buf
    decreases n
  {
    hide EntryBytes, SharedAt, BuildAll;
    BuildStep(items, interval, n - 1);
    if i < n - 1 {
      BufSplit(items, interval, i, n - 1);
    }
  }

  /** Decoding at entry `i` yields item `i`, after the key before it, or after any key at a restart. */
  lemma {:induction false} DecodeItem(items: seq<Item>, interval: nat, i: nat, prev: Bytes)
    requires interval > 0 && Encodable(items, interval) && i < |items|
    requires i % interval == 0 || prev == items[i - 1].key
    ensures var buf := BuildAll(items, interval).buf;
            Off(items, interval, i) < |buf|
            && DecodeAt(buf, Off(items, interval, i), prev)
               == Some(Decoded(items[i].key, items[i].value, Off(items, interval, i + 1), SharedAt(items, interval, i)))
  {
    hide EntryBytes, BuildAll, DecodeAt, SharedLen;
    var n := |items|;
    assert items[..n] == items;
    var buf := BuildAll(items, interval).buf;
    var pre := BuildAll(items[..i], interval).buf;
    var shared := SharedAt(items, interval, i);
    var e := EntryBytes(shared, items[i]);
    BufSplit(items, interval, i, n);
    BuildStep(items, interval, i);
    var post := buf[|pre| + |e|..];
    assert buf == pre + e + post;
    DecodeEntry(pre, post, shared, items[i], prev);
  }

  /** Entry offsets rise by at least three bytes each. */
  lemma {:induction false} OffRises(items: seq<Item>, interval: nat, i: nat, j: nat)
    requires interval > 0 && i <= j <= |items|
    ensures Off(items, interval, i) + 3 * (j - i) <= Off(items, interval, j)
    decreases j
  {
    hide EntryBytes, BuildAll, SharedAt;
    if i < j {
      BuildStep(items, interval, j - 1);
      OffRises(items, interval, i, j - 1);
    }
  }

  lemma {:induction false} RestartsAre(items: seq<Item>, interval: nat, n: nat)
    requires interval > 0 && n <= |items|
    ensures var rs := BuildAll(items[..n], interval).restarts;
            && (forall j | 0 <= j < |rs| :: j * interval < n && rs[j] == Off(items, interval, j * interval))
            && n <= |rs| * interval < n + interval
    decreases n
  {
    hide EntryBytes, BuildAll, SharedAt, Off;
    if n == 0 {
      assert BuildAll(items[..0], interval).restarts == [] by { NoItems(interval); assert items[..0] == []; }
    } else {
      RestartsAre(items, interval, n - 1);
      BuildStep(items, interval, n - 1);
      var rs := BuildAll(items[..n - 1], interval).restarts;
      RestartArith(n - 1, interval, |rs|);
    }
  }

  lemma {:induction false} NoItems(interval: nat)
    requires interval > 0
    ensures BuildAll([], interval) == Built([], [], [])
  {
  }

  /** With `k` restarts covering `n` entries, entry `n` is a restart exactly when they cover no more. */
  lemma RestartArith(n: nat, interval: nat, k: nat)
    requires interval > 0 && n <= k * interval < n + interval
    ensures n % interval == 0 <==> n == k * interval
  {
    var d := k * interval - n;
    if d == 0 {
      ModUnique(n, interval, k, 0);
    } else {
      assert k == 0 ==> k * interval == 0;
      MulDown(k, interval);
      ModUnique(n, interval, k - 1, interval - d);
    }
  }

  lemma MulDown(k: nat, m: nat)
    requires k > 0
    ensures k * m == (k - 1) * m + m
  {
  }

  /** Quotient and remainder are what they should be. */
  lemma ModUnique(n: nat, m: nat, q: nat, r: nat)
    requires m > 0 && n == q * m + r && r < m
    ensures n % m == r && n / m == q
  {
    var q', r' := n / m, n % m;
    assert n == m * q' + r';
    assert (q - q') * m == r' - r by { MulLess(q, q', m); }
    if q < q' {
      MulLess(q' - q, 1, m);
    } else if q' < q {
      MulLess(q - q', 1, m);
    }
  }

  lemma MulLess(a: int, b: int, m: nat)
    ensures (a - b) * m == a * m - b * m
    ensures a >= 1 ==> a * m >= m
  {
  }

  // --------------------------------------------------------------- parsing

  datatype Parsed = Parsed(entries: Bytes, restarts: seq<nat>)

  function RestartAt(contents: Bytes, end: nat, i: nat): nat
    requires end + 4 * i + 4 <= |contents|
  {
    GetLE(contents[end + 4 * i..end + 4 * i + 4])
  }

  /** Offsets strictly increasing and inside the entry region. */
  predicate RestartsOk(rs: seq<nat>, end: nat) {
    && (forall i | 0 <= i < |rs| :: rs[i] <= end && (end > 0 ==> rs[i] < end))
    && (forall i | 0 < i < |rs| :: rs[i - 1] < rs[i])
  }

  /** Validates a block's restart array. */
  function Parse(contents: Bytes): (r: Option<Parsed>)
  {
    if |contents| < 8 then None
    else
      var n := GetLE(contents[|contents| - 4..]);
      if n == 0 || 4 + 4 * n > |contents| then None
      else
        var end := |contents| - 4 - 4 * n;
        var rs := seq(n, i requires 0 <= i < n => RestartAt(contents, end, i));
        if RestartsOk(rs, end) then Some(Parsed(contents[..end], rs)) else None
  }

  method ParseBlock(contents: Bytes) returns (r: Option<Parsed>)
    ensures r == Parse(contents)
  {
    hide GetLE;
    if |contents| < 8 {
      return None;
    }
    var n := GetLE(contents[|contents| - 4..]);
    if n == 0 || 4 + 4 * n > |contents| {
      return None;
    }
    var end := |contents| - 4 - 4 * n;
    ghost var all := seq(n, i requires 0 <= i < n => RestartAt(contents, end, i));
    var rs: seq<nat> := [];
    var i := 0;
    while i < n
      invariant 0 <= i <= n && rs == all[..i] && RestartsOk(rs, end)
    {
      var x := RestartAt(contents, end, i);
      assert x == all[i];
      if x > end || (end > 0 && x >= end) {
        assert !RestartsOk(all, end);
        return None;
      }
      if i > 0 && x <= rs[i - 1] {
        assert !RestartsOk(all, end) by { assert all[i - 1] == rs[i - 1]; }
        return None;
      }
      rs := rs + [x];
      i := i + 1;
    }
    assert all[..n] == all;
    r := Some(Parsed(contents[..end], rs));
  }

  lemma {:induction false} PutAllAt(ns: seq<nat>, i: nat)
    requires i < |ns| && ns[i] <= MAX_U32
    ensures GetLE(PutAll(ns)[4 * i..4 * i + 4]) == ns[i]
  {
    hide PutLE, GetLE;
    var b := PutAll(ns);
    if i == 0 {
      assert b[0..4] == PutLE(ns[0], 4);
      Pow256Values();
      LERoundTrip(ns[0], 4);
    } else {
      PutAllAt(ns[1..], i - 1);
      var c := PutAll(ns[1..]);
      assert b == PutLE(ns[0], 4) + c;
      assert b[4 * i..4 * i + 4] == c[4 * (i - 1)..4 * (i - 1) + 4];
    }
  }

  /** A list of offsets in the layout of a finished block parses back. */
  lemma {:induction false} ParseLayout(buf: Bytes, rs: seq<nat>)
    requires 0 < |rs| <= MAX_U32 && RestartsOk(rs, |buf|) && forall i | 0 <= i < |rs| :: rs[i] <= MAX_U32
    ensures Parse(buf + PutAll(rs) + PutLE(|rs|, 4)) == Some(Parsed(buf, rs))
  {
    hide PutLE, GetLE, PutAll;
    var c := buf + PutAll(rs) + PutLE(|rs|, 4);
    assert c[|c| - 4..] == PutLE(|rs|, 4);
    Pow256Values();
    LERoundTrip(|rs|, 4);
    forall i | 0 <= i < |rs|
      ensures RestartAt(c, |buf|, i) == rs[i]
    {
      PutAllAt(rs, i);
      assert c[|buf| + 4 * i..|buf| + 4 * i + 4] == PutAll(rs)[4 * i..4 * i + 4];
    }
    var got := seq(|rs|, i requires 0 <= i < |rs| => RestartAt(c, |buf|, i));
    assert got == rs;
    assert c[..|buf|] == buf;
  }

  /** A finished block parses to its entries and restarts. */
  lemma {:induction false} ParseBuilt(items: seq<Item>, interval: nat)
    requires interval > 0 && Encodable(items, interval)
    ensures var b := BuildAll(items, interval); Parse(Contents(b)) == Some(Parsed(b.buf, RestartsOf(b)))
  {
    hide BuildAll, Off, Parse, PutAll, PutLE;
    var b := BuildAll(items, interval);
    var n := |items|;
    assert items[..n] == items;
    RestartsAre(items, interval, n);
    if n == 0 {
      NoItems(interval);
      assert items == [];
    } else {
      assert |b.restarts| > 0 by { Covered(n, interval, |b.restarts|); }
      forall j | 0 <= j < |b.restarts|
        ensures b.restarts[j] < |b.buf| && b.restarts[j] <= MAX_U32
      {
        EntryInside(items, interval, j * interval);
      }
      forall j | 0 < j < |b.restarts|
        ensures b.restarts[j - 1] < b.restarts[j]
      {
        MulDown(j, interval);
        OffRises(items, interval, (j - 1) * interval, j * interval);
      }
      FewRestarts(items, interval, |b.restarts|);
    }
    ParseLayout(b.buf, RestartsOf(b));
  }

  lemma Covered(n: nat, interval: nat, k: nat)
    requires n > 0 && n <= k * interval
    ensures k > 0
  {
    assert k == 0 ==> k * interval == 0;
  }

  lemma {:induction false} EntryInside(items: seq<Item>, interval: nat, i: nat)
    requires interval > 0 && Encodable(items, interval) && i < |items|
    ensures Off(items, interval, i) < |BuildAll(items, interval).buf| && Off(items, interval, i) <= MAX_U32
  {
    hide BuildAll;
    OffRises(items, interval, i, |items|);
    assert items[..|items|] == items;
  }

  /** There are fewer restarts than bytes before the last entry. */
  lemma FewRestarts(items: seq<Item>, interval: nat, k: nat)
    requires interval > 0 && Encodable(items, interval) && items != [] && k * interval < |items| + interval
    ensures k <= MAX_U32
  {
    hide BuildAll;
    OffRises(items, interval, 0, |items| - 1);
    AtMost(k, interval, |items|);
  }

  lemma AtMost(k: nat, interval: nat, n: nat)
    requires interval > 0 && k * interval < n + interval
    ensures k <= n
  {
    if k > n {
      MulAtLeast(k - 1, interval);
      MulDown(k, interval);
    }
  }

  lemma MulAtLeast(a: nat, m: nat)
    requires m > 0
    ensures a * m >= a
  {
    assert a * m == a * (m - 1) + a;
  }
}
