/** Building a block and moving over one, as objects. */
module BlockIters {
  import opened Common
  import opened Codec
  import opened Keys
  import opened InternalKey
  import opened Block

  lemma {:induction false} AddStep(items: seq<Item>, it: Item, interval: nat)
    requires interval > 0
    ensures BuildAll(items + [it], interval) == AddTo(BuildAll(items, interval), |items|, it, interval)
  {
    hide AddTo;
    assert (items + [it])[..|items|] == items;
  }

  class BlockBuilder {
    const interval: nat
    var buf: Bytes
    var restarts: seq<nat>
    var counter: nat
    var lastKey: Bytes
    var overflowed: bool

    /** The builder holds exactly `items`. */
    ghost predicate Holds(items: seq<Item>)
      reads this
    {
      && interval > 0 && counter == |items|
      && Built(buf, restarts, lastKey) == BuildAll(items, interval)
    }

    constructor (interval: nat)
      requires interval > 0
      ensures this.interval == interval && Holds([]) && !overflowed
    {
      this.interval := interval;
      buf, restarts, counter, lastKey, overflowed := [], [], 0, [], false;
    }

    /** Appends an entry, unless the buffer has outgrown the restart offsets. */
    method Add(key: Bytes, value: Bytes, ghost items: seq<Item>)
      requires Holds(items)
      modifies this
      ensures |old(buf)| > MAX_U32 ==> overflowed && Holds(items)
      ensures |old(buf)| <= MAX_U32 ==> overflowed == old(overflowed) && Holds(items + [Item(key, value)])
    {
      hide EntryBytes, SharedLen, BuildAll;
      AddStep(items, Item(key, value), interval);
      if |buf| > MAX_U32 {
        overflowed := true;
        return;
      }
      var shared := 0;
      if counter % interval == 0 {
        restarts := restarts + [|buf|];
      } else {
        shared := SharedPrefixLen(lastKey, key);
        SharedUnique(lastKey, key, shared);
      }
      buf := buf + EntryBytes(shared, Item(key, value));
      counter := counter + 1;
      lastKey := key;
    }

    function EstimatedSize(): nat
      reads this
    {
      |buf| + 4 * |restarts| + 4
    }

    method Finish(ghost items: seq<Item>) returns (contents: Bytes)
      requires Holds(items)
      modifies this
      ensures contents == Contents(BuildAll(items, interval)) && overflowed == old(overflowed)
    {
      hide PutLE, BuildAll;
      if |restarts| == 0 {
        restarts := [0];
      }
      var out := buf;
      var i := 0;
      assert restarts[0..] == restarts;
      while i < |restarts|
        invariant 0 <= i <= |restarts| && restarts == old(RestartsOf(Built(buf, restarts, lastKey))) && buf == old(buf)
        invariant out + PutAll(restarts[i..]) == buf + PutAll(restarts)
      {
        assert restarts[i..][1..] == restarts[i + 1..];
        out := out + PutLE(restarts[i], 4);
        i := i + 1;
      }
      contents := out + PutLE(|restarts|, 4);
    }

    method Reset()
      requires interval > 0
      modifies this
      ensures Holds([]) && !overflowed
    {
      buf, restarts, counter, lastKey, overflowed := [], [], 0, [], false;
    }
  }

  // ------------------------------------------------------------- searching

  ghost predicate KeysAscend(items: seq<Item>) {
    forall i, j | 0 <= i < j < |items| :: EncLess(items[i].key, items[j].key)
  }

  /** The first item not before `target`, or the end. */
  function FirstFrom(items: seq<Item>, target: Bytes): (n: nat)
    ensures n <= |items| && (forall j | 0 <= j < n :: EncLess(items[j].key, target))
    ensures n < |items| ==> !EncLess(items[n].key, target)
  {
    if items == [] || !EncLess(items[0].key, target) then 0
    else
      var n := FirstFrom(items[1..], target);
      assert forall j | 0 < j < n + 1 :: items[j] == items[1..][j - 1];
      n + 1
  }

  /** In ascending items, whatever sorts from `target` on starts at the first. */
  lemma {:induction false} FirstUnique(items: seq<Item>, target: Bytes, n: nat)
    requires KeysAscend(items) && n <= |items|
    requires n > 0 ==> EncLess(items[n - 1].key, target)
    requires n < |items| ==> !EncLess(items[n].key, target)
    ensures n == FirstFrom(items, target)
  {
    hide EncLess, FirstFrom;
    var m := FirstFrom(items, target);
    if m < n - 1 {
      EncTransitive(items[m].key, items[n - 1].key, target);
    }
  }

  /** The full key at a restart, without moving; None when it is not one. */
  function RestartKey(b: Parsed, i: nat): (r: Option<Bytes>)
    requires i < |b.restarts| && b.restarts[i] < |b.entries|
    ensures r.Some? ==> |r.value| >= TRAILER_LEN
  {
    var rest := b.entries[b.restarts[i]..];
    match GetUvarint(rest, 0)
    case None => None
    case Some(x) =>
      if x.value != 0 then None
      else
        var rest1 := rest[x.width..];
        match GetUvarint(rest1, 0)
        case None => None
        case Some(y) =>
          var rest2 := rest1[y.width..];
          match GetUvarint(rest2, 0)
          case None => None
          case Some(z) =>
            var rest3 := rest2[z.width..];
            if y.value < TRAILER_LEN || y.value > |rest3| then None else Some(rest3[..y.value])
  }

  /** It is the key decoding there yields. */
  lemma RestartKeyDecodes(b: Parsed, i: nat)
    requires i < |b.restarts| && b.restarts[i] < |b.entries|
    requires var d := DecodeAt(b.entries, b.restarts[i], []); d.Some? && d.value.shared == 0
    ensures RestartKey(b, i) == Some(DecodeAt(b.entries, b.restarts[i], []).value.key)
  {
    hide GetUvarint;
    var d := DecodeAt(b.entries, b.restarts[i], []).value;
    var rest := b.entries[b.restarts[i]..];
    var x := GetUvarint(rest, 0).value;
    var rest1 := rest[x.width..];
    var y := GetUvarint(rest1, 0).value;
    var rest2 := rest1[y.width..];
    var z := GetUvarint(rest2, 0).value;
    var rest3 := rest2[z.width..];
    assert d.key == [][..0] + rest3[..y.value];
    assert [][..0] + rest3[..y.value] == rest3[..y.value];
  }

  /** A parsed block that the builder made of `items`. */
  ghost predicate BlockOf(b: Parsed, items: seq<Item>, interval: nat) {
    && interval > 0 && Encodable(items, interval) && KeysAscend(items)
    && b == Parsed(BuildAll(items, interval).buf, RestartsOf(BuildAll(items, interval)))
  }

  lemma RestartIsItem(b: Parsed, items: seq<Item>, interval: nat, j: nat)
    requires BlockOf(b, items, interval) && items != [] && j < |b.restarts|
    ensures j * interval < |items| && b.restarts[j] == Off(items, interval, j * interval) < |b.entries|
    ensures RestartKey(b, j) == Some(items[j * interval].key)
  {
    hide BuildAll, DecodeAt, RestartKey, Encodable, KeysAscend, Off;
    var n := |items|;
    assert items[..n] == items;
    RestartsAre(items, interval, n);
    Covered(n, interval, |BuildAll(items, interval).restarts|);
    MulZeroMod(j, interval);
    DecodeItem(items, interval, j * interval, []);
    assert SharedAt(items, interval, j * interval) == 0;
    RestartKeyDecodes(b, j);
  }

  lemma MulZeroMod(j: nat, m: nat)
    requires m > 0
    ensures (j * m) % m == 0
  {
    ModUnique(j * m, m, j, 0);
  }

  class BlockIter {
    const b: Parsed
    var nextOffset: nat
    var key: Bytes
    var value: Bytes
    var lastShared: nat
    var valid: bool
    var err: bool

    constructor (b: Parsed)
      ensures this.b == b && !valid && !err && key == []
    {
      this.b := b;
      nextOffset, key, value, lastShared, valid, err := 0, [], [], 0, false, false;
    }

    /** Positioned on item `i`. */
    ghost predicate At(items: seq<Item>, interval: nat, i: nat)
      reads this
    {
      && interval > 0 && i < |items| && valid && !err
      && key == items[i].key && value == items[i].value && nextOffset == Off(items, interval, i + 1)
      && lastShared == SharedAt(items, interval, i)
    }

    /** Positioned past the last item. */
    ghost predicate Done()
      reads this
    {
      !valid && !err
    }

    /** Decodes the entry at `nextOffset` onto the current key. */
    method DecodeNext()
      requires !err
      modifies this
      ensures old(nextOffset) >= |b.entries| ==>
                !valid && !err && key == old(key) && value == old(value) && nextOffset == old(nextOffset)
      ensures old(nextOffset) < |b.entries| ==>
                match DecodeAt(b.entries, old(nextOffset), old(key))
                case None => err && !valid
                case Some(d) => valid && !err && key == d.key && value == d.value && nextOffset == d.next && lastShared == d.shared
    {
      hide GetUvarint;
      var off := nextOffset;
      if off >= |b.entries| {
        valid := false;
        return;
      }
      var rest := b.entries[off..];
      var shared := GetUvarint(rest, 0);
      if shared.None? {
        valid, err := false, true;
        return;
      }
      rest := rest[shared.value.width..];
      var unshared := GetUvarint(rest, 0);
      if unshared.None? {
        valid, err := false, true;
        return;
      }
      rest := rest[unshared.value.width..];
      var vlen := GetUvarint(rest, 0);
      if vlen.None? {
        valid, err := false, true;
        return;
      }
      rest := rest[vlen.value.width..];
      if shared.value.value > |key| || unshared.value.value > |rest| || vlen.value.value > |rest| - unshared.value.value {
        valid, err := false, true;
        return;
      }
      key := key[..shared.value.value] + rest[..unshared.value.value];
      if |key| < TRAILER_LEN {
        valid, err := false, true;
        return;
      }
      value := rest[unshared.value.value..unshared.value.value + vlen.value.value];
      lastShared := shared.value.value;
      nextOffset := off + shared.value.width + unshared.value.width + vlen.value.width + unshared.value.value + vlen.value.value;
      valid := true;
    }

    /** At the end of the entries there is no next. */
    lemma EndOfItems(items: seq<Item>, interval: nat, i: nat)
      requires BlockOf(b, items, interval) && i <= |items|
      ensures Off(items, interval, i) < |b.entries| <==> i < |items|
    {
      hide BuildAll, KeysAscend;
      assert items[..|items|] == items;
      OffRises(items, interval, i, |items|);
    }

    method First(ghost items: seq<Item>, ghost interval: nat)
      requires !err
      modifies this
      ensures BlockOf(b, items, interval) ==> if items == [] then Done() else At(items, interval, 0)
      ensures valid ==> !err && nextOffset <= |b.entries| && |key| >= TRAILER_LEN
      ensures err ==> !valid
    {
      hide BuildAll, DecodeAt, Encodable, KeysAscend;
      key := [];
      nextOffset := 0;
      if BlockOf(b, items, interval) {
        StartsAtZero(items, interval);
        EndOfItems(items, interval, 0);
        if items != [] {
          DecodeItem(items, interval, 0, []);
        }
      }
      DecodeNext();
    }

    method Next(ghost items: seq<Item>, ghost interval: nat, ghost i: nat)
      requires valid && !err
      modifies this
      ensures BlockOf(b, items, interval) && old(At(items, interval, i)) ==>
                if i + 1 < |items| then At(items, interval, i + 1) else Done()
      ensures valid ==> !err && old(nextOffset) < nextOffset <= |b.entries| && |key| >= TRAILER_LEN
      ensures err ==> !valid
    {
      hide BuildAll, DecodeAt, Encodable, KeysAscend, Off;
      if BlockOf(b, items, interval) && At(items, interval, i) {
        EndOfItems(items, interval, i + 1);
        if i + 1 < |items| {
          DecodeItem(items, interval, i + 1, key);
        }
      }
      DecodeNext();
    }

    /** Restart entries carry full keys, so the prefix state starts over. */
    method SeekRestart(j: nat, ghost items: seq<Item>, ghost interval: nat)
      requires j < |b.restarts| && !err
      modifies this
      ensures BlockOf(b, items, interval) && items != [] ==> At(items, interval, j * interval)
      ensures valid ==> !err && nextOffset <= |b.entries| && |key| >= TRAILER_LEN
      ensures err ==> !valid
    {
      hide BuildAll, DecodeAt, Encodable, KeysAscend, Off, RestartKey;
      if BlockOf(b, items, interval) && items != [] {
        RestartIsItem(b, items, interval, j);
        MulZeroMod(j, interval);
        DecodeItem(items, interval, j * interval, []);
      }
      key := [];
      nextOffset := b.restarts[j];
      DecodeNext();
    }

    /** The first restart whose key is not before `target`; None on a restart that is not a full key. */
    method SearchRestarts(target: Bytes, ghost items: seq<Item>, ghost interval: nat) returns (r: Option<nat>)
      requires RestartsOk(b.restarts, |b.entries|) && |b.entries| > 0 && |target| >= TRAILER_LEN
      ensures r.Some? ==> r.value <= |b.restarts|
      ensures BlockOf(b, items, interval) && items != [] ==> r.Some? && Splits(b, items, interval, target, r.value)
    {
      hide BlockOf, EncLess, RestartKey;
      var lo, hi := 0, |b.restarts|;
      ghost var built := BlockOf(b, items, interval) && items != [];
      if built {
        SplitStart(b, items, interval, target);
      }
      while lo < hi
        invariant 0 <= lo <= hi <= |b.restarts|
        invariant built ==> SplitSo(b, items, interval, target, lo, hi)
      {
        var mid := (lo + hi) / 2;
        var k := RestartKey(b, mid);
        if built {
          RestartIsItem(b, items, interval, mid);
          SplitStep(b, items, interval, target, lo, hi, mid);
        }
        if k.None? {
          return None;
        }
        if !EncLess(k.value, target) {
          hi := mid;
        } else {
          lo := mid + 1;
        }
      }
      r := Some(lo);
    }

    /** Positions at the first item not before `target`. */
    method SeekGE(target: Bytes, ghost items: seq<Item>, ghost interval: nat)
      requires RestartsOk(b.restarts, |b.entries|) && |b.restarts| > 0 && |target| >= TRAILER_LEN && !err
      modifies this
      ensures BlockOf(b, items, interval) ==>
                var n := FirstFrom(items, target); if n < |items| then At(items, interval, n) else Done()
      ensures err ==> !valid
      ensures valid ==> |key| >= TRAILER_LEN
    {
      hide DecodeAt, RestartKey, EncLess, FirstFrom, BlockOf, At, SharedAt;
      ghost var built := BlockOf(b, items, interval);
      if built {
        EmptyBlock(b, items, interval);
      }
      if |b.entries| == 0 {
        valid := false;
        return;
      }
      var i := SearchRestarts(target, items, interval);
      if i.None? {
        valid, err := false, true;
        return;
      }
      var start := if i.value > 0 then i.value - 1 else 0;
      SeekRestart(start, items, interval);
      ghost var n: nat := start * interval;
      if built {
        BeforeStart(b, items, interval, start, n, target, i.value);
      }
      while valid && EncLess(key, target)
        invariant err ==> !valid
        invariant valid ==> nextOffset <= |b.entries| && |key| >= TRAILER_LEN
        invariant built ==> n <= |items| && (if n < |items| then At(items, interval, n) else Done())
        invariant built ==> n > 0 ==> EncLess(items[n - 1].key, target)
        decreases valid, |b.entries| - nextOffset
      {
        ghost var k := key;
        if built {
          StandsOn(items, interval, n);
        }
        Next(items, interval, n);
        n := n + 1;
      }
      if built {
        if n < |items| {
          StandsOn(items, interval, n);
        }
        FirstOfBlock(b, items, interval, target, n);
      }
    }

    lemma StandsOn(items: seq<Item>, interval: nat, n: nat)
      requires n < |items| ==> At(items, interval, n)
      ensures n < |items| ==> valid && key == items[n].key
    {
    }
  }

  /** The restarts before `i` sort before `target`, those from `i` on do not. */
  ghost predicate Splits(b: Parsed, items: seq<Item>, interval: nat, target: Bytes, i: nat) {
    SplitSo(b, items, interval, target, i, i)
  }

  /** The restarts before `lo` sort before `target`, those from `hi` on do not. */
  ghost predicate SplitSo(b: Parsed, items: seq<Item>, interval: nat, target: Bytes, lo: nat, hi: nat) {
    && lo <= hi <= |b.restarts| && (forall j | 0 <= j < |b.restarts| :: j * interval < |items|)
    && (forall j | 0 <= j < lo :: EncLess(items[j * interval].key, target))
    && (forall j | hi <= j < |b.restarts| :: !EncLess(items[j * interval].key, target))
  }

  lemma SplitStart(b: Parsed, items: seq<Item>, interval: nat, target: Bytes)
    requires BlockOf(b, items, interval) && items != []
    ensures SplitSo(b, items, interval, target, 0, |b.restarts|)
  {
    hide BlockOf, EncLess, RestartKey;
    forall j | 0 <= j < |b.restarts|
      ensures j * interval < |items|
    {
      RestartIsItem(b, items, interval, j);
    }
  }

  lemma SplitStep(b: Parsed, items: seq<Item>, interval: nat, target: Bytes, lo: nat, hi: nat, mid: nat)
    requires BlockOf(b, items, interval) && SplitSo(b, items, interval, target, lo, hi) && lo <= mid < hi
    ensures if EncLess(items[mid * interval].key, target) then SplitSo(b, items, interval, target, mid + 1, hi)
            else SplitSo(b, items, interval, target, lo, mid)
  {
    hide BlockOf, EncLess;
    if EncLess(items[mid * interval].key, target) {
      forall j | 0 <= j <= mid
        ensures EncLess(items[j * interval].key, target)
      {
        EarlierItem(b, items, interval, j, mid, target);
      }
    } else {
      forall j | mid <= j < |b.restarts|
        ensures !EncLess(items[j * interval].key, target)
      {
        LaterItem(b, items, interval, mid, j, target);
      }
    }
  }

  lemma {:induction false} EmptyBlock(b: Parsed, items: seq<Item>, interval: nat)
    requires BlockOf(b, items, interval)
    ensures |b.entries| == 0 <==> items == []
    ensures items == [] ==> forall target :: FirstFrom(items, target) == 0
  {
    hide BuildAll, KeysAscend, FirstFrom;
    assert items[..|items|] == items;
    StartsAtZero(items, interval);
    OffRises(items, interval, 0, |items|);
  }

  lemma {:induction false} FirstOfBlock(b: Parsed, items: seq<Item>, interval: nat, target: Bytes, n: nat)
    requires BlockOf(b, items, interval) && n <= |items|
    requires n > 0 ==> EncLess(items[n - 1].key, target)
    requires n < |items| ==> !EncLess(items[n].key, target)
    ensures n == FirstFrom(items, target)
  {
    hide EncLess, FirstFrom, BuildAll, Encodable;
    FirstUnique(items, target, n);
  }

  lemma StartsAtZero(items: seq<Item>, interval: nat)
    requires interval > 0
    ensures Off(items, interval, 0) == 0
  {
    NoItems(interval);
    assert items[..0] == [];
  }

  lemma BeforeStart(b: Parsed, items: seq<Item>, interval: nat, start: nat, n: nat, target: Bytes, i: nat)
    requires BlockOf(b, items, interval) && items != [] && n == start * interval && Splits(b, items, interval, target, i)
    requires start == (if i > 0 then i - 1 else 0) && |b.restarts| > 0
    ensures n < |items| && (n > 0 ==> EncLess(items[n - 1].key, target))
  {
    hide EncLess, BuildAll, Encodable;
    assert start == 0 ==> start * interval == 0;
    if n > 0 {
      EncTransitive(items[n - 1].key, items[n].key, target);
    }
  }

  lemma EarlierItem(b: Parsed, items: seq<Item>, interval: nat, i: nat, j: nat, target: Bytes)
    requires BlockOf(b, items, interval) && i <= j && j * interval < |items| && i * interval < |items|
    requires EncLess(items[j * interval].key, target)
    ensures EncLess(items[i * interval].key, target)
  {
    hide EncLess, Encodable, BuildAll;
    if i < j {
      MulGrows(i, j, interval);
      EncTransitive(items[i * interval].key, items[j * interval].key, target);
    }
  }

  lemma LaterItem(b: Parsed, items: seq<Item>, interval: nat, i: nat, j: nat, target: Bytes)
    requires BlockOf(b, items, interval) && i <= j && j * interval < |items| && i * interval < |items|
    requires !EncLess(items[i * interval].key, target)
    ensures !EncLess(items[j * interval].key, target)
  {
    hide EncLess, Encodable, BuildAll;
    if EncLess(items[j * interval].key, target) {
      EarlierItem(b, items, interval, i, j, target);
    }
  }

  lemma MulGrows(i: nat, j: nat, m: nat)
    requires i < j && m > 0
    ensures i * m < j * m
  {
    assert (j - i) * m >= m by { MulAtLeast(j - i, m); MulLess(j - i, 1, m); }
    MulLess(j, i, m);
  }
}
