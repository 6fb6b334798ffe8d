/** Picking a compaction: its input files, and why they form a job. */
module CompactionPick {
  import opened Common
  import opened Keys
  import opened Layers
  import opened Engine
  import opened Compaction
  import opened CompactionSafety
  import opened EngineSteps

  /** Every table is a non-empty run. */
  ghost predicate Runs(ts: seq<Table>) {
    NonEmpty(ts) && forall i | 0 <= i < |ts| :: Ascending(ts[i].recs)
  }

  predicate Outside(t: Table, minKey: Bytes, maxKey: Bytes)
    requires t.recs != []
  {
    KeyLess(LargestKey(t), minKey) || KeyLess(maxKey, SmallestKey(t))
  }

  /** `[minKey, maxKey]` is the least range that holds the bounds of `ts`. */
  ghost predicate Bounds(ts: seq<Table>, minKey: Bytes, maxKey: Bytes)
    requires NonEmpty(ts)
  {
    && (exists i | 0 <= i < |ts| :: SmallestKey(ts[i]) == minKey)
    && (exists i | 0 <= i < |ts| :: LargestKey(ts[i]) == maxKey)
    && (forall i | 0 <= i < |ts| :: KeyLeq(minKey, SmallestKey(ts[i])) && KeyLeq(LargestKey(ts[i]), maxKey))
  }

  lemma {:induction false} LeqLess(a: Bytes, b: Bytes, c: Bytes)
    requires KeyLeq(a, b) && KeyLess(b, c)
    ensures KeyLess(a, c)
  {
    if a != b {
      KeyTransitive(a, b, c);
    }
  }

  lemma {:induction false} LessLeq(a: Bytes, b: Bytes, c: Bytes)
    requires KeyLess(a, b) && KeyLeq(b, c)
    ensures KeyLess(a, c)
  {
    if c != b {
      KeyTransitive(a, b, c);
    }
  }

  lemma LeqTransitive(a: Bytes, b: Bytes, c: Bytes)
    requires KeyLeq(a, b) && KeyLeq(b, c)
    ensures KeyLeq(a, c)
  {
    if a != b {
      LessLeq(a, b, c);
    }
  }

  lemma {:induction false} NotLessLeq(a: Bytes, b: Bytes)
    requires !KeyLess(a, b)
    ensures KeyLeq(b, a)
  {
    KeyTotal(a, b);
  }

  /** The user keys the files span. */
  method UserKeyRange(ts: seq<Table>) returns (minKey: Option<Bytes>, maxKey: Option<Bytes>)
    requires NonEmpty(ts)
    ensures minKey.Some? == maxKey.Some? == (ts != [])
    ensures ts != [] ==> Bounds(ts, minKey.value, maxKey.value)
  {
    hide KeyLess;
    minKey, maxKey := None, None;
    var i := 0;
    while i < |ts|
      invariant 0 <= i <= |ts|
      invariant minKey.Some? == maxKey.Some? == (i > 0)
      invariant i > 0 ==> Bounds(ts[..i], minKey.value, maxKey.value)
    {
      var s, l := SmallestKey(ts[i]), LargestKey(ts[i]);
      ghost var lo, hi := minKey, maxKey;
      if minKey == None || KeyLess(s, minKey.value) {
        minKey := Some(s);
      }
      if maxKey == None || KeyLess(maxKey.value, l) {
        maxKey := Some(l);
      }
      BoundsStep(ts, i, lo, hi, minKey.value, maxKey.value);
      i := i + 1;
    }
    assert ts[..|ts|] == ts;
  }

  lemma BoundsStep(ts: seq<Table>, n: nat, lo: Option<Bytes>, hi: Option<Bytes>, lo': Bytes, hi': Bytes)
    requires n < |ts| && NonEmpty(ts) && lo.Some? == hi.Some? == (n > 0)
    requires n > 0 ==> Bounds(ts[..n], lo.value, hi.value)
    requires var s, l := SmallestKey(ts[n]), LargestKey(ts[n]);
             && lo' == (if lo.None? || KeyLess(s, lo.value) then s else lo.value)
             && hi' == (if hi.None? || KeyLess(hi.value, l) then l else hi.value)
    ensures Bounds(ts[..n + 1], lo', hi')
  {
    hide KeyLess;
    var now := ts[..n + 1];
    assert now[n] == ts[n];
    if n > 0 {
      var i :| 0 <= i < n && SmallestKey(ts[..n][i]) == lo.value;
      var j :| 0 <= j < n && LargestKey(ts[..n][j]) == hi.value;
      assert now[i] == ts[..n][i] && now[j] == ts[..n][j];
      forall k | 0 <= k < |now|
        ensures KeyLeq(lo', SmallestKey(now[k])) && KeyLeq(LargestKey(now[k]), hi')
      {
        if k < n {
          assert now[k] == ts[..n][k];
          LeqTransitive(lo', lo.value, SmallestKey(now[k]));
          LeqTransitive(LargestKey(now[k]), hi.value, hi');
        } else {
          KeyTotal(SmallestKey(ts[n]), lo.value);
          KeyTotal(LargestKey(ts[n]), hi.value);
        }
      }
    }
  }

  /** Every record of the files is within their bounds. */
  lemma {:induction false} RecordsBounded(ts: seq<Table>, minKey: Bytes, maxKey: Bytes, x: Record)
    requires Runs(ts) && Bounds(ts, minKey, maxKey) && x in LevelRun(ts)
    ensures KeyLeq(minKey, x.key) && KeyLeq(x.key, maxKey)
  {
    hide KeyLess, Ascending;
    var i := InOneTable(ts, x);
    WithinBounds(ts[i], x);
    LeqTransitive(minKey, SmallestKey(ts[i]), x.key);
    LeqTransitive(x.key, LargestKey(ts[i]), maxKey);
  }

  /** In a level, an earlier file lies wholly before a later one. */
  lemma {:induction false} FilesOrdered(ts: seq<Table>, j: nat, i: nat)
    requires NonEmpty(ts) && KeyAscending(LevelRun(ts)) && j < i < |ts|
    ensures KeyLess(LargestKey(ts[j]), SmallestKey(ts[i]))
    ensures KeyLess(SmallestKey(ts[j]), SmallestKey(ts[i])) && KeyLess(LargestKey(ts[j]), LargestKey(ts[i]))
  {
    hide KeyLess;
    assert ts == ts[..i] + ts[i..];
    LevelConcat(ts[..i], ts[i..]);
    assert LevelRun(ts) == LevelRun(ts[..i]) + LevelRun(ts[i..]) + [];
    PartsOrdered(LevelRun(ts[..i]), LevelRun(ts[i..]), []);
    TableIn(ts[..i], j);
    TableIn(ts[i..], 0);
    assert ts[..i][j] == ts[j] && ts[i..][0] == ts[i];
  }

  lemma {:induction false} TableIn(ts: seq<Table>, i: nat)
    requires i < |ts|
    ensures forall x | x in ts[i].recs :: x in LevelRun(ts)
  {
    if i > 0 {
      TableIn(ts[1..], i - 1);
    }
  }

  lemma {:induction false} TableSpan(ts: seq<Table>, i: nat)
    requires NonEmpty(ts) && KeyAscending(LevelRun(ts)) && i < |ts|
    ensures KeyLeq(SmallestKey(ts[i]), LargestKey(ts[i]))
  {
    hide KeyLess;
    TableAscends(ts, i);
  }

  /** A file below the range is preceded only by files below the range. */
  lemma {:induction false} BelowEarlier(ts: seq<Table>, j: nat, i: nat, minKey: Bytes, maxKey: Bytes)
    requires NonEmpty(ts) && KeyAscending(LevelRun(ts)) && j < i < |ts| && KeyLeq(minKey, maxKey)
    requires KeyLess(LargestKey(ts[i]), minKey)
    ensures KeyLess(LargestKey(ts[j]), minKey) && !KeyLess(maxKey, SmallestKey(ts[j]))
  {
    hide KeyLess, KeyAscending;
    FilesOrdered(ts, j, i);
    KeyTransitive(LargestKey(ts[j]), LargestKey(ts[i]), minKey);
    TableSpan(ts, j);
    LeqLess(SmallestKey(ts[j]), LargestKey(ts[j]), minKey);
    LessLeq(SmallestKey(ts[j]), minKey, maxKey);
    KeyAsymmetric(SmallestKey(ts[j]), maxKey);
  }

  /** A file above the range is followed only by files above the range. */
  lemma {:induction false} AboveLater(ts: seq<Table>, j: nat, i: nat, maxKey: Bytes)
    requires NonEmpty(ts) && KeyAscending(LevelRun(ts)) && j < i < |ts| && KeyLess(maxKey, SmallestKey(ts[j]))
    ensures KeyLess(maxKey, SmallestKey(ts[i]))
  {
    hide KeyLess, KeyAscending;
    FilesOrdered(ts, j, i);
    KeyTransitive(maxKey, SmallestKey(ts[j]), SmallestKey(ts[i]));
  }

  /** The files whose user-key range meets `[minKey, maxKey]`, and how many precede
      the first: in a level they are neighbours. */
  method Overlapping(ts: seq<Table>, minKey: Bytes, maxKey: Bytes) returns (out: seq<Table>, lo: nat)
    requires NonEmpty(ts) && KeyAscending(LevelRun(ts)) && KeyLeq(minKey, maxKey)
    ensures lo + |out| <= |ts| && out == ts[lo..lo + |out|]
    ensures forall i | lo <= i < lo + |out| :: !Outside(ts[i], minKey, maxKey)
    ensures forall i | 0 <= i < lo :: KeyLess(LargestKey(ts[i]), minKey)
    ensures forall i | lo + |out| <= i < |ts| :: KeyLess(maxKey, SmallestKey(ts[i]))
  {
    hide KeyLess, KeyAscending, LevelRun;
    out, lo := [], 0;
    var i := 0;
    while i < |ts|
      invariant 0 <= i <= |ts| && lo + |out| <= i && out == ts[lo..lo + |out|]
      invariant forall j | 0 <= j < lo :: KeyLess(LargestKey(ts[j]), minKey)
      invariant forall j | lo <= j < lo + |out| :: !Outside(ts[j], minKey, maxKey)
      invariant forall j | lo + |out| <= j < i :: KeyLess(maxKey, SmallestKey(ts[j]))
    {
      if KeyLess(LargestKey(ts[i]), minKey) || KeyLess(maxKey, SmallestKey(ts[i])) {
        if KeyLess(LargestKey(ts[i]), minKey) {
          if lo < i {
            BelowEarlier(ts, lo, i, minKey, maxKey);
          }
          lo := lo + 1;
        }
      } else {
        if lo + |out| < i {
          AboveLater(ts, lo + |out|, i, maxKey);
        }
        out := out + [ts[i]];
      }
      i := i + 1;
    }
  }

  /** Some level deeper than the output could hold the key. */
  method KeyMayExistBelow(below: seq<seq<Table>>, key: Bytes) returns (b: bool)
    requires forall l | 0 <= l < |below| :: NonEmpty(below[l])
    ensures b == MayExistBelow(below, key)
  {
    hide KeyLess;
    var l := 0;
    while l < |below|
      invariant 0 <= l <= |below|
      invariant forall m | 0 <= m < l :: !Spans(below[m], key)
    {
      var i := 0;
      while i < |below[l]|
        invariant 0 <= i <= |below[l]|
        invariant forall j | 0 <= j < i :: !(KeyLeq(SmallestKey(below[l][j]), key) && KeyLeq(key, LargestKey(below[l][j])))
      {
        var t := below[l][i];
        if !KeyLess(key, SmallestKey(t)) && !KeyLess(LargestKey(t), key) {
          NotLessLeq(key, SmallestKey(t));
          NotLessLeq(LargestKey(t), key);
          assert Spans(below[l], key);
          return true;
        }
        if KeyLess(key, SmallestKey(t)) {
          NotLeq(key, SmallestKey(t));
        } else {
          NotLeq(LargestKey(t), key);
        }
        i := i + 1;
      }
      l := l + 1;
    }
    return false;
  }

  lemma {:induction false} NotLeq(a: Bytes, b: Bytes)
    requires KeyLess(a, b)
    ensures !KeyLeq(b, a)
  {
    KeyAsymmetric(a, b);
  }

  /** The files before and after the overlapping ones hold no key of the inputs. */
  lemma {:induction false} Disjoint(ts: seq<Table>, upper: seq<Table>, lo: nat, hi: nat, minKey: Bytes, maxKey: Bytes)
    requires Runs(ts) && Runs(upper) && Bounds(upper, minKey, maxKey) && lo <= hi <= |ts|
    requires forall i | 0 <= i < lo :: KeyLess(LargestKey(ts[i]), minKey)
    requires forall i | hi <= i < |ts| :: KeyLess(maxKey, SmallestKey(ts[i]))
    ensures KeysBefore(LevelRun(ts[..lo]), LevelRun(upper)) && KeysBefore(LevelRun(upper), LevelRun(ts[hi..]))
  {
    hide KeyLess, Ascending, Bounds, LevelRun;
    forall x, y | x in LevelRun(ts[..lo]) && y in LevelRun(upper)
      ensures KeyLess(x.key, y.key)
    {
      var i := InOneTable(ts[..lo], x);
      WithinBounds(ts[i], x);
      RecordsBounded(upper, minKey, maxKey, y);
      LeqLess(x.key, LargestKey(ts[i]), minKey);
      LessLeq(x.key, minKey, y.key);
    }
    forall x, y | x in LevelRun(upper) && y in LevelRun(ts[hi..])
      ensures KeyLess(x.key, y.key)
    {
      var i := InOneTable(ts[hi..], y);
      assert ts[hi..][i] == ts[hi + i];
      WithinBounds(ts[hi + i], y);
      RecordsBounded(upper, minKey, maxKey, x);
      LeqLess(x.key, maxKey, SmallestKey(ts[hi + i]));
      LessLeq(x.key, SmallestKey(ts[hi + i]), y.key);
    }
  }

  /** The rotation cursor's file: the first that starts past the cursor, or the first of all. */
  method RotationIndex(files: seq<Table>, ptr: Option<Record>) returns (idx: nat)
    requires files != [] && NonEmpty(files)
    ensures idx < |files|
    ensures ptr.None? ==> idx == 0
    ensures ptr.Some? ==> forall j | 0 <= j < idx :: !RecLess(ptr.value, files[j].recs[0])
    ensures ptr.Some? ==> RecLess(ptr.value, files[idx].recs[0])
                          || (idx == 0 && forall j | 0 <= j < |files| :: !RecLess(ptr.value, files[j].recs[0]))
  {
    hide RecLess;
    idx := 0;
    if ptr.Some? {
      while idx < |files| && !RecLess(ptr.value, files[idx].recs[0])
        invariant 0 <= idx <= |files|
        invariant forall j | 0 <= j < idx :: !RecLess(ptr.value, files[j].recs[0])
      {
        idx := idx + 1;
      }
      if idx == |files| {
        idx := 0;
      }
    }
  }

  /** Builds the job for a level that scored; the cursor moves to the picked file. */
  method PickCompaction(v: Version, level: nat, ptr: Option<Record>) returns (c: Job, next: Option<Record>)
    requires VersionOk(v) && level + 1 < NUM_LEVELS && v[level] != []
    requires forall i | 0 <= i < |v[0]| :: Ascending(v[0][i].recs)
    ensures JobOk(v, c) && c.level == level
    ensures level == 0 ==> c.upper == v[0] && next == ptr
    ensures level > 0 ==> next == Some(c.upper[0].recs[0])
    ensures Bounded(v, c)
  {
    hide KeyLess, Ascending, KeyAscending, LevelRun, Bounds, KeysBefore, RecLess;
    var upper, idx := v[0], 0;
    next := ptr;
    if level > 0 {
      idx := RotationIndex(v[level], ptr);
      upper := [v[level][idx]];
      next := Some(v[level][idx].recs[0]);
    }
    LevelRuns(v, level);
    LevelRuns(v, level + 1);
    assert Runs(upper);
    var minKey, maxKey := UserKeyRange(upper);
    BoundsOrdered(upper, minKey.value, maxKey.value);
    var lower, lo := Overlapping(v[level + 1], minKey.value, maxKey.value);
    Disjoint(v[level + 1], upper, lo, lo + |lower|, minKey.value, maxKey.value);
    c := Job(level, upper, idx, lo, lo + |lower|);
    assert v[0][0..] == v[0];
  }

  /** The lower inputs are exactly the files that meet the upper inputs' range. */
  ghost predicate Bounded(v: Version, c: Job)
    requires |v| == NUM_LEVELS && JobOk(v, c)
  {
    && NonEmpty(c.upper) && NonEmpty(v[c.level + 1])
    && (exists minKey, maxKey :: Bounds(c.upper, minKey, maxKey) && Meets(v[c.level + 1], c.lo, c.hi, minKey, maxKey))
  }

  /** The files `[lo, hi)` are those that are not outside the range. */
  ghost predicate Meets(ts: seq<Table>, lo: nat, hi: nat, minKey: Bytes, maxKey: Bytes)
    requires NonEmpty(ts)
  {
    forall i | 0 <= i < |ts| :: lo <= i < hi <==> !Outside(ts[i], minKey, maxKey)
  }

  lemma LevelRuns(v: Version, l: nat)
    requires VersionOk(v) && l < NUM_LEVELS && forall i | 0 <= i < |v[0]| :: Ascending(v[0][i].recs)
    ensures Runs(v[l])
  {
    hide KeyLess;
    if l > 0 {
      forall i | 0 <= i < |v[l]|
        ensures Ascending(v[l][i].recs)
      {
        TableAscends(v[l], i);
        KeyAscendingAscends(v[l][i].recs);
      }
    }
  }

  lemma BoundsOrdered(ts: seq<Table>, minKey: Bytes, maxKey: Bytes)
    requires Runs(ts) && ts != [] && Bounds(ts, minKey, maxKey)
    ensures KeyLeq(minKey, maxKey)
  {
    hide KeyLess, Ascending;
    var x := ts[0].recs[0];
    WithinBounds(ts[0], x);
    LeqTransitive(minKey, SmallestKey(ts[0]), LargestKey(ts[0]));
    LeqTransitive(minKey, LargestKey(ts[0]), maxKey);
  }
}
