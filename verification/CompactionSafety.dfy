/** Replacing a compaction's inputs by its outputs leaves every read unchanged
    and re-establishes the shape of the levels. */
module CompactionSafety {
  import opened Common
  import opened Keys
  import opened Layers
  import opened Engine
  import opened Compaction
  import opened EngineSteps

  // ------------------------------------------------------------ the install

  function Lower(v: Version, c: Job): seq<Table>
    requires c.level + 1 < |v| && c.lo <= c.hi <= |v[c.level + 1]|
  {
    v[c.level + 1][c.lo..c.hi]
  }

  /** What the source level keeps. */
  function Remaining(v: Version, c: Job): seq<Table>
    requires |v| == NUM_LEVELS && JobOk(v, c)
  {
    if c.level == 0 then v[0][..|v[0]| - |c.upper|] else v[c.level][..c.index] + v[c.level][c.index + 1..]
  }

  function Below(v: Version, c: Job): seq<seq<Table>>
    requires c.level + 2 <= |v|
  {
    v[c.level + 2..]
  }

  /** The version after the edit that deletes the inputs and adds `outs`. */
  function Installed(v: Version, c: Job, outs: seq<Table>): (w: Version)
    requires |v| == NUM_LEVELS && JobOk(v, c)
    ensures |w| == NUM_LEVELS
  {
    v[c.level := Remaining(v, c)][c.level + 1 := v[c.level + 1][..c.lo] + outs + v[c.level + 1][c.hi..]]
  }

  /** `merged` is the inputs in internal-key order. */
  ghost predicate Merges(v: Version, c: Job, merged: seq<Record>)
    requires |v| == NUM_LEVELS && JobOk(v, c)
  {
    Ascending(merged) && Elems(merged) == Elems(LevelRun(c.upper)) + Elems(LevelRun(Lower(v, c)))
  }

  /** `outs` is what the merge loop writes, cut into files anywhere. */
  ghost predicate Writes(v: Version, c: Job, merged: seq<Record>, outs: seq<Table>)
    requires |v| == NUM_LEVELS && JobOk(v, c)
  {
    NonEmpty(outs) && LevelRun(outs) == Kept(merged, Below(v, c), None)
  }

  function Install(e: Engine, outs: seq<Table>): Engine
    requires |e.version| == NUM_LEVELS && e.compaction.Some? && JobOk(e.version, e.compaction.value)
  {
    e.(version := Installed(e.version, e.compaction.value, outs), compaction := None, lastSeq := e.raisedSeq)
  }

  /** The upper inputs are a slice of their level, and the rest of it remains. */
  lemma UpperSlice(v: Version, c: Job) returns (lo: nat, hi: nat)
    requires |v| == NUM_LEVELS && JobOk(v, c)
    ensures lo <= hi <= |v[c.level]| && c.upper == v[c.level][lo..hi]
    ensures Remaining(v, c) == v[c.level][..lo] + v[c.level][hi..]
  {
    hide KeysBefore, LevelRun;
    if c.level == 0 {
      lo, hi := |v[0]| - |c.upper|, |v[0]|;
    } else {
      lo, hi := c.index, c.index + 1;
    }
  }

  // ------------------------------------------------ the stack, cut in four

  function DeepTo(v: Version, a: nat, b: nat): Stack
    requires a <= b <= |v|
    decreases b - a
  {
    if a == b then [] else [LevelRun(v[a])] + DeepTo(v, a + 1, b)
  }

  lemma {:induction false} DeepSplit(v: Version, a: nat, b: nat)
    requires a <= b <= |v|
    ensures DeepRuns(v, a) == DeepTo(v, a, b) + DeepRuns(v, b)
    decreases b - a
  {
    if a < b {
      DeepSplit(v, a + 1, b);
    }
  }

  lemma {:induction false} DeepToSame(v: Version, w: Version, a: nat, b: nat)
    requires a <= b <= |v| == |w| && forall i | a <= i < b :: v[i] == w[i]
    ensures DeepTo(v, a, b) == DeepTo(w, a, b)
    decreases b - a
  {
    if a < b {
      DeepToSame(v, w, a + 1, b);
    }
  }

  /** Layers above the source level's inputs. */
  function Pre(v: Version, c: Job): Stack
    requires |v| == NUM_LEVELS && JobOk(v, c)
  {
    if c.level == 0 then TableRuns(Remaining(v, c)) else TableRuns(v[0]) + DeepTo(v, 1, c.level)
  }

  /** The layers the upper inputs live in. */
  function Source(v: Version, c: Job): Stack
    requires |v| == NUM_LEVELS && JobOk(v, c)
  {
    if c.level == 0 then TableRuns(c.upper) else [LevelRun(v[c.level])]
  }

  function Leftover(v: Version, c: Job): Stack
    requires |v| == NUM_LEVELS && JobOk(v, c)
  {
    if c.level == 0 then [] else [LevelRun(Remaining(v, c))]
  }

  function Post(v: Version, c: Job): Stack
    requires c.level + 2 <= |v|
  {
    DeepRuns(v, c.level + 2)
  }

  lemma StackBefore(v: Version, c: Job)
    requires |v| == NUM_LEVELS && JobOk(v, c)
    ensures VersionStack(v) == Pre(v, c) + Source(v, c) + [LevelRun(v[c.level + 1])] + Post(v, c)
  {
    hide KeysBefore, LevelRun, TableRuns, DeepRuns, DeepTo, VersionStack;
    if c.level == 0 {
      FrontLevel(v, c);
    } else {
      DeepLevels(v, c.level);
    }
  }

  lemma {:induction false} FrontLevel(v: Version, c: Job)
    requires |v| == NUM_LEVELS && JobOk(v, c) && c.level == 0
    ensures VersionStack(v) == TableRuns(Remaining(v, c)) + TableRuns(c.upper) + [LevelRun(v[1])] + DeepRuns(v, 2)
  {
    hide KeysBefore, LevelRun;
    assert v[0] == Remaining(v, c) + c.upper;
    RunsConcat(Remaining(v, c), c.upper);
    assert DeepRuns(v, 1) == [LevelRun(v[1])] + DeepRuns(v, 2);
  }

  lemma {:induction false} DeepLevels(v: Version, l: nat)
    requires 1 <= l && l + 1 < |v|
    ensures VersionStack(v) == TableRuns(v[0]) + DeepTo(v, 1, l) + [LevelRun(v[l])] + [LevelRun(v[l + 1])] + DeepRuns(v, l + 2)
  {
    hide LevelRun, TableRuns, DeepRuns, DeepTo;
    DeepSplit(v, 1, l);
    DeepHead(v, l);
    DeepHead(v, l + 1);
    Regroup(TableRuns(v[0]), DeepTo(v, 1, l), LevelRun(v[l]), LevelRun(v[l + 1]), DeepRuns(v, l + 2));
  }

  lemma {:induction false} DeepHead(v: Version, l: nat)
    requires l < |v|
    ensures DeepRuns(v, l) == [LevelRun(v[l])] + DeepRuns(v, l + 1)
  {
  }

  lemma Regroup(a: Stack, b: Stack, x: seq<Record>, y: seq<Record>, d: Stack)
    ensures a + (b + ([x] + ([y] + d))) == a + b + [x] + [y] + d
  {
  }

  lemma StackAfter(v: Version, c: Job, outs: seq<Table>)
    requires |v| == NUM_LEVELS && JobOk(v, c)
    ensures var w := Installed(v, c, outs);
            |w| == NUM_LEVELS && VersionStack(w) == Pre(v, c) + Leftover(v, c) + [LevelRun(w[c.level + 1])] + Post(v, c)
  {
    hide KeysBefore, LevelRun, DeepRuns, DeepTo;
    var w := Installed(v, c, outs);
    DeepSame(v, w, c.level + 2);
    if c.level == 0 {
      DeepHead(w, 1);
    } else {
      DeepLevels(w, c.level);
      DeepToSame(v, w, 1, c.level);
    }
  }

  // -------------------------------------------------------- the output level

  ghost function Inputs(v: Version, c: Job): set<Record>
    requires |v| == NUM_LEVELS && JobOk(v, c)
  {
    Elems(LevelRun(c.upper)) + Elems(LevelRun(Lower(v, c)))
  }

  lemma LowerSplit(v: Version, c: Job)
    requires |v| == NUM_LEVELS && JobOk(v, c)
    ensures LevelRun(v[c.level + 1])
            == LevelRun(v[c.level + 1][..c.lo]) + LevelRun(Lower(v, c)) + LevelRun(v[c.level + 1][c.hi..])
  {
    hide KeysBefore;
    var o := v[c.level + 1];
    assert o == o[..c.lo] + Lower(v, c) + o[c.hi..];
    LevelConcat(o[..c.lo] + Lower(v, c), o[c.hi..]);
    LevelConcat(o[..c.lo], Lower(v, c));
  }

  lemma {:induction false} OutputRun(v: Version, c: Job, outs: seq<Table>)
    requires |v| == NUM_LEVELS && JobOk(v, c)
    ensures LevelRun(Installed(v, c, outs)[c.level + 1])
            == LevelRun(v[c.level + 1][..c.lo]) + LevelRun(outs) + LevelRun(v[c.level + 1][c.hi..])
  {
    hide KeysBefore;
    var o := v[c.level + 1];
    LevelConcat(o[..c.lo] + outs, o[c.hi..]);
    LevelConcat(o[..c.lo], outs);
  }

  /** In an ascending run cut in three, the parts' keys are in order. */
  lemma PartsOrdered(a: seq<Record>, b: seq<Record>, d: seq<Record>)
    requires KeyAscending(a + b + d)
    ensures KeyAscending(a) && KeyAscending(b) && KeyAscending(d)
    ensures KeysBefore(a, b) && KeysBefore(a, d) && KeysBefore(b, d)
  {
    hide KeyLess;
    var r := a + b + d;
    assert forall i | 0 <= i < |a| :: r[i] == a[i];
    assert forall i | 0 <= i < |b| :: r[|a| + i] == b[i];
    assert forall i | 0 <= i < |d| :: r[|a| + |b| + i] == d[i];
  }

  lemma PartsAscend(a: seq<Record>, b: seq<Record>, d: seq<Record>)
    requires KeyAscending(a) && KeyAscending(b) && KeyAscending(d)
    requires KeysBefore(a, b) && KeysBefore(a, d) && KeysBefore(b, d)
    ensures KeyAscending(a + b + d)
  {
    hide KeyLess;
    var r := a + b + d;
    forall i, j | 0 <= i < j < |r|
      ensures KeyLess(r[i].key, r[j].key)
    {
      assert r[i] == if i < |a| then a[i] else if i < |a| + |b| then b[i - |a|] else d[i - |a| - |b|];
      assert r[j] == if j < |a| then a[j] else if j < |a| + |b| then b[j - |a|] else d[j - |a| - |b|];
    }
  }

  /** Survivors fit between the untouched files on either side. */
  lemma SurvivorsFit(v: Version, c: Job, kept: seq<Record>)
    requires |v| == NUM_LEVELS && JobOk(v, c) && KeyAscending(LevelRun(v[c.level + 1]))
    requires KeyAscending(kept) && Elems(kept) <= Inputs(v, c)
    ensures var o := v[c.level + 1]; KeyAscending(LevelRun(o[..c.lo]) + kept + LevelRun(o[c.hi..]))
  {
    hide KeyLess, KeyAscending, LevelRun;
    var o := v[c.level + 1];
    var a, b, d := LevelRun(o[..c.lo]), LevelRun(Lower(v, c)), LevelRun(o[c.hi..]);
    LowerSplit(v, c);
    PartsOrdered(a, b, d);
    forall x, y | x in a && y in kept
      ensures KeyLess(x.key, y.key)
    {
      assert y in Elems(kept);
    }
    forall x, y | x in kept && y in d
      ensures KeyLess(x.key, y.key)
    {
      assert x in Elems(kept);
    }
    PartsAscend(a, kept, d);
  }

  /** A sub-list of a level keeps its order. */
  lemma RemainingAscends(v: Version, c: Job)
    requires VersionOk(v) && JobOk(v, c) && c.level > 0
    ensures KeyAscending(LevelRun(Remaining(v, c)))
    ensures LevelRun(v[c.level]) == LevelRun(v[c.level][..c.index]) + LevelRun(c.upper) + LevelRun(v[c.level][c.index + 1..])
    ensures LevelRun(Remaining(v, c)) == LevelRun(v[c.level][..c.index]) + LevelRun(v[c.level][c.index + 1..])
  {
    hide KeyLess, KeyAscending, KeysBefore, LevelRun;
    var s := v[c.level];
    assert s == s[..c.index] + c.upper + s[c.index + 1..];
    LevelConcat(s[..c.index] + c.upper, s[c.index + 1..]);
    LevelConcat(s[..c.index], c.upper);
    LevelConcat(s[..c.index], s[c.index + 1..]);
    var a, d := LevelRun(s[..c.index]), LevelRun(s[c.index + 1..]);
    PartsOrdered(a, LevelRun(c.upper), d);
    assert a + [] + d == a + d;
    PartsAscend(a, [], d) by {
      assert KeyAscending([]) && KeysBefore(a, []) && KeysBefore([], d) by { EmptyParts(a, d); }
    }
  }

  lemma EmptyParts(a: seq<Record>, d: seq<Record>)
    ensures KeyAscending([]) && KeysBefore(a, []) && KeysBefore([], d)
  {
  }

  lemma InstalledVersionOk(v: Version, c: Job, merged: seq<Record>, outs: seq<Table>)
    requires VersionOk(v) && JobOk(v, c) && Merges(v, c, merged) && Writes(v, c, merged, outs)
    ensures VersionOk(Installed(v, c, outs))
  {
    hide KeyAscending, LevelRun, Ascending, KeysBefore;
    var w := Installed(v, c, outs);
    var kept := Kept(merged, Below(v, c), None);
    KeptAscends(merged, Below(v, c), None);
    KeptInputs(merged, Below(v, c));
    SurvivorsFit(v, c, kept);
    OutputRun(v, c, outs);
    if c.level > 0 {
      RemainingAscends(v, c);
    }
  }

  lemma {:induction false} KeptInputs(merged: seq<Record>, below: seq<seq<Table>>)
    requires Ascending(merged)
    ensures Elems(Kept(merged, below, None)) <= Elems(merged)
  {
    forall x | x in Kept(merged, below, None)
      ensures x in merged
    {
      KeptExactly(merged, below, None, x);
    }
  }

  // --------------------------------------------------------------- recency

  lemma FourParts(p: Stack, s: Stack, o: seq<Record>, b: Stack)
    ensures All(p + s + [o] + b) == All(p) + All(s) + Elems(o) + All(b)
    ensures Sorted(p + s + [o] + b) <==> Sorted(p) && Sorted(s) && Ascending(o) && Sorted(b)
    ensures Recent(p + s + [o] + b) <==>
              && Recent(p) && Recent(s) && Recent(b)
              && OverAll(All(p), All(s)) && OverAll(All(p) + All(s), Elems(o)) && OverAll(All(p) + All(s) + Elems(o), All(b))
  {
    hide Recent, Sorted, All, OverAll;
    AllConcat(p, s);
    AllConcat(p + s, [o]);
    AllConcat(p + s + [o], b);
    AllSingle(o);
    SortedConcat(p, s);
    SortedConcat(p + s, [o]);
    SortedConcat(p + s + [o], b);
    RecentConcat(p, s);
    RecentConcat(p + s, [o]);
    RecentConcat(p + s + [o], b);
    assert Recent([o]) && (Sorted([o]) <==> Ascending(o)) by { OneLayer(o); }
  }

  lemma OneLayer(o: seq<Record>)
    ensures Recent([o]) && (Sorted([o]) <==> Ascending(o))
  {
    hide Ascending;
    assert [o][0] == o;
  }

  /** The job on a version whose levels are in order, with its merge and its survivors. */
  ghost predicate Ready(v: Version, c: Job, merged: seq<Record>, outs: seq<Table>) {
    && |v| == NUM_LEVELS && VersionOk(v) && JobOk(v, c) && Merges(v, c, merged) && Writes(v, c, merged, outs)
  }

  ghost function OutSet(v: Version, c: Job, outs: seq<Table>): set<Record>
    requires |v| == NUM_LEVELS && JobOk(v, c)
  {
    Elems(LevelRun(Installed(v, c, outs)[c.level + 1]))
  }

  /** The records of a run in three parts. */
  lemma ThreeParts(a: seq<Record>, b: seq<Record>, d: seq<Record>)
    ensures Elems(a + b + d) == Elems(a) + Elems(b) + Elems(d)
  {
    forall x
      ensures x in a + b + d <==> x in a || x in b || x in d
    {
    }
  }

  /** Where the records of the output level come from. */
  lemma {:induction false} Provenance(v: Version, c: Job, merged: seq<Record>, outs: seq<Table>)
    requires Ready(v, c, merged, outs)
    ensures var o := v[c.level + 1];
            && Elems(LevelRun(o)) == Elems(LevelRun(o[..c.lo])) + Elems(LevelRun(Lower(v, c))) + Elems(LevelRun(o[c.hi..]))
            && OutSet(v, c, outs) == Elems(LevelRun(o[..c.lo])) + Elems(Kept(merged, Below(v, c), None)) + Elems(LevelRun(o[c.hi..]))
            && Elems(Kept(merged, Below(v, c), None)) <= Inputs(v, c)
  {
    hide KeyAscending, Ascending, KeysBefore, VersionOk, Kept, LevelRun, Elems;
    var o := v[c.level + 1];
    LowerSplit(v, c);
    OutputRun(v, c, outs);
    KeptInputs(merged, Below(v, c));
    ThreeParts(LevelRun(o[..c.lo]), LevelRun(Lower(v, c)), LevelRun(o[c.hi..]));
    ThreeParts(LevelRun(o[..c.lo]), LevelRun(outs), LevelRun(o[c.hi..]));
  }

  /** Where the records of the source layers go. */
  lemma SourceParts(v: Version, c: Job)
    requires VersionOk(v) && JobOk(v, c)
    ensures All(Source(v, c)) == All(Leftover(v, c)) + Elems(LevelRun(c.upper))
  {
    hide KeyAscending, Ascending, KeysBefore, All, LevelRun;
    if c.level == 0 {
      SameRecords(c.upper);
      assert All([]) == {} by { AllNone(); }
    } else {
      RemainingAscends(v, c);
      var a, d := LevelRun(v[c.level][..c.index]), LevelRun(v[c.level][c.index + 1..]);
      AllSingle(LevelRun(v[c.level]));
      AllSingle(LevelRun(Remaining(v, c)));
      ThreeParts(a, LevelRun(c.upper), d);
      ThreeParts(a, [], d);
      assert a + [] + d == a + d;
    }
  }

  lemma AllNone()
    ensures All([]) == {}
  {
  }

  /** The leftover of a deeper source level shares no key with the file that left. */
  lemma LeftoverApart(v: Version, c: Job, x: Record, y: Record)
    requires VersionOk(v) && JobOk(v, c) && x in All(Leftover(v, c)) && y in LevelRun(c.upper)
    ensures x.key != y.key
  {
    hide KeyLess, LevelRun;
    assert c.level > 0;
    RemainingAscends(v, c);
    AllSingle(LevelRun(Remaining(v, c)));
    PartsOrdered(LevelRun(v[c.level][..c.index]), LevelRun(c.upper), LevelRun(v[c.level][c.index + 1..]));
    KeyIrreflexive(x.key);
  }

  lemma InstalledRecent(p: Stack, v: Version, c: Job, merged: seq<Record>, outs: seq<Table>)
    requires Ready(v, c, merged, outs)
    requires Recent(p + Source(v, c) + [LevelRun(v[c.level + 1])] + Post(v, c))
    ensures Recent(p + Leftover(v, c) + [LevelRun(Installed(v, c, outs)[c.level + 1])] + Post(v, c))
  {
    hide KeysBefore, Ascending, KeyAscending, VersionOk, Kept, Source, Post, Leftover, Merges, Writes, Recent, All, LevelRun, Installed;
    FourParts(p, Source(v, c), LevelRun(v[c.level + 1]), Post(v, c));
    FourParts(p, Leftover(v, c), LevelRun(Installed(v, c, outs)[c.level + 1]), Post(v, c));
    Provenance(v, c, merged, outs);
    SourceParts(v, c);
    assert Recent(Leftover(v, c)) by { LeftoverRecent(v, c); }
    forall x, y | x in All(Leftover(v, c)) && y in OutSet(v, c, outs) && x.key == y.key
      ensures x.seqno > y.seqno
    {
      if y in Elems(LevelRun(c.upper)) {
        LeftoverApart(v, c, x, y);
      }
    }
  }

  lemma LeftoverRecent(v: Version, c: Job)
    requires |v| == NUM_LEVELS && JobOk(v, c)
    ensures Recent(Leftover(v, c))
  {
    if c.level > 0 {
      OneLayer(LevelRun(Remaining(v, c)));
    }
  }

  // ----------------------------------------------------------- the history

  lemma {:induction false} InOneTable(ts: seq<Table>, x: Record) returns (i: nat)
    requires x in LevelRun(ts)
    ensures i < |ts| && x in ts[i].recs
  {
    if x in ts[0].recs {
      i := 0;
    } else {
      var j := InOneTable(ts[1..], x);
      i := j + 1;
    }
  }

  /** A table's records lie between its bounds. */
  lemma WithinBounds(t: Table, x: Record)
    requires Ascending(t.recs) && x in t.recs
    ensures KeyLeq(SmallestKey(t), x.key) && KeyLeq(x.key, LargestKey(t))
  {
    hide KeyLess;
    var i :| 0 <= i < |t.recs| && t.recs[i] == x;
    assert i == 0 || RecLess(t.recs[0], t.recs[i]);
    assert i == |t.recs| - 1 || RecLess(t.recs[i], t.recs[|t.recs| - 1]);
  }

  lemma {:induction false} TableAscends(ts: seq<Table>, i: nat)
    requires KeyAscending(LevelRun(ts)) && i < |ts|
    ensures KeyAscending(ts[i].recs)
  {
    hide KeyLess;
    var rest := LevelRun(ts[1..]);
    assert ts[0].recs + rest + [] == LevelRun(ts);
    PartsOrdered(ts[0].recs, rest, []);
    if i > 0 {
      TableAscends(ts[1..], i - 1);
    }
  }

  lemma {:induction false} LevelSpans(ts: seq<Table>, x: Record)
    requires KeyAscending(LevelRun(ts)) && NonEmpty(ts) && x in LevelRun(ts)
    ensures Spans(ts, x.key)
  {
    hide KeyLess;
    var i := InOneTable(ts, x);
    TableAscends(ts, i);
    KeyAscendingAscends(ts[i].recs);
    WithinBounds(ts[i], x);
  }

  lemma {:induction false} InDeepLevel(v: Version, l: nat, x: Record) returns (i: nat)
    requires x in All(DeepRuns(v, l))
    ensures l <= i < |v| && x in LevelRun(v[i])
    decreases |v| - l
  {
    assert l < |v|;
    AllConcat([LevelRun(v[l])], DeepRuns(v, l + 1));
    AllSingle(LevelRun(v[l]));
    if x in LevelRun(v[l]) {
      i := l;
    } else {
      i := InDeepLevel(v, l + 1, x);
    }
  }

  /** A key no deeper table spans is in no deeper level. */
  lemma NothingBelow(v: Version, c: Job, x: Record)
    requires VersionOk(v) && JobOk(v, c) && x in All(Post(v, c))
    ensures MayExistBelow(Below(v, c), x.key)
  {
    hide KeyAscending, Spans, LevelRun, KeysBefore;
    var i := InDeepLevel(v, c.level + 2, x);
    assert NonEmpty(v[i]);
    LevelSpans(v[i], x);
    assert Below(v, c)[i - c.level - 2] == v[i];
  }

  /** A record that disappeared was an input that did not survive. */
  lemma {:induction false} DroppedInput(v: Version, c: Job, merged: seq<Record>, outs: seq<Table>, x: Record)
    requires Ready(v, c, merged, outs)
    requires x in All(Source(v, c)) + Elems(LevelRun(v[c.level + 1]))
    requires x !in All(Leftover(v, c)) + OutSet(v, c, outs)
    ensures x in merged && x !in Kept(merged, Below(v, c), None)
  {
    hide KeyAscending, Ascending, KeysBefore, VersionOk, Kept, Source, Leftover, All, LevelRun, Installed;
    Provenance(v, c, merged, outs);
    SourceParts(v, c);
    assert x in Elems(merged);
  }

  /** The last write of a key, once dropped, was a collectable tombstone. */
  lemma {:induction false} DroppedLatest(v: Version, c: Job, merged: seq<Record>, outs: seq<Table>, ops: Ops, i: nat)
    requires Ready(v, c, merged, outs) && Numbered(ops) && Latest(ops, |ops|, i)
    requires Authentic(Elems(merged), ops)
    requires ops[i] in merged && ops[i] !in Kept(merged, Below(v, c), None)
    ensures Top(merged, ops[i]) && Collectable(Below(v, c), ops[i])
  {
    hide KeyAscending, Ascending, KeysBefore, VersionOk, Kept, MayExistBelow, KeyLess;
    var x := ops[i];
    KeptExactly(merged, Below(v, c), None, x);
    forall q | q in merged && q.key == x.key
      ensures q == x || RecLess(x, q)
    {
      assert q in Elems(merged);
      assert ops[q.seqno - 1] == q;
      assert q.seqno - 1 <= i;
    }
  }

  /** Nothing of a collected key is left in the new stack. */
  lemma {:induction false} CollectedGone(p: Stack, v: Version, c: Job, merged: seq<Record>, outs: seq<Table>, ops: Ops, i: nat, q: Record)
    requires Ready(v, c, merged, outs) && Numbered(ops) && Latest(ops, |ops|, i)
    requires Recent(p + Source(v, c) + [LevelRun(v[c.level + 1])] + Post(v, c))
    requires Authentic(All(p + Source(v, c) + [LevelRun(v[c.level + 1])] + Post(v, c)), ops)
    requires ops[i] in All(Source(v, c)) + Elems(LevelRun(v[c.level + 1]))
    requires ops[i] !in All(Leftover(v, c)) + OutSet(v, c, outs)
    requires Top(merged, ops[i]) && Collectable(Below(v, c), ops[i]) && ops[i] in merged
    requires ops[i] !in Kept(merged, Below(v, c), None)
    requires q in All(p) + All(Leftover(v, c)) + OutSet(v, c, outs) + All(Post(v, c))
    ensures q.key != ops[i].key
  {
    hide KeyAscending, Ascending, KeysBefore, Kept, MayExistBelow, KeyLess, Source, Leftover, Post, Recent, All, LevelRun, Installed, RecLess;
    var x := ops[i];
    FourParts(p, Source(v, c), LevelRun(v[c.level + 1]), Post(v, c));
    Provenance(v, c, merged, outs);
    SourceParts(v, c);
    if q.key == x.key {
      var all := All(p) + All(Source(v, c)) + Elems(LevelRun(v[c.level + 1])) + All(Post(v, c));
      assert q in all;
      assert ops[q.seqno - 1] == q;
      assert q.seqno <= x.seqno;
      if q in All(Post(v, c)) {
        NothingBelow(v, c, q);
      } else if q in All(p) {
      } else if q in All(Leftover(v, c)) {
        if x in Elems(LevelRun(c.upper)) {
          LeftoverApart(v, c, q, x);
        }
      } else {
        OutputApart(v, c, merged, outs, x, q);
      }
      assert false;
    }
  }

  /** A collected key is not in the output level either. */
  lemma {:induction false} OutputApart(v: Version, c: Job, merged: seq<Record>, outs: seq<Table>, x: Record, q: Record)
    requires Ready(v, c, merged, outs)
    requires Top(merged, x) && x !in Kept(merged, Below(v, c), None) && x !in OutSet(v, c, outs)
    requires q in OutSet(v, c, outs)
    ensures q.key != x.key
  {
    hide KeyAscending, Ascending, Kept, MayExistBelow, KeyLess, LevelRun, Installed, RecLess;
    Provenance(v, c, merged, outs);
    SourceParts(v, c);
    if q.key == x.key {
      KeyIrreflexive(x.key);
      if q in Kept(merged, Below(v, c), None) {
        KeptExactly(merged, Below(v, c), None, q);
        RecAsymmetric(q, x);
      } else {
        assert x in Elems(merged);
        var o := v[c.level + 1];
        LowerSplit(v, c);
        PartsOrdered(LevelRun(o[..c.lo]), LevelRun(Lower(v, c)), LevelRun(o[c.hi..]));
      }
      assert false;
    }
  }

  /** The records of the stack before and after, around whatever lies above the version. */
  ghost predicate Swapped(p: Stack, v: Version, c: Job, outs: seq<Table>, before: Stack, after: Stack)
    requires |v| == NUM_LEVELS && JobOk(v, c)
  {
    && before == p + Source(v, c) + [LevelRun(v[c.level + 1])] + Post(v, c)
    && after == p + Leftover(v, c) + [LevelRun(Installed(v, c, outs)[c.level + 1])] + Post(v, c)
  }

  lemma InstalledAuthentic(p: Stack, v: Version, c: Job, merged: seq<Record>, outs: seq<Table>, before: Stack, after: Stack)
    requires Ready(v, c, merged, outs) && Swapped(p, v, c, outs, before, after)
    ensures All(after) <= All(before)
  {
    hide KeyAscending, Ascending, KeysBefore, VersionOk, Kept, Source, Post, Leftover, Merges, Writes, All, LevelRun, Installed, Elems;
    FourParts(p, Source(v, c), LevelRun(v[c.level + 1]), Post(v, c));
    FourParts(p, Leftover(v, c), LevelRun(Installed(v, c, outs)[c.level + 1]), Post(v, c));
    Provenance(v, c, merged, outs);
    SourceParts(v, c);
  }

  /** The last write of a key is still there, or it was a deletion and the key is gone. */
  lemma InstalledReflectsOne(p: Stack, v: Version, c: Job, merged: seq<Record>, outs: seq<Table>, before: Stack, after: Stack,
                             ops: Ops, i: nat)
    requires Ready(v, c, merged, outs) && Swapped(p, v, c, outs, before, after)
    requires Numbered(ops) && Latest(ops, |ops|, i) && Recent(before) && Authentic(All(before), ops)
    requires ops[i] in All(before) && ops[i] !in All(after)
    ensures Gone(All(after), ops[i], |ops|)
  {
    hide KeyAscending, Ascending, KeysBefore, VersionOk, Kept, Source, Post, Leftover, Writes, All, LevelRun, Installed, Elems,
         Top, Collectable, Recent;
    FourParts(p, Source(v, c), LevelRun(v[c.level + 1]), Post(v, c));
    FourParts(p, Leftover(v, c), LevelRun(Installed(v, c, outs)[c.level + 1]), Post(v, c));
    DroppedInput(v, c, merged, outs, ops[i]);
    assert Authentic(Elems(merged), ops) by {
      SourceParts(v, c);
      Provenance(v, c, merged, outs);
    }
    DroppedLatest(v, c, merged, outs, ops, i);
    assert ops[i].kind == Delete by { CollectableDeletes(Below(v, c), ops[i]); }
    forall q | q in All(after)
      ensures q.key != ops[i].key
    {
      CollectedGone(p, v, c, merged, outs, ops, i, q);
    }
  }

  lemma CollectableDeletes(below: seq<seq<Table>>, r: Record)
    requires Collectable(below, r)
    ensures r.kind == Delete
  {
  }

  lemma InstalledReflects(p: Stack, v: Version, c: Job, merged: seq<Record>, outs: seq<Table>, before: Stack, after: Stack, ops: Ops)
    requires Ready(v, c, merged, outs) && Swapped(p, v, c, outs, before, after)
    requires Numbered(ops) && Recent(before) && Authentic(All(before), ops) && Reflects(All(before), ops, |ops|)
    ensures Reflects(All(after), ops, |ops|)
  {
    hide Ready, Swapped, All, Recent;
    forall i: nat | Latest(ops, |ops|, i)
      ensures ops[i] in All(after) || Gone(All(after), ops[i], |ops|)
    {
      InstalledAuthentic(p, v, c, merged, outs, before, after);
      if ops[i] in All(before) && ops[i] !in All(after) {
        InstalledReflectsOne(p, v, c, merged, outs, before, after, ops, i);
      }
    }
  }

  lemma InstalledSorted(p: Stack, v: Version, c: Job, merged: seq<Record>, outs: seq<Table>, before: Stack, after: Stack)
    requires Ready(v, c, merged, outs) && Swapped(p, v, c, outs, before, after) && Sorted(before)
    ensures Sorted(after)
  {
    hide KeyAscending, Ascending, KeysBefore, Kept, Source, Post, Merges, Writes, All, LevelRun, Installed, Sorted, Recent;
    FourParts(p, Source(v, c), LevelRun(v[c.level + 1]), Post(v, c));
    FourParts(p, Leftover(v, c), LevelRun(Installed(v, c, outs)[c.level + 1]), Post(v, c));
    InstalledVersionOk(v, c, merged, outs);
    KeyAscendingAscends(LevelRun(Installed(v, c, outs)[c.level + 1]));
    if c.level == 0 {
      assert Sorted([]) by { SortedNone(); }
    } else {
      RemainingAscends(v, c);
      KeyAscendingAscends(LevelRun(Remaining(v, c)));
      OneLayer(LevelRun(Remaining(v, c)));
    }
  }

  lemma SortedNone()
    ensures Sorted([])
  {
  }

  /** Under any memtables, a compaction changes no read of the history. */
  lemma InstalledStackOk(mem: Stack, v: Version, c: Job, merged: seq<Record>, outs: seq<Table>, ops: Ops)
    requires Ready(v, c, merged, outs) && Numbered(ops) && StackOk(mem + VersionStack(v), ops, |ops|)
    ensures StackOk(mem + VersionStack(Installed(v, c, outs)), ops, |ops|)
  {
    hide Ready, Source, Post, Leftover, Pre, All, LevelRun, Sorted, Recent, Reflects, VersionStack;
    assert |v| == NUM_LEVELS && VersionOk(v) && JobOk(v, c) by { ReadyParts(v, c, merged, outs); }
    var p := mem + Pre(v, c);
    StackBefore(v, c);
    StackAfter(v, c, outs);
    var before: Stack := mem + VersionStack(v);
    var after: Stack := mem + VersionStack(Installed(v, c, outs));
    assert Swapped(p, v, c, outs, before, after);
    InstalledAuthentic(p, v, c, merged, outs, before, after);
    InstalledSorted(p, v, c, merged, outs, before, after);
    InstalledRecent(p, v, c, merged, outs);
    InstalledReflects(p, v, c, merged, outs, before, after, ops);
  }

  lemma ReadyParts(v: Version, c: Job, merged: seq<Record>, outs: seq<Table>)
    requires Ready(v, c, merged, outs)
    ensures |v| == NUM_LEVELS && VersionOk(v) && JobOk(v, c) && Merges(v, c, merged) && Writes(v, c, merged, outs)
  {
  }

  /** The compaction theorem: installing the outputs of any picked job over any
      merge order keeps every layer's recency, one version per key below level 0,
      and everything any reader sees. */
  lemma InstallKeeps(e: Engine, ops: Ops, merged: seq<Record>, outs: seq<Table>)
    requires Inv(e, ops) && e.compaction.Some?
    requires Merges(e.version, e.compaction.value, merged) && Writes(e.version, e.compaction.value, merged, outs)
    ensures Inv(Install(e, outs), ops)
  {
    hide StackOk, VersionOk, WalOk, CountersOk, JobOk, Merges, Writes, Installed, VersionStack;
    var c := e.compaction.value;
    var n := Install(e, outs);
    assert Ready(e.version, c, merged, outs);
    InstalledStackOk(MemStack(e.mems, |e.mems| - 1, e.sealed), e.version, c, merged, outs, ops);
    InstalledVersionOk(e.version, c, merged, outs);
    WalSame(e, n);
    CountersSame(e, n, ops);
    forall p | p in n.pins
      ensures PinOk(n, ops, p)
    {
      PinOther(e, n, ops, p);
    }
  }
}
