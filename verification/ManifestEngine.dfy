/** The engine's flush and compaction edits, applied by file number, produce
    exactly the versions the engine's steps describe. */
module ManifestEngine {
  import opened Common
  import opened Keys
  import opened Layers
  import opened Engine
  import opened Compaction
  import opened CompactionSafety
  import opened CompactionPick
  import opened EngineSteps
  import M = Manifest
  import E = ManifestEdits

  function MetaOf(t: Table, l: int): M.FileMeta
    requires t.recs != []
  {
    M.FileMeta(l, t.num, t.recs[0], t.recs[|t.recs| - 1])
  }

  function MetaLevel(ts: seq<Table>, l: int): (fs: seq<M.FileMeta>)
    requires NonEmpty(ts)
    ensures |fs| == |ts|
  {
    seq(|ts|, i requires 0 <= i < |ts| => MetaOf(ts[i], l))
  }

  ghost predicate Filled(v: Version) {
    |v| == NUM_LEVELS && forall l | 0 <= l < |v| :: NonEmpty(v[l])
  }

  /** The version as the manifest lists it. */
  function MetaVersion(v: Version): (fs: M.Files)
    requires Filled(v)
    ensures |fs| == NUM_LEVELS
  {
    seq(NUM_LEVELS, l requires 0 <= l < NUM_LEVELS => MetaLevel(v[l], l))
  }

  // -------------------------------------------------- a version is its file set

  lemma {:induction false} DescendingUnique(a: seq<M.FileMeta>, b: seq<M.FileMeta>)
    requires M.Descending(a) && M.Descending(b) && forall f :: f in a <==> f in b
    ensures a == b
  {
    assert a != [] ==> a[0] in a;
    assert b != [] ==> b[0] in b;
    if a != [] {
      var i :| 0 <= i < |a| && a[i] == b[0];
      var j :| 0 <= j < |b| && b[j] == a[0];
      assert i == 0 && a[0] == b[0];
      assert a == [a[0]] + a[1..] && b == [b[0]] + b[1..];
      forall f
        ensures f in a[1..] <==> f in b[1..]
      {
        assert a[0] !in a[1..] && b[0] !in b[1..];
        assert (f in a <==> f == a[0] || f in a[1..]) && (f in b <==> f == b[0] || f in b[1..]);
      }
      DescendingUnique(a[1..], b[1..]);
    }
  }

  lemma {:induction false} KeySortedUnique(a: seq<M.FileMeta>, b: seq<M.FileMeta>)
    requires M.KeySorted(a) && M.KeySorted(b) && forall f :: f in a <==> f in b
    ensures a == b
  {
    hide RecLess;
    assert a != [] ==> a[0] in a;
    assert b != [] ==> b[0] in b;
    if a != [] {
      var i :| 0 <= i < |a| && a[i] == b[0];
      var j :| 0 <= j < |b| && b[j] == a[0];
      if i > 0 && j > 0 {
        RecAsymmetric(a[0].smallest, b[0].smallest);
        assert false;
      }
      assert a[0] == b[0] && a == [a[0]] + a[1..] && b == [b[0]] + b[1..];
      HeadApart(a);
      HeadApart(b);
      forall f
        ensures f in a[1..] <==> f in b[1..]
      {
        assert (f in a <==> f == a[0] || f in a[1..]) && (f in b <==> f == b[0] || f in b[1..]);
      }
      KeySortedUnique(a[1..], b[1..]);
    }
  }

  lemma HeadApart(a: seq<M.FileMeta>)
    requires M.KeySorted(a) && a != []
    ensures a[0] !in a[1..]
  {
    hide RecLess;
    if a[0] in a[1..] {
      var i :| 0 <= i < |a[1..]| && a[1..][i] == a[0];
      assert RecLess(a[0].smallest, a[i + 1].smallest);
      RecIrreflexive(a[0].smallest);
    }
  }

  ghost predicate Comparable(fs: seq<M.FileMeta>) {
    forall i, j | 0 <= i < j < |fs| :: RecLess(fs[i].smallest, fs[j].smallest) || RecLess(fs[j].smallest, fs[i].smallest)
  }

  lemma {:induction false} InsertByKeySorted(f: M.FileMeta, fs: seq<M.FileMeta>)
    requires M.KeySorted(fs)
    requires forall i | 0 <= i < |fs| :: RecLess(fs[i].smallest, f.smallest) || RecLess(f.smallest, fs[i].smallest)
    ensures M.KeySorted(M.InsertByKey(f, fs))
  {
    hide RecLess;
    if fs != [] {
      if RecLess(f.smallest, fs[0].smallest) {
        forall i | 0 < i < |fs|
          ensures RecLess(f.smallest, fs[i].smallest)
        {
          RecTransitive(f.smallest, fs[0].smallest, fs[i].smallest);
        }
      } else {
        InsertByKeySorted(f, fs[1..]);
        var t := M.InsertByKey(f, fs[1..]);
        forall i | 0 <= i < |t|
          ensures RecLess(fs[0].smallest, t[i].smallest)
        {
          E.InsertByKeyElems(f, fs[1..], t[i]);
          assert t[i] in fs[1..] || t[i] == f;
        }
      }
    }
  }

  lemma {:induction false} SortByKeySorted(fs: seq<M.FileMeta>)
    requires Comparable(fs)
    ensures M.KeySorted(M.SortByKey(fs))
  {
    hide RecLess, M.InsertByKey;
    if fs != [] {
      SortByKeySorted(fs[1..]);
      var t := M.SortByKey(fs[1..]);
      forall i | 0 <= i < |t|
        ensures RecLess(t[i].smallest, fs[0].smallest) || RecLess(fs[0].smallest, t[i].smallest)
      {
        E.SortByKeyElems(fs[1..], t[i]);
        var j :| 0 <= j < |fs[1..]| && fs[1..][j] == t[i];
        assert fs[j + 1] == t[i];
      }
      InsertByKeySorted(fs[0], t);
    }
  }

  /** A list without repeats that holds a sorted level's files sorts to it. */
  lemma {:induction false} SortsTo(fs: seq<M.FileMeta>, target: seq<M.FileMeta>)
    requires M.NoRepeat(fs) && M.KeySorted(target) && forall f :: f in fs <==> f in target
    ensures M.SortByKey(fs) == target
  {
    hide RecLess, M.SortByKey;
    forall i, j | 0 <= i < j < |fs|
      ensures RecLess(fs[i].smallest, fs[j].smallest) || RecLess(fs[j].smallest, fs[i].smallest)
    {
      assert fs[i] in target && fs[j] in target && fs[i] != fs[j];
    }
    SortByKeySorted(fs);
    forall f
      ensures f in M.SortByKey(fs) <==> f in target
    {
      E.SortByKeyElems(fs, f);
    }
    KeySortedUnique(M.SortByKey(fs), target);
  }

  lemma {:induction false} LevelYields(fs: seq<M.FileMeta>, target: seq<M.FileMeta>, l: nat)
    requires M.NoRepeat(fs) && M.InOrder(target, l) && M.Tagged(target, l) && forall f :: f in fs <==> f in target
    ensures (if l == 0 then M.SortByNum(fs) else M.SortByKey(fs)) == target
  {
    hide RecLess, M.SortByKey, M.SortByNum;
    if l == 0 {
      E.SortByNumOk(fs);
      DescendingUnique(M.SortByNum(fs), target);
    } else {
      M.DisjointSorted(target);
      SortsTo(fs, target);
    }
  }

  /** What an edit should leave at level `l`. */
  ghost predicate Leaves(v: M.Files, e: M.Edit, target: M.Files, l: nat)
    requires |v| == |target| == NUM_LEVELS && l < NUM_LEVELS
  {
    forall f :: f in target[l] <==> (f in v[l] && E.Survives(f, l, e.deletes)) || (f in e.adds && f.level == l)
  }

  /** The edit passes every check but those of order. */
  ghost predicate Accepted(v: M.Files, e: M.Edit)
    requires |v| == NUM_LEVELS
  {
    && M.DeleteAll(v, e.deletes).Some? && M.AddAll(M.DeleteAll(v, e.deletes).value, e.adds).Some?
    && forall i | 0 <= i < |e.adds| :: M.Bounded(e.adds[i])
  }

  /** An edit that leaves the files of a well-formed version yields that version. */
  lemma EditYields(v: M.Files, e: M.Edit, target: M.Files)
    requires M.Basic(v) && M.WellFormed(target) && Accepted(v, e)
    requires forall l | 0 <= l < NUM_LEVELS :: Leaves(v, e, target, l)
    ensures M.ApplyEdit(v, e) == Some(target)
  {
    hide RecLess, M.DeleteAll, M.AddAll, M.SortByKey, M.SortByNum, M.Bounded, M.Nums, M.NoRepeat, M.Tagged, M.InOrder, Leaves;
    var w := M.DeleteAll(v, e.deletes).value;
    var u := M.AddAll(w, e.adds).value;
    forall l | 0 <= l < NUM_LEVELS
      ensures M.SortLevels(u)[l] == target[l]
    {
      EditLevel(v, e, w, u, target, l);
    }
    assert M.SortLevels(u) == target;
    forall l | 1 <= l < NUM_LEVELS
      ensures M.Disjoint(target[l])
    {
      DeepOrder(target[l], l);
    }
  }

  lemma DeepOrder(fs: seq<M.FileMeta>, l: nat)
    requires l > 0 && M.InOrder(fs, l)
    ensures M.Disjoint(fs)
  {
  }

  lemma {:induction false} EditLevel(v: M.Files, e: M.Edit, w: M.Files, u: M.Files, target: M.Files, l: nat)
    requires M.Basic(v) && M.WellFormed(target) && Accepted(v, e) && l < NUM_LEVELS && Leaves(v, e, target, l)
    requires M.DeleteAll(v, e.deletes) == Some(w) && M.AddAll(w, e.adds) == Some(u)
    ensures M.SortLevels(u)[l] == target[l]
  {
    hide RecLess, M.DeleteAll, M.AddAll, M.SortByKey, M.SortByNum, M.Bounded, M.Nums, M.NoRepeat, M.Tagged, M.InOrder;
    var any := M.FileMeta(0, 0, Record([], 0, Put, []), Record([], 0, Put, []));
    E.DeleteExact(v, e.deletes, l, any);
    E.AddExact(w, e.adds, l, any);
    forall f
      ensures f in u[l] <==> f in target[l]
    {
      E.DeleteExact(v, e.deletes, l, f);
      E.AddExact(w, e.adds, l, f);
    }
    LevelYields(u[l], target[l], l);
  }

  // --------------------------------------------------- the engine's versions

  /** Distinct file numbers below `next`, newest first in level 0. */
  ghost predicate NumbersOk(v: Version, next: nat) {
    && (forall l: nat, t: Table | l < |v| && t in v[l] :: t.num < next)
    && (forall l | 0 <= l < |v| :: DistinctNums(v[l]))
    && (forall l, m | 0 <= l < m < |v| :: NumsApart(v[l], v[m]))
    && (v != [] ==> forall i, j | 0 <= i < j < |v[0]| :: v[0][i].num > v[0][j].num)
  }

  ghost predicate DistinctNums(ts: seq<Table>) {
    forall i, j | 0 <= i < j < |ts| :: ts[i].num != ts[j].num
  }

  ghost predicate NumsApart(a: seq<Table>, b: seq<Table>) {
    forall s, t | s in a && t in b :: s.num != t.num
  }

  lemma MetaBounded(ts: seq<Table>, i: nat, l: nat)
    requires Runs(ts) && i < |ts|
    ensures M.Bounded(MetaOf(ts[i], l))
  {
    hide RecLess;
    var recs := ts[i].recs;
    if |recs| > 1 {
      RecAsymmetric(recs[0], recs[|recs| - 1]);
    } else {
      RecIrreflexive(recs[0]);
    }
  }

  lemma {:induction false} MetaDisjoint(ts: seq<Table>, l: nat)
    requires NonEmpty(ts) && KeyAscending(LevelRun(ts))
    ensures M.Disjoint(MetaLevel(ts, l))
  {
    hide KeyLess, KeyAscending, LevelRun;
    forall i | 0 <= i < |ts| - 1
      ensures RecLess(MetaOf(ts[i], l).largest, MetaOf(ts[i + 1], l).smallest)
    {
      FilesOrdered(ts, i, i + 1);
    }
  }

  lemma MetaNums(ts: seq<Table>, l: nat, n: nat)
    requires NonEmpty(ts)
    ensures n in M.Nums(MetaLevel(ts, l)) <==> exists t | t in ts :: t.num == n
  {
    var fs := MetaLevel(ts, l);
    if n in M.Nums(fs) {
      var f: M.FileMeta :| f in fs && f.num == n;
      var i :| 0 <= i < |fs| && fs[i] == f;
      assert ts[i] in ts;
    }
    if t :| t in ts && t.num == n {
      var i :| 0 <= i < |ts| && ts[i] == t;
      assert fs[i] in fs;
    }
  }

  /** The engine's version, as the manifest lists it, is well-formed. */
  lemma MetaWellFormed(v: Version, next: nat)
    requires VersionOk(v) && NumbersOk(v, next) && forall i | 0 <= i < |v[0]| :: Ascending(v[0][i].recs)
    ensures Filled(v) && M.WellFormed(MetaVersion(v))
  {
    hide KeyLess, KeyAscending, LevelRun, Ascending, RecLess, M.Nums, M.Bounded;
    var fs := MetaVersion(v);
    forall l | 0 <= l < NUM_LEVELS
      ensures M.Tagged(fs[l], l) && M.NoRepeat(fs[l]) && M.InOrder(fs[l], l)
    {
      LevelRuns(v, l);
      forall i | 0 <= i < |v[l]|
        ensures M.Bounded(fs[l][i])
      {
        MetaBounded(v[l], i, l);
      }
      assert DistinctNums(v[l]);
      if l > 0 {
        MetaDisjoint(v[l], l);
      }
    }
    forall l, m | 0 <= l < m < NUM_LEVELS
      ensures M.Nums(fs[l]) !! M.Nums(fs[m])
    {
      assert NumsApart(v[l], v[m]);
      forall n
        ensures !(n in M.Nums(fs[l]) && n in M.Nums(fs[m]))
      {
        MetaNums(v[l], l, n);
        MetaNums(v[m], m, n);
      }
    }
  }

  // ------------------------------------------------------------------- flush

  function FlushEdit(t: Table): M.Edit
    requires t.recs != []
  {
    M.Edit([MetaOf(t, 0)], [])
  }

  lemma NotLive(v: Version, n: nat)
    requires Filled(v) && forall l: nat, t: Table | l < |v| && t in v[l] :: t.num != n
    ensures n !in M.Live(MetaVersion(v))
  {
    var fs := MetaVersion(v);
    forall l: nat, f: M.FileMeta | l < |fs| && f in fs[l]
      ensures f.num != n
    {
      var i :| 0 <= i < |fs[l]| && fs[l][i] == f;
      assert v[l][i] in v[l];
    }
  }

  lemma FlushNumbers(v: Version, t: Table)
    requires |v| == NUM_LEVELS && NumbersOk(v, t.num)
    ensures NumbersOk(v[0 := [t] + v[0]], t.num + 1)
  {
    var w := v[0 := [t] + v[0]];
    assert forall i | 0 <= i < |v[0]| :: v[0][i] in v[0];
    forall l, m | 0 <= l < m < |w|
      ensures NumsApart(w[l], w[m])
    {
      assert NumsApart(v[l], v[m]);
    }
    assert forall i, j | 0 <= i < j < |w[0]| :: w[0][i].num > w[0][j].num;
    forall l | 0 <= l < |w|
      ensures DistinctNums(w[l])
    {
      assert DistinctNums(v[l]);
    }
  }

  /** A flush's edit puts its table in front of level 0. */
  lemma FlushApplies(v: Version, t: Table)
    requires VersionOk(v) && NumbersOk(v, t.num) && t.recs != [] && Ascending(t.recs)
    requires forall i | 0 <= i < |v[0]| :: Ascending(v[0][i].recs)
    ensures Filled(v) && Filled(v[0 := [t] + v[0]])
    ensures M.ApplyEdit(MetaVersion(v), FlushEdit(t)) == Some(MetaVersion(v[0 := [t] + v[0]]))
  {
    hide KeyLess, KeyAscending, LevelRun, Ascending, RecLess, NumbersOk, M.Basic, M.WellFormed, M.Live, M.ApplyEdit;
    var w := v[0 := [t] + v[0]];
    FlushVersion(v, t);
    assert NumbersOk(w, t.num + 1) by { FlushNumbers(v, t); }
    MetaWellFormed(v, t.num);
    MetaWellFormed(w, t.num + 1);
    assert M.Basic(MetaVersion(v)) by { BasicOf(MetaVersion(v)); }
    FlushAccepted(v, t);
    forall l | 0 <= l < NUM_LEVELS
      ensures Leaves(MetaVersion(v), FlushEdit(t), MetaVersion(w), l)
    {
      FlushLeaves(v, t, l);
    }
    EditYields(MetaVersion(v), FlushEdit(t), MetaVersion(w));
  }

  lemma BasicOf(v: M.Files)
    requires M.WellFormed(v)
    ensures M.Basic(v)
  {
    hide M.Basic;
  }

  lemma FlushAccepted(v: Version, t: Table)
    requires Filled(v) && NumbersOk(v, t.num) && t.recs != [] && Ascending(t.recs)
    ensures Accepted(MetaVersion(v), FlushEdit(t))
  {
    hide RecLess, M.Live, Ascending, M.Bounded;
    NotLive(v, t.num);
    MetaBounded([t], 0, 0);
    var fs, f := MetaVersion(v), MetaOf(t, 0);
    assert M.DeleteAll(fs, []) == Some(fs);
    assert M.AddAll(fs[0 := fs[0] + [f]], []).Some?;
    assert [f][1..] == [];
  }

  lemma FlushLeaves(v: Version, t: Table, l: nat)
    requires Filled(v) && t.recs != [] && Filled(v[0 := [t] + v[0]]) && l < NUM_LEVELS
    ensures Leaves(MetaVersion(v), FlushEdit(t), MetaVersion(v[0 := [t] + v[0]]), l)
  {
    var w := v[0 := [t] + v[0]];
    var e := FlushEdit(t);
    assert MetaLevel(w[0], 0) == [MetaOf(t, 0)] + MetaLevel(v[0], 0);
    forall f
      ensures f in MetaVersion(w)[l] <==> (f in MetaVersion(v)[l] && E.Survives(f, l, e.deletes)) || (f in e.adds && f.level == l)
    {
      assert f in e.adds <==> f == MetaOf(t, 0);
    }
  }

  // -------------------------------------------------------------- compaction

  function DeletesOf(ts: seq<Table>, l: int): seq<M.DeletedFile> {
    seq(|ts|, i requires 0 <= i < |ts| => M.DeletedFile(l, ts[i].num))
  }

  /** Deletes the inputs by number, adds the outputs. */
  function CompactEdit(v: Version, c: Job, outs: seq<Table>): M.Edit
    requires |v| == NUM_LEVELS && JobOk(v, c) && NonEmpty(outs)
  {
    M.Edit(MetaLevel(outs, c.level + 1), DeletesOf(c.upper, c.level) + DeletesOf(Lower(v, c), c.level + 1))
  }

  ghost predicate LiveAt(v: M.Files, d: M.DeletedFile)
    requires |v| == NUM_LEVELS
  {
    M.InRange(d.level) && exists f | f in v[d.level] :: f.num == d.num
  }

  /** Deleting distinct live files succeeds. */
  lemma {:induction false} DeleteSome(v: M.Files, ds: seq<M.DeletedFile>)
    requires M.Basic(v) && (forall i, j | 0 <= i < j < |ds| :: ds[i] != ds[j])
    requires forall i | 0 <= i < |ds| :: LiveAt(v, ds[i])
    ensures M.DeleteAll(v, ds).Some?
    decreases |ds|
  {
    hide M.NoRepeat, M.Tagged, M.Nums;
    if ds != [] {
      var d := ds[0];
      assert LiveAt(v, d);
      var i := M.IndexOf(v[d.level], d.num).value;
      var w := M.DeleteOne(v, d).value;
      E.RemoveBasic(v, d.level, i);
      E.BasicLevel(v, d.level);
      forall j | 0 <= j < |ds[1..]|
        ensures LiveAt(w, ds[1..][j])
      {
        StillLive(v, d, i, ds[j + 1]);
      }
      DeleteSome(w, ds[1..]);
    }
  }

  lemma StillLive(v: M.Files, d: M.DeletedFile, i: nat, d': M.DeletedFile)
    requires |v| == NUM_LEVELS && M.InRange(d.level) && M.IndexOf(v[d.level], d.num) == Some(i) && M.NoRepeat(v[d.level])
    requires LiveAt(v, d') && d != d'
    ensures LiveAt(v[d.level := v[d.level][..i] + v[d.level][i + 1..]], d')
  {
    var f: M.FileMeta :| f in v[d'.level] && f.num == d'.num;
    if d'.level == d.level {
      E.RemoveExact(v[d.level], i, f);
    }
  }

  lemma {:induction false} AddSome(v: M.Files, adds: seq<M.FileMeta>)
    requires |v| == NUM_LEVELS && (forall i | 0 <= i < |adds| :: M.InRange(adds[i].level) && adds[i].num !in M.Live(v))
    requires M.NoRepeat(adds)
    ensures M.AddAll(v, adds).Some?
    decreases |adds|
  {
    hide M.Live;
    if adds != [] {
      M.LiveAppend(v, adds[0].level, adds[0]);
      AddSome(v[adds[0].level := v[adds[0].level] + [adds[0]]], adds[1..]);
    }
  }

  /** Deletions make no number live. */
  lemma {:induction false} DeleteLive(v: M.Files, ds: seq<M.DeletedFile>)
    requires M.Basic(v) && M.DeleteAll(v, ds).Some?
    ensures M.Live(M.DeleteAll(v, ds).value) <= M.Live(v)
  {
    hide M.NoRepeat, M.Tagged, M.Nums, M.DeleteAll;
    var w := M.DeleteAll(v, ds).value;
    forall l: nat, f: M.FileMeta | l < |w| && f in w[l]
      ensures f in v[l]
    {
      E.DeleteExact(v, ds, l, f);
    }
  }

  /** New numbers for the outputs: unused so far, and each once. */
  ghost predicate FreshOuts(outs: seq<Table>, next: nat, next': nat) {
    next <= next' && (forall i | 0 <= i < |outs| :: next <= outs[i].num < next') && DistinctNums(outs)
  }

  lemma InLevelMeta(ts: seq<Table>, l: int, f: M.FileMeta)
    requires NonEmpty(ts)
    ensures f in MetaLevel(ts, l) <==> exists t | t in ts :: f == MetaOf(t, l)
  {
    var fs := MetaLevel(ts, l);
    if f in fs {
      var i :| 0 <= i < |fs| && fs[i] == f;
      assert ts[i] in ts;
    }
    if t :| t in ts && f == MetaOf(t, l) {
      var i :| 0 <= i < |ts| && ts[i] == t;
      assert fs[i] == f;
    }
  }

  lemma InDeletes(ts: seq<Table>, l: int, d: M.DeletedFile)
    ensures d in DeletesOf(ts, l) <==> d.level == l && exists t | t in ts :: t.num == d.num
  {
    var ds := DeletesOf(ts, l);
    if d in ds {
      var i :| 0 <= i < |ds| && ds[i] == d;
      assert ts[i] in ts;
    }
    if d.level == l {
      if t :| t in ts && t.num == d.num {
        var i :| 0 <= i < |ts| && ts[i] == t;
        assert ds[i] == d;
      }
    }
  }

  /** By distinct numbers, removing a slice is removing its numbers. */
  lemma SliceByNum(ts: seq<Table>, a: nat, b: nat, t: Table)
    requires DistinctNums(ts) && a <= b <= |ts|
    ensures t in ts[..a] + ts[b..] <==> t in ts && !exists s | s in ts[a..b] :: s.num == t.num
  {
    if t in ts {
      var i :| 0 <= i < |ts| && ts[i] == t;
      if i < a {
        assert t in ts[..a];
      } else if i >= b {
        assert ts[b..][i - b] == t;
      } else {
        assert ts[a..b][i - a] == t;
      }
      if i < a || i >= b {
        forall s | s in ts[a..b]
          ensures s.num != t.num
        {
          var j :| 0 <= j < |ts[a..b]| && ts[a..b][j] == s;
          assert ts[a + j] == s;
        }
      } else {
        forall s | s in ts[..a] + ts[b..]
          ensures s != t
        {
          if s in ts[..a] {
            var j :| 0 <= j < a && ts[j] == s;
          } else {
            var j :| 0 <= j < |ts[b..]| && ts[b..][j] == s;
            assert ts[b + j] == s;
          }
        }
      }
    }
  }

  lemma CutNonEmpty(ts: seq<Table>, a: nat, b: nat)
    requires NonEmpty(ts) && a <= b <= |ts|
    ensures NonEmpty(ts[..a] + ts[b..])
  {
  }

  /** Cutting a stretch out of a level is deleting its tables by number. */
  lemma CutLeaves(ts: seq<Table>, a: nat, b: nat, l: int, f: M.FileMeta)
    requires DistinctNums(ts) && NonEmpty(ts) && a <= b <= |ts| && NonEmpty(ts[..a] + ts[b..])
    ensures f in MetaLevel(ts[..a] + ts[b..], l) <==> f in MetaLevel(ts, l) && M.DeletedFile(l, f.num) !in DeletesOf(ts[a..b], l)
  {
    hide MetaLevel, DeletesOf, DistinctNums;
    var rest, gone := ts[..a] + ts[b..], ts[a..b];
    InDeletes(gone, l, M.DeletedFile(l, f.num));
    InLevelMeta(rest, l, f);
    InLevelMeta(ts, l, f);
    if f in MetaLevel(rest, l) {
      var t :| t in rest && f == MetaOf(t, l);
      SliceByNum(ts, a, b, t);
      assert t in ts;
    } else if f in MetaLevel(ts, l) {
      var t :| t in ts && f == MetaOf(t, l);
      SliceByNum(ts, a, b, t);
      assert t !in rest;
    }
  }

  lemma SourceLeaves(v: Version, c: Job, outs: seq<Table>, f: M.FileMeta)
    requires Filled(v) && JobOk(v, c) && NonEmpty(outs) && DistinctNums(v[c.level])
    ensures NonEmpty(Remaining(v, c))
    ensures f in MetaLevel(Remaining(v, c), c.level)
            <==> f in MetaLevel(v[c.level], c.level) && E.Survives(f, c.level, CompactEdit(v, c, outs).deletes)
  {
    hide KeysBefore, LevelRun, MetaLevel, DeletesOf, DistinctNums, NonEmpty, Remaining;
    var a, b := UpperSlice(v, c);
    InDeletes(Lower(v, c), c.level + 1, M.DeletedFile(c.level, f.num));
    CutNonEmpty(v[c.level], a, b);
    CutLeaves(v[c.level], a, b, c.level, f);
  }

  lemma OutputLeaves(v: Version, c: Job, outs: seq<Table>, f: M.FileMeta)
    requires Filled(v) && JobOk(v, c) && NonEmpty(outs) && DistinctNums(v[c.level + 1])
    ensures var o := v[c.level + 1]; NonEmpty(o[..c.lo] + outs + o[c.hi..])
    ensures var o := v[c.level + 1]; var e := CompactEdit(v, c, outs);
            f in MetaLevel(o[..c.lo] + outs + o[c.hi..], c.level + 1)
            <==> (f in MetaLevel(o, c.level + 1) && E.Survives(f, c.level + 1, e.deletes)) || f in e.adds
  {
    hide KeysBefore, LevelRun, MetaLevel, DeletesOf;
    var o := v[c.level + 1];
    var now := o[..c.lo] + outs + o[c.hi..];
    var d := M.DeletedFile(c.level + 1, f.num);
    InDeletes(c.upper, c.level, d);
    InDeletes(Lower(v, c), c.level + 1, d);
    InLevelMeta(now, c.level + 1, f);
    InLevelMeta(o, c.level + 1, f);
    InLevelMeta(outs, c.level + 1, f);
    forall t
      ensures t in now <==> t in outs || (t in o && !exists s | s in Lower(v, c) :: s.num == t.num)
    {
      SliceByNum(o, c.lo, c.hi, t);
      assert t in now <==> t in outs || t in o[..c.lo] + o[c.hi..];
    }
  }

  lemma OtherLeaves(v: Version, c: Job, outs: seq<Table>, l: nat, f: M.FileMeta)
    requires Filled(v) && JobOk(v, c) && NonEmpty(outs) && l < NUM_LEVELS && l != c.level && l != c.level + 1
    ensures E.Survives(f, l, CompactEdit(v, c, outs).deletes)
  {
    hide KeysBefore, LevelRun, DeletesOf;
    InDeletes(c.upper, c.level, M.DeletedFile(l, f.num));
    InDeletes(Lower(v, c), c.level + 1, M.DeletedFile(l, f.num));
  }

  lemma AddLevels(outs: seq<Table>, l: nat, f: M.FileMeta)
    requires NonEmpty(outs) && f in MetaLevel(outs, l)
    ensures f.level == l
  {
  }

  lemma CompactLeaves(v: Version, c: Job, outs: seq<Table>, l: nat)
    requires Filled(v) && JobOk(v, c) && NonEmpty(outs) && Filled(Installed(v, c, outs)) && l < NUM_LEVELS
    requires forall m | 0 <= m < |v| :: DistinctNums(v[m])
    ensures Leaves(MetaVersion(v), CompactEdit(v, c, outs), MetaVersion(Installed(v, c, outs)), l)
  {
    hide KeysBefore, LevelRun, MetaLevel, DeletesOf, Remaining, DistinctNums, E.Survives;
    var e := CompactEdit(v, c, outs);
    var w := Installed(v, c, outs);
    forall f
      ensures f in MetaVersion(w)[l] <==> (f in MetaVersion(v)[l] && E.Survives(f, l, e.deletes)) || (f in e.adds && f.level == l)
    {
      if f in e.adds {
        AddLevels(outs, c.level + 1, f);
      }
      if l == c.level {
        SourceLeaves(v, c, outs, f);
      } else if l == c.level + 1 {
        OutputLeaves(v, c, outs, f);
      } else {
        OtherLeaves(v, c, outs, l, f);
      }
    }
  }

  /** Every file of the new version is an old one of its level or an output. */
  lemma InstalledFrom(v: Version, c: Job, outs: seq<Table>, l: nat, t: Table)
    requires |v| == NUM_LEVELS && JobOk(v, c) && l < NUM_LEVELS && t in Installed(v, c, outs)[l]
    ensures t in v[l] || (l == c.level + 1 && t in outs)
  {
    hide KeysBefore, LevelRun, Remaining;
    var a, b := UpperSlice(v, c);
  }

  lemma FreshNum(outs: seq<Table>, next: nat, next': nat, t: Table)
    requires FreshOuts(outs, next, next') && t in outs
    ensures next <= t.num < next'
  {
  }

  lemma OldNum(v: Version, next: nat, l: nat, t: Table)
    requires NumbersOk(v, next) && l < |v| && t in v[l]
    ensures t.num < next
  {
  }

  lemma InstalledApart(v: Version, c: Job, outs: seq<Table>, next: nat, next': nat, l: nat, m: nat)
    requires |v| == NUM_LEVELS && JobOk(v, c) && NumbersOk(v, next) && FreshOuts(outs, next, next') && l < m < NUM_LEVELS
    ensures NumsApart(Installed(v, c, outs)[l], Installed(v, c, outs)[m])
  {
    hide KeysBefore, LevelRun, Installed, FreshOuts, JobOk;
    var w := Installed(v, c, outs);
    assert NumsApart(v[l], v[m]);
    forall x: Table, y: Table | x in w[l] && y in w[m]
      ensures x.num != y.num
    {
      InstalledFrom(v, c, outs, l, x);
      InstalledFrom(v, c, outs, m, y);
      if x in outs {
        FreshNum(outs, next, next', x);
      }
      if y in outs {
        FreshNum(outs, next, next', y);
      }
    }
  }

  lemma InstalledDistinct(v: Version, c: Job, outs: seq<Table>, next: nat, next': nat, l: nat)
    requires |v| == NUM_LEVELS && JobOk(v, c) && NumbersOk(v, next) && FreshOuts(outs, next, next') && l < NUM_LEVELS
    ensures DistinctNums(Installed(v, c, outs)[l])
  {
    hide KeysBefore, LevelRun, Remaining, NumbersOk, DistinctNums;
    var a, b := UpperSlice(v, c);
    assert DistinctNums(v[l]) by { NumbersDistinct(v, next); }
    if l == c.level {
      CutDistinct(v[l], a, b);
    } else if l == c.level + 1 {
      forall i | 0 <= i < |v[l]|
        ensures v[l][i].num < next
      {
        OldNum(v, next, l, v[l][i]);
      }
      SpliceDistinct(v[l], c.lo, c.hi, outs, next);
    }
  }

  lemma InstalledFront(v: Version, c: Job, outs: seq<Table>, next: nat)
    requires |v| == NUM_LEVELS && JobOk(v, c) && NumbersOk(v, next)
    ensures forall i, j | 0 <= i < j < |Installed(v, c, outs)[0]| :: Installed(v, c, outs)[0][i].num > Installed(v, c, outs)[0][j].num
  {
    hide KeysBefore, LevelRun, DistinctNums, NumsApart;
  }

  lemma InstalledNumbers(v: Version, c: Job, outs: seq<Table>, next: nat, next': nat)
    requires |v| == NUM_LEVELS && JobOk(v, c) && NumbersOk(v, next) && FreshOuts(outs, next, next')
    ensures NumbersOk(Installed(v, c, outs), next')
  {
    hide JobOk, Installed, DistinctNums, NumsApart, FreshOuts;
    var w := Installed(v, c, outs);
    forall l, t: Table | 0 <= l < |w| && t in w[l]
      ensures t.num < next'
    {
      InstalledFrom(v, c, outs, l, t);
      if t in outs {
        FreshNum(outs, next, next', t);
      }
      Advances(outs, next, next');
    }
    forall l, m | 0 <= l < m < |w|
      ensures NumsApart(w[l], w[m])
    {
      InstalledApart(v, c, outs, next, next', l, m);
    }
    forall l | 0 <= l < |w|
      ensures DistinctNums(w[l])
    {
      InstalledDistinct(v, c, outs, next, next', l);
    }
    InstalledFront(v, c, outs, next);
  }

  lemma Advances(outs: seq<Table>, next: nat, next': nat)
    requires FreshOuts(outs, next, next')
    ensures next <= next'
  {
  }

  lemma CutDistinct(ts: seq<Table>, a: nat, b: nat)
    requires DistinctNums(ts) && a <= b <= |ts|
    ensures DistinctNums(ts[..a] + ts[b..])
  {
    var r := ts[..a] + ts[b..];
    assert forall i | 0 <= i < |r| :: r[i] == if i < a then ts[i] else ts[i + b - a];
  }

  lemma SpliceDistinct(ts: seq<Table>, a: nat, b: nat, outs: seq<Table>, next: nat)
    requires DistinctNums(ts) && a <= b <= |ts| && DistinctNums(outs)
    requires (forall i | 0 <= i < |ts| :: ts[i].num < next) && (forall i | 0 <= i < |outs| :: next <= outs[i].num)
    ensures DistinctNums(ts[..a] + outs + ts[b..])
  {
    var r := ts[..a] + outs + ts[b..];
    assert forall i | 0 <= i < |r| :: r[i] == if i < a then ts[i] else if i < a + |outs| then outs[i - a] else ts[i - |outs| + b - a];
  }

  lemma CompactAccepted(v: Version, c: Job, outs: seq<Table>, next: nat, next': nat)
    requires Filled(v) && JobOk(v, c) && NumbersOk(v, next) && FreshOuts(outs, next, next') && Runs(outs)
    requires M.Basic(MetaVersion(v))
    ensures Accepted(MetaVersion(v), CompactEdit(v, c, outs))
  {
    hide KeysBefore, LevelRun, Ascending, RecLess, M.Live, M.Basic, M.Bounded, M.DeleteAll, M.AddAll;
    var fs, e := MetaVersion(v), CompactEdit(v, c, outs);
    CompactDeletes(v, c, outs, next);
    DeleteSome(fs, e.deletes);
    DeleteLive(fs, e.deletes);
    var w := M.DeleteAll(fs, e.deletes).value;
    forall i | 0 <= i < |e.adds|
      ensures e.adds[i].num !in M.Live(w) && M.Bounded(e.adds[i])
    {
      NotLive(v, outs[i].num);
      MetaBounded(outs, i, c.level + 1);
    }
    AddSome(w, e.adds);
  }

  lemma SliceLive(v: Version, l: nat, lo: nat, hi: nat, i: nat)
    requires Filled(v) && l < NUM_LEVELS && lo <= hi <= |v[l]| && i < hi - lo
    ensures LiveAt(MetaVersion(v), DeletesOf(v[l][lo..hi], l)[i])
  {
    var f := MetaOf(v[l][lo + i], l);
    assert MetaVersion(v)[l][lo + i] == f;
  }

  lemma SliceDeletesDistinct(ts: seq<Table>, l: nat, lo: nat, hi: nat)
    requires DistinctNums(ts) && lo <= hi <= |ts|
    ensures forall i, j | 0 <= i < j < hi - lo :: DeletesOf(ts[lo..hi], l)[i] != DeletesOf(ts[lo..hi], l)[j]
  {
    forall i, j | 0 <= i < j < hi - lo
      ensures DeletesOf(ts[lo..hi], l)[i] != DeletesOf(ts[lo..hi], l)[j]
    {
      assert ts[lo + i].num != ts[lo + j].num;
    }
  }

  lemma CompactDeletes(v: Version, c: Job, outs: seq<Table>, next: nat)
    requires Filled(v) && JobOk(v, c) && NonEmpty(outs) && NumbersOk(v, next)
    ensures var ds := CompactEdit(v, c, outs).deletes;
            && (forall i, j | 0 <= i < j < |ds| :: ds[i] != ds[j])
            && forall i | 0 <= i < |ds| :: LiveAt(MetaVersion(v), ds[i])
  {
    hide KeysBefore, LevelRun, NumbersOk, DistinctNums, LiveAt, MetaVersion, MetaLevel;
    var ds := CompactEdit(v, c, outs).deletes;
    var a, b := UpperSlice(v, c);
    var x, y := DeletesOf(c.upper, c.level), DeletesOf(Lower(v, c), c.level + 1);
    NumbersDistinct(v, next);
    SliceDeletesDistinct(v[c.level], c.level, a, b);
    SliceDeletesDistinct(v[c.level + 1], c.level + 1, c.lo, c.hi);
    forall i | 0 <= i < |ds|
      ensures LiveAt(MetaVersion(v), ds[i])
    {
      if i < |x| {
        SliceLive(v, c.level, a, b, i);
      } else {
        SliceLive(v, c.level + 1, c.lo, c.hi, i - |x|);
        assert ds[i] == y[i - |x|];
      }
    }
  }

  /** A compaction's edit is accepted and installs exactly the model's new version. */
  lemma CompactApplies(v: Version, c: Job, merged: seq<Record>, outs: seq<Table>, next: nat, next': nat)
    requires VersionOk(v) && NumbersOk(v, next) && (forall i | 0 <= i < |v[0]| :: Ascending(v[0][i].recs))
    requires JobOk(v, c) && Merges(v, c, merged) && Writes(v, c, merged, outs) && FreshOuts(outs, next, next')
    ensures Filled(v) && Filled(Installed(v, c, outs))
    ensures M.ApplyEdit(MetaVersion(v), CompactEdit(v, c, outs)) == Some(MetaVersion(Installed(v, c, outs)))
  {
    hide KeysBefore, KeyLess, KeyAscending, LevelRun, Ascending, RecLess, NumbersOk, M.Basic, M.WellFormed, M.Live, M.ApplyEdit,
         FreshOuts, Kept, Merges, Leaves, Accepted, Remaining;
    var w := Installed(v, c, outs);
    InstalledVersionOk(v, c, merged, outs);
    InstalledNumbers(v, c, outs, next, next');
    FrontStays(v, c, outs);
    MetaWellFormed(v, next);
    MetaWellFormed(w, next');
    assert M.Basic(MetaVersion(v)) by { BasicOf(MetaVersion(v)); }
    OutsRuns(v, c, merged, outs);
    CompactAccepted(v, c, outs, next, next');
    assert forall l | 0 <= l < |v| :: DistinctNums(v[l]) by { NumbersDistinct(v, next); }
    forall l | 0 <= l < NUM_LEVELS
      ensures Leaves(MetaVersion(v), CompactEdit(v, c, outs), MetaVersion(w), l)
    {
      CompactLeaves(v, c, outs, l);
    }
    EditYields(MetaVersion(v), CompactEdit(v, c, outs), MetaVersion(w));
  }

  lemma NumbersDistinct(v: Version, next: nat)
    requires NumbersOk(v, next)
    ensures forall l | 0 <= l < |v| :: DistinctNums(v[l])
  {
  }

  lemma FrontStays(v: Version, c: Job, outs: seq<Table>)
    requires |v| == NUM_LEVELS && JobOk(v, c) && forall i | 0 <= i < |v[0]| :: Ascending(v[0][i].recs)
    ensures forall i | 0 <= i < |Installed(v, c, outs)[0]| :: Ascending(Installed(v, c, outs)[0][i].recs)
  {
    hide KeysBefore, LevelRun, Ascending;
  }

  lemma OutsRuns(v: Version, c: Job, merged: seq<Record>, outs: seq<Table>)
    requires |v| == NUM_LEVELS && JobOk(v, c) && Merges(v, c, merged) && Writes(v, c, merged, outs)
    ensures Runs(outs)
  {
    hide KeysBefore, LevelRun, Ascending, KeyAscending;
    KeptAscends(merged, Below(v, c), None);
    forall i | 0 <= i < |outs|
      ensures Ascending(outs[i].recs)
    {
      TableAscends(outs, i);
      KeyAscendingAscends(outs[i].recs);
    }
  }
}
