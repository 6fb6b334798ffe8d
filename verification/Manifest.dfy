/** The manifest's version edits: applying one, and the snapshot that stands for
    a whole version. */
module Manifest {
  import opened Common
  import opened Keys
  import Engine

  const NUM_LEVELS: nat := Engine.NUM_LEVELS

  /** A table file as the manifest knows it: its bounds are internal keys. */
  datatype FileMeta = FileMeta(level: int, num: nat, smallest: Record, largest: Record)

  type Files = seq<seq<FileMeta>>

  datatype DeletedFile = DeletedFile(level: int, num: nat)

  datatype Edit = Edit(adds: seq<FileMeta>, deletes: seq<DeletedFile>)

  function Empty(): Files {
    seq(NUM_LEVELS, _ => [])
  }

  function Nums(fs: seq<FileMeta>): set<nat> {
    set f | f in fs :: f.num
  }

  function FlatFrom(v: Files, l: nat): seq<FileMeta>
    decreases |v| - l
  {
    if l >= |v| then [] else v[l] + FlatFrom(v, l + 1)
  }

  /** The live file numbers. */
  function Live(v: Files): set<nat> {
    set l, f | 0 <= l < |v| && f in v[l] :: f.num
  }

  ghost predicate NoRepeat(fs: seq<FileMeta>) {
    forall i, j | 0 <= i < j < |fs| :: fs[i].num != fs[j].num
  }

  // ---------------------------------------------------------------- the edit

  function IndexOf(fs: seq<FileMeta>, num: nat): (i: Option<nat>)
    ensures i.Some? ==> i.value < |fs| && fs[i.value].num == num && forall j | 0 <= j < i.value :: fs[j].num != num
    ensures i.None? ==> forall j | 0 <= j < |fs| :: fs[j].num != num
  {
    if fs == [] then None
    else if fs[0].num == num then Some(0)
    else
      match IndexOf(fs[1..], num)
      case None =>
        assert forall j | 0 < j < |fs| :: fs[j] == fs[1..][j - 1];
        None
      case Some(i) =>
        assert forall j | 0 < j <= i :: fs[j] == fs[1..][j - 1];
        Some(i + 1)
  }

  predicate InRange(level: int) {
    0 <= level < NUM_LEVELS
  }

  function DeleteOne(v: Files, d: DeletedFile): (r: Option<Files>)
    requires |v| == NUM_LEVELS
    ensures r.Some? ==> |r.value| == NUM_LEVELS
  {
    if !InRange(d.level) then None
    else
      match IndexOf(v[d.level], d.num)
      case None => None
      case Some(i) => Some(v[d.level := v[d.level][..i] + v[d.level][i + 1..]])
  }

  function DeleteAll(v: Files, ds: seq<DeletedFile>): (r: Option<Files>)
    requires |v| == NUM_LEVELS
    ensures r.Some? ==> |r.value| == NUM_LEVELS
    decreases |ds|
  {
    if ds == [] then Some(v)
    else
      match DeleteOne(v, ds[0])
      case None => None
      case Some(w) => DeleteAll(w, ds[1..])
  }

  /** Appends the new files to their levels; a live number is refused. */
  function AddAll(v: Files, adds: seq<FileMeta>): (r: Option<Files>)
    requires |v| == NUM_LEVELS
    ensures r.Some? ==> |r.value| == NUM_LEVELS
    decreases |adds|
  {
    if adds == [] then Some(v)
    else if !InRange(adds[0].level) || adds[0].num in Live(v) then None
    else AddAll(v[adds[0].level := v[adds[0].level] + [adds[0]]], adds[1..])
  }

  function InsertByNum(f: FileMeta, fs: seq<FileMeta>): seq<FileMeta> {
    if fs == [] || f.num > fs[0].num then [f] + fs else [fs[0]] + InsertByNum(f, fs[1..])
  }

  /** Newest first. */
  function SortByNum(fs: seq<FileMeta>): seq<FileMeta> {
    if fs == [] then [] else InsertByNum(fs[0], SortByNum(fs[1..]))
  }

  function InsertByKey(f: FileMeta, fs: seq<FileMeta>): seq<FileMeta> {
    if fs == [] || RecLess(f.smallest, fs[0].smallest) then [f] + fs else [fs[0]] + InsertByKey(f, fs[1..])
  }

  /** By smallest key. */
  function SortByKey(fs: seq<FileMeta>): seq<FileMeta> {
    if fs == [] then [] else InsertByKey(fs[0], SortByKey(fs[1..]))
  }

  predicate Bounded(f: FileMeta) {
    !RecLess(f.largest, f.smallest)
  }

  /** No file reaches the next one. */
  predicate Disjoint(fs: seq<FileMeta>) {
    forall i | 0 <= i < |fs| - 1 :: RecLess(fs[i].largest, fs[i + 1].smallest)
  }

  function SortLevels(v: Files): (w: Files)
    requires |v| == NUM_LEVELS
    ensures |w| == NUM_LEVELS
  {
    seq(NUM_LEVELS, l requires 0 <= l < NUM_LEVELS => if l == 0 then SortByNum(v[0]) else SortByKey(v[l]))
  }

  /** The version after the edit, or None when the edit is inconsistent with it. */
  function ApplyEdit(v: Files, e: Edit): (r: Option<Files>)
    requires |v| == NUM_LEVELS
    ensures r.Some? ==> |r.value| == NUM_LEVELS
  {
    match DeleteAll(v, e.deletes)
    case None => None
    case Some(w) =>
      match AddAll(w, e.adds)
      case None => None
      case Some(u) =>
        var s := SortLevels(u);
        if (forall i | 0 <= i < |e.adds| :: Bounded(e.adds[i])) && (forall l | 1 <= l < NUM_LEVELS :: Disjoint(s[l]))
        then Some(s) else None
  }

  function Snapshot(v: Files): Edit {
    Edit(FlatFrom(v, 0), [])
  }

  // -------------------------------------------------------------- invariant

  ghost predicate Descending(fs: seq<FileMeta>) {
    forall i, j | 0 <= i < j < |fs| :: fs[i].num > fs[j].num
  }

  ghost predicate KeySorted(fs: seq<FileMeta>) {
    forall i, j | 0 <= i < j < |fs| :: RecLess(fs[i].smallest, fs[j].smallest)
  }

  /** Files in their own levels, with ordered bounds, and no number twice. */
  ghost predicate Basic(v: Files) {
    && |v| == NUM_LEVELS
    && (forall l | 0 <= l < |v| :: Tagged(v[l], l) && NoRepeat(v[l]))
    && (forall l, m | 0 <= l < m < |v| :: Nums(v[l]) !! Nums(v[m]))
  }

  ghost predicate Tagged(fs: seq<FileMeta>, l: int) {
    forall i | 0 <= i < |fs| :: fs[i].level == l && Bounded(fs[i])
  }

  /** Level 0 newest first, deeper levels disjoint. */
  ghost predicate InOrder(fs: seq<FileMeta>, l: int) {
    if l == 0 then Descending(fs) else Disjoint(fs)
  }

  ghost predicate WellFormed(v: Files) {
    Basic(v) && forall l | 0 <= l < |v| :: InOrder(v[l], l)
  }

  // ---------------------------------------------------------- sorting lists

  lemma {:induction false} SortByNumSame(fs: seq<FileMeta>)
    requires Descending(fs)
    ensures SortByNum(fs) == fs
  {
    if fs != [] {
      SortByNumSame(fs[1..]);
      assert fs == [fs[0]] + fs[1..];
      assert fs[1..] != [] ==> fs[1..][0] == fs[1];
    }
  }

  lemma {:induction false} SortByKeySame(fs: seq<FileMeta>)
    requires KeySorted(fs)
    ensures SortByKey(fs) == fs
  {
    hide RecLess;
    if fs != [] {
      SortByKeySame(fs[1..]);
      assert fs == [fs[0]] + fs[1..];
      assert fs[1..] != [] ==> fs[1..][0] == fs[1];
    }
  }

  /** Disjoint files with ordered bounds are sorted by smallest key. */
  lemma DisjointSorted(fs: seq<FileMeta>)
    requires Disjoint(fs) && forall i | 0 <= i < |fs| :: Bounded(fs[i])
    ensures KeySorted(fs)
  {
    hide RecLess;
    forall i, j | 0 <= i < j < |fs|
      ensures RecLess(fs[i].smallest, fs[j].smallest)
    {
      StartsOrdered(fs, i, j);
    }
  }

  lemma {:induction false} StartsOrdered(fs: seq<FileMeta>, i: nat, j: nat)
    requires Disjoint(fs) && (forall i | 0 <= i < |fs| :: Bounded(fs[i])) && i < j < |fs|
    ensures RecLess(fs[i].smallest, fs[j].smallest)
    decreases j - i
  {
    hide RecLess;
    BoundedLess(fs[i], fs[i + 1].smallest);
    if i + 1 < j {
      StartsOrdered(fs, i + 1, j);
      RecTransitive(fs[i].smallest, fs[i + 1].smallest, fs[j].smallest);
    }
  }

  lemma BoundedLess(f: FileMeta, k: Record)
    requires Bounded(f) && RecLess(f.largest, k)
    ensures RecLess(f.smallest, k)
  {
    hide KeyLess;
    RecTotal(f.smallest, f.largest);
    if RecLess(f.smallest, f.largest) {
      RecTransitive(f.smallest, f.largest, k);
    }
  }

  // ------------------------------------------------------------ the snapshot

  /** Appending to a level adds its number to the live ones. */
  lemma LiveAppend(v: Files, l: nat, f: FileMeta)
    requires l < |v|
    ensures Live(v[l := v[l] + [f]]) == Live(v) + {f.num}
  {
    var w := v[l := v[l] + [f]];
    forall n
      ensures n in Live(w) <==> n in Live(v) || n == f.num
    {
      if n in Live(w) {
        var m: nat, g: FileMeta :| m < |w| && g in w[m] && g.num == n;
        assert g in v[m] || g == f;
      }
      if n in Live(v) {
        var m: nat, g: FileMeta :| m < |v| && g in v[m] && g.num == n;
        assert g in w[m];
      }
      assert f in w[l];
    }
  }

  /** The files of one level, added in order to a version that has none of them. */
  lemma {:induction false} AddLevel(v: Files, l: nat, fs: seq<FileMeta>, rest: seq<FileMeta>)
    requires |v| == NUM_LEVELS && l < NUM_LEVELS && NoRepeat(fs)
    requires forall i | 0 <= i < |fs| :: fs[i].level == l && fs[i].num !in Live(v)
    ensures AddAll(v, fs + rest) == AddAll(v[l := v[l] + fs], rest)
    decreases |fs|
  {
    hide Live;
    if fs == [] {
      assert fs + rest == rest && v[l] + fs == v[l] && v[l := v[l]] == v;
    } else {
      var w := v[l := v[l] + [fs[0]]];
      LiveAppend(v, l, fs[0]);
      assert (fs + rest)[1..] == fs[1..] + rest;
      AddLevel(w, l, fs[1..], rest);
      assert w[l] + fs[1..] == v[l] + fs;
      assert w[l := v[l] + fs] == v[l := v[l] + fs];
    }
  }

  /** The first `l` levels of a version. */
  function Upto(v: Files, l: nat): (w: Files)
    requires |v| == NUM_LEVELS && l <= NUM_LEVELS
    ensures |w| == NUM_LEVELS
  {
    seq(NUM_LEVELS, i requires 0 <= i < NUM_LEVELS => if i < l then v[i] else [])
  }

  /** A level's numbers are not among the earlier levels'. */
  lemma LevelFresh(v: Files, m: nat)
    requires Basic(v) && m < |v|
    ensures forall i | 0 <= i < |v[m]| :: v[m][i].num !in Live(Upto(v, m))
  {
    forall i, k, g | 0 <= i < |v[m]| && 0 <= k < m && g in v[k]
      ensures g.num != v[m][i].num
    {
      assert v[m][i].num in Nums(v[m]) && g.num in Nums(v[k]) && Nums(v[k]) !! Nums(v[m]);
    }
  }

  lemma {:induction false} SnapshotAdds(v: Files, l: nat)
    requires Basic(v) && l <= NUM_LEVELS
    ensures AddAll(Upto(v, l), FlatFrom(v, l)) == Some(v)
    decreases NUM_LEVELS - l
  {
    hide Live, NoRepeat, Nums;
    if l == NUM_LEVELS {
      assert Upto(v, l) == v;
    } else {
      LevelFresh(v, l);
      assert Tagged(v[l], l);
      AddLevel(Upto(v, l), l, v[l], FlatFrom(v, l + 1));
      assert Upto(v, l)[l] + v[l] == v[l];
      assert Upto(v, l)[l := v[l]] == Upto(v, l + 1);
      SnapshotAdds(v, l + 1);
    }
  }

  lemma {:induction false} FlatBounded(v: Files, l: nat, f: FileMeta)
    requires Basic(v) && f in FlatFrom(v, l)
    ensures Bounded(f)
    decreases |v| - l
  {
    hide NoRepeat, Nums, RecLess;
    if f in v[l] {
      assert Tagged(v[l], l);
    } else {
      FlatBounded(v, l + 1, f);
    }
  }

  /** A snapshot rebuilds the version it was taken of. */
  lemma SnapshotRoundTrip(v: Files)
    requires WellFormed(v)
    ensures ApplyEdit(Empty(), Snapshot(v)) == Some(v)
  {
    hide RecLess, AddAll, NoRepeat, SortByNum, SortByKey, FlatFrom, Bounded, Nums;
    assert Upto(v, 0) == Empty();
    SnapshotAdds(v, 0);
    LevelsSorted(v);
    forall i | 0 <= i < |FlatFrom(v, 0)|
      ensures Bounded(FlatFrom(v, 0)[i])
    {
      FlatBounded(v, 0, FlatFrom(v, 0)[i]);
    }
    assert forall l | 1 <= l < NUM_LEVELS :: InOrder(v[l], l);
  }

  /** A well-formed version is already in order. */
  lemma LevelsSorted(v: Files)
    requires WellFormed(v)
    ensures SortLevels(v) == v
  {
    hide RecLess, SortByNum, SortByKey, Nums, NoRepeat;
    forall l | 0 <= l < NUM_LEVELS
      ensures SortLevels(v)[l] == v[l]
    {
      assert InOrder(v[l], l) && Tagged(v[l], l);
      if l == 0 {
        SortByNumSame(v[0]);
      } else {
        DisjointSorted(v[l]);
        SortByKeySame(v[l]);
      }
    }
  }
}
