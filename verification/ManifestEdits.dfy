/** What an accepted edit does: exactly its deletions and additions, and a
    well-formed version again; and how the manifest applies one step by step. */
module ManifestEdits {
  import opened Common
  import opened Keys
  import opened Manifest

  // ------------------------------------------------------------ deletions

  lemma RemoveBasic(v: Files, l: nat, i: nat)
    requires Basic(v) && l < |v| && i < |v[l]|
    ensures Basic(v[l := v[l][..i] + v[l][i + 1..]])
  {
    hide RecLess, Bounded;
    var w := v[l := v[l][..i] + v[l][i + 1..]];
    assert forall j | 0 <= j < |w[l]| :: w[l][j] == if j < i then v[l][j] else v[l][j + 1];
    assert Tagged(v[l], l);
    assert Nums(w[l]) <= Nums(v[l]);
    forall k, m | 0 <= k < m < |w|
      ensures Nums(w[k]) !! Nums(w[m])
    {
      assert Nums(v[k]) !! Nums(v[m]);
    }
    forall k | 0 <= k < |w|
      ensures Tagged(w[k], k) && NoRepeat(w[k])
    {
      assert Tagged(v[k], k) && NoRepeat(v[k]);
    }
  }

  /** The files of a level after the deletions in `ds`. */
  ghost predicate Survives(f: FileMeta, l: int, ds: seq<DeletedFile>) {
    DeletedFile(l, f.num) !in ds
  }

  lemma RemoveExact(fs: seq<FileMeta>, i: nat, f: FileMeta)
    requires NoRepeat(fs) && i < |fs|
    ensures f in fs[..i] + fs[i + 1..] <==> f in fs && f.num != fs[i].num
  {
    var r := fs[..i] + fs[i + 1..];
    assert forall j | 0 <= j < |r| :: r[j] == if j < i then fs[j] else fs[j + 1];
    if f in fs && f.num != fs[i].num {
      var j :| 0 <= j < |fs| && fs[j] == f;
      assert r[if j < i then j else j - 1] == f;
    }
  }

  lemma {:induction false} DeleteExact(v: Files, ds: seq<DeletedFile>, l: nat, f: FileMeta)
    requires Basic(v) && DeleteAll(v, ds).Some? && l < NUM_LEVELS
    ensures Basic(DeleteAll(v, ds).value)
    ensures f in DeleteAll(v, ds).value[l] <==> f in v[l] && Survives(f, l, ds)
    decreases |ds|
  {
    hide NoRepeat, Tagged, Nums;
    if ds != [] {
      var d := ds[0];
      var i := IndexOf(v[d.level], d.num).value;
      var w := DeleteOne(v, d).value;
      assert Basic(w) && NoRepeat(v[d.level]) by { RemoveBasic(v, d.level, i); BasicLevel(v, d.level); }
      RemoveExact(v[d.level], i, f);
      DeleteExact(w, ds[1..], l, f);
      assert ds == [d] + ds[1..];
    }
  }

  lemma BasicLevel(v: Files, l: nat)
    requires Basic(v) && l < NUM_LEVELS
    ensures Tagged(v[l], l) && NoRepeat(v[l])
  {
    hide RecLess;
  }

  // ------------------------------------------------------------- additions

  lemma AppendBasic(v: Files, f: FileMeta)
    requires Basic(v) && InRange(f.level) && f.num !in Live(v) && Bounded(f)
    ensures Basic(v[f.level := v[f.level] + [f]])
  {
    hide RecLess, Bounded;
    var l := f.level;
    var w := v[l := v[l] + [f]];
    assert Nums(w[l]) == Nums(v[l]) + {f.num} by { AppendNums(v[l], f); }
    forall k | 0 <= k < |v|
      ensures f.num !in Nums(v[k])
    {
    }
    forall k, m | 0 <= k < m < |w|
      ensures Nums(w[k]) !! Nums(w[m])
    {
      assert Nums(v[k]) !! Nums(v[m]);
    }
    forall k | 0 <= k < |w|
      ensures Tagged(w[k], k) && NoRepeat(w[k])
    {
      assert Tagged(v[k], k) && NoRepeat(v[k]);
      assert k == l ==> forall j | 0 <= j < |v[l]| :: v[l][j].num in Nums(v[l]);
    }
  }

  lemma AppendNums(fs: seq<FileMeta>, f: FileMeta)
    ensures Nums(fs + [f]) == Nums(fs) + {f.num}
  {
    assert f in fs + [f];
    forall n
      ensures n in Nums(fs + [f]) <==> n in Nums(fs) || n == f.num
    {
    }
  }

  lemma {:induction false} AddExact(v: Files, adds: seq<FileMeta>, l: nat, f: FileMeta)
    requires Basic(v) && AddAll(v, adds).Some? && l < NUM_LEVELS && forall i | 0 <= i < |adds| :: Bounded(adds[i])
    ensures Basic(AddAll(v, adds).value)
    ensures f in AddAll(v, adds).value[l] <==> f in v[l] || (f in adds && f.level == l)
    decreases |adds|
  {
    hide NoRepeat, Tagged, Nums, Live, Bounded;
    if adds != [] {
      var a := adds[0];
      var w := v[a.level := v[a.level] + [a]];
      AppendBasic(v, a);
      AddExact(w, adds[1..], l, f);
      assert adds == [a] + adds[1..];
    }
  }

  // --------------------------------------------------------------- sorting

  lemma {:induction false} InsertByNumOk(f: FileMeta, fs: seq<FileMeta>)
    requires Descending(fs) && forall i | 0 <= i < |fs| :: fs[i].num != f.num
    ensures Descending(InsertByNum(f, fs)) && forall g :: g in InsertByNum(f, fs) <==> g in fs || g == f
  {
    if fs != [] && !(f.num > fs[0].num) {
      InsertByNumOk(f, fs[1..]);
      var t := InsertByNum(f, fs[1..]);
      assert fs == [fs[0]] + fs[1..];
      forall i | 0 <= i < |t|
        ensures fs[0].num > t[i].num
      {
        assert t[i] in fs[1..] || t[i] == f;
      }
    }
  }

  lemma {:induction false} SortByNumOk(fs: seq<FileMeta>)
    requires NoRepeat(fs)
    ensures Descending(SortByNum(fs)) && forall g :: g in SortByNum(fs) <==> g in fs
  {
    if fs != [] {
      SortByNumOk(fs[1..]);
      var t := SortByNum(fs[1..]);
      forall i | 0 <= i < |t|
        ensures t[i].num != fs[0].num
      {
        assert t[i] in fs[1..];
      }
      InsertByNumOk(fs[0], t);
      assert fs == [fs[0]] + fs[1..];
    }
  }

  lemma {:induction false} InsertByKeyElems(f: FileMeta, fs: seq<FileMeta>, g: FileMeta)
    ensures |InsertByKey(f, fs)| == |fs| + 1 && (g in InsertByKey(f, fs) <==> g in fs || g == f)
  {
    hide RecLess;
    if fs != [] && !RecLess(f.smallest, fs[0].smallest) {
      InsertByKeyElems(f, fs[1..], g);
      assert fs == [fs[0]] + fs[1..];
    }
  }

  lemma {:induction false} SortByKeyElems(fs: seq<FileMeta>, g: FileMeta)
    ensures |SortByKey(fs)| == |fs| && (g in SortByKey(fs) <==> g in fs)
  {
    hide RecLess, InsertByKey;
    if fs != [] {
      SortByKeyElems(fs[1..], g);
      InsertByKeyElems(fs[0], SortByKey(fs[1..]), g);
      assert fs == [fs[0]] + fs[1..];
    }
  }

  /** Sorting by key keeps numbers distinct. */
  lemma {:induction false} InsertByKeyNoRepeat(f: FileMeta, fs: seq<FileMeta>)
    requires NoRepeat(fs) && forall i | 0 <= i < |fs| :: fs[i].num != f.num
    ensures NoRepeat(InsertByKey(f, fs))
  {
    hide RecLess;
    if fs != [] && !RecLess(f.smallest, fs[0].smallest) {
      InsertByKeyNoRepeat(f, fs[1..]);
      var t := InsertByKey(f, fs[1..]);
      forall i | 0 <= i < |t|
        ensures t[i].num != fs[0].num
      {
        InsertByKeyElems(f, fs[1..], t[i]);
        assert t[i] in fs[1..] || t[i] == f;
      }
    }
  }

  lemma {:induction false} SortByKeyNoRepeat(fs: seq<FileMeta>)
    requires NoRepeat(fs)
    ensures NoRepeat(SortByKey(fs))
  {
    hide RecLess, InsertByKey;
    if fs != [] {
      SortByKeyNoRepeat(fs[1..]);
      var t := SortByKey(fs[1..]);
      forall i | 0 <= i < |t|
        ensures t[i].num != fs[0].num
      {
        SortByKeyElems(fs[1..], t[i]);
        assert t[i] in fs[1..];
      }
      InsertByKeyNoRepeat(fs[0], t);
    }
  }

  /** Sorting rearranges each level and nothing else. */
  lemma SortExact(v: Files, l: nat)
    requires Basic(v) && l < NUM_LEVELS
    ensures NoRepeat(SortLevels(v)[l]) && forall g :: g in SortLevels(v)[l] <==> g in v[l]
    ensures l == 0 ==> Descending(SortLevels(v)[0])
  {
    hide RecLess, SortByNum, SortByKey;
    assert NoRepeat(v[l]);
    if l == 0 {
      SortByNumOk(v[0]);
    } else {
      SortByKeyNoRepeat(v[l]);
      forall g
        ensures g in SortByKey(v[l]) <==> g in v[l]
      {
        SortByKeyElems(v[l], g);
      }
    }
  }

  lemma SortBasic(v: Files)
    requires Basic(v)
    ensures Basic(SortLevels(v))
  {
    hide RecLess, Bounded;
    var s := SortLevels(v);
    forall l | 0 <= l < NUM_LEVELS
      ensures Tagged(s[l], l) && NoRepeat(s[l]) && Nums(s[l]) == Nums(v[l])
    {
      SortExact(v, l);
      assert Tagged(v[l], l);
      forall i | 0 <= i < |s[l]|
        ensures s[l][i].level == l && Bounded(s[l][i])
      {
        assert s[l][i] in v[l];
      }
    }
    forall l, m | 0 <= l < m < NUM_LEVELS
      ensures Nums(s[l]) !! Nums(s[m])
    {
      assert Nums(v[l]) !! Nums(v[m]);
    }
  }

  // -------------------------------------------------------------- the theorem

  /** An accepted edit yields a well-formed version that holds exactly the files
      not deleted and the files added. */
  lemma ApplyEditExact(v: Files, e: Edit, l: nat, f: FileMeta)
    requires Basic(v) && ApplyEdit(v, e).Some? && l < NUM_LEVELS
    ensures WellFormed(ApplyEdit(v, e).value)
    ensures f in ApplyEdit(v, e).value[l] <==> (f in v[l] && Survives(f, l, e.deletes)) || (f in e.adds && f.level == l)
  {
    hide NoRepeat, Tagged, Nums, Bounded, DeleteAll, AddAll, SortLevels, Disjoint;
    var w := DeleteAll(v, e.deletes).value;
    var u := AddAll(w, e.adds).value;
    DeleteExact(v, e.deletes, l, f);
    AddExact(w, e.adds, l, f);
    SortExact(u, l);
    SortExact(u, 0);
    SortBasic(u);
  }

  // ----------------------------------------------------------- step by step

  method FindFile(fs: seq<FileMeta>, num: nat) returns (i: Option<nat>)
    ensures i == IndexOf(fs, num)
  {
    var j := 0;
    while j < |fs|
      invariant 0 <= j <= |fs| && forall k | 0 <= k < j :: fs[k].num != num
    {
      if fs[j].num == num {
        return Some(j);
      }
      j := j + 1;
    }
    i := None;
  }

  /** No file of any deeper level reaches the next. */
  method LevelsDisjoint(v: Files) returns (ok: bool)
    requires |v| == NUM_LEVELS
    ensures ok == forall l | 1 <= l < NUM_LEVELS :: Disjoint(v[l])
  {
    hide RecLess;
    var l := 1;
    while l < NUM_LEVELS
      invariant 1 <= l <= NUM_LEVELS && forall m | 1 <= m < l :: Disjoint(v[m])
    {
      var i := 0;
      while i + 1 < |v[l]|
        invariant 0 <= i && (i == 0 || i < |v[l]|) && forall j | 0 <= j < i :: RecLess(v[l][j].largest, v[l][j + 1].smallest)
      {
        if !RecLess(v[l][i].largest, v[l][i + 1].smallest) {
          assert !Disjoint(v[l]);
          return false;
        }
        i := i + 1;
      }
      l := l + 1;
    }
    ok := true;
  }

  /** Applies an edit to a copy of the version: deletions, additions, order, then the checks. */
  method Apply(v: Files, e: Edit) returns (r: Option<Files>)
    requires |v| == NUM_LEVELS
    ensures r == ApplyEdit(v, e)
  {
    hide RecLess, SortByNum, SortByKey, Live, IndexOf;
    var nv := v;
    var i := 0;
    assert e.deletes[0..] == e.deletes;
    while i < |e.deletes|
      invariant 0 <= i <= |e.deletes| && |nv| == NUM_LEVELS
      invariant DeleteAll(nv, e.deletes[i..]) == DeleteAll(v, e.deletes)
    {
      var d := e.deletes[i];
      assert e.deletes[i..][1..] == e.deletes[i + 1..];
      if d.level < 0 || d.level >= NUM_LEVELS {
        return None;
      }
      var at := FindFile(nv[d.level], d.num);
      if at.None? {
        return None;
      }
      nv := nv[d.level := nv[d.level][..at.value] + nv[d.level][at.value + 1..]];
      i := i + 1;
    }
    ghost var w := nv;
    var live := Live(nv);
    i := 0;
    assert e.adds[0..] == e.adds;
    while i < |e.adds|
      invariant 0 <= i <= |e.adds| && |nv| == NUM_LEVELS && live == Live(nv)
      invariant AddAll(nv, e.adds[i..]) == AddAll(w, e.adds)
    {
      var f := e.adds[i];
      assert e.adds[i..][1..] == e.adds[i + 1..];
      if f.level < 0 || f.level >= NUM_LEVELS || f.num in live {
        return None;
      }
      LiveAppend(nv, f.level, f);
      live := live + {f.num};
      nv := nv[f.level := nv[f.level] + [f]];
      i := i + 1;
    }
    i := 0;
    while i < |e.adds|
      invariant 0 <= i <= |e.adds| && forall j | 0 <= j < i :: Bounded(e.adds[j])
    {
      if RecLess(e.adds[i].largest, e.adds[i].smallest) {
        return None;
      }
      i := i + 1;
    }
    var s := SortLevels(nv);
    var ok := LevelsDisjoint(s);
    r := if ok then Some(s) else None;
  }
}
