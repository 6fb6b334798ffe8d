/** Running a compaction: the merge loop that writes its output tables. */
module CompactionRun {
  import opened Common
  import opened Keys
  import opened Layers
  import opened Engine
  import opened Compaction
  import opened CompactionSafety
  import opened CompactionPick
  import opened Merge
  import opened MergingIters

  /** One source per input file. */
  function InputRuns(v: Version, c: Job): Runs
    requires c.level + 1 < |v| && c.lo <= c.hi <= |v[c.level + 1]|
  {
    TableRuns(c.upper) + TableRuns(Lower(v, c))
  }

  function LastKey(done: seq<Record>, last: Option<Bytes>): Option<Bytes> {
    if done == [] then last else Some(done[|done| - 1].key)
  }

  /** The merge loop's output over a longer input extends its output so far. */
  lemma {:induction false} KeptAppend(a: seq<Record>, b: seq<Record>, below: seq<seq<Table>>, last: Option<Bytes>)
    ensures Kept(a + b, below, last) == Kept(a, below, last) + Kept(b, below, LastKey(a, last))
  {
    hide MayExistBelow;
    if a == [] {
      assert a + b == b;
    } else {
      assert (a + b)[1..] == a[1..] + b;
      KeptAppend(a[1..], b, below, Some(a[0].key));
      assert LastKey(a[1..], Some(a[0].key)) == LastKey(a, last);
    }
  }

  lemma {:induction false} KeptOne(r: Record, below: seq<seq<Table>>, last: Option<Bytes>)
    ensures Kept([r], below, last) == if last == Some(r.key) || Collectable(below, r) then [] else [r]
  {
    hide MayExistBelow;
    assert [r][1..] == [];
  }

  /** The records handled and those still in the merge make up the inputs. */
  ghost predicate Handled(done: seq<Record>, rest: set<Record>, all: set<Record>) {
    && Ascending(done) && Elems(done) + rest == all
    && forall x, y | x in done && y in rest :: RecLess(x, y)
  }

  lemma HandledStep(done: seq<Record>, rest: set<Record>, all: set<Record>, r: Record)
    requires Handled(done, rest, all) && r in rest && forall x | x in rest && x != r :: RecLess(r, x)
    ensures Handled(done + [r], rest - {r}, all)
  {
    hide RecLess;
    assert Elems(done + [r]) == Elems(done) + {r};
  }

  /** The closed outputs and the open one hold `kept`, under numbers from `next` on. */
  ghost predicate Written(outs: seq<Table>, w: seq<Record>, next: nat, num: nat, kept: seq<Record>) {
    && NonEmpty(outs) && LevelRun(outs) + w == kept
    && NumberedFrom(outs, next, num)
  }

  /** Distinct file numbers from `next` up to `num`. */
  ghost predicate NumberedFrom(outs: seq<Table>, next: nat, num: nat) {
    && next <= num && (forall i | 0 <= i < |outs| :: next <= outs[i].num < num)
    && forall i, j | 0 <= i < j < |outs| :: outs[i].num < outs[j].num
  }

  /** Handles one record of the merge. */
  method Consume(outs: seq<Table>, w: seq<Record>, num: nat, last: Option<Bytes>, r: Record, below: seq<seq<Table>>,
                 ghost next: nat, ghost kept: seq<Record>)
    returns (outs': seq<Table>, w': seq<Record>, num': nat)
    requires Written(outs, w, next, num, kept) && forall l | 0 <= l < |below| :: NonEmpty(below[l])
    ensures Written(outs', w', next, num', kept + Kept([r], below, last))
  {
    hide MayExistBelow, LevelRun, Kept;
    outs', w', num' := outs, w, num;
    KeptOne(r, below, last);
    if last == Some(r.key) {
      return;
    }
    if r.kind == Delete {
      var may := KeyMayExistBelow(below, r.key);
      if !may {
        return;
      }
    }
    outs', w', num' := Emit(outs, w, num, r, next, kept);
  }

  /** Closes the last output, if any is open. */
  method CloseLast(outs: seq<Table>, w: seq<Record>, num: nat, ghost next: nat, ghost kept: seq<Record>)
    returns (outs': seq<Table>, num': nat)
    requires Written(outs, w, next, num, kept)
    ensures Written(outs', [], next, num', kept)
  {
    hide LevelRun;
    outs', num' := outs, num;
    if w != [] {
      LevelConcat(outs, [Table(num, w)]);
      OneTable(num, w);
      outs', num' := outs + [Table(num, w)], num + 1;
    }
  }

  lemma OneTable(num: nat, w: seq<Record>)
    ensures LevelRun([Table(num, w)]) == w
  {
    assert [Table(num, w)][1..] == [];
  }

  /** Adds one surviving record to the open output, and closes it when it is full. */
  method Emit(outs: seq<Table>, w: seq<Record>, num: nat, r: Record, ghost next: nat, ghost kept: seq<Record>)
    returns (outs': seq<Table>, w': seq<Record>, num': nat)
    requires Written(outs, w, next, num, kept)
    ensures Written(outs', w', next, num', kept + [r])
  {
    hide LevelRun;
    outs', w', num' := outs, w + [r], num;
    assert LevelRun(outs) + (w + [r]) == kept + [r];
    var full: bool := *;
    if full {
      outs', num' := CloseLast(outs, w + [r], num, next, kept + [r]);
      w' := [];
    }
  }

  lemma {:induction false} Nothing(below: seq<seq<Table>>, next: nat)
    ensures Written([], [], next, next, Kept([], below, None))
  {
  }

  lemma {:induction false} WrittenAll(outs: seq<Table>, next: nat, num: nat, kept: seq<Record>)
    requires Written(outs, [], next, num, kept)
    ensures NonEmpty(outs) && LevelRun(outs) == kept
    ensures NumberedFrom(outs, next, num)
  {
  }

  lemma InputSet(v: Version, c: Job)
    requires |v| == NUM_LEVELS && JobOk(v, c)
    ensures All(InputRuns(v, c)) == Inputs(v, c)
  {
    hide KeysBefore, LevelRun, All;
    AllConcat(TableRuns(c.upper), TableRuns(Lower(v, c)));
    SameRecords(c.upper);
    SameRecords(Lower(v, c));
  }

  /** The merge's current record is the least left of its inputs. */
  lemma FrontOfRest(m: MergingIter, s: nat)
    requires m.Ok() && m.Valid() && Later(m.incoming, s) && forall x | x in All(m.runs) :: x.seqno <= s
    ensures m.Current() in m.Rest(s) && forall x | x in m.Rest(s) && x != m.Current() :: RecLess(m.Current(), x)
  {
    hide MergingIter.Ok, All, RecLess;
    m.CurrentAhead();
    forall x | x in m.Rest(s) && x != m.Current()
      ensures RecLess(m.Current(), x)
    {
      m.RestLeast(s, x);
    }
  }

  lemma HandledNothing(all: set<Record>)
    ensures Handled([], all, all)
  {
  }

  lemma HandledAll(done: seq<Record>, all: set<Record>)
    requires Handled(done, {}, all)
    ensures Ascending(done) && Elems(done) == all
  {
  }

  /** The merge loop: `outs` hold what survives of the merged sources, in order. */
  method MergeLoop(runs: Runs, below: seq<seq<Table>>, next: nat, ghost s: nat)
    returns (outs: seq<Table>, num: nat, ghost merged: seq<Record>)
    requires SourcesOk(runs, []) && forall x | x in All(runs) :: x.seqno <= s
    requires forall l | 0 <= l < |below| :: NonEmpty(below[l])
    ensures Ascending(merged) && Elems(merged) == All(runs)
    ensures NonEmpty(outs) && LevelRun(outs) == Kept(merged, below, None)
    ensures NumberedFrom(outs, next, num)
  {
    hide RecLess, Ascending, All, SourcesOk, MergingIter.Ok, MayExistBelow, LevelRun, Kept, Handled, Elems, Written;
    var m := new MergingIter(runs, []);
    m.First(s);
    ghost var all := m.Rest(s);
    assert all == All(runs);
    merged, outs, num := [], [], next;
    var w: seq<Record> := [];
    var last: Option<Bytes> := None;
    Nothing(below, next);
    HandledNothing(all);
    while m.Valid()
      invariant m.Ok() && m.runs == runs && m.incoming == [] && Handled(merged, m.Rest(s), all)
      invariant last == LastKey(merged, None)
      invariant Written(outs, w, next, num, Kept(merged, below, None))
      decreases |m.Ahead()|
    {
      var r := m.Current();
      FrontOfRest(m, s);
      HandledStep(merged, m.Rest(s), all, r);
      KeptAppend(merged, [r], below, None);
      outs, w, num := Consume(outs, w, num, last, r, below, next, Kept(merged, below, None));
      last := Some(r.key);
      m.Next(s);
      merged := merged + [r];
    }
    m.NothingAhead(s);
    HandledAll(merged, all);
    outs, num := CloseLast(outs, w, num, next, Kept(merged, below, None));
    WrittenAll(outs, next, num, Kept(merged, below, None));
  }

  /** Merges a job's inputs: the newest version of each key survives, collectable
      tombstones do not, and the outputs hold exactly the survivors in order. */
  method RunCompaction(v: Version, c: Job, next: nat, ghost s: nat)
    returns (outs: seq<Table>, num: nat, ghost merged: seq<Record>)
    requires |v| == NUM_LEVELS && JobOk(v, c) && SourcesOk(InputRuns(v, c), [])
    requires forall l | 0 <= l < |v| :: NonEmpty(v[l])
    requires forall x | x in All(InputRuns(v, c)) :: x.seqno <= s
    ensures Merges(v, c, merged) && Writes(v, c, merged, outs)
    ensures NumberedFrom(outs, next, num)
  {
    hide KeysBefore, Ascending, All, SourcesOk, LevelRun, Kept, TableRuns;
    InputSet(v, c);
    outs, num, merged := MergeLoop(InputRuns(v, c), Below(v, c), next, s);
  }
}
