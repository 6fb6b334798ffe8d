/** The merging iterator as an object over its child cursors and heap. */
module MergingIters {
  import opened Common
  import opened Keys
  import opened Layers
  import opened Merge

  /** The heap with its least child brought to the front. */
  method Arrange(runs: Runs, cur: Cursors, hs: seq<nat>) returns (h: seq<nat>)
    requires SourcesOk(runs, []) && CursorsOk(runs, cur) && HeapOk(cur, hs)
    ensures HeapOk(cur, h) && LeastFront(cur, h) && |h| == |hs|
  {
    hide RecLess, Ascending;
    if hs == [] {
      return hs;
    }
    var m := Least(runs, cur, hs);
    h := hs[0 := hs[m]][m := hs[0]];
    forall c: nat | c < |cur| && cur[c].Some?
      ensures c in h
    {
      var i :| 0 <= i < |hs| && hs[i] == c;
      assert h[if i == m then 0 else if i == 0 then m else i] == c;
    }
  }

  ghost predicate Later(incoming: seq<Record>, s: nat) {
    forall y | y in incoming :: y.seqno > s
  }

  ghost function UpTo(all: set<Record>, s: nat): set<Record> {
    set x | x in all && x.seqno <= s
  }

  class MergingIter {
    var runs: Runs
    var incoming: seq<Record>
    var cur: Cursors
    var h: seq<nat>

    ghost predicate Ok()
      reads this
    {
      SourcesOk(runs, incoming) && CursorsOk(runs, cur) && HeapOk(cur, h) && LeastFront(cur, h)
    }

    /** Everything that can still be yielded. */
    ghost function Ahead(): set<Record>
      reads this
      requires Ok()
    {
      AheadAll(runs, cur) + Elems(incoming)
    }

    /** What is still to be yielded of the first `s` writes. */
    ghost function Rest(s: nat): set<Record>
      reads this
      requires Ok()
    {
      UpTo(Ahead(), s)
    }

    /** All the sources hold of the first `s` writes. */
    ghost function Held(s: nat): set<Record>
      reads this
    {
      UpTo(All(runs), s)
    }

    predicate Valid()
      reads this
    {
      h != []
    }

    function Current(): Record
      reads this
      requires Ok() && Valid()
    {
      cur[h[0]].value
    }

    constructor (runs: Runs, incoming: seq<Record>)
      requires SourcesOk(runs, incoming)
      ensures Ok() && !Valid() && this.runs == runs && this.incoming == incoming
    {
      this.runs, this.incoming := runs, incoming;
      cur := seq(|runs|, _ => None);
      h := [];
    }

    /** Concurrent writes reach the first source: any number of those to come. */
    method Absorb(ghost s: nat)
      requires Ok() && Later(incoming, s)
      modifies `runs, `incoming
      ensures Ok() && Later(incoming, s) && |runs| == old(|runs|)
      ensures Ahead() <= old(Ahead()) && Rest(s) == old(Rest(s)) && Held(s) == old(Held(s))
      ensures old(h) != [] ==> Current() == old(Current())
      ensures old(incoming) == [] ==> runs == old(runs) && incoming == []
    {
      hide RecLess, Ascending, Insert, AheadAll, All, UpTo, Elems, SourcesOk, HeapOk, LeastFront;
      var n: nat := *;
      while n > 0 && incoming != []
        invariant Ok() && Later(incoming, s) && |runs| == old(|runs|) && cur == old(cur) && h == old(h)
        invariant old(incoming) == [] ==> runs == old(runs) && incoming == []
        invariant Ahead() <= old(Ahead()) && Rest(s) == old(Rest(s)) && Held(s) == old(Held(s))
      {
        SourcesShape(runs, incoming);
        AbsorbAhead(runs, cur, incoming);
        AbsorbAll(runs, incoming[0]);
        var next := runs[0 := Insert(runs[0], incoming[0])];
        Absorbed(AheadAll(runs, cur), AheadAll(next, cur), incoming, s);
        OneMore(All(runs), All(next), incoming[0], s);
        runs, incoming := next, incoming[1..];
        n := n - 1;
      }
    }

    /** The front record is the least of all that is ahead. */
    lemma CurrentLeast(x: Record)
      requires Ok() && Valid() && x in AheadAll(runs, cur)
      ensures x == Current() || RecLess(Current(), x)
    {
      hide RecLess, Ascending;
      FrontLeast(runs, cur, h, x);
    }

    lemma RestLeast(s: nat, x: Record)
      requires Ok() && Valid() && Later(incoming, s) && x in Rest(s)
      ensures x == Current() || RecLess(Current(), x)
    {
      hide RecLess, Ascending, AheadAll;
      CurrentLeast(x);
    }

    lemma CurrentAhead()
      requires Ok() && Valid()
      ensures Current() in AheadAll(runs, cur) && Current() in All(runs)
    {
      hide RecLess, Ascending;
      RecIrreflexive(Current());
      assert Current() in AheadOf(runs[h[0]], cur[h[0]]);
    }

    lemma CurrentWritten()
      requires Ok() && Valid()
      ensures Current() !in incoming
    {
      hide RecLess, Ascending;
      assert Apart(runs[h[0]], incoming);
    }

    lemma NothingAhead(s: nat)
      requires Ok() && !Valid() && Later(incoming, s)
      ensures Rest(s) == {}
    {
      hide RecLess, Ascending;
      forall c | 0 <= c < |cur|
        ensures cur[c].None?
      {
      }
    }

    /** Repositions every child at its first record, or at its first one not before `from`. */
    method Reposition(from: Option<Record>, ghost s: nat)
      requires Ok() && Later(incoming, s)
      modifies this
      ensures Ok() && Later(incoming, s) && |runs| == old(|runs|) && Held(s) == old(Held(s))
      ensures Rest(s) == set x | x in Held(s) && (from.None? || !RecLess(x, from.value))
      ensures old(incoming) == [] ==> runs == old(runs) && incoming == []
    {
      hide RecLess, Ascending, AheadAll, All, LeastFront, FirstFrom;
      Absorb(s);
      cur, h := Positions(runs, from);
      h := Arrange(runs, cur, h);
    }

    method First(ghost s: nat)
      requires Ok() && Later(incoming, s)
      modifies this
      ensures Ok() && Later(incoming, s) && |runs| == old(|runs|)
      ensures Held(s) == old(Held(s)) && Rest(s) == Held(s)
      ensures old(incoming) == [] ==> runs == old(runs) && incoming == []
    {
      Reposition(None, s);
    }

    method SeekGE(t: Record, ghost s: nat)
      requires Ok() && Later(incoming, s)
      modifies this
      ensures Ok() && Later(incoming, s) && |runs| == old(|runs|) && Held(s) == old(Held(s))
      ensures Rest(s) == set x | x in Held(s) && !RecLess(x, t)
    {
      Reposition(Some(t), s);
    }

    /** Steps past the current record. */
    method Next(ghost s: nat)
      requires Ok() && Valid() && Later(incoming, s)
      modifies this
      ensures Ok() && Later(incoming, s) && |runs| == old(|runs|) && Held(s) == old(Held(s))
      ensures Ahead() <= old(Ahead()) - {old(Current())} && Rest(s) == old(Rest(s)) - {old(Current())}
      ensures |Ahead()| < old(|Ahead()|)
      ensures Valid() ==> RecLess(old(Current()), Current())
      ensures old(incoming) == [] ==> runs == old(runs) && incoming == []
    {
      hide RecLess, Ascending, AheadAll, All, HeapOk, LeastFront, UpTo, Elems, SourcesOk;
      ghost var r, was := Current(), Ahead();
      CurrentAhead();
      Absorb(s);
      CurrentWritten();
      assert SourcesOk(runs, []) by { SourcesAlone(runs, incoming); }
      ghost var before := AheadAll(runs, cur);
      cur, h := Advanced(runs, cur, h);
      LessOne(before, AheadAll(runs, cur), incoming, r, s);
      Shrinks(Ahead(), was, r);
    }
  }

  /** Steps the front child and restores the heap. */
  method Advanced(runs: Runs, cur: Cursors, h: seq<nat>) returns (cur': Cursors, h': seq<nat>)
    requires SourcesOk(runs, []) && CursorsOk(runs, cur) && HeapOk(cur, h) && h != [] && LeastFront(cur, h)
    ensures CursorsOk(runs, cur') && HeapOk(cur', h') && LeastFront(cur', h')
    ensures AheadAll(runs, cur') == AheadAll(runs, cur) - {cur[h[0]].value}
    ensures h' != [] ==> RecLess(cur[h[0]].value, cur'[h'[0]].value)
  {
    hide RecLess, Ascending, AheadAll, FirstAfter, LeastFront;
    var top := h[0];
    AdvanceAhead(runs, cur, top);
    cur' := cur[top := FirstAfter(runs[top], cur[top].value)];
    if cur'[top].Some? {
      h' := Arrange(runs, cur', h);
    } else {
      h' := Arrange(runs, cur', h[1..]);
    }
    if h' != [] {
      FrontRises(cur, h, cur', h');
    }
  }

  /** Once the least child moved forward, the new least is past the old one. */
  lemma FrontRises(cur: Cursors, h: seq<nat>, next: Cursors, h': seq<nat>)
    requires HeapOk(cur, h) && LeastFront(cur, h) && h != [] && HeapOk(next, h') && h' != []
    requires |next| == |cur| && forall c | 0 <= c < |cur| && c != h[0] :: next[c] == cur[c]
    requires next[h[0]].Some? ==> RecLess(cur[h[0]].value, next[h[0]].value)
    ensures RecLess(cur[h[0]].value, next[h'[0]].value)
  {
    hide RecLess;
    var c := h'[0];
    if c != h[0] {
      var i :| 0 <= i < |h| && h[i] == c;
    }
  }

  lemma SourcesShape(runs: Runs, incoming: seq<Record>)
    requires SourcesOk(runs, incoming) && incoming != []
    ensures runs != []
  {
  }

  lemma SourcesAlone(runs: Runs, incoming: seq<Record>)
    requires SourcesOk(runs, incoming)
    ensures SourcesOk(runs, [])
  {
    hide Ascending;
  }

  /** Taking one record off what is ahead. */
  lemma LessOne(a: set<Record>, b: set<Record>, incoming: seq<Record>, r: Record, s: nat)
    requires b == a - {r} && r !in incoming
    ensures b + Elems(incoming) == a + Elems(incoming) - {r}
    ensures UpTo(b + Elems(incoming), s) == UpTo(a + Elems(incoming), s) - {r}
  {
  }

  /** A write that lands adds nothing to what was to come. */
  lemma Absorbed(a: set<Record>, b: set<Record>, incoming: seq<Record>, s: nat)
    requires incoming != [] && Later(incoming, s) && a <= b <= a + {incoming[0]}
    ensures b + Elems(incoming[1..]) <= a + Elems(incoming)
    ensures UpTo(b + Elems(incoming[1..]), s) == UpTo(a + Elems(incoming), s)
    ensures Later(incoming[1..], s) && incoming[0].seqno > s
  {
    assert incoming == [incoming[0]] + incoming[1..];
  }

  lemma OneMore(a: set<Record>, b: set<Record>, y: Record, s: nat)
    requires b == a + {y} && y.seqno > s
    ensures UpTo(b, s) == UpTo(a, s)
  {
  }

  lemma Shrinks(a: set<Record>, b: set<Record>, r: Record)
    requires a <= b - {r} && r in b
    ensures |a| < |b|
  {
    SubsetSize(a, b - {r});
  }

  /** Each child's position and the list of those that have one. */
  method Positions(runs: Runs, from: Option<Record>) returns (cur: Cursors, h: seq<nat>)
    requires SourcesOk(runs, [])
    ensures CursorsOk(runs, cur) && HeapOk(cur, h)
    ensures AheadAll(runs, cur) == set x | x in All(runs) && (from.None? || !RecLess(x, from.value))
  {
    hide RecLess, Ascending, AheadAll, All, FirstFrom;
    cur, h := [], [];
    var c := 0;
    while c < |runs|
      invariant 0 <= c <= |runs| && |cur| == c
      invariant forall d | 0 <= d < c :: cur[d] == if from.None? then HeadOf(runs[d]) else FirstFrom(runs[d], from.value)
      invariant HeapOk(cur, h)
    {
      cur := cur + [if from.None? then HeadOf(runs[c]) else FirstFrom(runs[c], from.value)];
      if cur[c].Some? {
        h := h + [c];
      }
      c := c + 1;
    }
    if from.None? {
      FirstAhead(runs, cur);
    } else {
      SeekAhead(runs, cur, from.value);
    }
  }

  lemma AbsorbAll(runs: Runs, y: Record)
    requires runs != []
    ensures All(runs[0 := Insert(runs[0], y)]) == All(runs) + {y}
  {
    hide Insert;
    var next := runs[0 := Insert(runs[0], y)];
    InsertElems(runs[0], y);
    assert forall x :: x in next[0] <==> x in Elems(next[0]);
    assert forall x :: x in runs[0] <==> x in Elems(runs[0]);
    forall x
      ensures x in All(next) <==> x in All(runs) || x == y
    {
      if x in All(next) {
        var d := InLayer(next, x);
        assert d > 0 ==> x in runs[d];
      }
      if x in All(runs) {
        var d := InLayer(runs, x);
        assert x in next[d];
      }
      assert y in next[0];
    }
  }
}
