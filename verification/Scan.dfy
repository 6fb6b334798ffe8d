/** Range scans: the snapshot iterator over the merge. */
module Scan {
  import opened Common
  import opened Keys
  import opened Layers
  import opened Merge
  import opened MergingIters

  /** The engine-internal key space. */
  const RESERVED_PREFIX: Bytes := [0, 33, 114, 97, 102, 116, 47]

  predicate Reserved(k: Bytes) {
    RESERVED_PREFIX <= k
  }

  // ------------------------------------------------ versions and visibility

  ghost predicate Newest(held: set<Record>, x: Record) {
    forall y | y in held && y.key == x.key :: y.seqno <= x.seqno
  }

  /** The newest version held decides what the history shows. */
  lemma {:induction false} NewestDecides(all: set<Record>, ops: Ops, s: nat, x: Record)
    requires Numbered(ops) && Authentic(all, ops) && Reflects(all, ops, s)
    requires x in UpTo(all, s) && Newest(UpTo(all, s), x)
    ensures Visible(ops, s, x.key) == Interpret(Some(x))
  {
    hide Visible;
    var i, found := FindLatest(ops, s, x.key);
    assert ops[x.seqno - 1] == x;
    assert found && x.seqno - 1 <= i;
    assert ops[i] in UpTo(all, s);
  }

  // -------------------------------------------------------------- the scan

  /** Of each key, all versions are ahead or none is. */
  ghost predicate Aligned(held: set<Record>, rest: set<Record>) {
    && rest <= held
    && forall x, y | x in held && y in held && x.key == y.key :: x in rest <==> y in rest
  }

  predicate Wanted(k: Bytes, end: Option<Bytes>, includeReserved: bool) {
    (end.None? || KeyLess(k, end.value)) && (includeReserved || !Reserved(k))
  }

  ghost predicate Hit(held: set<Record>, x: Record, end: Option<Bytes>, includeReserved: bool) {
    Newest(held, x) && x.kind == Put && Wanted(x.key, end, includeReserved)
  }

  /** The versions a scan has still to report. */
  ghost function Hits(held: set<Record>, rest: set<Record>, end: Option<Bytes>, includeReserved: bool): set<Record> {
    set x | x in rest && Hit(held, x, end, includeReserved)
  }

  /** Dropping a key none of whose versions is reported changes nothing. */
  lemma DropKey(held: set<Record>, rest: set<Record>, now: set<Record>, r: Record, end: Option<Bytes>, includeReserved: bool)
    requires Aligned(held, rest) && r in rest && now == set x | x in rest && x.key != r.key
    ensures Aligned(held, now)
    ensures forall x | x in Hits(held, rest, end, includeReserved) && x.key != r.key :: x in Hits(held, now, end, includeReserved)
    ensures Hits(held, now, end, includeReserved) <= Hits(held, rest, end, includeReserved)
  {
    hide Wanted, Newest;
  }

  /** The first version of a key not yet passed is its newest. */
  lemma FrontNewest(held: set<Record>, rest: set<Record>, r: Record)
    requires Aligned(held, rest) && r in rest && forall x | x in rest :: x == r || RecLess(r, x)
    ensures Newest(held, r)
  {
    forall y | y in held && y.key == r.key
      ensures y.seqno <= r.seqno
    {
      KeyIrreflexive(r.key);
    }
  }

  lemma UniqueNewest(held: set<Record>, rest: set<Record>, r: Record, x: Record)
    requires Aligned(held, rest) && r in rest && x in rest && x.key == r.key && Newest(held, x)
    requires forall y | y in rest :: y == r || RecLess(r, y)
    requires forall y, z | y in held && z in held && y.seqno == z.seqno :: y == z
    ensures x == r
  {
    hide RecLess;
    FrontNewest(held, rest, r);
  }

  /** A history writes each sequence number once. */
  ghost predicate OnePerSeqno(held: set<Record>) {
    forall y, z | y in held && z in held && y.seqno == z.seqno :: y == z
  }

  class Iterator {
    const m: MergingIter
    const s: nat
    const end: Option<Bytes>
    const includeReserved: bool
    var valid: bool

    ghost predicate Positioned()
      reads m
    {
      && m.Ok() && Later(m.incoming, s)
      && OnePerSeqno(m.Held(s)) && Aligned(m.Held(s), m.Rest(s))
    }

    /** What is still to be reported. */
    ghost function Todo(): set<Record>
      reads m
      requires m.Ok()
    {
      Hits(m.Held(s), m.Rest(s), end, includeReserved)
    }

    ghost predicate Ok()
      reads this, m
    {
      && Positioned()
      && valid == (Todo() != {})
      && (valid ==> m.Valid() && m.Current() in Todo())
    }

    constructor (m: MergingIter, s: nat, start: Option<Bytes>, end: Option<Bytes>, includeReserved: bool)
      requires m.Ok() && Later(m.incoming, s) && OnePerSeqno(m.Held(s))
      modifies m
      ensures this.m == m && this.s == s && this.end == end && this.includeReserved == includeReserved
      ensures Ok() && m.Held(s) == old(m.Held(s))
      ensures Todo() == set x | x in m.Held(s) && (start.None? || !KeyLess(x.key, start.value)) && Hit(m.Held(s), x, end, includeReserved)
    {
      hide KeyLess, Wanted, Newest, MergingIter.Ok;
      this.m, this.s, this.end, this.includeReserved := m, s, end, includeReserved;
      valid := false;
      new;
      if start.None? {
        m.First(s);
      } else {
        m.SeekGE(Record(start.value, s, Put, []), s);
        SeekRange(m.Held(s), s, start.value);
      }
      FindNext();
    }

    /** Advances past every remaining version of `uk`. */
    method SkipUserKey(uk: Bytes)
      requires m.Ok() && Later(m.incoming, s) && (forall x | x in m.Rest(s) :: !KeyLess(x.key, uk))
      requires m.Valid() && m.Current().key == uk
      modifies m
      ensures m.Ok() && Later(m.incoming, s) && m.Held(s) == old(m.Held(s))
      ensures m.Rest(s) == set x | x in old(m.Rest(s)) && x.key != uk
      ensures |m.Ahead()| < old(|m.Ahead()|)
    {
      hide KeyLess, MergingIter.Ok;
      ghost var first := true;
      KeyIrreflexive(uk);
      while m.Valid() && m.Current().key == uk
        invariant m.Ok() && Later(m.incoming, s) && m.Held(s) == old(m.Held(s))
        invariant m.Rest(s) <= old(m.Rest(s)) && forall x | x in old(m.Rest(s)) && x.key != uk :: x in m.Rest(s)
        invariant first ==> m.Ahead() == old(m.Ahead()) && m.Valid() && m.Current().key == uk
        invariant !first ==> |m.Ahead()| < old(|m.Ahead()|)
        invariant m.Valid() ==> !KeyLess(m.Current().key, uk)
        decreases |m.Ahead()|
      {
        ghost var r := m.Current();
        m.Next(s);
        first := false;
        if m.Valid() && KeyLess(m.Current().key, uk) {
          KeyAsymmetric(m.Current().key, uk);
        }
      }
      if m.Valid() {
        forall x | x in m.Rest(s)
          ensures x.key != uk
        {
          m.RestLeast(s, x);
        }
      } else {
        m.NothingAhead(s);
      }
    }

    /** Moves to the newest visible, undeleted version of the next key in range. */
    method FindNext()
      requires Positioned()
      modifies `valid, m
      ensures Ok() && m.Held(s) == old(m.Held(s)) && Todo() == old(Todo())
    {
      hide KeyLess, Hits, Aligned, OnePerSeqno, MergingIter.Ok;
      valid := false;
      while m.Valid()
        invariant Positioned() && !valid && m.Held(s) == old(m.Held(s)) && Todo() == old(Todo())
        decreases |m.Ahead()|
      {
        var r := m.Current();
        if end.Some? && !KeyLess(r.key, end.value) {
          NoneInRange();
          return;
        }
        if r.seqno > s {
          ghost var rest := m.Rest(s);
          m.Next(s);
          assert m.Rest(s) == rest;
        } else if !includeReserved && Reserved(r.key) {
          Missed(m.Held(s), m.Rest(s), r, end, includeReserved);
          Skip(r);
        } else if r.kind == Delete {
          Missed(m.Held(s), m.Rest(s), r, end, includeReserved);
          Skip(r);
        } else {
          FrontHit();
          valid := true;
          return;
        }
      }
      m.NothingAhead(s);
      assert Todo() == {} by { NoHits(m.Held(s), end, includeReserved); }
    }

    method Next()
      requires Ok() && valid
      modifies `valid, m
      ensures Ok() && m.Held(s) == old(m.Held(s)) && Todo() == old(Todo()) - {old(m.Current())}
    {
      Skip(m.Current());
      FindNext();
    }

    /** Drops the current key: at most its newest version leaves what is to report. */
    method Skip(r: Record)
      requires Positioned() && m.Valid() && r == m.Current() && r.seqno <= s
      modifies m
      ensures Positioned() && m.Held(s) == old(m.Held(s))
      ensures Todo() == old(Todo()) - {r}
      ensures |m.Ahead()| < old(|m.Ahead()|)
    {
      hide KeyLess, Wanted, Newest, MergingIter.Ok;
      ghost var held, rest := m.Held(s), m.Rest(s);
      FrontRest();
      SkipUserKey(r.key);
      DropKey(held, rest, m.Rest(s), r, end, includeReserved);
      forall x | x in Hits(held, rest, end, includeReserved) && x.key == r.key
        ensures x == r
      {
        UniqueNewest(held, rest, r, x);
      }
    }

    /** A valid iterator stands on the least version still to be reported. */
    lemma Front()
      requires Ok() && valid
      ensures m.Ok() && m.Valid() && m.Current() in Todo() && m.Current().seqno <= s
      ensures forall x | x in Todo() && x != m.Current() :: KeyLess(m.Current().key, x.key)
    {
      hide KeyLess, RecLess, Wanted, Newest, MergingIter.Ok;
      FrontRest();
      forall x | x in Todo() && x != m.Current()
        ensures KeyLess(m.Current().key, x.key)
      {
        HitsOrdered(m.Held(s), m.Current(), x, end, includeReserved);
      }
    }

    /** The current record, if visible, is the least of the rest. */
    lemma FrontRest()
      requires Positioned() && m.Valid() && m.Current().seqno <= s
      ensures m.Current() in m.Rest(s)
      ensures forall x | x in m.Rest(s) :: (x == m.Current() || RecLess(m.Current(), x)) && !KeyLess(x.key, m.Current().key)
    {
      hide KeyLess, MergingIter.Ok;
      m.CurrentAhead();
      forall x | x in m.Rest(s)
        ensures (x == m.Current() || RecLess(m.Current(), x)) && !KeyLess(x.key, m.Current().key)
      {
        m.RestLeast(s, x);
        KeyIrreflexive(x.key);
        if KeyLess(m.Current().key, x.key) {
          KeyAsymmetric(m.Current().key, x.key);
        }
      }
    }

    lemma FrontHit()
      requires Positioned() && m.Valid() && m.Current().seqno <= s && m.Current().kind == Put
      requires Wanted(m.Current().key, end, includeReserved)
      ensures m.Current() in Todo()
    {
      hide KeyLess, Wanted, MergingIter.Ok;
      FrontRest();
      FrontNewest(m.Held(s), m.Rest(s), m.Current());
    }

    lemma NoneInRange()
      requires Positioned() && m.Valid() && end.Some? && !KeyLess(m.Current().key, end.value)
      ensures Todo() == {}
    {
      hide KeyLess, MergingIter.Ok;
      forall x | x in m.Rest(s)
        ensures !Wanted(x.key, end, includeReserved)
      {
        m.RestLeast(s, x);
        if KeyLess(x.key, end.value) && x.key != m.Current().key {
          KeyTransitive(m.Current().key, x.key, end.value);
        }
      }
    }
  }

  lemma Missed(held: set<Record>, rest: set<Record>, r: Record, end: Option<Bytes>, includeReserved: bool)
    requires r.kind == Delete || !Wanted(r.key, end, includeReserved)
    ensures var hits := Hits(held, rest, end, includeReserved); hits - {r} == hits
  {
  }

  lemma NoHits(held: set<Record>, end: Option<Bytes>, includeReserved: bool)
    ensures Hits(held, {}, end, includeReserved) == {}
  {
  }

  /** Seeking to `(start, s)` with the largest kind leaves exactly the visible versions of keys from `start` on. */
  lemma {:induction false} SeekRange(held: set<Record>, s: nat, start: Bytes)
    requires forall x | x in held :: x.seqno <= s
    ensures forall x | x in held :: !RecLess(x, Record(start, s, Put, [])) <==> !KeyLess(x.key, start)
  {
    hide KeyLess;
  }

  // --------------------------------------------------------- a whole scan

  datatype Pair = Pair(key: Bytes, value: Bytes)

  predicate InRange(k: Bytes, start: Option<Bytes>, end: Option<Bytes>) {
    (start.None? || !KeyLess(k, start.value)) && (end.None? || KeyLess(k, end.value))
  }

  /** What the map after the first `s` writes shows a scan of the range. */
  ghost predicate Shown(ops: Ops, s: nat, start: Option<Bytes>, end: Option<Bytes>, includeReserved: bool, p: Pair)
    requires s <= |ops|
  {
    InRange(p.key, start, end) && (includeReserved || !Reserved(p.key)) && Visible(ops, s, p.key) == Some(p.value)
  }

  /** The versions a scan from `start` reports. */
  ghost function Reported(held: set<Record>, start: Option<Bytes>, end: Option<Bytes>, includeReserved: bool): set<Record> {
    set x | x in held && (start.None? || !KeyLess(x.key, start.value)) && Hit(held, x, end, includeReserved)
  }

  lemma HeldUnique(all: set<Record>, ops: Ops, s: nat)
    requires Authentic(all, ops)
    ensures OnePerSeqno(UpTo(all, s))
  {
  }

  /** A key's reported version is what the map holds, and every key the map holds in range is reported. */
  lemma ReportedShown(all: set<Record>, ops: Ops, s: nat, start: Option<Bytes>, end: Option<Bytes>, includeReserved: bool, p: Pair)
    requires Numbered(ops) && Authentic(all, ops) && Reflects(all, ops, s)
    ensures (exists x | x in Reported(UpTo(all, s), start, end, includeReserved) :: p == Pair(x.key, x.value))
            <==> Shown(ops, s, start, end, includeReserved, p)
  {
    hide KeyLess, Visible;
    var held := UpTo(all, s);
    var reported := Reported(held, start, end, includeReserved);
    if x :| x in reported && p == Pair(x.key, x.value) {
      NewestDecides(all, ops, s, x);
    }
    if Shown(ops, s, start, end, includeReserved, p) {
      var i, found := FindLatest(ops, s, p.key);
      var x := ops[i];
      assert x in held;
      forall y | y in held && y.key == x.key
        ensures y.seqno <= x.seqno
      {
        assert ops[y.seqno - 1] == y;
      }
      assert x in reported && p == Pair(x.key, x.value);
    }
  }

  /** Distinct reported versions have distinct keys. */
  lemma HitsOrdered(held: set<Record>, r: Record, x: Record, end: Option<Bytes>, includeReserved: bool)
    requires OnePerSeqno(held) && r in held && x in held && r != x
    requires Hit(held, r, end, includeReserved) && Hit(held, x, end, includeReserved) && RecLess(r, x)
    ensures KeyLess(r.key, x.key)
  {
    hide KeyLess, Wanted;
  }

  ghost function Found(done: seq<Record>): seq<Pair> {
    seq(|done|, i requires 0 <= i < |done| => Pair(done[i].key, done[i].value))
  }

  /** What was reported, in key order, and what remains make up the whole. */
  ghost predicate Progress(done: seq<Record>, todo: set<Record>, reported: set<Record>) {
    && KeyAscending(done) && Elems(done) + todo == reported
    && forall x, y | x in done && y in todo :: KeyLess(x.key, y.key)
  }

  lemma ProgressStep(done: seq<Record>, todo: set<Record>, reported: set<Record>, r: Record)
    requires Progress(done, todo, reported) && r in todo && forall x | x in todo && x != r :: KeyLess(r.key, x.key)
    ensures Progress(done + [r], todo - {r}, reported)
  {
    hide KeyLess;
    assert Elems(done + [r]) == Elems(done) + {r};
  }

  lemma FoundAll(done: seq<Record>, reported: set<Record>, p: Pair)
    requires Elems(done) == reported
    ensures p in Found(done) <==> exists x | x in reported :: p == Pair(x.key, x.value)
  {
    if p in Found(done) {
      var i :| 0 <= i < |done| && Found(done)[i] == p;
      assert done[i] in reported;
    }
    if x :| x in reported && p == Pair(x.key, x.value) {
      assert x in done;
      var i :| 0 <= i < |done| && done[i] == x;
      assert Found(done)[i] == p;
    }
  }

  /** Reads an iterator to its end. */
  method Drain(it: Iterator) returns (out: seq<Pair>, ghost done: seq<Record>)
    requires it.Ok()
    modifies it, it.m
    ensures out == Found(done) && KeyAscending(done) && Elems(done) == old(it.Todo())
  {
    hide KeyLess, Hit, All, Aligned, OnePerSeqno, MergingIter.Ok, Later;
    ghost var reported := it.Todo();
    done, out := [], [];
    while it.valid
      invariant it.Ok() && out == Found(done) && Progress(done, it.Todo(), reported)
      decreases |it.Todo()|
    {
      var r := it.m.Current();
      it.Front();
      ghost var todo := it.Todo();
      out := out + [Pair(r.key, r.value)];
      it.Next();
      ProgressStep(done, todo, reported, r);
      Shrinks(it.Todo(), todo, r);
      done := done + [r];
    }
  }

  /** A scan to its end: whatever is written meanwhile, it reports in ascending
      order exactly the live keys of the range at its snapshot. */
  method Collect(runs: Runs, incoming: seq<Record>, ghost ops: Ops, s: nat, start: Option<Bytes>, end: Option<Bytes>, includeReserved: bool)
    returns (out: seq<Pair>)
    requires SourcesOk(runs, incoming) && Later(incoming, s)
    requires s <= |ops| && Numbered(ops) && Authentic(All(runs), ops) && Reflects(All(runs), ops, s)
    ensures forall i, j | 0 <= i < j < |out| :: KeyLess(out[i].key, out[j].key)
    ensures forall p :: p in out <==> Shown(ops, s, start, end, includeReserved, p)
  {
    hide KeyLess, Visible, Hit, All, Aligned, OnePerSeqno, MergingIter.Ok, SourcesOk, Authentic, Numbered, Later, Reflects, Shown;
    var m := new MergingIter(runs, incoming);
    HeldUnique(All(runs), ops, s);
    var it := new Iterator(m, s, start, end, includeReserved);
    ghost var reported := it.Todo();
    assert reported == Reported(UpTo(All(runs), s), start, end, includeReserved);
    ghost var done;
    out, done := Drain(it);
    forall p
      ensures p in out <==> Shown(ops, s, start, end, includeReserved, p)
    {
      ReportedShown(All(runs), ops, s, start, end, includeReserved, p);
      FoundAll(done, reported, p);
    }
  }
}
