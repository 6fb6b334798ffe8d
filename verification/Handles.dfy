/** The lifetime of table files: reference counts on open handles, pins on read
    states, and the collector of files no version names. Readers, a flush and a
    compaction interleave step by step. */
module Handles {
  import opened Common

  type Handle = nat
  type View = nat
  type Num = nat

  /** A read state: the handles it includes and who holds it. */
  datatype ReadState = ReadState(handles: set<Handle>, refs: nat)

  datatype Tables = Tables(
    refs: map<Handle, nat>,
    numOf: map<Handle, Num>,
    cache: map<Num, Handle>,
    states: map<View, ReadState>,
    current: View,
    retiring: set<View>,
    readers: multiset<View>,
    inputs: set<Handle>,
    loose: set<Handle>,
    version: set<Num>,
    pending: set<Num>,
    written: set<Num>,
    files: set<Num>)

  datatype Event =
    | AllocNumber(num: Num)
    | WriteTable(num: Num)
    | ForgetNumber(num: Num)
    | OpenTable(num: Num, h: Handle)
    | AbandonTable(h: Handle)
    | ApplyEdit(adds: set<Num>, dels: set<Num>)
    | CacheTable(h: Handle)
    | DropTable(num: Num)
    | InstallState(view: View)
    | RetireState(view: View)
    | Acquire
    | Release(view: View)
    | PinInputs(hs: set<Handle>)
    | UnpinInputs
    | DeleteObsolete

  // ------------------------------------------------------------- the counters

  function Counted(refs: map<Handle, nat>, hs: set<Handle>): (r: map<Handle, nat>) {
    map h | h in refs :: if h in hs then refs[h] + 1 else refs[h]
  }

  /** Gives back one reference on each; below zero is a logic error. */
  function Uncounted(refs: map<Handle, nat>, hs: set<Handle>): Checked<map<Handle, nat>> {
    if exists h | h in hs :: h !in refs || refs[h] == 0 then Panic
    else Ok(map h | h in refs :: if h in hs && refs[h] > 0 then refs[h] - 1 else refs[h])
  }

  /** Gives back one reference on a read state; the last one gives back its handles. */
  function ReleaseState(t: Tables, v: View): Checked<Tables>
    requires v in t.states
  {
    var s := t.states[v];
    if s.refs == 0 then Panic
    else
      var t' := t.(states := t.states[v := s.(refs := s.refs - 1)]);
      if s.refs > 1 then Ok(t')
      else
        var r :- Uncounted(t.refs, s.handles);
        Ok(t'.(refs := r))
  }

  function HandlesOf(t: Tables): set<Handle> {
    set n | n in t.version && n in t.cache :: t.cache[n]
  }

  /** What the engine's code lets happen when. */
  predicate Enabled(t: Tables, e: Event) {
    match e
    case AllocNumber(num) => num !in t.files && num !in t.pending && num !in t.version
    case WriteTable(num) => num in t.pending
    case ForgetNumber(num) => num in t.pending
    case OpenTable(num, h) => num in t.files && h !in t.refs
    case AbandonTable(h) => h in t.loose
    case ApplyEdit(adds, dels) => adds <= t.written
    case CacheTable(h) => h in t.loose && h in t.numOf && t.numOf[h] !in t.cache
    case DropTable(num) => num in t.cache && num !in t.version
    case InstallState(v) => v !in t.states && t.version <= t.cache.Keys
    case RetireState(v) => v in t.retiring
    case Acquire => true
    case Release(v) => v in t.readers
    case PinInputs(hs) => t.inputs == {} && hs <= HandlesOf(t)
    case UnpinInputs => true
    case DeleteObsolete => true
  }

  function After(t: Tables, e: Event): Checked<Tables>
    requires Enabled(t, e)
  {
    match e
    case AllocNumber(num) => Ok(t.(pending := t.pending + {num}))
    case WriteTable(num) => Ok(t.(files := t.files + {num}, written := t.written + {num}))
    case ForgetNumber(num) => Ok(t.(pending := t.pending - {num}, written := t.written - {num}))
    case OpenTable(num, h) => Ok(t.(refs := t.refs[h := 1], numOf := t.numOf[h := num], loose := t.loose + {h}))
    case AbandonTable(h) =>
      var r :- Uncounted(t.refs, {h});
      Ok(t.(refs := r, loose := t.loose - {h}))
    case ApplyEdit(adds, dels) =>
      Ok(t.(version := t.version - dels + adds, pending := t.pending - adds, written := t.written - adds))
    case CacheTable(h) => Ok(t.(cache := t.cache[t.numOf[h] := h], loose := t.loose - {h}))
    case DropTable(num) =>
      var r :- Uncounted(t.refs, {t.cache[num]});
      Ok(t.(refs := r, cache := t.cache - {num}))
    case InstallState(v) =>
      Ok(t.(refs := Counted(t.refs, HandlesOf(t)), states := t.states[v := ReadState(HandlesOf(t), 1)],
            current := v, retiring := t.retiring + {t.current}))
    case RetireState(v) =>
      if v !in t.states then Panic
      else
        var t' :- ReleaseState(t, v);
        Ok(t'.(retiring := t.retiring - {v}))
    case Acquire =>
      if t.current !in t.states then Panic
      else
        var s := t.states[t.current];
        Ok(t.(states := t.states[t.current := s.(refs := s.refs + 1)], readers := t.readers + multiset{t.current}))
    case Release(v) =>
      if v !in t.states then Panic
      else
        var t' :- ReleaseState(t, v);
        Ok(t'.(readers := t.readers - multiset{v}))
    case PinInputs(hs) => Ok(t.(refs := Counted(t.refs, hs), inputs := hs))
    case UnpinInputs =>
      var r :- Uncounted(t.refs, t.inputs);
      Ok(t.(refs := r, inputs := {}))
    case DeleteObsolete => Ok(t.(files := t.files * (t.version + t.pending)))
  }

  // -------------------------------------------------------------- conservation

  function One(b: bool): nat {
    if b then 1 else 0
  }

  /** The read states in use that include a handle. */
  function Holders(t: Tables, h: Handle): set<View> {
    set v | v in t.states && t.states[v].refs > 0 && h in t.states[v].handles
  }

  predicate Cached(t: Tables, h: Handle) {
    h in t.numOf && t.numOf[h] in t.cache && t.cache[t.numOf[h]] == h
  }

  /** Who holds a handle: the cache, every read state in use that includes it, a
      running compaction, and the step that opened it. */
  function Owed(t: Tables, h: Handle): nat {
    One(Cached(t, h)) + |Holders(t, h)| + One(h in t.inputs) + One(h in t.loose)
  }

  ghost predicate Conserved(t: Tables) {
    forall h | h in t.refs :: t.refs[h] == Owed(t, h)
  }

  ghost predicate Known(t: Tables) {
    && t.numOf.Keys == t.refs.Keys
    && t.inputs <= t.refs.Keys && t.loose <= t.refs.Keys
    && (forall n | n in t.cache :: t.cache[n] in t.refs && t.numOf[t.cache[n]] == n)
    && (forall v | v in t.states :: t.states[v].handles <= t.refs.Keys)
    && (forall h | h in t.loose :: !Cached(t, h))
  }

  /** A read state's own count: the engine's reference, the replaced state's until it is
      given back, and its readers. */
  ghost predicate Pinned(t: Tables) {
    && t.current in t.states && t.current !in t.retiring && t.retiring <= t.states.Keys
    && (forall v | v in t.readers :: v in t.states)
    && (forall v | v in t.states :: t.states[v].refs == One(v == t.current) + One(v in t.retiring) + t.readers[v])
  }

  ghost predicate Kept(t: Tables) {
    t.version <= t.files && t.written <= t.files && t.written <= t.pending
  }

  ghost predicate Inv(t: Tables) {
    Conserved(t) && Known(t) && Pinned(t) && Kept(t)
  }

  // ------------------------------------------------------------------- steps

  /** Whoever is owed a reference keeps the handle's counter above zero. */
  lemma OwedPositive(t: Tables, h: Handle)
    requires Conserved(t) && h in t.refs
    requires Cached(t, h) || h in t.inputs || h in t.loose || exists v :: v in Holders(t, h)
    ensures t.refs[h] > 0
  {
    if v :| v in Holders(t, h) {
      assert |Holders(t, h)| > 0;
    }
  }

  lemma ReleaseOk(t: Tables, v: View)
    requires Conserved(t) && Known(t) && v in t.states && t.states[v].refs > 0
    ensures ReleaseState(t, v).Ok?
    ensures var u := ReleaseState(t, v).value;
            && u == t.(refs := u.refs, states := t.states[v := t.states[v].(refs := t.states[v].refs - 1)])
            && u.refs.Keys == t.refs.Keys && Conserved(u)
  {
    var s := t.states[v];
    forall h | h in s.handles
      ensures h in t.refs && t.refs[h] > 0
    {
      assert v in Holders(t, h);
      OwedPositive(t, h);
    }
    var u := ReleaseState(t, v).value;
    forall h | h in u.refs
      ensures u.refs[h] == Owed(u, h)
    {
      assert t.refs[h] == Owed(t, h);
      if s.refs > 1 || h !in s.handles {
        assert Holders(u, h) == Holders(t, h);
      } else {
        assert v in Holders(t, h) && Holders(u, h) == Holders(t, h) - {v};
      }
    }
  }

  lemma SameHolders(t: Tables, u: Tables, h: Handle)
    requires u.states == t.states
    ensures Holders(u, h) == Holders(t, h)
  {
  }

  lemma InstallConserved(t: Tables, v: View)
    requires Conserved(t) && Enabled(t, InstallState(v))
    ensures Conserved(After(t, InstallState(v)).value)
  {
    var u := After(t, InstallState(v)).value;
    forall h | h in u.refs
      ensures u.refs[h] == Owed(u, h)
    {
      assert t.refs[h] == Owed(t, h);
      if h in HandlesOf(t) {
        assert v !in Holders(t, h) && Holders(u, h) == Holders(t, h) + {v};
      } else {
        assert Holders(u, h) == Holders(t, h);
      }
    }
  }

  lemma InstallKnown(t: Tables, v: View)
    requires Known(t) && Enabled(t, InstallState(v))
    ensures Known(After(t, InstallState(v)).value)
  {
    hide Counted;
    CountedKeys(t.refs, HandlesOf(t));
  }

  lemma CountedKeys(refs: map<Handle, nat>, hs: set<Handle>)
    ensures Counted(refs, hs).Keys == refs.Keys
  {
  }

  lemma InstallPinned(t: Tables, v: View)
    requires Pinned(t) && Enabled(t, InstallState(v))
    ensures Pinned(After(t, InstallState(v)).value)
  {
    hide Counted, HandlesOf;
  }

  lemma InstallOk(t: Tables, v: View)
    requires Inv(t) && Enabled(t, InstallState(v))
    ensures Inv(After(t, InstallState(v)).value)
  {
    hide Conserved, Known, Pinned;
    InstallConserved(t, v);
    InstallKnown(t, v);
    InstallPinned(t, v);
  }

  lemma AcquireOk(t: Tables)
    requires Inv(t)
    ensures After(t, Acquire).Ok? && Inv(After(t, Acquire).value)
  {
    var u := After(t, Acquire).value;
    forall h | h in u.refs
      ensures u.refs[h] == Owed(u, h)
    {
      assert t.refs[h] == Owed(t, h);
      assert Holders(u, h) == Holders(t, h);
    }
  }

  lemma ReleaseStepOk(t: Tables, e: Event)
    requires Inv(t) && (e.Release? || e.RetireState?) && Enabled(t, e)
    ensures After(t, e).Ok? && Inv(After(t, e).value)
  {
    hide Owed, Conserved, ReleaseState;
    ReleaseOk(t, e.view);
    var s := ReleaseState(t, e.view).value;
    var u := After(t, e).value;
    ConservedView(s, u);
    assert Known(u) by { SameKnown(t, u); }
    assert Pinned(u) by { Unpinned(t, u, e.view); }
  }

  lemma SameKnown(t: Tables, u: Tables)
    requires Known(t) && u.numOf == t.numOf && u.refs.Keys == t.refs.Keys && u.inputs == t.inputs && u.loose == t.loose && u.cache == t.cache
    requires u.states.Keys == t.states.Keys && forall v | v in t.states :: u.states[v].handles == t.states[v].handles
    ensures Known(u)
  {
  }

  /** One reference fewer on one read state. */
  lemma Unpinned(t: Tables, u: Tables, v: View)
    requires Pinned(t) && v in t.states && t.states[v].refs > 0 && u.current == t.current
    requires u.states == t.states[v := t.states[v].(refs := t.states[v].refs - 1)]
    requires || (v in t.readers && u.readers == t.readers - multiset{v} && u.retiring == t.retiring)
             || (v in t.retiring && u.readers == t.readers && u.retiring == t.retiring - {v})
    ensures Pinned(u)
  {
  }

  /** Conservation looks at neither pins nor files. */
  lemma ConservedView(t: Tables, u: Tables)
    requires Conserved(t) && u.refs == t.refs && u.numOf == t.numOf && u.cache == t.cache && u.states == t.states && u.inputs == t.inputs && u.loose == t.loose
    ensures Conserved(u)
  {
    forall h | h in u.refs
      ensures u.refs[h] == Owed(u, h)
    {
      SameHolders(t, u, h);
    }
  }

  lemma PinOk(t: Tables, hs: set<Handle>)
    requires Inv(t) && Enabled(t, PinInputs(hs))
    ensures Inv(After(t, PinInputs(hs)).value)
  {
    hide Pinned, Kept;
    var u := After(t, PinInputs(hs)).value;
    PinnedView(t, u);
    KeptView(t, u);
    forall h | h in u.refs
      ensures u.refs[h] == Owed(u, h)
    {
      assert t.refs[h] == Owed(t, h);
      SameHolders(t, u, h);
    }
  }

  lemma UnpinOk(t: Tables)
    requires Inv(t)
    ensures After(t, UnpinInputs).Ok? && Inv(After(t, UnpinInputs).value)
  {
    hide Pinned, Kept;
    forall h | h in t.inputs
      ensures t.refs[h] > 0
    {
      OwedPositive(t, h);
    }
    var u := After(t, UnpinInputs).value;
    PinnedView(t, u);
    KeptView(t, u);
    forall h | h in u.refs
      ensures u.refs[h] == Owed(u, h)
    {
      assert t.refs[h] == Owed(t, h);
      SameHolders(t, u, h);
    }
  }

  lemma PinnedView(t: Tables, u: Tables)
    requires Pinned(t) && u.states == t.states && u.current == t.current && u.retiring == t.retiring && u.readers == t.readers
    ensures Pinned(u)
  {
  }

  lemma KeptView(t: Tables, u: Tables)
    requires Kept(t) && u.version == t.version && u.files == t.files && u.written == t.written && u.pending == t.pending
    ensures Kept(u)
  {
  }

  lemma OpenConserved(t: Tables, num: Num, h: Handle)
    requires Conserved(t) && Known(t) && Enabled(t, OpenTable(num, h))
    ensures Conserved(After(t, OpenTable(num, h)).value)
  {
    hide Holders;
    var u := After(t, OpenTable(num, h)).value;
    forall g | g in u.refs
      ensures u.refs[g] == Owed(u, g)
    {
      SameHolders(t, u, g);
      if g in t.refs {
        assert t.refs[g] == Owed(t, g);
      } else {
        UnknownUnheld(t, g);
      }
    }
  }

  lemma UnknownUnheld(t: Tables, h: Handle)
    requires Known(t) && h !in t.refs
    ensures Holders(t, h) == {}
  {
  }

  lemma OpenKnown(t: Tables, num: Num, h: Handle)
    requires Known(t) && Enabled(t, OpenTable(num, h))
    ensures Known(After(t, OpenTable(num, h)).value)
  {
  }

  lemma OpenOk(t: Tables, num: Num, h: Handle)
    requires Inv(t) && Enabled(t, OpenTable(num, h))
    ensures Inv(After(t, OpenTable(num, h)).value)
  {
    hide Pinned, Kept, Conserved, Known;
    var u := After(t, OpenTable(num, h)).value;
    PinnedView(t, u);
    KeptView(t, u);
    OpenConserved(t, num, h);
    OpenKnown(t, num, h);
  }

  lemma AbandonOk(t: Tables, h: Handle)
    requires Inv(t) && Enabled(t, AbandonTable(h))
    ensures After(t, AbandonTable(h)).Ok? && Inv(After(t, AbandonTable(h)).value)
  {
    hide Pinned, Kept;
    OwedPositive(t, h);
    var u := After(t, AbandonTable(h)).value;
    PinnedView(t, u);
    KeptView(t, u);
    forall g | g in u.refs
      ensures u.refs[g] == Owed(u, g)
    {
      SameHolders(t, u, g);
      assert t.refs[g] == Owed(t, g);
    }
  }

  lemma CacheOk(t: Tables, h: Handle)
    requires Inv(t) && Enabled(t, CacheTable(h))
    ensures Inv(After(t, CacheTable(h)).value)
  {
    hide Pinned, Kept;
    var u := After(t, CacheTable(h)).value;
    PinnedView(t, u);
    KeptView(t, u);
    forall g | g in u.refs
      ensures u.refs[g] == Owed(u, g)
    {
      SameHolders(t, u, g);
      assert t.refs[g] == Owed(t, g);
    }
  }

  lemma DropConserved(t: Tables, num: Num)
    requires Conserved(t) && Known(t) && Enabled(t, DropTable(num))
    ensures After(t, DropTable(num)).Ok? && Conserved(After(t, DropTable(num)).value)
  {
    OwedPositive(t, t.cache[num]);
    var u := After(t, DropTable(num)).value;
    forall g | g in u.refs
      ensures u.refs[g] == Owed(u, g)
    {
      SameHolders(t, u, g);
      assert t.refs[g] == Owed(t, g);
      assert Cached(u, g) <==> Cached(t, g) && g != t.cache[num];
    }
  }

  lemma DropKnown(t: Tables, num: Num)
    requires Known(t) && Enabled(t, DropTable(num)) && After(t, DropTable(num)).Ok?
    ensures Known(After(t, DropTable(num)).value)
  {
    var u := After(t, DropTable(num)).value;
    assert u.refs.Keys == t.refs.Keys;
  }

  lemma DropOk(t: Tables, num: Num)
    requires Inv(t) && Enabled(t, DropTable(num))
    ensures After(t, DropTable(num)).Ok? && Inv(After(t, DropTable(num)).value)
  {
    hide Conserved, Known, Pinned, Kept;
    DropConserved(t, num);
    DropKnown(t, num);
    var u := After(t, DropTable(num)).value;
    PinnedView(t, u);
    KeptView(t, u);
  }

  /** Every step keeps the counters equal to what is owed, and none goes below zero. */
  lemma StepOk(t: Tables, e: Event)
    requires Inv(t) && Enabled(t, e)
    ensures After(t, e).Ok? && Inv(After(t, e).value)
  {
    hide Conserved, Known, Pinned;
    match e
    case OpenTable(num, h) => OpenOk(t, num, h);
    case AbandonTable(h) => AbandonOk(t, h);
    case CacheTable(h) => CacheOk(t, h);
    case DropTable(num) => DropOk(t, num);
    case InstallState(v) => InstallOk(t, v);
    case RetireState(_) => ReleaseStepOk(t, e);
    case Acquire => AcquireOk(t);
    case Release(_) => ReleaseStepOk(t, e);
    case PinInputs(hs) => PinOk(t, hs);
    case UnpinInputs => UnpinOk(t);
    case _ => FileOk(t, e);
  }

  lemma FileOk(t: Tables, e: Event)
    requires Inv(t) && Enabled(t, e) && (e.AllocNumber? || e.WriteTable? || e.ForgetNumber? || e.ApplyEdit? || e.DeleteObsolete?)
    ensures After(t, e).Ok? && Inv(After(t, e).value)
  {
    hide Conserved, Pinned;
    var u := After(t, e).value;
    ConservedView(t, u);
    PinnedView(t, u);
  }

  // -------------------------------------------------------------------- runs

  /** An engine just opened: one empty read state, whatever files the directory holds. */
  function Start(version: set<Num>, files: set<Num>): Tables {
    Tables(map[], map[], map[], map[0 := ReadState({}, 1)], 0, {}, multiset{}, {}, {}, version, {}, {}, files)
  }

  ghost predicate IsRun(version: set<Num>, files: set<Num>, ts: seq<Tables>, es: seq<Event>) {
    && version <= files && |ts| == |es| + 1 && ts[0] == Start(version, files)
    && forall i | 0 <= i < |es| :: Enabled(ts[i], es[i]) && After(ts[i], es[i]) == Ok(ts[i + 1])
  }

  lemma StartOk(version: set<Num>, files: set<Num>)
    requires version <= files
    ensures Inv(Start(version, files))
  {
  }

  lemma {:induction false} RunOk(version: set<Num>, files: set<Num>, ts: seq<Tables>, es: seq<Event>, i: nat)
    requires IsRun(version, files, ts, es) && i < |ts|
    ensures Inv(ts[i])
  {
    hide Inv, Enabled, After;
    if i == 0 {
      StartOk(version, files);
    } else {
      RunOk(version, files, ts, es, i - 1);
      StepOk(ts[i - 1], es[i - 1]);
    }
  }

  /** In every interleaving: no counter is ever driven below zero. */
  lemma NeverBelowZero(version: set<Num>, files: set<Num>, ts: seq<Tables>, es: seq<Event>, i: nat, e: Event)
    requires IsRun(version, files, ts, es) && i < |ts| && Enabled(ts[i], e)
    ensures After(ts[i], e).Ok?
  {
    hide Inv, Enabled, After;
    RunOk(version, files, ts, es, i);
    StepOk(ts[i], e);
  }

  /** A reader, and a running compaction, hold only open handles; a handle is closed
      exactly when nobody holds it. */
  lemma NoClosedHandle(version: set<Num>, files: set<Num>, ts: seq<Tables>, es: seq<Event>, i: nat)
    requires IsRun(version, files, ts, es) && i < |ts|
    ensures forall v, h | v in ts[i].readers && v in ts[i].states && h in ts[i].states[v].handles :: h in ts[i].refs && ts[i].refs[h] > 0
    ensures forall h | h in ts[i].inputs :: h in ts[i].refs && ts[i].refs[h] > 0
    ensures forall h | h in ts[i].refs ::
              ts[i].refs[h] == 0 <==> !Cached(ts[i], h) && Holders(ts[i], h) == {} && h !in ts[i].inputs && h !in ts[i].loose
  {
    hide IsRun;
    RunOk(version, files, ts, es, i);
    var t := ts[i];
    forall v, h | v in t.readers && v in t.states && h in t.states[v].handles
      ensures h in t.refs && t.refs[h] > 0
    {
      assert v in Holders(t, h);
      OwedPositive(t, h);
    }
    forall h | h in t.inputs
      ensures h in t.refs && t.refs[h] > 0
    {
      OwedPositive(t, h);
    }
  }

  /** A table file leaves the directory only through the collector, and only when neither
      the version names it nor a flush or compaction has it pending; what it leaves behind
      is named or pending. So every table the version names, and every one written but not
      yet logged, is there at every moment. */
  lemma CollectorSpares(version: set<Num>, files: set<Num>, ts: seq<Tables>, es: seq<Event>, i: nat)
    requires IsRun(version, files, ts, es) && i < |es|
    ensures ts[i].version <= ts[i].files && ts[i].written <= ts[i].files
    ensures forall f | f in ts[i].files && f !in ts[i + 1].files :: es[i].DeleteObsolete? && f !in ts[i].version && f !in ts[i].pending
    ensures es[i].DeleteObsolete? ==> ts[i + 1].files <= ts[i + 1].version + ts[i + 1].pending
  {
    hide Inv, Enabled;
    RunOk(version, files, ts, es, i);
    assert After(ts[i], es[i]) == Ok(ts[i + 1]);
    assert Kept(ts[i]) by { InvKept(ts[i]); }
  }

  lemma InvKept(t: Tables)
    requires Inv(t)
    ensures Kept(t)
  {
  }
}
