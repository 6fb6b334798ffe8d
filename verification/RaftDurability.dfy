/** Whether a drained node's log is on disk as it is in memory. */
module RaftDurability {
  import opened Common
  import opened RaftTypes
  import opened RaftLog
  import opened RaftState
  import St = RaftStorage

  /** The first entry of a batch that the log contradicts: its index is taken, by another term. */
  function ConflictAt(l: Log, ents: seq<Entry>): Option<nat> {
    if ents == [] then None
    else
      match l.Term(ents[0].index)
      case None => None
      case Some(t) => if t != ents[0].term then Some(ents[0].index) else ConflictAt(l, ents[1..])
  }

  /** The log is indexed from its boundary. */
  ghost predicate Indexed(l: Log) {
    St.ContiguousFrom(l.entries, l.snapIndex + 1)
  }

  /** The disk holds exactly the part of the log the node believes is stable. */
  ghost predicate Stable(s: NodeState, d: Recovered) {
    && Indexed(s.log) && s.log.snapIndex <= s.stabled <= s.log.LastIndex()
    && d.snapIndex == s.log.snapIndex
    && d.entries == s.log.entries[..s.stabled - s.log.snapIndex]
  }

  /** Where the first conflict is, the merge cuts and puts its entries. */
  lemma {:induction false} CutHere(l: Log, ents: seq<Entry>)
    requires Indexed(l) && ents != [] && St.ContiguousFrom(ents, ents[0].index) && l.snapIndex < ents[0].index
    requires l.Term(ents[0].index).Some? && l.Term(ents[0].index) != Some(ents[0].term) && l.Merge(ents).Ok?
    ensures var m, c := l.Merge(ents).value, ents[0].index;
            && c <= l.LastIndex() && m == l.(entries := l.entries[..c - l.snapIndex - 1] + ents) && Indexed(m)
  {
  }

  lemma AppendHere(l: Log, ents: seq<Entry>)
    requires Indexed(l) && ents != [] && St.ContiguousFrom(ents, ents[0].index) && l.Append(ents).Ok?
    ensures l.Append(ents).value == l.(entries := l.entries + ents) && Indexed(l.Append(ents).value)
  {
  }

  /** Where merging cuts: below the conflict everything stays, from it on the batch is in place. */
  lemma {:induction false} MergeCuts(l: Log, ents: seq<Entry>)
    requires Indexed(l) && St.ContiguousFrom(ents, if ents == [] then 0 else ents[0].index) && l.Merge(ents).Ok?
    requires ents != [] ==> l.snapIndex < ents[0].index
    ensures var m := l.Merge(ents).value;
            && m.snapIndex == l.snapIndex && Indexed(m)
            && match ConflictAt(l, ents)
               case None => l.entries <= m.entries
               case Some(c) =>
                 && l.snapIndex < c <= l.LastIndex() && c <= m.LastIndex()
                 && m.entries[..c - l.snapIndex - 1] == l.entries[..c - l.snapIndex - 1]
                 && m.entries[c - l.snapIndex - 1].term != l.entries[c - l.snapIndex - 1].term
  {
    hide Indexed;
    if ents != [] {
      match l.Term(ents[0].index)
      case None =>
        AppendHere(l, ents);
      case Some(t) =>
        if t == ents[0].term {
          assert St.ContiguousFrom(ents[1..], ents[0].index + 1);
          MergeCuts(l, ents[1..]);
        } else {
          CutHere(l, ents);
        }
    }
  }

  /** The state the disk holds once a drained batch is saved. */
  function Saved(d: Recovered, rd: Ready): Recovered
    requires rd.entries != [] ==> d.snapIndex < rd.entries[0].index <= St.LastOf(d) + 1
  {
    St.Meant(d, St.SaveReady(rd.entries, rd.hardState))
  }

  /** What draining offers for persistence: the entries past the stable point, whatever
      happened to those below it. */
  lemma Offered(s: NodeState)
    requires Indexed(s.log) && s.log.snapIndex <= s.stabled && s.TakeReady().Ok?
    ensures var es := s.TakeReady().value.1.entries;
            && (s.log.LastIndex() > s.stabled ==> es == s.log.entries[s.stabled - s.log.snapIndex..] && es[0].index == s.stabled + 1)
            && (s.log.LastIndex() <= s.stabled ==> es == [])
            && St.ContiguousFrom(es, s.stabled + 1)
  {
  }

  /** A log whose first `k` entries are on disk as `d`, once what follows them is saved. */
  function Topped(d: seq<Entry>, m: seq<Entry>, k: nat): seq<Entry> {
    if |m| > k then d + m[k..] else d
  }

  lemma SavedEntries(t: NodeState, d: Recovered)
    requires Indexed(t.log) && t.log.snapIndex <= t.stabled && t.TakeReady().Ok?
    requires d.snapIndex == t.log.snapIndex && |d.entries| == t.stabled - t.log.snapIndex
    ensures var rd := t.TakeReady().value.1;
            && (rd.entries != [] ==> d.snapIndex < rd.entries[0].index <= St.LastOf(d) + 1)
            && Saved(d, rd).entries == Topped(d.entries, t.log.entries, t.stabled - t.log.snapIndex)
  {
    hide NodeState.TakeReady;
    Offered(t);
    assert d.entries[..|d.entries|] == d.entries;
  }

  /** Grown logs agree with the disk. */
  lemma ToppedGrown(l: seq<Entry>, m: seq<Entry>, k: nat)
    requires k <= |l| && l <= m
    ensures Topped(l[..k], m, k) == m
  {
    assert l[..k] == m[..k];
  }

  /** Cut logs agree with the disk exactly when the cut is past what is on it. */
  lemma ToppedCut(l: seq<Entry>, m: seq<Entry>, k: nat, i: nat)
    requires k <= |l| && i < |l| && i < |m| && m[..i] == l[..i] && m[i].term != l[i].term
    ensures Topped(l[..k], m, k) == m <==> k <= i
  {
    if k <= i {
      assert l[..k] == l[..i][..k] && m[..k] == m[..i][..k];
    } else {
      assert Topped(l[..k], m, k)[i] == l[i];
    }
  }

  /** A follower that adopts a batch and drains has its log on disk exactly when the
      batch contradicted nothing at or below the stable point. */
  lemma {:induction false} DurableIff(s: NodeState, d: Recovered, ents: seq<Entry>)
    requires Stable(s, d) && s.log.Merge(ents).Ok?
    requires ents != [] ==> s.log.snapIndex < ents[0].index && St.ContiguousFrom(ents, ents[0].index)
    requires s.(log := s.log.Merge(ents).value).TakeReady().Ok?
    ensures var t := s.(log := s.log.Merge(ents).value); var rd := t.TakeReady().value.1;
            && (rd.entries != [] ==> d.snapIndex < rd.entries[0].index <= St.LastOf(d) + 1)
            && (Saved(d, rd).entries == t.log.entries
                <==> match ConflictAt(s.log, ents) case None => true case Some(c) => c > s.stabled)
  {
    hide NodeState.TakeReady, Log.Merge, ConflictAt, Saved, Topped;
    var l, m := s.log, s.log.Merge(ents).value;
    MergeCuts(l, ents);
    SavedEntries(s.(log := m), d);
    var k := s.stabled - l.snapIndex;
    match ConflictAt(l, ents)
    case None => ToppedGrown(l.entries, m.entries, k);
    case Some(c) => ToppedCut(l.entries, m.entries, k, c - l.snapIndex - 1);
  }

  /** Two stable entries of term 1; a leader of term 2 replaces the second; the drain
      offers nothing, and the disk keeps the entry memory no longer has. */
  lemma ReplacedEntryNotSaved(s: NodeState)
    requires s.log == Log([Entry(ENTRY_NORMAL, 1, 1, []), Entry(ENTRY_NORMAL, 2, 1, [])], 0, 0, 0, 0) && s.stabled == 2
    ensures var d := Recovered(s.Hard(), 0, 0, s.log.entries); var ents := [Entry(ENTRY_NORMAL, 2, 2, [])];
            && Stable(s, d)
            && s.log.Merge(ents).Ok?
            && var t := s.(log := s.log.Merge(ents).value);
               && t.log.Term(2) == Some(2)
               && t.TakeReady().Ok? && t.TakeReady().value.1.entries == []
               && Saved(d, t.TakeReady().value.1).entries[1].term == 1
  {
    var ents := [Entry(ENTRY_NORMAL, 2, 2, [])];
    var l := s.log;
    assert l.entries[..2] == l.entries;
    assert l.Term(2) == Some(1);
    assert l.TruncateFrom(2) == Ok(l.(entries := l.entries[..1]));
    assert l.Merge(ents) == Ok(l.(entries := l.entries[..1] + ents));
  }
}
