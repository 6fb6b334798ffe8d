/** The value types of the consensus core. */
module RaftTypes {
  import opened Common

  /** Node ids; 0 stands for "nobody". */
  type Id = nat

  datatype Role = Follower | Candidate | Leader

  /** One byte; the two named types are all the node makes, but any byte is carried along. */
  type EntryType = byte

  const ENTRY_NORMAL: EntryType := 0
  const ENTRY_CONF_CHANGE: EntryType := 1

  datatype Entry = Entry(etype: EntryType, index: nat, term: nat, data: Bytes)

  datatype MessageType =
    | MsgProp
    | MsgVote
    | MsgVoteResp
    | MsgApp
    | MsgAppResp
    | MsgPreVote
    | MsgPreVoteResp
    | MsgSnap
    | MsgTimeoutNow

  datatype Message = Message(mtype: MessageType, from: Id, to: Id, term: nat,
                             logIndex: nat, logTerm: nat, entries: seq<Entry>,
                             commit: nat, reject: bool)

  datatype HardState = HardState(term: nat, vote: Id, commit: nat)

  /** What a restarting node reads back from its state file. */
  datatype Recovered = Recovered(hard: HardState, snapIndex: nat, snapTerm: nat, entries: seq<Entry>)

  /** A state file that does not exist yet. */
  const NO_STATE := Recovered(HardState(0, 0, 0), 0, 0, [])
}

/** The in-memory log: a compacted boundary followed by live entries. */
module RaftLog {
  import opened Common
  import opened RaftTypes

  /** `entries[k]` holds index `snapIndex + 1 + k`. */
  datatype Log = Log(entries: seq<Entry>, snapIndex: nat, snapTerm: nat, committed: nat, applied: nat) {

    function Offset(): nat {
      snapIndex + 1
    }

    function LastIndex(): nat {
      snapIndex + |entries|
    }

    function Term(i: nat): Option<nat> {
      if i == snapIndex then
        Some(snapTerm)
      else if i < Offset() || i > LastIndex() then
        None
      else
        Some(entries[i - Offset()].term)
    }

    /** The boundary keeps its term, so the last term is always available. */
    function LastTerm(): (t: nat)
      ensures Term(LastIndex()) == Some(t)
    {
      if entries == [] then snapTerm else entries[|entries| - 1].term
    }

    function Append(ents: seq<Entry>): Checked<Log> {
      if ents == [] then
        Ok(this)
      else if ents[0].index != LastIndex() + 1 then
        Panic
      else
        Ok(this.(entries := entries + ents))
    }

    function TruncateFrom(i: nat): Checked<Log> {
      if i <= committed || i < Offset() || i > LastIndex() + 1 then
        Panic
      else
        Ok(this.(entries := entries[..i - Offset()]))
    }

    function CommitTo(i: nat): Checked<Log> {
      if i <= committed then
        Ok(this)
      else if i > LastIndex() then
        Panic
      else
        Ok(this.(committed := i))
    }

    function AppliedTo(i: nat): Checked<Log> {
      if i < applied || i > committed then Panic else Ok(this.(applied := i))
    }

    function CompactTo(i: nat): Checked<Log> {
      if i <= snapIndex then
        Ok(this)
      else if i > applied || Term(i).None? then
        Panic
      else
        Ok(this.(entries := entries[i - snapIndex..], snapIndex := i, snapTerm := Term(i).value))
    }

    function Slice(lo: nat, hi: nat): Checked<seq<Entry>> {
      if lo < Offset() || hi > LastIndex() + 1 || lo > hi then
        Panic
      else
        Ok(entries[lo - Offset()..hi - Offset()])
    }

    /** Walks `ents`, skipping those already present; the first one that is
        missing or conflicts is where the rest is spliced in. */
    function Merge(ents: seq<Entry>): Checked<Log> {
      if ents == [] then
        Ok(this)
      else
        match Term(ents[0].index)
        case None =>
          Append(ents)
        case Some(t) =>
          if t != ents[0].term then
            var l :- TruncateFrom(ents[0].index);
            l.Append(ents)
          else
            Merge(ents[1..])
    }

    /** The AppendEntries consistency check: `None` rejects, `Some(lastNew)` accepts. */
    function MaybeAppend(prevIndex: nat, prevTerm: nat, commit: nat, ents: seq<Entry>): Checked<(Log, Option<nat>)> {
      if Term(prevIndex) != Some(prevTerm) then
        Ok((this, None))
      else
        var lastNew := prevIndex + |ents|;
        var l :- Merge(ents);
        var l' :- l.CommitTo(Min(commit, lastNew));
        Ok((l', Some(lastNew)))
    }

    predicate IsUpToDate(lastIndex: nat, lastTerm: nat) {
      if lastTerm != LastTerm() then lastTerm > LastTerm() else lastIndex >= LastIndex()
    }
  }

  const EMPTY_LOG := Log([], 0, 0, 0, 0)

  /** The log object, updated in place. */
  class LogObject {
    var entries: seq<Entry>
    var offset: nat
    var snapIndex: nat
    var snapTerm: nat
    var committed: nat
    var applied: nat

    ghost predicate Valid()
      reads this
    {
      offset == snapIndex + 1
    }

    function Value(): Log
      reads this
    {
      Log(entries, snapIndex, snapTerm, committed, applied)
    }

    constructor ()
      ensures Valid() && Value() == EMPTY_LOG
    {
      entries, offset, snapIndex, snapTerm, committed, applied := [], 1, 0, 0, 0, 0;
    }

    method LastIndex() returns (i: nat)
      requires Valid()
      ensures i == Value().LastIndex()
    {
      i := offset + |entries| - 1;
    }

    method Term(i: nat) returns (t: Option<nat>)
      requires Valid()
      ensures t == Value().Term(i)
    {
      var last := LastIndex();
      if i == snapIndex {
        return Some(snapTerm);
      }
      if i < offset || i > last {
        return None;
      }
      return Some(entries[i - offset].term);
    }

    method Append(ents: seq<Entry>) returns (r: Outcome)
      requires Valid()
      modifies this
      ensures r.Panicked? <==> old(Value()).Append(ents).Panic?
      ensures r.Done? ==> Valid() && Value() == old(Value()).Append(ents).value
    {
      if |ents| == 0 {
        return Done;
      }
      var last := LastIndex();
      if ents[0].index != last + 1 {
        return Panicked;
      }
      entries := entries + ents;
      return Done;
    }

    method TruncateFrom(i: nat) returns (r: Outcome)
      requires Valid()
      modifies this
      ensures r.Panicked? <==> old(Value()).TruncateFrom(i).Panic?
      ensures r.Done? ==> Valid() && Value() == old(Value()).TruncateFrom(i).value
    {
      if i <= committed {
        return Panicked;
      }
      if i < offset {
        return Panicked;
      }
      if i - offset > |entries| { // a slice bound past the tail; MaybeAppend never asks for one
        return Panicked;
      }
      entries := entries[..i - offset];
      return Done;
    }

    method CommitTo(i: nat) returns (r: Outcome)
      requires Valid()
      modifies this
      ensures r.Panicked? <==> old(Value()).CommitTo(i).Panic?
      ensures r.Done? ==> Valid() && Value() == old(Value()).CommitTo(i).value
    {
      if i <= committed {
        return Done;
      }
      var last := LastIndex();
      if i > last {
        return Panicked;
      }
      committed := i;
      return Done;
    }

    method AppliedTo(i: nat) returns (r: Outcome)
      requires Valid()
      modifies this
      ensures r.Panicked? <==> old(Value()).AppliedTo(i).Panic?
      ensures r.Done? ==> Valid() && Value() == old(Value()).AppliedTo(i).value
    {
      if i < applied || i > committed {
        return Panicked;
      }
      applied := i;
      return Done;
    }

    method CompactTo(i: nat) returns (r: Outcome)
      requires Valid()
      modifies this
      ensures r.Panicked? <==> old(Value()).CompactTo(i).Panic?
      ensures r.Done? ==> Valid() && Value() == old(Value()).CompactTo(i).value
    {
      if i <= snapIndex {
        return Done;
      }
      if i > applied {
        return Panicked;
      }
      var t := Term(i);
      if t.None? {
        return Panicked;
      }
      entries := entries[i - offset + 1..];
      offset := i + 1;
      snapIndex, snapTerm := i, t.value;
      return Done;
    }

    method Slice(lo: nat, hi: nat) returns (r: Checked<seq<Entry>>)
      requires Valid()
      ensures r == Value().Slice(lo, hi)
    {
      var last := LastIndex();
      if lo < offset || hi > last + 1 || lo > hi {
        return Panic;
      }
      if lo == hi {
        assert entries[lo - offset..hi - offset] == [];
        return Ok([]);
      }
      return Ok(entries[lo - offset..hi - offset]);
    }

    method MaybeAppend(prevIndex: nat, prevTerm: nat, commit: nat, ents: seq<Entry>)
      returns (r: Outcome, lastNew: Option<nat>)
      requires Valid()
      modifies this
      ensures r.Panicked? <==> old(Value()).MaybeAppend(prevIndex, prevTerm, commit, ents).Panic?
      ensures r.Done? ==> Valid() && (Value(), lastNew) == old(Value()).MaybeAppend(prevIndex, prevTerm, commit, ents).value
    {
      ghost var was := Value();
      lastNew := None;
      var t := Term(prevIndex);
      if t != Some(prevTerm) {
        return Done, None;
      }
      var i := 0;
      while i < |ents|
        invariant 0 <= i <= |ents|
        invariant Valid() && Value() == was
        invariant was.Merge(ents) == was.Merge(ents[i..])
      {
        assert ents[i..][1..] == ents[i + 1..];
        var et := Term(ents[i].index);
        if et.None? {
          r := Append(ents[i..]);
          if r.Panicked? {
            return;
          }
          break;
        }
        if et.value != ents[i].term {
          r := TruncateFrom(ents[i].index);
          if r.Panicked? {
            return;
          }
          r := Append(ents[i..]);
          if r.Panicked? {
            return;
          }
          break;
        }
        i := i + 1;
      }
      assert was.Merge(ents) == Ok(Value());
      r := CommitTo(Min(commit, prevIndex + |ents|));
      lastNew := Some(prevIndex + |ents|);
    }

    method IsUpToDate(lastIndex: nat, lastTerm: nat) returns (b: bool)
      requires Valid()
      ensures b == Value().IsUpToDate(lastIndex, lastTerm)
    {
      var last := LastIndex();
      var t := Term(last);
      if Some(lastTerm) != t {
        return lastTerm > t.value;
      }
      return lastIndex >= last;
    }
  }
}
