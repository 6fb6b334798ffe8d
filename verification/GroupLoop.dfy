/** A replica's event loop against its two durable stores: the raft state file, and
    an engine without a write-ahead log whose flushed tables may lag. */
module GroupLoop {
  import opened Common
  import opened RaftTypes
  import opened RaftLog
  import opened RaftState
  import Dur = RaftDurability
  import St = RaftStorage

  // ------------------------------------------------- what every handler keeps

  ghost predicate Bounded(l: Log) {
    l.snapIndex <= l.applied <= l.committed <= l.LastIndex()
  }

  ghost predicate LogKept(l: Log, m: Log) {
    && m.snapIndex == l.snapIndex && m.snapTerm == l.snapTerm && m.applied == l.applied && l.committed <= m.committed
    && (Bounded(l) ==> Bounded(m))
    && (Dur.Indexed(l) ==> Dur.Indexed(m))
  }

  /** Nothing about durability moves except the commit index, upwards. */
  ghost predicate Kept(s: NodeState, t: NodeState) {
    && t.id == s.id && t.peers == s.peers && t.prevHard == s.prevHard && t.stabled == s.stabled
    && LogKept(s.log, t.log)
  }

  lemma AppendKept(l: Log, ents: seq<Entry>)
    requires l.Append(ents).Ok? && (ents != [] ==> St.ContiguousFrom(ents, ents[0].index))
    ensures LogKept(l, l.Append(ents).value)
  {
  }

  lemma CommitKept(l: Log, i: nat)
    requires l.CommitTo(i).Ok?
    ensures LogKept(l, l.CommitTo(i).value)
  {
  }

  lemma {:induction false} MergeKept(l: Log, ents: seq<Entry>)
    requires l.Merge(ents).Ok? && (ents != [] ==> St.ContiguousFrom(ents, ents[0].index))
    ensures LogKept(l, l.Merge(ents).value)
  {
    if ents != [] {
      match l.Term(ents[0].index)
      case None => AppendKept(l, ents);
      case Some(t) =>
        if t != ents[0].term {
          var cut := l.TruncateFrom(ents[0].index).value;
          assert LogKept(l, cut);
          AppendKept(cut, ents);
        } else {
          assert ents[1..] != [] ==> St.ContiguousFrom(ents[1..], ents[1..][0].index);
          MergeKept(l, ents[1..]);
        }
    }
  }

  lemma MaybeAppendKept(l: Log, prevIndex: nat, prevTerm: nat, commit: nat, ents: seq<Entry>)
    requires l.MaybeAppend(prevIndex, prevTerm, commit, ents).Ok? && St.ContiguousFrom(ents, prevIndex + 1)
    ensures LogKept(l, l.MaybeAppend(prevIndex, prevTerm, commit, ents).value.0)
  {
    hide LogKept;
    if l.Term(prevIndex) == Some(prevTerm) {
      MergeKept(l, ents);
      var m := l.Merge(ents).value;
      CommitKept(m, Min(commit, prevIndex + |ents|));
      LogKeptOn(l, m, m.CommitTo(Min(commit, prevIndex + |ents|)).value);
    } else {
      LogKeptSame(l);
    }
  }

  lemma LogKeptSame(l: Log)
    ensures LogKept(l, l)
  {
  }

  lemma LogKeptOn(a: Log, b: Log, c: Log)
    requires LogKept(a, b) && LogKept(b, c)
    ensures LogKept(a, c)
  {
  }

  lemma KeptOn(a: NodeState, b: NodeState, c: NodeState)
    requires Kept(a, b) && Kept(b, c)
    ensures Kept(a, c)
  {
    hide LogKept;
    LogKeptOn(a.log, b.log, c.log);
  }

  lemma SendAppendKept(s: NodeState, to: Id)
    requires s.SendAppend(to).Ok?
    ensures Kept(s, s.SendAppend(to).value)
  {
    hide LogKept;
    LogKeptSame(s.log);
  }

  lemma {:induction false} BcastKept(s: NodeState, ps: seq<Id>)
    requires s.BcastAppendTo(ps).Ok?
    ensures Kept(s, s.BcastAppendTo(ps).value)
    decreases |ps|
  {
    hide LogKept, NodeState.SendAppend;
    LogKeptSame(s.log);
    if ps != [] {
      if ps[0] == s.id {
        BcastKept(s, ps[1..]);
      } else {
        var t := s.SendAppend(ps[0]).value;
        SendAppendKept(s, ps[0]);
        BcastKept(t, ps[1..]);
        KeptOn(s, t, t.BcastAppendTo(ps[1..]).value);
      }
    }
  }

  lemma {:induction false} PollKept(s: NodeState, mtype: MessageType, t: nat, ps: seq<Id>)
    ensures Kept(s, s.BcastVoteTo(mtype, t, ps))
    decreases |ps|
  {
    hide LogKept;
    LogKeptSame(s.log);
    if ps != [] {
      if ps[0] == s.id {
        PollKept(s, mtype, t, ps[1..]);
      } else {
        var n := s.Send(Plain(mtype, ps[0]).(term := t, logIndex := s.log.LastIndex(), logTerm := s.log.LastTerm()));
        PollKept(n, mtype, t, ps[1..]);
        KeptOn(s, n, n.BcastVoteTo(mtype, t, ps[1..]));
      }
    }
  }

  lemma MaybeCommitKept(s: NodeState)
    requires s.MaybeCommit().Ok?
    ensures Kept(s, s.MaybeCommit().value.0)
  {
    hide LogKept, QuorumIndex;
    LogKeptSame(s.log);
    if s.role.Leader? {
      var n := s.(matched := s.matched[s.id := Min(s.stabled, s.log.LastIndex())]);
      var c := QuorumIndex(n.matched, s.voters, s.Quorum());
      if c > s.log.committed && s.log.Term(c) == Some(s.term) {
        CommitKept(s.log, c);
      }
    }
  }

  lemma LeadKept(s: NodeState)
    requires s.BecomeLeader().Ok?
    ensures Kept(s, s.BecomeLeader().value)
  {
    hide LogKept, NodeState.MaybeCommit, NodeState.BcastAppendTo;
    var n := s.(role := Leader, lead := s.id, transferee := 0,
                next := Uniform(s.peers, s.log.LastIndex() + 1), matched := Uniform(s.peers, 0));
    var e := [Entry(ENTRY_NORMAL, n.log.LastIndex() + 1, s.term, [])];
    AppendKept(n.log, e);
    var a := n.(log := n.log.Append(e).value);
    MaybeCommitKept(a);
    var b := a.MaybeCommit().value.0;
    KeptOn(s, a, b);
    BcastKept(b, b.peers);
    KeptOn(s, b, b.BcastAppend().value);
  }

  lemma ElectKept(s: NodeState)
    requires s.StartElection().Ok?
    ensures Kept(s, s.StartElection().value)
  {
    hide LogKept, NodeState.BecomeLeader, NodeState.BcastVoteTo;
    LogKeptSame(s.log);
    var n := s.BecomeCandidate().value;
    assert Kept(s, n);
    if |n.votes| >= n.Quorum() {
      LeadKept(n);
      KeptOn(s, n, n.BecomeLeader().value);
    } else {
      PollKept(n, MsgVote, n.term, n.peers);
      KeptOn(s, n, n.BcastVoteTo(MsgVote, n.term, n.peers));
    }
  }

  lemma CampaignKept(s: NodeState)
    requires s.Campaign().Ok?
    ensures Kept(s, s.Campaign().value)
  {
    hide LogKept, NodeState.StartElection, NodeState.BcastVoteTo;
    LogKeptSame(s.log);
    if s.id in s.voters {
      var n := s.BecomePreCandidate().value;
      assert Kept(s, n);
      if |n.preVotes| >= n.Quorum() {
        ElectKept(n);
        KeptOn(s, n, n.StartElection().value);
      } else {
        PollKept(n, MsgPreVote, n.term + 1, n.peers);
        KeptOn(s, n, n.BcastVoteTo(MsgPreVote, n.term + 1, n.peers));
      }
    }
  }

  lemma ProposeKept(s: NodeState, m: Message)
    requires s.HandlePropose(m).Ok?
    ensures Kept(s, s.HandlePropose(m).value)
  {
    hide LogKept, NodeState.MaybeCommit, NodeState.BcastAppendTo;
    LogKeptSame(s.log);
    if s.role.Leader? && s.transferee == 0 {
      var es := Stamped(m.entries, s.log.LastIndex() + 1, s.term);
      AppendKept(s.log, es);
      var a := s.(log := s.log.Append(es).value);
      MaybeCommitKept(a);
      var b := a.MaybeCommit().value.0;
      KeptOn(s, a, b);
      BcastKept(b, b.peers);
      KeptOn(s, b, b.BcastAppend().value);
    }
  }

  lemma AckKept(s: NodeState, from: Id, index: nat)
    requires s.Acknowledged(from, index).Ok?
    ensures Kept(s, s.Acknowledged(from, index).value)
  {
    hide LogKept, NodeState.MaybeCommit, NodeState.BcastAppendTo;
    LogKeptSame(s.log);
    var a := s.(matched := s.matched[from := index], next := s.next[from := index + 1]);
    MaybeCommitKept(a);
    var b := a.MaybeCommit().value.0;
    KeptOn(s, a, b);
    if a.MaybeCommit().value.1 {
      BcastKept(b, b.peers);
      KeptOn(s, b, b.BcastAppend().value);
    }
  }

  lemma AppRespKept(s: NodeState, m: Message)
    requires s.HandleAppResp(m).Ok?
    ensures Kept(s, s.HandleAppResp(m).value)
  {
    hide LogKept, NodeState.Acknowledged, NodeState.SendAppend;
    LogKeptSame(s.log);
    if s.role.Leader? {
      if m.reject {
        var n := if m.logIndex < CountOf(s.next, m.from) then s.(next := s.next[m.from := Max(m.logIndex, 1)]) else s;
        SendAppendKept(n, m.from);
        KeptOn(s, n, n.SendAppend(m.from).value);
      } else if m.logIndex > CountOf(s.matched, m.from) {
        AckKept(s, m.from, m.logIndex);
        var n := s.Acknowledged(m.from, m.logIndex).value;
        LogKeptSame(n.log);
        KeptOn(s, n, s.HandleAppResp(m).value);
      }
    }
  }

  lemma AppKept(s: NodeState, m: Message)
    requires s.HandleApp(m).Ok? && St.ContiguousFrom(m.entries, m.logIndex + 1)
    ensures Kept(s, s.HandleApp(m).value)
  {
    hide LogKept, Log.MaybeAppend;
    MaybeAppendKept(s.log, m.logIndex, m.logTerm, m.commit, m.entries);
  }

  lemma InTermKept(s: NodeState, m: Message)
    requires s.StepInTerm(m).Ok? && (m.mtype.MsgApp? ==> St.ContiguousFrom(m.entries, m.logIndex + 1))
    ensures Kept(s, s.StepInTerm(m).value)
  {
    hide LogKept, NodeState.BecomeLeader, NodeState.HandleApp, NodeState.HandleAppResp, NodeState.StartElection, St.ContiguousFrom;
    LogKeptSame(s.log);
    match m.mtype
    case MsgVoteResp =>
      if s.role.Candidate? {
        var n := if !m.reject && m.from in s.voters then s.(votes := s.votes + {m.from}) else s;
        if |n.votes| >= s.Quorum() {
          LeadKept(n);
          KeptOn(s, n, n.BecomeLeader().value);
        }
      }
    case MsgApp => AppKept(s, m);
    case MsgAppResp => AppRespKept(s, m);
    case MsgTimeoutNow =>
      if s.id in s.voters {
        ElectKept(s);
      }
    case _ =>
  }

  lemma StepKept(s: NodeState, m: Message)
    requires s.Step(m).Ok? && (m.mtype.MsgApp? ==> St.ContiguousFrom(m.entries, m.logIndex + 1))
    ensures Kept(s, s.Step(m).value)
  {
    hide LogKept, NodeState.HandlePropose, NodeState.StepInTerm, NodeState.StartElection, St.ContiguousFrom;
    LogKeptSame(s.log);
    if m.mtype.MsgProp? {
      ProposeKept(s, m);
    } else if m.mtype.MsgPreVote? {
    } else if m.mtype.MsgPreVoteResp? {
      if s.role.Candidate? && |s.votes| == 0 {
        var n := if !m.reject && m.from in s.voters then s.(preVotes := s.preVotes + {m.from}) else s;
        if |n.preVotes| >= s.Quorum() {
          ElectKept(n);
          KeptOn(s, n, n.StartElection().value);
        }
      }
    } else if m.term >= s.term {
      var n := if m.term > s.term then s.BecomeFollower(m.term, if m.mtype.MsgApp? then m.from else 0).value else s;
      assert Kept(s, n);
      InTermKept(n, m);
      KeptOn(s, n, n.StepInTerm(m).value);
    }
  }

  // ----------------------------------------------------------------- the loop

  /** What the loop may call on its node between drains. */
  datatype Call = Deliver(m: Message) | Propose(payloads: seq<Entry>) | Timeout | Heartbeat | Transfer(target: Id)

  /** Leaders send consecutive entries. */
  ghost predicate CallOk(c: Call) {
    c.Deliver? && c.m.mtype.MsgApp? ==> St.ContiguousFrom(c.m.entries, c.m.logIndex + 1)
  }

  ghost function Called(s: NodeState, c: Call): Checked<NodeState> {
    match c
    case Deliver(m) => s.Step(m)
    case Propose(payloads) => s.HandlePropose(Plain(MsgProp, s.id).(entries := payloads))
    case Timeout => s.Campaign()
    case Heartbeat => s.BcastAppend()
    case Transfer(target) => var (n, _) :- s.TransferLeader(target); Ok(n)
  }

  lemma CalledKept(s: NodeState, c: Call)
    requires CallOk(c) && Called(s, c).Ok?
    ensures Kept(s, Called(s, c).value)
  {
    hide LogKept, NodeState.Step, NodeState.HandlePropose, NodeState.Campaign, NodeState.BcastAppendTo, NodeState.SendAppend, St.ContiguousFrom;
    LogKeptSame(s.log);
    match c
    case Deliver(m) => StepKept(s, m);
    case Propose(payloads) => ProposeKept(s, Plain(MsgProp, s.id).(entries := payloads));
    case Timeout => CampaignKept(s);
    case Heartbeat => BcastKept(s, s.peers);
    case Transfer(target) =>
      if s.role.Leader? && target != s.id && target in s.voters {
        var n := s.(transferee := target);
        if CountOf(s.matched, target) < s.log.LastIndex() {
          SendAppendKept(n, target);
          KeptOn(s, n, n.SendAppend(target).value);
        }
      }
  }

  /** Where a pass of the loop stands. */
  datatype Phase = Idle | Took(rd: Ready) | Saved(rd: Ready) | Applied(rd: Ready) | Advanced | Compacted

  /** `disk` is what the state file replays to, None once it no longer does; `applied`
      is the engine's applied index, `durable` the one its flushed tables hold. */
  datatype Group = Group(node: NodeState, disk: Option<Recovered>, applied: nat, durable: nat, phase: Phase)

  datatype Event =
    | Handle(c: Call)
    | Take
    | Save
    | Apply
    | Flush(upto: nat)
    | Advance
    | Skip
    | Snapshot
    | Rewrite
    | Crash(found: Recovered)

  function BatchOf(rd: Ready): St.Call {
    St.SaveReady(rd.entries, rd.hardState)
  }

  /** The records of a save, applied one by one to what the file held. */
  function DiskAfter(d: Option<Recovered>, rd: Ready, k: nat): Option<Recovered> {
    if d.None? then None
    else
      var rs := St.Written(St.LastOf(d.value), BatchOf(rd));
      St.ApplyAll(d.value, if k <= |rs| then rs[..k] else rs)
  }

  function AllRecords(d: Option<Recovered>, rd: Ready): nat {
    if d.None? then 0 else |St.Written(St.LastOf(d.value), BatchOf(rd))|
  }

  function Image(s: NodeState): Recovered {
    Recovered(s.Hard(), s.log.snapIndex, s.log.snapTerm, s.log.entries)
  }

  /** What a crash may leave in the state file: a save cut after any of its records,
      a rewrite done or not done. */
  ghost predicate Leaves(g: Group, found: Recovered) {
    match g.phase
    case Took(rd) => exists k | 0 <= k <= AllRecords(g.disk, rd) :: DiskAfter(g.disk, rd, k) == Some(found)
    case Compacted => g.disk == Some(found) || found == Image(g.node)
    case _ => g.disk == Some(found)
  }

  function LastApplied(applied: nat, rd: Ready): nat {
    if rd.committedEntries == [] then applied else rd.committedEntries[|rd.committedEntries| - 1].index
  }

  ghost function After(g: Group, e: Event): Option<Group> {
    match e
    case Handle(c) =>
      if g.phase.Idle? && Called(g.node, c).Ok? then Some(g.(node := Called(g.node, c).value)) else None
    case Take =>
      if g.phase.Idle? && g.node.TakeReady().Ok? then
        var (n, rd) := g.node.TakeReady().value;
        Some(g.(node := n, phase := Took(rd)))
      else None
    case Save =>
      if g.phase.Took? then
        Some(g.(disk := DiskAfter(g.disk, g.phase.rd, AllRecords(g.disk, g.phase.rd)), phase := Saved(g.phase.rd)))
      else None
    case Apply =>
      if g.phase.Saved? then Some(g.(applied := LastApplied(g.applied, g.phase.rd), phase := Applied(g.phase.rd))) else None
    case Flush(upto) =>
      if g.durable <= upto <= g.applied then Some(g.(durable := upto)) else None
    case Advance =>
      if g.phase.Applied? && g.node.Advance(g.phase.rd).Ok? then
        Some(g.(node := g.node.Advance(g.phase.rd).value, phase := Advanced))
      else None
    case Skip =>
      if g.phase.Advanced? then Some(g.(phase := Idle)) else None
    case Snapshot =>
      if g.phase.Advanced? && g.node.CompactTo(g.applied).Ok? then
        Some(g.(durable := g.applied, node := g.node.CompactTo(g.applied).value, phase := Compacted))
      else None
    case Rewrite =>
      if g.phase.Compacted? then Some(g.(disk := Some(Image(g.node)), phase := Idle)) else None
    case Crash(found) =>
      if Leaves(g, found) && Restore(g.node.id, g.node.peers, found, g.durable).Ok? then
        Some(Group(Restore(g.node.id, g.node.peers, found, g.durable).value, Some(found), g.durable, g.durable, Idle))
      else None
  }

  // ------------------------------------------------ the applied-index checks

  ghost predicate ReadyOk(s: NodeState, rd: Ready) {
    && (rd.hardState.Some? ==> rd.hardState.value.commit == s.log.committed)
    && (rd.hardState.None? ==> s.prevHard.commit == s.log.committed)
    && (rd.committedEntries != [] ==> s.log.applied < rd.committedEntries[|rd.committedEntries| - 1].index <= s.log.committed)
  }

  ghost predicate InDrain(p: Phase) {
    p.Took? || p.Saved? || p.Applied?
  }

  /** The state file's commit index is at least what the node was told is saved, and
      covers everything the engine has applied. */
  ghost predicate CommitOk(g: Group, d: Recovered) {
    && d.snapIndex <= g.durable && g.applied <= d.hard.commit
    && g.node.prevHard.commit <= d.hard.commit <= g.node.log.committed
    && (g.phase.Saved? || g.phase.Applied? ==> d.hard.commit == g.node.log.committed)
  }

  ghost predicate Inv(g: Group) {
    && Bounded(g.node.log) && g.node.prevHard.commit <= g.node.log.committed
    && g.node.log.snapIndex <= g.durable <= g.applied
    && g.applied == (if g.phase.Applied? then LastApplied(g.node.log.applied, g.phase.rd) else g.node.log.applied)
    && (InDrain(g.phase) ==> ReadyOk(g.node, g.phase.rd))
    && (g.disk.Some? ==> CommitOk(g, g.disk.value))
  }

  lemma TakeOk(s: NodeState)
    requires Bounded(s.log) && Dur.Indexed(s.log) && s.TakeReady().Ok?
    ensures var (n, rd) := s.TakeReady().value;
            n == s.(msgs := []) && ReadyOk(n, rd)
  {
  }

  /** A save changes the boundary never, and the hard state with its last record. */
  lemma {:induction false} SaveRecords(d: Recovered, rd: Ready, k: nat)
    requires var c := BatchOf(rd); k <= |St.Written(St.LastOf(d), c)| && St.ApplyAll(d, St.Written(St.LastOf(d), c)[..k]).Some?
    ensures var rs := St.Written(St.LastOf(d), BatchOf(rd)); var r := St.ApplyAll(d, rs[..k]).value;
            && r.snapIndex == d.snapIndex && r.snapTerm == d.snapTerm
            && r.hard == (if k == |rs| && rd.hardState.Some? then rd.hardState.value else d.hard)
  {
    hide St.PlaceAll, St.Apply;
    var rs := St.Written(St.LastOf(d), BatchOf(rd));
    var t := rs[..k];
    St.Unrolled(d, t);
    Steps(d, t);
  }

  lemma Step1(d: Recovered, r: St.StateRecord)
    requires !r.CompactRecord? && St.Apply(d, r).Some?
    ensures var x := St.Apply(d, r).value;
            x.snapIndex == d.snapIndex && x.snapTerm == d.snapTerm && x.hard == if r.HardRecord? then r.hs else d.hard
  {
    if r.EntriesRecord? {
      PlacedKeeps(d, r.es);
    }
  }

  lemma {:induction false} PlacedKeeps(d: Recovered, es: seq<Entry>)
    requires St.PlaceAll(d, es).Some?
    ensures var x := St.PlaceAll(d, es).value; x.snapIndex == d.snapIndex && x.snapTerm == d.snapTerm && x.hard == d.hard
    decreases |es|
  {
    if es != [] {
      PlacedKeeps(St.Place(d, es[0]).value, es[1..]);
    }
  }

  /** The hard state after a few records is the last one among them. */
  lemma {:induction false} Steps(d: Recovered, rs: seq<St.StateRecord>)
    requires (forall i | 0 <= i < |rs| :: !rs[i].CompactRecord?) && (forall i | 0 <= i < |rs| - 1 :: !rs[i].HardRecord?)
    requires St.ApplyAll(d, rs).Some?
    ensures var x := St.ApplyAll(d, rs).value;
            && x.snapIndex == d.snapIndex && x.snapTerm == d.snapTerm
            && x.hard == if rs != [] && rs[|rs| - 1].HardRecord? then rs[|rs| - 1].hs else d.hard
    decreases |rs|
  {
    hide St.Apply;
    if rs != [] {
      Step1(d, rs[0]);
      Steps(St.Apply(d, rs[0]).value, rs[1..]);
    }
  }

  /** Whatever a crash leaves: boundary <= durably applied <= durable commit. */
  lemma CrashChecks(g: Group, found: Recovered)
    requires Inv(g) && Leaves(g, found)
    ensures found.snapIndex <= g.durable <= found.hard.commit
    ensures g.node.prevHard.commit <= found.hard.commit <= g.node.log.committed
  {
    hide St.Written, St.ApplyAll;
    if g.phase.Took? {
      var rd := g.phase.rd;
      var k :| 0 <= k <= AllRecords(g.disk, rd) && DiskAfter(g.disk, rd, k) == Some(found);
      SaveRecords(g.disk.value, rd, k);
    }
  }

  lemma AdvanceMoves(s: NodeState, rd: Ready)
    requires Bounded(s.log) && ReadyOk(s, rd) && s.Advance(rd).Ok?
    ensures var t := s.Advance(rd).value;
            && t.id == s.id && t.peers == s.peers && Bounded(t.log) && (Dur.Indexed(s.log) ==> Dur.Indexed(t.log))
            && t.log.snapIndex == s.log.snapIndex && t.log.applied == LastApplied(s.log.applied, rd)
            && t.prevHard.commit == s.log.committed <= t.log.committed
            && t.stabled == (if rd.entries == [] then s.stabled else rd.entries[|rd.entries| - 1].index)
            && t.log.LastIndex() == s.log.LastIndex()
  {
    hide NodeState.MaybeCommit;
    var n := if rd.hardState.Some? then s.(prevHard := rd.hardState.value) else s;
    if rd.entries != [] {
      var m := n.(stabled := rd.entries[|rd.entries| - 1].index);
      MaybeCommitKept(m);
      MaybeCommitLength(m);
    }
  }

  lemma MaybeCommitLength(s: NodeState)
    requires s.MaybeCommit().Ok?
    ensures s.MaybeCommit().value.0.log.entries == s.log.entries
  {
    hide QuorumIndex;
  }

  lemma RestoreOk(id: Id, peers: seq<Id>, found: Recovered, durable: nat)
    requires found.snapIndex <= durable <= found.hard.commit && Restore(id, peers, found, durable).Ok?
    ensures var s := Restore(id, peers, found, durable).value;
            && Bounded(s.log) && s.log.snapIndex == found.snapIndex && s.log.entries == found.entries
            && s.log.applied == durable && s.log.committed == found.hard.commit && s.prevHard.commit == found.hard.commit
            && s.stabled == s.log.LastIndex() && s.id == id && s.peers == peers
  {
  }

  lemma StepInv(g: Group, e: Event)
    requires Inv(g) && Dur.Indexed(g.node.log) && After(g, e).Some? && (e.Handle? ==> CallOk(e.c))
    ensures Inv(After(g, e).value)
  {
    hide Called, NodeState.TakeReady, NodeState.Advance, DiskAfter, Leaves, Restore, ReadyOk, Dur.Indexed, St.ContiguousFrom;
    match e
    case Handle(c) => CalledKept(g.node, c);
    case Take => TakeOk(g.node);
    case Save => SavedInv(g);
    case Apply => ReadyBound(g.node, g.phase.rd);
    case Advance => AdvanceMoves(g.node, g.phase.rd);
    case Crash(found) =>
      CrashChecks(g, found);
      RestoreOk(g.node.id, g.node.peers, found, g.durable);
    case _ =>
  }

  lemma ReadyBound(s: NodeState, rd: Ready)
    requires ReadyOk(s, rd) && Bounded(s.log)
    ensures s.log.applied <= LastApplied(s.log.applied, rd) <= s.log.committed
  {
  }

  lemma SavedInv(g: Group)
    requires Inv(g) && g.phase.Took?
    ensures Inv(After(g, Save).value)
  {
    hide St.Written, St.ApplyAll;
    if g.disk.Some? {
      var rd := g.phase.rd;
      var k := AllRecords(g.disk, rd);
      if DiskAfter(g.disk, rd, k).Some? {
        SaveRecords(g.disk.value, rd, k);
      }
    }
  }

  // ------------------------------------------------------------------- runs

  function Start(id: Id, peers: seq<Id>): Group
    requires id in peers
  {
    Group(Restore(id, peers, NO_STATE, 0).value, Some(NO_STATE), 0, 0, Idle)
  }

  ghost predicate IsRun(id: Id, peers: seq<Id>, gs: seq<Group>, es: seq<Event>) {
    && id in peers && |gs| == |es| + 1 && gs[0] == Start(id, peers)
    && forall i | 0 <= i < |es| :: After(gs[i], es[i]) == Some(gs[i + 1]) && (es[i].Handle? ==> CallOk(es[i].c))
  }

  ghost predicate Numbered(g: Group) {
    Dur.Indexed(g.node.log) && (g.disk.Some? ==> St.WellFormed(g.disk.value))
  }

  lemma {:induction false} PlaceNumbered(d: Recovered, es: seq<Entry>)
    requires St.WellFormed(d) && St.PlaceAll(d, es).Some?
    ensures St.WellFormed(St.PlaceAll(d, es).value)
    decreases |es|
  {
    if es != [] {
      PlaceNumbered(St.Place(d, es[0]).value, es[1..]);
    }
  }

  lemma {:induction false} ApplyNumbered(d: Recovered, rs: seq<St.StateRecord>)
    requires St.WellFormed(d) && St.ApplyAll(d, rs).Some? && forall i | 0 <= i < |rs| :: !rs[i].CompactRecord?
    ensures St.WellFormed(St.ApplyAll(d, rs).value)
    decreases |rs|
  {
    hide St.PlaceAll;
    if rs != [] {
      if rs[0].EntriesRecord? {
        PlaceNumbered(d, rs[0].es);
      }
      ApplyNumbered(St.Apply(d, rs[0]).value, rs[1..]);
    }
  }

  lemma DiskNumbered(d: Option<Recovered>, rd: Ready, k: nat)
    requires d.Some? && St.WellFormed(d.value) && DiskAfter(d, rd, k).Some?
    ensures St.WellFormed(DiskAfter(d, rd, k).value)
  {
    hide St.ApplyAll, St.WellFormed;
    var rs := St.Written(St.LastOf(d.value), BatchOf(rd));
    ApplyNumbered(d.value, if k <= |rs| then rs[..k] else rs);
  }

  lemma LeavesNumbered(g: Group, found: Recovered)
    requires Numbered(g) && Leaves(g, found)
    ensures St.WellFormed(found)
  {
    hide DiskAfter;
    if g.phase.Took? {
      var k :| 0 <= k <= AllRecords(g.disk, g.phase.rd) && DiskAfter(g.disk, g.phase.rd, k) == Some(found);
      if g.disk.None? {
        assert DiskAfter(g.disk, g.phase.rd, k) == None by { NoDisk(g.phase.rd, k); }
      }
      DiskNumbered(g.disk, g.phase.rd, k);
    }
  }

  lemma NoDisk(rd: Ready, k: nat)
    ensures DiskAfter(None, rd, k) == None
  {
  }

  lemma CompactNumbered(s: NodeState, i: nat)
    requires Dur.Indexed(s.log) && s.CompactTo(i).Ok?
    ensures Dur.Indexed(s.CompactTo(i).value.log) && s.CompactTo(i).value.log.LastIndex() == s.log.LastIndex()
  {
  }

  lemma StepNumbered(g: Group, e: Event)
    requires Inv(g) && Numbered(g) && After(g, e).Some? && (e.Handle? ==> CallOk(e.c))
    ensures Numbered(After(g, e).value)
  {
    hide Called, NodeState.TakeReady, NodeState.Advance, DiskAfter, Leaves, Restore, ReadyOk, NodeState.CompactTo;
    match e
    case Handle(c) => CalledKept(g.node, c);
    case Take => TakeOk(g.node);
    case Save =>
      var rd := g.phase.rd;
      var k := AllRecords(g.disk, rd);
      NoDisk(rd, k);
      if g.disk.Some? && DiskAfter(g.disk, rd, k).Some? {
        DiskNumbered(g.disk, rd, k);
      }
    case Advance => AdvanceMoves(g.node, g.phase.rd);
    case Snapshot => CompactNumbered(g.node, g.applied);
    case Crash(found) =>
      CrashChecks(g, found);
      LeavesNumbered(g, found);
      RestoreOk(g.node.id, g.node.peers, found, g.durable);
    case _ =>
  }

  lemma StartInv(id: Id, peers: seq<Id>)
    requires id in peers
    ensures Inv(Start(id, peers)) && Numbered(Start(id, peers)) && Fit(Start(id, peers))
  {
  }

  lemma {:induction false} RunInv(id: Id, peers: seq<Id>, gs: seq<Group>, es: seq<Event>, i: nat)
    requires IsRun(id, peers, gs, es) && i < |gs|
    ensures Inv(gs[i]) && Numbered(gs[i])
  {
    hide Inv, Numbered, After, CallOk;
    if i == 0 {
      StartInv(id, peers);
    } else {
      assert After(gs[i - 1], es[i - 1]) == Some(gs[i - 1 + 1]);
      RunInv(id, peers, gs, es, i - 1);
      NumberedIndexed(gs[i - 1]);
      StepInv(gs[i - 1], es[i - 1]);
      StepNumbered(gs[i - 1], es[i - 1]);
    }
  }

  lemma NumberedIndexed(g: Group)
    requires Numbered(g)
    ensures Dur.Indexed(g.node.log)
  {
  }

  /** At every crash point of every run, restarts included: the snapshot boundary is
      at most the durably applied index, and that at most the durable commit index. */
  lemma AppliedChecksNeverFire(id: Id, peers: seq<Id>, gs: seq<Group>, es: seq<Event>, i: nat, found: Recovered)
    requires IsRun(id, peers, gs, es) && i < |gs| && Leaves(gs[i], found)
    ensures found.snapIndex <= gs[i].durable <= found.hard.commit
  {
    hide Inv, Leaves, IsRun;
    RunInv(id, peers, gs, es, i);
    CrashChecks(gs[i], found);
  }

  // ------------------------------------------------------ restarts that work

  /** The state file ends where the node believes it does. */
  ghost predicate Fit(g: Group) {
    && g.node.id in g.node.peers && g.disk.Some?
    && var d, s := g.disk.value, g.node;
       && d.hard.commit <= St.LastOf(d)
       && s.log.snapIndex <= s.stabled
       && (if g.phase.Compacted? then d.snapIndex <= s.log.snapIndex else d.snapIndex == s.log.snapIndex)
       && (InDrain(g.phase) ==> Batch(s, g.phase.rd))
       && (g.phase.Advanced? || g.phase.Compacted? ==> s.log.LastIndex() <= s.stabled)
       && St.LastOf(d) == if g.phase.Saved? || g.phase.Applied? then Max(s.stabled, s.log.LastIndex()) else s.stabled
  }

  /** The drained batch is the log past the stable point. */
  ghost predicate Batch(s: NodeState, rd: Ready) {
    && s.log.snapIndex <= s.stabled
    && rd.entries == (if s.log.LastIndex() > s.stabled then s.log.entries[s.stabled - s.log.snapIndex..] else [])
  }

  lemma TakeBatch(s: NodeState)
    requires Dur.Indexed(s.log) && s.log.snapIndex <= s.stabled && s.TakeReady().Ok?
    ensures Batch(s.TakeReady().value.0, s.TakeReady().value.1)
  {
    Dur.Offered(s);
  }

  /** A batch that starts right behind the file leaves it readable and longer. */
  lemma {:induction false} BatchSaved(d: Recovered, s: NodeState, rd: Ready, k: nat)
    requires Batch(s, rd) && Dur.Indexed(s.log) && St.WellFormed(d) && d.snapIndex == s.log.snapIndex && St.LastOf(d) == s.stabled
    requires k <= |St.Written(St.LastOf(d), BatchOf(rd))|
    ensures var rs := St.Written(St.LastOf(d), BatchOf(rd)); var r := St.ApplyAll(d, rs[..k]);
            && r.Some? && St.LastOf(r.value) >= St.LastOf(d)
            && (k == |rs| ==> St.LastOf(r.value) == Max(s.stabled, s.log.LastIndex()))
  {
    var es := rd.entries;
    var rs := St.Written(St.LastOf(d), BatchOf(rd));
    var t := rs[..k];
    if es != [] {
      assert es[0].index == s.stabled + 1;
      assert St.Continues(d, es);
      St.PlaceOverwrites(d, es);
      assert d.entries[..es[0].index - d.snapIndex - 1] == d.entries;
    }
    St.Unrolled(d, t);
  }

  lemma FitSaved(g: Group)
    requires Inv(g) && Numbered(g) && Fit(g) && g.phase.Took?
    ensures Fit(After(g, Save).value)
  {
    hide St.ApplyAll, St.Written, Dur.Indexed, St.WellFormed;
    var d, rd := g.disk.value, g.phase.rd;
    var k := AllRecords(g.disk, rd);
    BatchSaved(d, g.node, rd, k);
    SaveRecords(d, rd, k);
  }

  lemma FitLeaves(g: Group, found: Recovered)
    requires Inv(g) && Numbered(g) && Fit(g) && Leaves(g, found)
    ensures found.hard.commit <= St.LastOf(found)
  {
    hide St.ApplyAll, St.Written, Dur.Indexed, St.WellFormed;
    if g.phase.Took? {
      var d, rd := g.disk.value, g.phase.rd;
      var k :| 0 <= k <= AllRecords(g.disk, rd) && DiskAfter(g.disk, rd, k) == Some(found);
      BatchSaved(d, g.node, rd, k);
      SaveRecords(d, rd, k);
    }
  }

  lemma Restarts(id: Id, peers: seq<Id>, found: Recovered, durable: nat)
    requires id in peers && St.WellFormed(found) && found.snapIndex <= durable <= found.hard.commit <= St.LastOf(found)
    ensures Restore(id, peers, found, durable).Ok?
  {
  }

  /** A rewrite that finds the log shorter than the stable point leaves a file the next
      batches do not continue; this is the one step that must not happen. */
  ghost predicate Spared(g: Group, e: Event) {
    e.Rewrite? ==> g.node.log.LastIndex() >= g.node.stabled
  }

  lemma StepFit(g: Group, e: Event)
    requires Inv(g) && Numbered(g) && Fit(g) && After(g, e).Some? && (e.Handle? ==> CallOk(e.c)) && Spared(g, e)
    ensures Fit(After(g, e).value)
  {
    hide Called, NodeState.TakeReady, NodeState.Advance, DiskAfter, Leaves, Restore, Dur.Indexed, St.WellFormed, NodeState.CompactTo, St.ContiguousFrom, CallOk;
    match e
    case Handle(c) => CalledKept(g.node, c);
    case Take =>
      TakeOk(g.node);
      TakeBatch(g.node);
    case Save => FitSaved(g);
    case Advance =>
      AdvanceMoves(g.node, g.phase.rd);
      BatchEnd(g.node, g.phase.rd);
    case Snapshot =>
      CompactNumbered(g.node, g.applied);
      Compacts(g.node, g.applied);
    case Crash(found) =>
      CrashChecks(g, found);
      FitLeaves(g, found);
      RestoreOk(g.node.id, g.node.peers, found, g.durable);
    case _ =>
  }

  lemma BatchEnd(s: NodeState, rd: Ready)
    requires Batch(s, rd) && Dur.Indexed(s.log)
    ensures (if rd.entries == [] then s.stabled else rd.entries[|rd.entries| - 1].index) == Max(s.stabled, s.log.LastIndex())
  {
  }

  lemma Compacts(s: NodeState, i: nat)
    requires s.CompactTo(i).Ok?
    ensures var t := s.CompactTo(i).value;
            && t.log.snapIndex == Max(s.log.snapIndex, i) && t.stabled == s.stabled && t.prevHard == s.prevHard
            && t.id == s.id && t.peers == s.peers && t.log.committed == s.log.committed && t.log.applied == s.log.applied
  {
  }

  lemma {:induction false} RunFit(id: Id, peers: seq<Id>, gs: seq<Group>, es: seq<Event>, i: nat)
    requires IsRun(id, peers, gs, es) && i < |gs| && forall j | 0 <= j < |es| :: Spared(gs[j], es[j])
    ensures Inv(gs[i]) && Numbered(gs[i]) && Fit(gs[i])
  {
    hide Inv, Numbered, Fit, After, CallOk, Spared;
    RunInv(id, peers, gs, es, i);
    if i == 0 {
      StartInv(id, peers);
    } else {
      assert After(gs[i - 1], es[i - 1]) == Some(gs[i - 1 + 1]);
      RunFit(id, peers, gs, es, i - 1);
      StepFit(gs[i - 1], es[i - 1]);
    }
  }

  /** Then the file replays at every crash point and the node restarts from it. */
  lemma RestartWorks(id: Id, peers: seq<Id>, gs: seq<Group>, es: seq<Event>, i: nat, found: Recovered)
    requires IsRun(id, peers, gs, es) && i < |gs| && (forall j | 0 <= j < |es| :: Spared(gs[j], es[j]))
    requires Leaves(gs[i], found)
    ensures gs[i].disk.Some? && Restore(gs[i].node.id, gs[i].node.peers, found, gs[i].durable).Ok?
  {
    hide Inv, Numbered, Leaves, IsRun, Restore, St.WellFormed;
    RunFit(id, peers, gs, es, i);
    CrashChecks(gs[i], found);
    FitLeaves(gs[i], found);
    LeavesNumbered(gs[i], found);
    Restarts(gs[i].node.id, gs[i].node.peers, found, gs[i].durable);
  }

  // --------------------------------------------------- restarts that do not

  /** What holds of the state file in every run: it starts at the log's boundary, and the
      drained batch is the log past a stable point that nothing applied has passed. */
  ghost predicate Near(g: Group) {
    && g.node.id in g.node.peers
    && g.node.log.snapIndex <= g.node.log.applied <= g.node.stabled
    && (InDrain(g.phase) ==> Batch(g.node, g.phase.rd) && LastApplied(g.node.log.applied, g.phase.rd) <= g.node.stabled)
    && (g.disk.Some? && !g.phase.Compacted? ==> g.disk.value.snapIndex == g.node.log.snapIndex)
  }

  lemma TakeNear(s: NodeState)
    requires Bounded(s.log) && Dur.Indexed(s.log) && s.log.applied <= s.stabled && s.TakeReady().Ok?
    ensures LastApplied(s.log.applied, s.TakeReady().value.1) <= s.stabled
  {
  }

  lemma NearSaved(g: Group)
    requires Near(g) && g.phase.Took?
    ensures Near(After(g, Save).value)
  {
    hide St.ApplyAll, St.Written;
    var k := AllRecords(g.disk, g.phase.rd);
    NoDisk(g.phase.rd, k);
    if g.disk.Some? && DiskAfter(g.disk, g.phase.rd, k).Some? {
      SaveRecords(g.disk.value, g.phase.rd, k);
    }
  }

  lemma StepNear(g: Group, e: Event)
    requires Inv(g) && Numbered(g) && Near(g) && After(g, e).Some? && (e.Handle? ==> CallOk(e.c))
    ensures Near(After(g, e).value)
  {
    hide Called, NodeState.TakeReady, NodeState.Advance, DiskAfter, Leaves, Restore, Dur.Indexed, St.WellFormed, NodeState.CompactTo, St.ContiguousFrom, CallOk;
    match e
    case Handle(c) => CalledKept(g.node, c);
    case Take =>
      TakeOk(g.node);
      TakeBatch(g.node);
      TakeNear(g.node);
    case Save => NearSaved(g);
    case Advance =>
      AdvanceMoves(g.node, g.phase.rd);
      BatchEnd(g.node, g.phase.rd);
    case Snapshot => Compacts(g.node, g.applied);
    case Crash(found) =>
      CrashChecks(g, found);
      RestoreOk(g.node.id, g.node.peers, found, g.durable);
      RestoredPeer(g.node.id, g.node.peers, found, g.durable);
    case _ =>
  }

  lemma RestoredPeer(id: Id, peers: seq<Id>, found: Recovered, durable: nat)
    requires Restore(id, peers, found, durable).Ok?
    ensures id in peers
  {
  }

  lemma {:induction false} RunNear(id: Id, peers: seq<Id>, gs: seq<Group>, es: seq<Event>, i: nat)
    requires IsRun(id, peers, gs, es) && i < |gs|
    ensures Inv(gs[i]) && Numbered(gs[i]) && Near(gs[i])
  {
    hide Inv, Numbered, Near, After, CallOk;
    RunInv(id, peers, gs, es, i);
    if i == 0 {
      StartNear(id, peers);
    } else {
      assert After(gs[i - 1], es[i - 1]) == Some(gs[i - 1 + 1]);
      RunNear(id, peers, gs, es, i - 1);
      StepNear(gs[i - 1], es[i - 1]);
    }
  }

  lemma StartNear(id: Id, peers: seq<Id>)
    requires id in peers
    ensures Near(Start(id, peers))
  {
  }

  /** At every crash point of every run the node restarts from what it finds if and only
      if the log found there reaches the commit index found there. */
  lemma RestartIff(id: Id, peers: seq<Id>, gs: seq<Group>, es: seq<Event>, i: nat, found: Recovered)
    requires IsRun(id, peers, gs, es) && i < |gs| && Leaves(gs[i], found)
    ensures Restore(gs[i].node.id, gs[i].node.peers, found, gs[i].durable).Ok? <==> found.hard.commit <= St.LastOf(found)
  {
    hide Inv, Numbered, Leaves, IsRun, Restore, St.WellFormed;
    RunNear(id, peers, gs, es, i);
    CrashChecks(gs[i], found);
    LeavesNumbered(gs[i], found);
    if found.hard.commit <= St.LastOf(found) {
      Restarts(gs[i].node.id, gs[i].node.peers, found, gs[i].durable);
    } else {
      Refused(gs[i].node.id, gs[i].node.peers, found, gs[i].durable);
    }
  }

  lemma Refused(id: Id, peers: seq<Id>, found: Recovered, durable: nat)
    requires found.hard.commit > St.LastOf(found)
    ensures Restore(id, peers, found, durable).Panic?
  {
  }

  /** A save whose batch starts past the end of the file leaves a gap, and only that does. */
  lemma GapIff(d: Recovered, s: NodeState, rd: Ready)
    requires Batch(s, rd) && Dur.Indexed(s.log) && St.WellFormed(d) && d.snapIndex == s.log.snapIndex
    ensures DiskAfter(Some(d), rd, AllRecords(Some(d), rd)) == None <==> St.LastOf(d) < s.stabled < s.log.LastIndex()
  {
    var es := rd.entries;
    var rs := St.Written(St.LastOf(d), BatchOf(rd));
    assert rs[..|rs|] == rs;
    if es != [] {
      assert es[0].index == s.stabled + 1;
      if St.LastOf(d) < s.stabled {
        assert rs[0] == St.EntriesRecord(es);
        assert St.Place(d, es[0]) == None;
        St.ApplyCons(d, rs);
      } else {
        var cut := if es[0].index <= St.LastOf(d) then d.(entries := d.entries[..es[0].index - d.snapIndex - 1]) else d;
        assert St.Continues(cut, es);
        St.PlaceOverwrites(cut, es);
        St.Unrolled(d, rs);
      }
    } else {
      St.Unrolled(d, rs);
    }
  }

  /** In every run: the drain begun in an idle state leaves a state file that does not
      replay, and will not until the next rewrite replaces it, if and only if it did not
      before or the file ends short of the stable point and the log goes past it. */
  lemma SavedReadableIff(id: Id, peers: seq<Id>, gs: seq<Group>, es: seq<Event>, i: nat)
    requires IsRun(id, peers, gs, es) && i < |gs| && gs[i].phase.Idle? && After(gs[i], Take).Some?
    ensures After(After(gs[i], Take).value, Save).Some?
    ensures After(After(gs[i], Take).value, Save).value.disk == None
            <==> gs[i].disk.None? || St.LastOf(gs[i].disk.value) < gs[i].node.stabled < gs[i].node.log.LastIndex()
  {
    hide NodeState.TakeReady, IsRun, St.WellFormed, Dur.Indexed, DiskAfter;
    RunNear(id, peers, gs, es, i);
    var g := gs[i];
    TakeOk(g.node);
    TakeBatch(g.node);
    var (n, rd) := g.node.TakeReady().value;
    NoDisk(rd, AllRecords(g.disk, rd));
    if g.disk.Some? {
      GapIff(g.disk.value, n, rd);
    }
  }
}
