/** Where the entries of a group come from: nothing is applied that nobody proposed. */
module RaftValidity {
  import opened Common
  import opened RaftTypes
  import opened RaftLog
  import opened RaftState
  import opened RaftCluster

  /** Every entry carries one of the known payloads. */
  ghost predicate From(es: seq<Entry>, known: set<Bytes>) {
    forall i | 0 <= i < |es| :: es[i].data in known
  }

  ghost predicate MsgsFrom(ms: seq<Message>, known: set<Bytes>) {
    forall i | 0 <= i < |ms| :: From(ms[i].entries, known)
  }

  ghost predicate NodeFrom(s: NodeState, known: set<Bytes>) {
    From(s.log.entries, known) && MsgsFrom(s.msgs, known)
  }

  // ------------------------------------------------------------- the handlers

  lemma {:induction false} MergeFrom(l: Log, ents: seq<Entry>, known: set<Bytes>)
    requires From(l.entries, known) && From(ents, known) && l.Merge(ents).Ok?
    ensures From(l.Merge(ents).value.entries, known)
    decreases |ents|
  {
    if ents != [] {
      match l.Term(ents[0].index)
      case None =>
      case Some(t) =>
        if t == ents[0].term {
          MergeFrom(l, ents[1..], known);
        }
    }
  }

  lemma SendFrom(s: NodeState, m: Message, known: set<Bytes>)
    requires NodeFrom(s, known) && From(m.entries, known)
    ensures NodeFrom(s.Send(m), known)
  {
    hide From;
  }

  lemma SendAppendFrom(s: NodeState, to: Id, known: set<Bytes>)
    requires NodeFrom(s, known) && s.SendAppend(to).Ok?
    ensures NodeFrom(s.SendAppend(to).value, known)
  {
    var nx := CountOf(s.next, to);
    var prevIndex := Predecessor(nx);
    match s.log.Term(prevIndex)
    case None => SendFrom(s, Plain(MsgSnap, to).(logIndex := s.log.snapIndex, logTerm := s.log.snapTerm), known);
    case Some(prevTerm) =>
      var ents := s.log.Slice(nx, s.log.LastIndex() + 1).value;
      SendFrom(s, Plain(MsgApp, to).(logIndex := prevIndex, logTerm := prevTerm, entries := ents,
                                     commit := Min(s.log.committed, prevIndex + |ents|)), known);
  }

  lemma {:induction false} BcastFrom(s: NodeState, ps: seq<Id>, known: set<Bytes>)
    requires NodeFrom(s, known) && s.BcastAppendTo(ps).Ok?
    ensures NodeFrom(s.BcastAppendTo(ps).value, known)
    decreases |ps|
  {
    hide NodeFrom, NodeState.SendAppend;
    if ps != [] {
      if ps[0] == s.id {
        BcastFrom(s, ps[1..], known);
      } else {
        SendAppendFrom(s, ps[0], known);
        BcastFrom(s.SendAppend(ps[0]).value, ps[1..], known);
      }
    }
  }

  lemma {:induction false} PollFrom(s: NodeState, mtype: MessageType, t: nat, ps: seq<Id>, known: set<Bytes>)
    requires NodeFrom(s, known)
    ensures NodeFrom(s.BcastVoteTo(mtype, t, ps), known)
    decreases |ps|
  {
    hide NodeFrom;
    if ps != [] {
      if ps[0] == s.id {
        PollFrom(s, mtype, t, ps[1..], known);
      } else {
        var m := Plain(mtype, ps[0]).(term := t, logIndex := s.log.LastIndex(), logTerm := s.log.LastTerm());
        SendFrom(s, m, known);
        PollFrom(s.Send(m), mtype, t, ps[1..], known);
      }
    }
  }

  lemma MaybeCommitFrom(s: NodeState, known: set<Bytes>)
    requires NodeFrom(s, known) && s.MaybeCommit().Ok?
    ensures NodeFrom(s.MaybeCommit().value.0, known)
  {
    hide QuorumIndex, From, MsgsFrom;
  }

  /** Appending, recounting and broadcasting, as a leader does. */
  lemma GrownFrom(s: NodeState, ents: seq<Entry>, known: set<Bytes>)
    requires NodeFrom(s, known) && From(ents, known) && s.log.Append(ents).Ok?
    ensures NodeFrom(s.(log := s.log.Append(ents).value), known)
  {
  }

  lemma LeadFrom(s: NodeState, known: set<Bytes>)
    requires NodeFrom(s, known) && [] in known && s.BecomeLeader().Ok?
    ensures NodeFrom(s.BecomeLeader().value, known)
  {
    hide NodeFrom, NodeState.MaybeCommit, NodeState.BcastAppendTo;
    var n := s.(role := Leader, lead := s.id, transferee := 0,
                next := Uniform(s.peers, s.log.LastIndex() + 1), matched := Uniform(s.peers, 0));
    var e := [Entry(ENTRY_NORMAL, n.log.LastIndex() + 1, s.term, [])];
    SameFrom(s, n, known);
    GrownFrom(n, e, known);
    var a := n.(log := n.log.Append(e).value);
    MaybeCommitFrom(a, known);
    var b := a.MaybeCommit().value.0;
    BcastFrom(b, b.peers, known);
  }

  lemma SameFrom(s: NodeState, t: NodeState, known: set<Bytes>)
    requires NodeFrom(s, known) && t.log.entries == s.log.entries && t.msgs == s.msgs
    ensures NodeFrom(t, known)
  {
  }

  lemma ElectFrom(s: NodeState, known: set<Bytes>)
    requires NodeFrom(s, known) && [] in known && s.StartElection().Ok?
    ensures NodeFrom(s.StartElection().value, known)
  {
    hide NodeFrom, NodeState.BecomeLeader, NodeState.BcastVoteTo;
    var n := s.BecomeCandidate().value;
    SameFrom(s, n, known);
    if |n.votes| >= n.Quorum() {
      LeadFrom(n, known);
    } else {
      PollFrom(n, MsgVote, n.term, n.peers, known);
    }
  }

  lemma CampaignFrom(s: NodeState, known: set<Bytes>)
    requires NodeFrom(s, known) && [] in known && s.Campaign().Ok?
    ensures NodeFrom(s.Campaign().value, known)
  {
    hide NodeFrom, NodeState.StartElection, NodeState.BcastVoteTo;
    if s.id in s.voters {
      var n := s.BecomePreCandidate().value;
      SameFrom(s, n, known);
      if |n.preVotes| >= n.Quorum() {
        ElectFrom(n, known);
      } else {
        PollFrom(n, MsgPreVote, n.term + 1, n.peers, known);
      }
    }
  }

  lemma ProposeFrom(s: NodeState, m: Message, known: set<Bytes>)
    requires NodeFrom(s, known) && From(m.entries, known) && s.HandlePropose(m).Ok?
    ensures NodeFrom(s.HandlePropose(m).value, known)
  {
    hide NodeFrom, NodeState.MaybeCommit, NodeState.BcastAppendTo;
    if s.role.Leader? && s.transferee == 0 {
      var es := Stamped(m.entries, s.log.LastIndex() + 1, s.term);
      GrownFrom(s, es, known);
      var a := s.(log := s.log.Append(es).value);
      MaybeCommitFrom(a, known);
      var b := a.MaybeCommit().value.0;
      BcastFrom(b, b.peers, known);
    }
  }

  lemma AckFrom(s: NodeState, from: Id, index: nat, known: set<Bytes>)
    requires NodeFrom(s, known) && s.Acknowledged(from, index).Ok?
    ensures NodeFrom(s.Acknowledged(from, index).value, known)
  {
    hide NodeFrom, NodeState.MaybeCommit, NodeState.BcastAppendTo;
    var a := s.(matched := s.matched[from := index], next := s.next[from := index + 1]);
    SameFrom(s, a, known);
    MaybeCommitFrom(a, known);
    if a.MaybeCommit().value.1 {
      var b := a.MaybeCommit().value.0;
      BcastFrom(b, b.peers, known);
    }
  }

  lemma AppRespFrom(s: NodeState, m: Message, known: set<Bytes>)
    requires NodeFrom(s, known) && s.HandleAppResp(m).Ok?
    ensures NodeFrom(s.HandleAppResp(m).value, known)
  {
    hide NodeFrom, NodeState.Acknowledged, NodeState.SendAppend;
    if s.role.Leader? {
      if m.reject {
        var n := if m.logIndex < CountOf(s.next, m.from) then s.(next := s.next[m.from := Max(m.logIndex, 1)]) else s;
        SameFrom(s, n, known);
        SendAppendFrom(n, m.from, known);
      } else if m.logIndex >= CountOf(s.matched, m.from) {
        if m.logIndex > CountOf(s.matched, m.from) {
          AckFrom(s, m.from, m.logIndex, known);
        }
        var n := if m.logIndex > CountOf(s.matched, m.from) then s.Acknowledged(m.from, m.logIndex).value else s;
        SendFrom(n, Plain(MsgTimeoutNow, m.from), known);
      }
    }
  }

  lemma AppFrom(s: NodeState, m: Message, known: set<Bytes>)
    requires NodeFrom(s, known) && From(m.entries, known) && s.HandleApp(m).Ok?
    ensures NodeFrom(s.HandleApp(m).value, known)
  {
    hide Log.Merge, From;
    var r := s.log.MaybeAppend(m.logIndex, m.logTerm, m.commit, m.entries).value;
    var n := s.(role := Follower, lead := m.from, log := r.0);
    assert From(r.0.entries, known) by {
      if s.log.Term(m.logIndex) == Some(m.logTerm) {
        MergeFrom(s.log, m.entries, known);
      }
    }
    assert From([], known) by { NothingFrom(known); }
    SendFrom(n, Plain(MsgAppResp, m.from).(reject := true, logIndex := Min(m.logIndex, r.0.LastIndex() + 1)), known);
    if r.1.Some? {
      SendFrom(n, Plain(MsgAppResp, m.from).(logIndex := r.1.value), known);
    }
  }

  lemma NothingFrom(known: set<Bytes>)
    ensures From([], known)
  {
  }

  lemma InTermFrom(s: NodeState, m: Message, known: set<Bytes>)
    requires NodeFrom(s, known) && [] in known && From(m.entries, known) && s.StepInTerm(m).Ok?
    ensures NodeFrom(s.StepInTerm(m).value, known)
  {
    hide NodeFrom, NodeState.BecomeLeader, NodeState.HandleApp, NodeState.HandleAppResp, NodeState.StartElection;
    match m.mtype
    case MsgVote =>
      var grant := (s.vote == 0 || s.vote == m.from) && s.log.IsUpToDate(m.logIndex, m.logTerm);
      var n := if grant then s.(vote := m.from) else s;
      SameFrom(s, n, known);
      SendFrom(n, Plain(MsgVoteResp, m.from).(reject := !grant), known);
    case MsgVoteResp =>
      if s.role.Candidate? {
        var n := if !m.reject && m.from in s.voters then s.(votes := s.votes + {m.from}) else s;
        SameFrom(s, n, known);
        if |n.votes| >= s.Quorum() {
          LeadFrom(n, known);
        }
      }
    case MsgApp => AppFrom(s, m, known);
    case MsgAppResp => AppRespFrom(s, m, known);
    case MsgTimeoutNow =>
      if s.id in s.voters {
        ElectFrom(s, known);
      }
    case _ =>
  }

  lemma PreVoteRespFrom(s: NodeState, m: Message, known: set<Bytes>)
    requires NodeFrom(s, known) && [] in known && s.HandlePreVoteResp(m).Ok?
    ensures NodeFrom(s.HandlePreVoteResp(m).value, known)
  {
    hide NodeFrom, NodeState.StartElection;
    if s.role.Candidate? && |s.votes| == 0 {
      var n := if !m.reject && m.from in s.voters then s.(preVotes := s.preVotes + {m.from}) else s;
      SameFrom(s, n, known);
      if |n.preVotes| >= s.Quorum() {
        ElectFrom(n, known);
      }
    }
  }

  lemma StepFrom(s: NodeState, m: Message, known: set<Bytes>)
    requires NodeFrom(s, known) && [] in known && From(m.entries, known) && s.Step(m).Ok?
    ensures NodeFrom(s.Step(m).value, known)
  {
    hide NodeFrom, NodeState.HandlePropose, NodeState.StepInTerm, NodeState.HandlePreVoteResp, From;
    assert From([], known) by { NothingFrom(known); }
    if m.mtype.MsgProp? {
      ProposeFrom(s, m, known);
    } else if m.mtype.MsgPreVote? {
      var grant := m.term > s.term && s.log.IsUpToDate(m.logIndex, m.logTerm);
      SendFrom(s, Plain(MsgPreVoteResp, m.from).(term := m.term, reject := !grant), known);
    } else if m.mtype.MsgPreVoteResp? {
      PreVoteRespFrom(s, m, known);
    } else if m.term < s.term {
      SendFrom(s, Plain(MsgVoteResp, m.from).(reject := true), known);
    } else {
      var n := if m.term > s.term then s.BecomeFollower(m.term, if m.mtype.MsgApp? then m.from else 0).value else s;
      SameFrom(s, n, known);
      InTermFrom(n, m, known);
    }
  }

  lemma TransferFrom(s: NodeState, target: Id, known: set<Bytes>)
    requires NodeFrom(s, known) && s.TransferLeader(target).Ok?
    ensures NodeFrom(s.TransferLeader(target).value.0, known)
  {
    hide NodeFrom, NodeState.SendAppend;
    if s.role.Leader? && target != s.id && target in s.voters {
      var n := s.(transferee := target);
      SameFrom(s, n, known);
      if CountOf(s.matched, target) >= s.log.LastIndex() {
        SendFrom(n, Plain(MsgTimeoutNow, target), known);
      } else {
        SendAppendFrom(n, target, known);
      }
    }
  }

  lemma DrainFrom(s: NodeState, known: set<Bytes>)
    requires NodeFrom(s, known) && s.TakeReady().Ok? && s.TakeReady().value.0.Advance(s.TakeReady().value.1).Ok?
    ensures var (n, rd) := s.TakeReady().value;
            && NodeFrom(n.Advance(rd).value, known)
            && From(rd.committedEntries, known) && MsgsFrom(rd.messages, known)
  {
    hide NodeState.MaybeCommit, From, MsgsFrom;
    var (n, rd) := s.TakeReady().value;
    assert MsgsFrom([], known) by { NoMsgsFrom(known); }
    var a := if rd.hardState.Some? then n.(prevHard := rd.hardState.value) else n;
    if rd.entries != [] {
      MaybeCommitFrom(a.(stabled := rd.entries[|rd.entries| - 1].index), known);
    }
    assert From(rd.committedEntries, known) by { SliceFrom(s, known); }
  }

  lemma NoMsgsFrom(known: set<Bytes>)
    ensures MsgsFrom([], known)
  {
  }

  lemma SliceFrom(s: NodeState, known: set<Bytes>)
    requires NodeFrom(s, known) && s.TakeReady().Ok?
    ensures From(s.TakeReady().value.1.committedEntries, known)
  {
  }

  lemma CompactFrom(s: NodeState, index: nat, known: set<Bytes>)
    requires NodeFrom(s, known) && s.CompactTo(index).Ok?
    ensures NodeFrom(s.CompactTo(index).value, known)
  {
  }

  // ---------------------------------------------------------------- the group

  /** Every log, queue, message in flight and applied sequence carries known payloads. */
  ghost predicate ClusterFrom(c: Cluster, known: set<Bytes>) {
    && (forall n | n in c.nodes :: NodeFrom(c.nodes[n], known))
    && (forall m | m in c.net :: From(m.entries, known))
    && (forall n | n in c.emitted :: From(c.emitted[n], known))
  }

  /** What clients have proposed; a new leader's own entry carries nothing. */
  ghost function Proposed(events: seq<Event>, k: nat): set<Bytes>
    requires k <= |events|
  {
    if k == 0 then {[]}
    else
      Proposed(events, k - 1)
      + (if events[k - 1].Propose? then (set p | p in events[k - 1].payloads :: p.data) else {})
  }

  lemma {:induction false} ProposedNothing(events: seq<Event>, k: nat)
    requires k <= |events|
    ensures [] in Proposed(events, k)
  {
    if k > 0 {
      ProposedNothing(events, k - 1);
    }
  }

  lemma MoreKnown(c: Cluster, a: set<Bytes>, b: set<Bytes>)
    requires ClusterFrom(c, a) && a <= b
    ensures ClusterFrom(c, b)
  {
  }

  lemma NodeAfterFrom(c: Cluster, e: Event, known: set<Bytes>)
    requires ClusterFrom(c, known) && [] in known && Enabled(c, e) && !e.Restart? && NodeAfter(c, e).Ok?
    requires e.Propose? ==> From(e.payloads, known)
    ensures NodeFrom(NodeAfter(c, e).value, known)
  {
    hide NodeFrom, From, NodeState.Step, NodeState.HandlePropose, NodeState.Campaign, NodeState.BcastAppendTo,
         NodeState.TransferLeader, NodeState.TakeReady, NodeState.Advance, NodeState.CompactTo;
    var s := c.nodes[e.n];
    match e
    case Deliver(_, m) => StepFrom(s, m, known);
    case Propose(_, payloads) => ProposeFrom(s, Plain(MsgProp, s.id).(entries := payloads), known);
    case Timeout(_) => CampaignFrom(s, known);
    case Heartbeat(_) => BcastFrom(s, s.peers, known);
    case Transfer(_, target) => TransferFrom(s, target, known);
    case Drain(_) => DrainFrom(s, known);
    case Compact(_, index) => CompactFrom(s, index, known);
  }

  lemma AfterFrom(c: Cluster, e: Event, known: set<Bytes>)
    requires ClusterFrom(c, known) && [] in known && Enabled(c, e) && !e.Restart? && After(c, e).Ok?
    requires e.Propose? ==> From(e.payloads, known)
    ensures ClusterFrom(After(c, e).value, known)
  {
    hide NodeFrom, From, NodeAfter, NodeState.TakeReady;
    NodeAfterFrom(c, e, known);
    if e.Drain? {
      DrainedFrom(c, e.n, known);
    }
  }

  lemma DrainedFrom(c: Cluster, n: Id, known: set<Bytes>)
    requires ClusterFrom(c, known) && Enabled(c, Drain(n)) && NodeAfter(c, Drain(n)).Ok? && c.nodes[n].TakeReady().Ok?
    ensures var d := Drained(c, n, c.nodes[n].TakeReady().value.1);
            && (forall m | m in d.net :: From(m.entries, known))
            && (forall p | p in d.emitted :: From(d.emitted[p], known))
            && d.nodes == c.nodes
  {
    hide NodeState.TakeReady, NodeState.Advance;
    DrainFrom(c.nodes[n], known);
  }

  lemma InitialFrom(peers: seq<Id>)
    ensures ClusterFrom(Initial(peers), {[]})
  {
  }

  lemma {:induction false} RunFrom(peers: seq<Id>, states: seq<Cluster>, events: seq<Event>, i: nat)
    requires IsRun(peers, states, events) && CrashFree(events) && i <= |events|
    ensures ClusterFrom(states[i], Proposed(events, i))
  {
    hide ClusterFrom, Enabled, After, Initial;
    if i == 0 {
      InitialFrom(peers);
    } else {
      RunFrom(peers, states, events, i - 1);
      assert After(states[i - 1], events[i - 1]) == Ok(states[i - 1 + 1]);
      ProposedNothing(events, i);
      MoreKnown(states[i - 1], Proposed(events, i - 1), Proposed(events, i));
      assert events[i - 1].Propose? ==> From(events[i - 1].payloads, Proposed(events, i));
      AfterFrom(states[i - 1], events[i - 1], Proposed(events, i));
    }
  }

  /** Validity: whatever a node applies was proposed by some client before, or is the
      empty entry of a new leader. */
  lemma {:induction false} OnlyProposedApplied(peers: seq<Id>, states: seq<Cluster>, events: seq<Event>, i: nat, n: Id, k: nat)
    requires IsRun(peers, states, events) && CrashFree(events) && i <= |events|
    requires n in states[i].emitted && k < |states[i].emitted[n]|
    ensures states[i].emitted[n][k].data in Proposed(events, i)
  {
    hide IsRun, NodeFrom, Proposed;
    RunFrom(peers, states, events, i);
  }
}
