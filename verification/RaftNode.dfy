/** One member of a consensus group as a transport-free state machine. The
    state functions of `NodeState` say what each handler does; `Panic` is a
    fired guard. */
module RaftState {
  import opened Common
  import opened RaftTypes
  import opened RaftLog

  const MAX_U64: nat := 0xFFFF_FFFF_FFFF_FFFF

  datatype Ready = Ready(hardState: Option<HardState>, entries: seq<Entry>,
                         committedEntries: seq<Entry>, messages: seq<Message>)

  /** How many members have matched at least `c`. */
  ghost function Supporters(matched: map<Id, nat>, voters: set<Id>, c: nat): set<Id> {
    set p | p in voters && CountOf(matched, p) >= c
  }

  /** `c` is the highest index that `q` members have matched. */
  ghost predicate IsQuorumIndex(matched: map<Id, nat>, voters: set<Id>, q: nat, c: nat) {
    && |Supporters(matched, voters, c)| >= q
    && |Supporters(matched, voters, c + 1)| < q
  }

  lemma SupportersAboveAll(matched: map<Id, nat>, voters: set<Id>) returns (b: nat)
    ensures Supporters(matched, voters, b) == {}
  {
    if voters == {} {
      b := 0;
    } else {
      var p :| p in voters;
      var b' := SupportersAboveAll(matched, voters - {p});
      b := Max(b', CountOf(matched, p) + 1);
      forall x | x in voters
        ensures CountOf(matched, x) < b
      {
        if x != p {
          assert x !in Supporters(matched, voters - {p}, b');
        }
      }
    }
  }

  lemma QuorumIndexAbove(matched: map<Id, nat>, voters: set<Id>, q: nat, c: nat, b: nat) returns (r: nat)
    requires 0 < q && c <= b
    requires |Supporters(matched, voters, c)| >= q && Supporters(matched, voters, b) == {}
    ensures IsQuorumIndex(matched, voters, q, r)
    decreases b - c
  {
    if |Supporters(matched, voters, c + 1)| < q {
      r := c;
    } else {
      r := QuorumIndexAbove(matched, voters, q, c + 1, b);
    }
  }

  lemma QuorumIndexExists(matched: map<Id, nat>, voters: set<Id>, q: nat)
    requires 0 < q <= |voters|
    ensures exists c :: IsQuorumIndex(matched, voters, q, c)
  {
    var b := SupportersAboveAll(matched, voters);
    assert Supporters(matched, voters, 0) == voters;
    var c := QuorumIndexAbove(matched, voters, q, 0, b);
  }

  lemma QuorumIndexUnique(matched: map<Id, nat>, voters: set<Id>, q: nat, c: nat, d: nat)
    requires IsQuorumIndex(matched, voters, q, c) && IsQuorumIndex(matched, voters, q, d)
    ensures c == d
  {
    if c < d {
      SupportersShrink(matched, voters, c + 1, d);
    } else if d < c {
      SupportersShrink(matched, voters, d + 1, c);
    }
  }

  lemma SupportersShrink(matched: map<Id, nat>, voters: set<Id>, c: nat, d: nat)
    requires c <= d
    ensures |Supporters(matched, voters, d)| <= |Supporters(matched, voters, c)|
  {
    SubsetSize(Supporters(matched, voters, d), Supporters(matched, voters, c));
  }

  ghost function QuorumIndex(matched: map<Id, nat>, voters: set<Id>, q: nat): (c: nat)
    requires 0 < q <= |voters|
    ensures IsQuorumIndex(matched, voters, q, c)
  {
    QuorumIndexExists(matched, voters, q);
    var c :| IsQuorumIndex(matched, voters, q, c);
    c
  }

  /** Fresh entries of one term, numbered from `first`. */
  function Stamped(payloads: seq<Entry>, first: nat, term: nat): seq<Entry> {
    seq(|payloads|, i requires 0 <= i < |payloads| => Entry(ENTRY_NORMAL, first + i, term, payloads[i].data))
  }

  /** The same counter for every peer. */
  function Uniform(ps: seq<Id>, v: nat): map<Id, nat> {
    map p | p in ps :: v
  }

  function Plain(mtype: MessageType, to: Id): Message {
    Message(mtype, 0, to, 0, 0, 0, [], 0, false)
  }

  /** `next - 1` on an unsigned 64-bit counter. */
  function Predecessor(next: nat): nat {
    if next == 0 then MAX_U64 else next - 1
  }

  datatype NodeState = NodeState(
    id: Id,
    voters: set<Id>,
    peers: seq<Id>,
    role: Role,
    term: nat,
    vote: Id,
    lead: Id,
    transferee: Id,
    log: Log,
    votes: set<Id>,
    preVotes: set<Id>,
    next: map<Id, nat>,
    matched: map<Id, nat>,
    msgs: seq<Message>,
    stabled: nat,
    prevHard: HardState)
  {
    function Quorum(): nat {
      |voters| / 2 + 1
    }

    function Hard(): HardState {
      HardState(term, vote, log.committed)
    }

    function Send(m: Message): NodeState {
      this.(msgs := msgs + [m.(from := id, term := if m.term == 0 then term else m.term)])
    }

    function Reset(t: nat): Checked<NodeState> {
      if t < term then
        Panic
      else
        Ok(this.(term := t, vote := if t > term then 0 else vote, lead := 0, votes := {}, preVotes := {}))
    }

    function BecomeFollower(t: nat, leader: Id): Checked<NodeState> {
      var n :- Reset(t);
      Ok(n.(role := Follower, lead := leader))
    }

    function BecomeCandidate(): Checked<NodeState> {
      if role.Leader? then
        Panic
      else
        var n :- Reset(term + 1);
        Ok(n.(role := Candidate, vote := id, votes := {id}))
    }

    /** Opens a PreVote round; neither the term nor the real tally changes. */
    function BecomePreCandidate(): Checked<NodeState> {
      if role.Leader? then
        Panic
      else
        Ok(this.(role := Candidate, lead := 0, preVotes := {id}))
    }

    /** Advances the commit index to the highest current-term entry a quorum has matched. */
    ghost function MaybeCommit(): Checked<(NodeState, bool)> {
      if !role.Leader? then
        Ok((this, false))
      else if |voters| == 0 then
        Panic
      else
        var n := this.(matched := matched[id := Min(stabled, log.LastIndex())]);
        var c := QuorumIndex(n.matched, voters, Quorum());
        if c <= log.committed || log.Term(c) != Some(term) then
          Ok((n, false))
        else
          var l :- log.CommitTo(c);
          Ok((n.(log := l), true))
    }

    function SendAppend(to: Id): Checked<NodeState> {
      var nx := CountOf(next, to);
      var prevIndex := Predecessor(nx);
      match log.Term(prevIndex)
      case None =>
        Ok(Send(Plain(MsgSnap, to).(logIndex := log.snapIndex, logTerm := log.snapTerm))
           .(next := next[to := log.snapIndex + 1]))
      case Some(prevTerm) =>
        var ents :- log.Slice(nx, log.LastIndex() + 1);
        Ok(Send(Plain(MsgApp, to).(logIndex := prevIndex, logTerm := prevTerm, entries := ents,
                                   commit := Min(log.committed, prevIndex + |ents|))))
    }

    function BcastAppendTo(ps: seq<Id>): Checked<NodeState>
      decreases |ps|
    {
      if ps == [] then
        Ok(this)
      else if ps[0] == id then
        BcastAppendTo(ps[1..])
      else
        var n :- SendAppend(ps[0]);
        n.BcastAppendTo(ps[1..])
    }

    function BcastAppend(): Checked<NodeState> {
      BcastAppendTo(peers)
    }

    function BcastVoteTo(mtype: MessageType, t: nat, ps: seq<Id>): NodeState
      decreases |ps|
    {
      if ps == [] then
        this
      else if ps[0] == id then
        BcastVoteTo(mtype, t, ps[1..])
      else
        Send(Plain(mtype, ps[0]).(term := t, logIndex := log.LastIndex(), logTerm := log.LastTerm()))
        .BcastVoteTo(mtype, t, ps[1..])
    }

    /** Takes office: fresh replication state and the no-op entry of the new term. */
    ghost function BecomeLeader(): Checked<NodeState> {
      if !role.Candidate? then
        Panic
      else
        var n := this.(role := Leader, lead := id, transferee := 0,
                       next := Uniform(peers, log.LastIndex() + 1),
                       matched := Uniform(peers, 0));
        var l :- n.log.Append([Entry(ENTRY_NORMAL, n.log.LastIndex() + 1, term, [])]);
        var (n', _) :- n.(log := l).MaybeCommit();
        n'.BcastAppend()
    }

    ghost function StartElection(): Checked<NodeState> {
      var n :- BecomeCandidate();
      if |n.votes| >= n.Quorum() then
        n.BecomeLeader()
      else
        Ok(n.BcastVoteTo(MsgVote, n.term, n.peers))
    }

    ghost function Campaign(): Checked<NodeState> {
      if id !in voters then
        Ok(this)
      else
        var n :- BecomePreCandidate();
        if |n.preVotes| >= n.Quorum() then
          n.StartElection()
        else
          Ok(n.BcastVoteTo(MsgPreVote, n.term + 1, n.peers))
    }

    function TransferLeader(target: Id): Checked<(NodeState, bool)> {
      if !role.Leader? || target == id || target !in voters then
        Ok((this, false))
      else
        var n := this.(transferee := target);
        if CountOf(matched, target) >= log.LastIndex() then
          Ok((n.Send(Plain(MsgTimeoutNow, target)), true))
        else
          var n' :- n.SendAppend(target);
          Ok((n', true))
    }

    ghost function HandlePropose(m: Message): Checked<NodeState> {
      if !role.Leader? || transferee != 0 then
        Ok(this)
      else
        var l :- log.Append(Stamped(m.entries, log.LastIndex() + 1, term));
        var (n, _) :- this.(log := l).MaybeCommit();
        n.BcastAppend()
    }

    function HandlePreVote(m: Message): NodeState {
      var grant := m.term > term && log.IsUpToDate(m.logIndex, m.logTerm);
      Send(Plain(MsgPreVoteResp, m.from).(term := m.term, reject := !grant))
    }

    ghost function HandlePreVoteResp(m: Message): Checked<NodeState> {
      if !role.Candidate? || |votes| > 0 then
        Ok(this)
      else
        var n := if !m.reject && m.from in voters then this.(preVotes := preVotes + {m.from}) else this;
        if |n.preVotes| >= Quorum() then n.StartElection() else Ok(n)
    }

    function HandleVote(m: Message): NodeState {
      var grant := (vote == 0 || vote == m.from) && log.IsUpToDate(m.logIndex, m.logTerm);
      var n := if grant then this.(vote := m.from) else this;
      n.Send(Plain(MsgVoteResp, m.from).(reject := !grant))
    }

    ghost function HandleVoteResp(m: Message): Checked<NodeState> {
      if !role.Candidate? then
        Ok(this)
      else
        var n := if !m.reject && m.from in voters then this.(votes := votes + {m.from}) else this;
        if |n.votes| >= Quorum() then n.BecomeLeader() else Ok(n)
    }

    function HandleApp(m: Message): Checked<NodeState> {
      var n := this.(role := Follower, lead := m.from);
      var (l, lastNew) :- n.log.MaybeAppend(m.logIndex, m.logTerm, m.commit, m.entries);
      var n' := n.(log := l);
      match lastNew
      case None =>
        var hint := Min(m.logIndex, l.LastIndex() + 1);
        Ok(n'.Send(Plain(MsgAppResp, m.from).(reject := true, logIndex := hint)))
      case Some(i) =>
        Ok(n'.Send(Plain(MsgAppResp, m.from).(logIndex := i)))
    }

    ghost function HandleAppResp(m: Message): Checked<NodeState> {
      if !role.Leader? then
        Ok(this)
      else if m.reject then
        var n := if m.logIndex < CountOf(next, m.from) then this.(next := next[m.from := Max(m.logIndex, 1)]) else this;
        n.SendAppend(m.from)
      else if m.logIndex < CountOf(matched, m.from) then
        Ok(this)
      else
        var n :- if m.logIndex > CountOf(matched, m.from) then Acknowledged(m.from, m.logIndex) else Ok(this);
        if n.transferee == m.from && CountOf(n.matched, m.from) >= n.log.LastIndex() then
          Ok(n.Send(Plain(MsgTimeoutNow, m.from)))
        else
          Ok(n)
    }

    /** A follower's match moves up to `index`; a new commit index is broadcast. */
    ghost function Acknowledged(from: Id, index: nat): Checked<NodeState> {
      var (n, advanced) :- this.(matched := matched[from := index], next := next[from := index + 1]).MaybeCommit();
      if advanced then n.BcastAppend() else Ok(n)
    }

    /** Feeds one message into the state machine. */
    ghost function Step(m: Message): Checked<NodeState> {
      if m.mtype.MsgProp? then
        HandlePropose(m)
      else if m.mtype.MsgPreVote? then
        Ok(HandlePreVote(m))
      else if m.mtype.MsgPreVoteResp? then
        HandlePreVoteResp(m)
      else if m.term < term then
        Ok(if m.mtype.MsgVote? then Send(Plain(MsgVoteResp, m.from).(reject := true)) else this)
      else
        var n :- if m.term > term then BecomeFollower(m.term, if m.mtype.MsgApp? then m.from else 0) else Ok(this);
        n.StepInTerm(m)
    }

    /** The handlers for a message of the node's own term. */
    ghost function StepInTerm(m: Message): Checked<NodeState> {
      match m.mtype
      case MsgVote => Ok(HandleVote(m))
      case MsgVoteResp => HandleVoteResp(m)
      case MsgApp => HandleApp(m)
      case MsgAppResp => HandleAppResp(m)
      case MsgTimeoutNow => if id in voters then StartElection() else Ok(this)
      case _ => Ok(this)
    }

    function TakeReady(): Checked<(NodeState, Ready)> {
      var hard := if Hard() != prevHard then Some(Hard()) else None;
      var ents :- if log.LastIndex() > stabled then log.Slice(stabled + 1, log.LastIndex() + 1) else Ok([]);
      var applyTo := Min(log.committed, stabled);
      var done :- if applyTo > log.applied then log.Slice(log.applied + 1, applyTo + 1) else Ok([]);
      Ok((this.(msgs := []), Ready(hard, ents, done, msgs)))
    }

    /** The drained hard state and entries are durable; that may complete a quorum. */
    ghost function Persisted(rd: Ready): Checked<NodeState> {
      var n := if rd.hardState.Some? then this.(prevHard := rd.hardState.value) else this;
      if rd.entries == [] then
        Ok(n)
      else
        var (a, _) :- n.(stabled := rd.entries[|rd.entries| - 1].index).MaybeCommit();
        Ok(a)
    }

    ghost function Advance(rd: Ready): Checked<NodeState> {
      var n :- Persisted(rd);
      if rd.committedEntries == [] then
        Ok(n)
      else
        var l :- n.log.AppliedTo(rd.committedEntries[|rd.committedEntries| - 1].index);
        Ok(n.(log := l))
    }

    function CompactTo(index: nat): Checked<NodeState> {
      var l :- log.CompactTo(index);
      Ok(this.(log := l))
    }
  }

  /** Rebuilds a node from its durable record; a fresh node recovers nothing. */
  function Restore(id: Id, peers: seq<Id>, rec: Recovered, appliedIndex: nat): Checked<NodeState> {
    if id !in peers then
      Panic
    else
      var l0 := if rec.snapIndex > 0 then Log([], rec.snapIndex, rec.snapTerm, rec.snapIndex, rec.snapIndex) else EMPTY_LOG;
      var l1 :- l0.Append(rec.entries);
      var l2 :- l1.CommitTo(rec.hard.commit);
      if appliedIndex > l2.committed || appliedIndex < rec.snapIndex then
        Panic
      else
        Ok(NodeState(id, (set p | p in peers), peers, Follower, rec.hard.term, rec.hard.vote, 0, 0,
                     l2.(applied := appliedIndex), {}, {}, map[], map[], [], l2.LastIndex(),
                     HardState(rec.hard.term, rec.hard.vote, l2.committed)))
  }
}
