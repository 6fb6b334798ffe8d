/** The node as the program keeps it: an object whose handlers update its fields
    in place. Each handler is proved to do what the state function of the same
    name in RaftState says, panics included; the calls its owner makes moreover
    keep a node that a history of the group explains explained by a grown one. */
module RaftObject {
  import opened Common
  import opened RaftTypes
  import opened RaftLog
  import opened RaftState
  import H = RaftHistory
  import I = RaftInvariant
  import Steps = RaftSteps

  // --------------------------------------------- the quorum-th largest match

  function AtLeast(s: seq<nat>, c: nat): nat {
    if s == [] then 0 else (if s[0] >= c then 1 else 0) + AtLeast(s[1..], c)
  }

  predicate Descending(s: seq<nat>) {
    forall i, j | 0 <= i < j < |s| :: s[i] >= s[j]
  }

  lemma {:induction false} AtLeastConcat(a: seq<nat>, b: seq<nat>, c: nat)
    ensures AtLeast(a + b, c) == AtLeast(a, c) + AtLeast(b, c)
  {
    if a == [] {
      assert a + b == b;
    } else {
      assert (a + b)[1..] == a[1..] + b;
      AtLeastConcat(a[1..], b, c);
    }
  }

  /** In a descending list, the `q`-th element is at least `c` exactly when `q` elements are. */
  lemma {:induction false} DescendingRank(s: seq<nat>, q: nat, c: nat)
    requires Descending(s) && 0 < q <= |s|
    ensures s[q - 1] >= c <==> AtLeast(s, c) >= q
  {
    if s[0] < c {
      NoneAtLeast(s, c);
    } else if q > 1 {
      DescendingRank(s[1..], q - 1, c);
    }
  }

  lemma {:induction false} NoneAtLeast(s: seq<nat>, c: nat)
    requires forall i | 0 <= i < |s| :: s[i] < c
    ensures AtLeast(s, c) == 0
  {
    if s != [] {
      NoneAtLeast(s[1..], c);
    }
  }

  lemma {:induction false} InsertCount(a: seq<nat>, b: seq<nat>, x: nat, c: nat)
    ensures AtLeast(a + [x] + b, c) == AtLeast(a + b, c) + AtLeast([x], c)
  {
    AtLeastConcat(a, b, c);
    AtLeastConcat(a + [x], b, c);
    AtLeastConcat(a, [x], c);
  }

  lemma InsertSorted(s: seq<nat>, k: nat, x: nat)
    requires Descending(s) && k <= |s| && (k == 0 || s[k - 1] >= x) && (k == |s| || s[k] <= x)
    ensures Descending(s[..k] + [x] + s[k..])
  {
    var r := s[..k] + [x] + s[k..];
    forall i, j | 0 <= i < j < |r|
      ensures r[i] >= r[j]
    {
      assert r[i] == if i < k then s[i] else if i == k then x else s[i - 1];
      assert r[j] == if j < k then s[j] else if j == k then x else s[j - 1];
    }
  }

  method InsertDescending(s: seq<nat>, x: nat) returns (r: seq<nat>)
    requires Descending(s)
    ensures Descending(r) && |r| == |s| + 1
    ensures forall c :: AtLeast(r, c) == AtLeast(s, c) + AtLeast([x], c)
  {
    var k := |s|;
    while k > 0 && s[k - 1] < x
      invariant 0 <= k <= |s|
      invariant k == |s| || s[k] < x
    {
      k := k - 1;
    }
    r := s[..k] + [x] + s[k..];
    InsertSorted(s, k, x);
    hide Descending;
    assert s[..k] + s[k..] == s;
    forall c: nat
      ensures AtLeast(r, c) == AtLeast(s, c) + AtLeast([x], c)
    {
      InsertCount(s[..k], s[k..], x, c);
    }
  }

  method SortDescending(s: seq<nat>) returns (r: seq<nat>)
    ensures Descending(r) && |r| == |s|
    ensures forall c :: AtLeast(r, c) == AtLeast(s, c)
  {
    r := [];
    for i := 0 to |s|
      invariant Descending(r) && |r| == i
      invariant forall c :: AtLeast(r, c) == AtLeast(s[..i], c)
    {
      r := InsertDescending(r, s[i]);
      assert s[..i + 1] == s[..i] + [s[i]];
      forall c: nat
        ensures AtLeast(s[..i + 1], c) == AtLeast(s[..i], c) + AtLeast([s[i]], c)
      {
        AtLeastConcat(s[..i], [s[i]], c);
      }
    }
    assert s[..|s|] == s;
  }

  lemma SupportersSplit(matched: map<Id, nat>, done: set<Id>, p: Id, c: nat)
    requires p !in done
    ensures |Supporters(matched, done + {p}, c)|
            == |Supporters(matched, done, c)| + (if CountOf(matched, p) >= c then 1 else 0)
  {
    if CountOf(matched, p) >= c {
      assert Supporters(matched, done + {p}, c) == Supporters(matched, done, c) + {p};
    } else {
      assert Supporters(matched, done + {p}, c) == Supporters(matched, done, c);
    }
  }

  /** Sorts the members' match indexes and reads off the quorum-th. */
  method QuorumMatch(matched: map<Id, nat>, voters: set<Id>, q: nat) returns (c: nat)
    requires 0 < q <= |voters|
    ensures IsQuorumIndex(matched, voters, q, c)
  {
    var matches: seq<nat> := [];
    var rest := voters;
    while rest != {}
      invariant rest <= voters && |matches| == |voters| - |rest|
      invariant forall k :: AtLeast(matches, k) == |Supporters(matched, voters - rest, k)|
      decreases rest
    {
      var p :| p in rest;
      var was := matches;
      matches := matches + [CountOf(matched, p)];
      forall k: nat
        ensures AtLeast(matches, k) == |Supporters(matched, voters - (rest - {p}), k)|
      {
        AtLeastConcat(was, [CountOf(matched, p)], k);
        assert voters - (rest - {p}) == (voters - rest) + {p};
        SupportersSplit(matched, voters - rest, p, k);
      }
      rest := rest - {p};
    }
    assert voters - rest == voters;
    matches := SortDescending(matches);
    c := matches[q - 1];
    DescendingRank(matches, q, c);
    DescendingRank(matches, q, c + 1);
  }

  // ------------------------------------------------------------- the node

  /** A history of the group explains the node's state. */
  ghost predicate Sound(h: H.History, s: NodeState) {
    H.Inv(h) && I.NodeOk(s, h)
  }

  class Node {
    const id: Id
    const peers: seq<Id>
    const log: LogObject
    var voters: set<Id>
    var role: Role
    var term: nat
    var vote: Id
    var lead: Id
    var transferee: Id
    var votes: set<Id>
    var preVotes: set<Id>
    var next: map<Id, nat>
    var matched: map<Id, nat>
    var msgs: seq<Message>
    var stabled: nat
    var prevHard: HardState

    ghost predicate Valid()
      reads this, log
    {
      log.Valid()
    }

    ghost function State(): NodeState
      reads this, log
    {
      NodeState(id, voters, peers, role, term, vote, lead, transferee, log.Value(), votes, preVotes,
                next, matched, msgs, stabled, prevHard)
    }

    /** A node with nothing to recover: a follower at term 0. */
    constructor (id: Id, peers: seq<Id>)
      requires id in peers
      ensures Valid() && fresh(log)
      ensures Restore(id, peers, NO_STATE, 0) == Ok(State())
    {
      this.id := id;
      this.peers := peers;
      log := new LogObject();
      voters := set p | p in peers;
      role, term, vote, lead, transferee := Follower, 0, 0, 0, 0;
      votes, preVotes, next, matched, msgs := {}, {}, map[], map[], [];
      stabled, prevHard := 0, HardState(0, 0, 0);
    }

    method Quorum() returns (q: nat)
      ensures q == State().Quorum()
    {
      q := |voters| / 2 + 1;
    }

    method Send(m: Message)
      requires Valid()
      modifies this
      ensures Valid() && State() == old(State()).Send(m)
    {
      msgs := msgs + [m.(from := id, term := if m.term == 0 then term else m.term)];
    }

    method Reset(t: nat) returns (r: Outcome)
      requires Valid()
      modifies this
      ensures r.Panicked? <==> old(State()).Reset(t).Panic?
      ensures r.Done? ==> Valid() && State() == old(State()).Reset(t).value
    {
      if t < term {
        return Panicked;
      }
      if t > term {
        term := t;
        vote := 0;
      }
      lead := 0;
      votes := {};
      preVotes := {};
      return Done;
    }

    method BecomeFollower(t: nat, leader: Id) returns (r: Outcome)
      requires Valid()
      modifies this
      ensures r.Panicked? <==> old(State()).BecomeFollower(t, leader).Panic?
      ensures r.Done? ==> Valid() && State() == old(State()).BecomeFollower(t, leader).value
    {
      r := Done;
      :- Reset(t);
      role := Follower;
      lead := leader;
      return Done;
    }

    method BecomeCandidate() returns (r: Outcome)
      requires Valid()
      modifies this
      ensures r.Panicked? <==> old(State()).BecomeCandidate().Panic?
      ensures r.Done? ==> Valid() && State() == old(State()).BecomeCandidate().value
    {
      if role == Leader {
        return Panicked;
      }
      r := Reset(term + 1);
      role := Candidate;
      vote := id;
      votes := votes + {id};
    }

    method BecomePreCandidate() returns (r: Outcome)
      requires Valid()
      modifies this
      ensures r.Panicked? <==> old(State()).BecomePreCandidate().Panic?
      ensures r.Done? ==> Valid() && State() == old(State()).BecomePreCandidate().value
    {
      if role == Leader {
        return Panicked;
      }
      role := Candidate;
      lead := 0;
      preVotes := {id};
      return Done;
    }

    method MaybeCommit() returns (r: Outcome, advanced: bool)
      requires Valid()
      modifies this, log
      ensures r.Panicked? <==> old(State()).MaybeCommit().Panic?
      ensures r.Done? ==> Valid() && (State(), advanced) == old(State()).MaybeCommit().value
    {
      advanced := false;
      if role != Leader {
        return Done, false;
      }
      if |voters| == 0 { // no match to index
        return Panicked, false;
      }
      var last := log.LastIndex();
      matched := matched[id := Min(stabled, last)];
      var q := Quorum();
      var candidate := QuorumMatch(matched, voters, q);
      QuorumIndexUnique(matched, voters, q, candidate, QuorumIndex(matched, voters, q));
      if candidate <= log.committed {
        return Done, false;
      }
      var t := log.Term(candidate);
      if t != Some(term) {
        return Done, false;
      }
      r := log.CommitTo(candidate);
      advanced := true;
    }

    method SendAppend(to: Id) returns (r: Outcome)
      requires Valid()
      modifies this
      ensures r.Panicked? <==> old(State()).SendAppend(to).Panic?
      ensures r.Done? ==> Valid() && State() == old(State()).SendAppend(to).value
    {
      var nx := CountOf(next, to);
      var prevIndex := Predecessor(nx);
      var prevTerm := log.Term(prevIndex);
      if prevTerm.None? {
        Send(Plain(MsgSnap, to).(logIndex := log.snapIndex, logTerm := log.snapTerm));
        next := next[to := log.snapIndex + 1];
        return Done;
      }
      var last := log.LastIndex();
      var ents := log.Slice(nx, last + 1);
      if ents.Panic? {
        return Panicked;
      }
      Send(Plain(MsgApp, to).(logIndex := prevIndex, logTerm := prevTerm.value, entries := ents.value,
                              commit := Min(log.committed, prevIndex + |ents.value|)));
      return Done;
    }

    method BcastAppend() returns (r: Outcome)
      requires Valid()
      modifies this
      ensures r.Panicked? <==> old(State()).BcastAppend().Panic?
      ensures r.Done? ==> Valid() && State() == old(State()).BcastAppend().value
    {
      var i := 0;
      while i < |peers|
        invariant 0 <= i <= |peers| && Valid()
        invariant old(State()).BcastAppendTo(peers) == State().BcastAppendTo(peers[i..])
      {
        assert peers[i..][1..] == peers[i + 1..];
        if peers[i] != id {
          r := SendAppend(peers[i]);
          if r.Panicked? {
            return;
          }
        }
        i := i + 1;
      }
      return Done;
    }

    method BcastVote(mtype: MessageType, t: nat)
      requires Valid()
      modifies this
      ensures Valid() && State() == old(State()).BcastVoteTo(mtype, t, peers)
    {
      var i := 0;
      while i < |peers|
        invariant 0 <= i <= |peers| && Valid()
        invariant old(State()).BcastVoteTo(mtype, t, peers) == State().BcastVoteTo(mtype, t, peers[i..])
      {
        assert peers[i..][1..] == peers[i + 1..];
        if peers[i] != id {
          var last := log.LastIndex();
          var lastTerm := log.Term(last);
          Send(Plain(mtype, peers[i]).(term := t, logIndex := last, logTerm := lastTerm.value));
        }
        i := i + 1;
      }
    }

    method BecomeLeader() returns (r: Outcome)
      requires Valid()
      modifies this, log
      ensures r.Panicked? <==> old(State()).BecomeLeader().Panic?
      ensures r.Done? ==> Valid() && State() == old(State()).BecomeLeader().value
    {
      hide NodeState.MaybeCommit, NodeState.BcastAppendTo, Uniform;
      if role != Candidate {
        return Panicked;
      }
      role := Leader;
      lead := id;
      transferee := 0;
      var last := log.LastIndex();
      next := Uniform(peers, last + 1);
      matched := Uniform(peers, 0);
      r := log.Append([Entry(ENTRY_NORMAL, last + 1, term, [])]);
      var advanced;
      r, advanced := MaybeCommit();
      if r.Panicked? {
        return;
      }
      r := BcastAppend();
    }

    method StartElection() returns (r: Outcome)
      requires Valid()
      modifies this, log
      ensures r.Panicked? <==> old(State()).StartElection().Panic?
      ensures r.Done? ==> Valid() && State() == old(State()).StartElection().value
    {
      r := Done;
      :- BecomeCandidate();
      var q := Quorum();
      if |votes| >= q {
        r := BecomeLeader();
        return;
      }
      BcastVote(MsgVote, term);
      return Done;
    }

    /** Opens a PreVote round; a follower or candidate never panics. */
    method Campaign(ghost h: H.History) returns (r: Outcome, ghost k: H.History)
      requires Valid()
      modifies this, log
      ensures r.Panicked? <==> old(State()).Campaign().Panic?
      ensures r.Done? ==> Valid() && State() == old(State()).Campaign().value
      ensures Sound(h, old(State())) && old(role) != Leader ==>
                r.Done? && Sound(k, State()) && I.Moved(h, k, old(State()), State())
    {
      hide Sound, I.Moved, NodeState.Campaign;
      k := h;
      ghost var s := State();
      if Sound(h, s) && role != Leader {
        k := SoundCampaign(h, s);
      }
      r := PreVoteRound();
    }

    method PreVoteRound() returns (r: Outcome)
      requires Valid()
      modifies this, log
      ensures r.Panicked? <==> old(State()).Campaign().Panic?
      ensures r.Done? ==> Valid() && State() == old(State()).Campaign().value
    {
      if id !in voters {
        return Done;
      }
      :- BecomePreCandidate();
      var q := Quorum();
      if |preVotes| >= q {
        r := StartElection();
        return;
      }
      BcastVote(MsgPreVote, term + 1);
      return Done;
    }

    method TransferLeader(target: Id) returns (r: Outcome, started: bool)
      requires Valid()
      modifies this
      ensures r.Panicked? <==> old(State()).TransferLeader(target).Panic?
      ensures r.Done? ==> Valid() && (State(), started) == old(State()).TransferLeader(target).value
    {
      if role != Leader || target == id || target !in voters {
        return Done, false;
      }
      transferee := target;
      started := true;
      var last := log.LastIndex();
      if CountOf(matched, target) >= last {
        Send(Plain(MsgTimeoutNow, target));
        r := Done;
      } else {
        r := SendAppend(target);
      }
    }

    /** Proposed payloads as entries of this term, numbered from `first`. */
    method Stamp(payloads: seq<Entry>, first: nat) returns (ents: seq<Entry>)
      ensures ents == Stamped(payloads, first, term)
    {
      ents := [];
      for i := 0 to |payloads|
        invariant ents == Stamped(payloads, first, term)[..i]
      {
        ents := ents + [Entry(ENTRY_NORMAL, first + i, term, payloads[i].data)];
      }
    }

    method HandlePropose(m: Message) returns (r: Outcome, notLeader: bool)
      requires Valid()
      modifies this, log
      ensures notLeader <==> old(role) != Leader || old(transferee) != 0
      ensures r.Panicked? <==> old(State()).HandlePropose(m).Panic?
      ensures r.Done? ==> Valid() && State() == old(State()).HandlePropose(m).value
    {
      hide NodeState.MaybeCommit, NodeState.BcastAppendTo, Stamped;
      if role != Leader {
        return Done, true;
      }
      if transferee != 0 {
        return Done, true;
      }
      notLeader := false;
      var last := log.LastIndex();
      var ents := Stamp(m.entries, last + 1);
      r := log.Append(ents);
      if r.Panicked? {
        return;
      }
      var advanced;
      r, advanced := MaybeCommit();
      if r.Panicked? {
        return;
      }
      r := BcastAppend();
    }

    method HandlePreVote(m: Message)
      requires Valid()
      modifies this
      ensures Valid() && State() == old(State()).HandlePreVote(m)
    {
      var upToDate := log.IsUpToDate(m.logIndex, m.logTerm);
      var grant := m.term > term && upToDate;
      Send(Plain(MsgPreVoteResp, m.from).(term := m.term, reject := !grant));
    }

    method HandlePreVoteResp(m: Message) returns (r: Outcome)
      requires Valid()
      modifies this, log
      ensures r.Panicked? <==> old(State()).HandlePreVoteResp(m).Panic?
      ensures r.Done? ==> Valid() && State() == old(State()).HandlePreVoteResp(m).value
    {
      if role != Candidate || |votes| > 0 {
        return Done;
      }
      if !m.reject && m.from in voters {
        preVotes := preVotes + {m.from};
      }
      var q := Quorum();
      if |preVotes| >= q {
        r := StartElection();
        return;
      }
      return Done;
    }

    method HandleVote(m: Message)
      requires Valid()
      modifies this
      ensures Valid() && State() == old(State()).HandleVote(m)
    {
      var upToDate := log.IsUpToDate(m.logIndex, m.logTerm);
      var grant := (vote == 0 || vote == m.from) && upToDate;
      if grant {
        vote := m.from;
      }
      Send(Plain(MsgVoteResp, m.from).(reject := !grant));
    }

    method HandleVoteResp(m: Message) returns (r: Outcome)
      requires Valid()
      modifies this, log
      ensures r.Panicked? <==> old(State()).HandleVoteResp(m).Panic?
      ensures r.Done? ==> Valid() && State() == old(State()).HandleVoteResp(m).value
    {
      if role != Candidate {
        return Done;
      }
      if !m.reject && m.from in voters {
        votes := votes + {m.from};
      }
      var q := Quorum();
      if |votes| >= q {
        r := BecomeLeader();
        return;
      }
      return Done;
    }

    method HandleApp(m: Message) returns (r: Outcome)
      requires Valid()
      modifies this, log
      ensures r.Panicked? <==> old(State()).HandleApp(m).Panic?
      ensures r.Done? ==> Valid() && State() == old(State()).HandleApp(m).value
    {
      role := Follower;
      lead := m.from;
      var lastNew;
      r, lastNew := log.MaybeAppend(m.logIndex, m.logTerm, m.commit, m.entries);
      if r.Panicked? {
        return;
      }
      if lastNew.None? {
        var last := log.LastIndex();
        var hint := last + 1;
        if m.logIndex < hint {
          hint := m.logIndex;
        }
        Send(Plain(MsgAppResp, m.from).(reject := true, logIndex := hint));
        return Done;
      }
      Send(Plain(MsgAppResp, m.from).(logIndex := lastNew.value));
      return Done;
    }

    method Acknowledged(from: Id, index: nat) returns (r: Outcome)
      requires Valid()
      modifies this, log
      ensures r.Panicked? <==> old(State()).Acknowledged(from, index).Panic?
      ensures r.Done? ==> Valid() && State() == old(State()).Acknowledged(from, index).value
    {
      matched := matched[from := index];
      next := next[from := index + 1];
      var advanced;
      r, advanced := MaybeCommit();
      if r.Done? && advanced {
        r := BcastAppend();
      }
    }

    method HandleAppResp(m: Message) returns (r: Outcome)
      requires Valid()
      modifies this, log
      ensures r.Panicked? <==> old(State()).HandleAppResp(m).Panic?
      ensures r.Done? ==> Valid() && State() == old(State()).HandleAppResp(m).value
    {
      if role != Leader {
        return Done;
      }
      if m.reject {
        if m.logIndex < CountOf(next, m.from) {
          next := next[m.from := Max(m.logIndex, 1)];
        }
        r := SendAppend(m.from);
        return;
      }
      if m.logIndex >= CountOf(matched, m.from) {
        if m.logIndex > CountOf(matched, m.from) {
          :- Acknowledged(m.from, m.logIndex);
        }
        var last := log.LastIndex();
        if transferee == m.from && CountOf(matched, m.from) >= last {
          Send(Plain(MsgTimeoutNow, m.from));
        }
      }
      return Done;
    }

    method StepInTerm(m: Message) returns (r: Outcome)
      requires Valid()
      modifies this, log
      ensures r.Panicked? <==> old(State()).StepInTerm(m).Panic?
      ensures r.Done? ==> Valid() && State() == old(State()).StepInTerm(m).value
    {
      r := Done;
      match m.mtype {
        case MsgVote => HandleVote(m);
        case MsgVoteResp => r := HandleVoteResp(m);
        case MsgApp => r := HandleApp(m);
        case MsgAppResp => r := HandleAppResp(m);
        case MsgTimeoutNow =>
          if id in voters {
            r := StartElection();
          }
        case _ =>
      }
    }

    /** Feeds one message into the state machine: under a history that explains the
        node and the message there is no panic, and what was committed stays in place. */
    method Step(m: Message, ghost h: H.History) returns (r: Outcome, notLeader: bool, ghost k: H.History)
      requires Valid()
      modifies this, log
      ensures notLeader <==> m.mtype.MsgProp? && (old(role) != Leader || old(transferee) != 0)
      ensures r.Panicked? <==> old(State()).Step(m).Panic?
      ensures r.Done? ==> Valid() && State() == old(State()).Step(m).value
      ensures Sound(h, old(State())) && I.MsgOk(h, m) && m.to == id ==>
                r.Done? && Sound(k, State()) && I.Moved(h, k, old(State()), State())
    {
      hide Sound, I.MsgOk, I.Moved, NodeState.Step;
      k := h;
      ghost var s := State();
      if Sound(h, s) && I.MsgOk(h, m) && m.to == id {
        k := SoundStep(h, s, m);
      }
      r, notLeader := Dispatch(m);
    }

    method Dispatch(m: Message) returns (r: Outcome, notLeader: bool)
      requires Valid()
      modifies this, log
      ensures notLeader <==> m.mtype.MsgProp? && (old(role) != Leader || old(transferee) != 0)
      ensures r.Panicked? <==> old(State()).Step(m).Panic?
      ensures r.Done? ==> Valid() && State() == old(State()).Step(m).value
    {
      r, notLeader := Done, false;
      if m.mtype == MsgProp {
        r, notLeader := HandlePropose(m);
        return;
      }
      if m.mtype == MsgPreVote {
        HandlePreVote(m);
        return;
      }
      if m.mtype == MsgPreVoteResp {
        r := HandlePreVoteResp(m);
        return;
      }
      if m.term > term {
        r := BecomeFollower(m.term, if m.mtype == MsgApp then m.from else 0);
        if r.Panicked? {
          return;
        }
      } else if m.term < term {
        if m.mtype == MsgVote {
          Send(Plain(MsgVoteResp, m.from).(reject := true));
        }
        return;
      }
      r := StepInTerm(m);
    }

    /** Drains the pending effects: of an explained node, the unsaved tail of its whole
        log and the stable committed entries not yet applied. */
    method TakeReady(ghost h: H.History) returns (r: Outcome, rd: Ready)
      requires Valid()
      modifies this
      ensures r.Panicked? <==> old(State()).TakeReady().Panic?
      ensures r.Done? ==> Valid() && (State(), rd) == old(State()).TakeReady().value
      ensures Sound(h, old(State())) ==>
                && r.Done? && Sound(h, State()) && id in h.log
                && var l, applyTo := h.log[id], Min(old(log.committed), stabled);
                   && old(log.applied) <= applyTo <= |l| && rd.committedEntries == l[old(log.applied)..applyTo]
                   && rd.entries == (if |l| > stabled then l[stabled..] else [])
    {
      hide Sound, NodeState.TakeReady;
      if Sound(h, State()) {
        SoundReady(h, State());
      }
      r, rd := Drain();
    }

    method Drain() returns (r: Outcome, rd: Ready)
      requires Valid()
      modifies this
      ensures r.Panicked? <==> old(State()).TakeReady().Panic?
      ensures r.Done? ==> Valid() && (State(), rd) == old(State()).TakeReady().value
    {
      rd := Ready.Ready(None, [], [], msgs);
      var hard := HardState(term, vote, log.committed);
      if hard != prevHard {
        rd := rd.(hardState := Some(hard));
      }
      var last := log.LastIndex();
      if last > stabled {
        var ents := log.Slice(stabled + 1, last + 1);
        if ents.Panic? {
          return Panicked, rd;
        }
        rd := rd.(entries := ents.value);
      }
      var applyTo := Min(log.committed, stabled);
      if applyTo > log.applied {
        var done := log.Slice(log.applied + 1, applyTo + 1);
        if done.Panic? {
          return Panicked, rd;
        }
        rd := rd.(committedEntries := done.value);
      }
      msgs := [];
      return Done, rd;
    }

    /** Acknowledges a drained Ready; `was` is the state it was drained from. */
    method Advance(rd: Ready, ghost h: H.History, ghost was: NodeState) returns (r: Outcome)
      requires Valid()
      modifies this, log
      ensures r.Panicked? <==> old(State()).Advance(rd).Panic?
      ensures r.Done? ==> Valid() && State() == old(State()).Advance(rd).value
      ensures Sound(h, was) && was.TakeReady() == Ok((old(State()), rd)) ==>
                r.Done? && Sound(h, State()) && log.applied == was.log.applied + |rd.committedEntries|
    {
      hide Sound, NodeState.TakeReady, NodeState.Advance;
      if Sound(h, was) && was.TakeReady() == Ok((State(), rd)) {
        SoundAdvance(h, was);
      }
      r := Settle(rd);
    }

    method Settle(rd: Ready) returns (r: Outcome)
      requires Valid()
      modifies this, log
      ensures r.Panicked? <==> old(State()).Advance(rd).Panic?
      ensures r.Done? ==> Valid() && State() == old(State()).Advance(rd).value
    {
      if rd.hardState.Some? {
        prevHard := rd.hardState.value;
      }
      if |rd.entries| > 0 {
        stabled := rd.entries[|rd.entries| - 1].index;
        var advanced;
        r, advanced := MaybeCommit();
        if r.Panicked? {
          return;
        }
      }
      if |rd.committedEntries| > 0 {
        r := log.AppliedTo(rd.committedEntries[|rd.committedEntries| - 1].index);
        return;
      }
      return Done;
    }

    /** Compaction up to the applied index never panics and leaves the same whole log. */
    method CompactTo(index: nat, ghost h: H.History) returns (r: Outcome)
      requires Valid()
      modifies log
      ensures r.Panicked? <==> old(State()).CompactTo(index).Panic?
      ensures r.Done? ==> Valid() && State() == old(State()).CompactTo(index).value
      ensures Sound(h, old(State())) && index <= old(log.applied) ==>
                r.Done? && Sound(h, State()) && I.Moved(h, h, old(State()), State())
    {
      hide Sound, I.Moved;
      if Sound(h, State()) && index <= log.applied {
        SoundCompact(h, State(), index);
      }
      r := log.CompactTo(index);
    }
  }

  // ------------------------------------------------ the calls of an owner, sound

  lemma SoundStep(h: H.History, s: NodeState, m: Message) returns (k: H.History)
    requires Sound(h, s) && I.MsgOk(h, m) && m.to == s.id
    ensures s.Step(m).Ok? && Sound(k, s.Step(m).value) && I.Moved(h, k, s, s.Step(m).value)
  {
    hide H.Inv, I.NodeOk, I.MsgOk, I.Moved, NodeState.Step;
    k := Steps.StepOk(h, s, m);
  }

  lemma SoundCampaign(h: H.History, s: NodeState) returns (k: H.History)
    requires Sound(h, s) && s.role != Leader
    ensures s.Campaign().Ok? && Sound(k, s.Campaign().value) && I.Moved(h, k, s, s.Campaign().value)
  {
    hide H.Inv, I.NodeOk, I.Moved, NodeState.Campaign;
    k := Steps.CampaignOk(h, s);
  }

  lemma SoundReady(h: H.History, s: NodeState)
    requires Sound(h, s)
    ensures s.TakeReady().Ok? && Sound(h, s.TakeReady().value.0) && s.id in h.log
    ensures var rd, l, applyTo := s.TakeReady().value.1, h.log[s.id], Min(s.log.committed, s.stabled);
            && s.TakeReady().value.0 == s.(msgs := [])
            && s.log.applied <= applyTo <= |l| && rd.committedEntries == l[s.log.applied..applyTo]
            && rd.entries == (if |l| > s.stabled then l[s.stabled..] else [])
  {
    hide H.Inv, I.LogPart, I.VotePart, I.LeadPart, I.MsgPart, NodeState.TakeReady;
    Steps.TakeReadyOk(h, s);
  }

  lemma SoundAdvance(h: H.History, s: NodeState)
    requires Sound(h, s) && s.TakeReady().Ok?
    ensures var (n, rd) := s.TakeReady().value; var r := n.Advance(rd);
            r.Ok? && Sound(h, r.value) && r.value.log.applied == s.log.applied + |rd.committedEntries|
  {
    hide H.Inv, I.NodeOk, NodeState.TakeReady, NodeState.Advance;
    Steps.AdvanceOk(h, s);
  }

  lemma SoundCompact(h: H.History, s: NodeState, i: nat)
    requires Sound(h, s) && i <= s.log.applied
    ensures s.CompactTo(i).Ok? && Sound(h, s.CompactTo(i).value) && I.Moved(h, h, s, s.CompactTo(i).value)
  {
    hide H.Inv, I.NodeOk, I.Moved, NodeState.CompactTo;
    Steps.CompactOk(h, s, i);
  }
}
