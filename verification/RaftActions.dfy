/** The six ways a history grows, and why each keeps the invariant. */
module RaftActions {
  import opened Common
  import opened RaftTypes
  import opened RaftHistory

  // ------------------------------------------------------------ the actions

  /** `n` moves to a later term. */
  function Bump(h: History, n: Id, t: nat): History {
    h.(term := h.term[n := t])
  }

  /** `n` starts an election in the next term and votes for itself. */
  function Stand(h: History, n: Id): History
    requires n in h.term && n in h.log
  {
    var t := h.term[n] + 1;
    h.(term := h.term[n := t],
       camp := h.camp[(n, t) := h.log[n]],
       ballots := h.ballots[(n, t) := Ballot(n, h.log[n])])
  }

  /** `n` votes for `c` in its current term. */
  function Vote(h: History, n: Id, c: Id): History
    requires n in h.term && n in h.log
  {
    h.(ballots := h.ballots[(n, h.term[n]) := Ballot(c, h.log[n])])
  }

  /** `c` takes office in its current term. */
  function Elect(h: History, c: Id): History
    requires c in h.term && c in h.log
  {
    var t := h.term[c];
    h.(led := h.led[t := c], tlog := h.tlog[t := h.log[c]], ack := h.ack[(c, t) := |h.log[c]|])
  }

  /** The leader `c` appends entries of its term. */
  function Extend(h: History, c: Id, ents: EntryLog): History
    requires c in h.term && c in h.log
  {
    var t := h.term[c];
    var l := h.log[c] + ents;
    h.(log := h.log[c := l], tlog := h.tlog[t := l], ack := h.ack[(c, t) := |l|])
  }

  /** The log of a follower that accepted the leader's first `k` entries. */
  ghost function Adopted(mine: EntryLog, leaders: EntryLog, k: nat): EntryLog
    requires k <= |leaders|
  {
    if Agree(leaders, mine, k) then mine else leaders[..k]
  }

  /** `n` accepts and acknowledges the first `k` entries of its term's leader. */
  ghost function Accept(h: History, n: Id, k: nat): History
    requires n in h.term && n in h.log && h.term[n] in h.tlog && k <= |h.tlog[h.term[n]]|
  {
    var t := h.term[n];
    h.(log := h.log[n := Adopted(h.log[n], h.tlog[t], k)],
       ack := h.ack[(n, t) := Max(CountOf(h.ack, (n, t)), k)])
  }

  // --------------------------------------------------- carrying facts along

  lemma CampStays(h: History, k: History, n: Id, t: nat)
    requires Shape(h) && Shape(k) && Grows(h, k)
    requires (n, t) in h.camp && CampOk(h, n, t)
    ensures CampOk(k, n, t)
  {
    SourcedStays(h, k, h.camp[(n, t)]);
  }

  lemma BallotStays(h: History, k: History, n: Id, t: nat)
    requires Shape(h) && Shape(k) && Grows(h, k)
    requires (n, t) in h.ballots && BallotOk(h, n, t)
    ensures BallotOk(k, n, t)
  {
    SourcedStays(h, k, h.ballots[(n, t)].log);
  }

  lemma AckStays(h: History, k: History, n: Id, t: nat)
    requires Shape(h) && Shape(k) && Grows(h, k)
    requires (n, t) in h.ack && AckOk(h, n, t) && k.ack[(n, t)] == h.ack[(n, t)]
    ensures AckOk(k, n, t)
  {
  }

  lemma LeaderStays(h: History, k: History, t: nat)
    requires Shape(h) && Shape(k) && Grows(h, k)
    requires t in h.tlog && LeaderOk(h, t) && k.tlog[t] == h.tlog[t]
    ensures LeaderOk(k, t)
  {
    SourcedStays(h, k, h.tlog[t]);
    var q :| IsQuorum(h.voters, q) && VotedFor(h, q, t, h.led[t]);
    assert VotedFor(k, q, t, h.led[t]);
  }

  lemma KeptStays(h: History, k: History, n: Id, l: EntryLog, m: EntryLog, t: nat)
    requires Grows(h, k) && t in h.tlog && Kept(h, n, l, t) && Agree(l, m, |l|)
    requires CountOf(k.ack, (n, t)) == CountOf(h.ack, (n, t)) <= |h.tlog[t]|
    ensures Kept(k, n, m, t)
  {
    forall i: nat | Own(k, t, i) && i <= CountOf(k.ack, (n, t))
      ensures Dead(k, t, i) || Agree(k.tlog[t], m, i)
    {
      assert Own(h, t, i);
      if Dead(h, t, i) {
        DeadStays(h, k, t, i);
      }
    }
  }

  lemma CarriedStays(h: History, k: History, t: nat, u: nat)
    requires Grows(h, k) && t in h.tlog && u in h.tlog && Carried(h, t, u)
    requires k.tlog[t] == h.tlog[t]
    ensures Carried(k, t, u)
  {
    forall i: nat | Own(k, t, i)
      ensures Dead(k, t, i) || Agree(k.tlog[t], k.tlog[u], i)
    {
      assert Own(h, t, i);
      if Dead(h, t, i) {
        DeadStays(h, k, t, i);
      }
    }
  }

  lemma AckBound(h: History, n: Id, t: nat)
    requires Shape(h) && Records(h) && t in h.tlog
    ensures CountOf(h.ack, (n, t)) <= |h.tlog[t]|
  {
    if (n, t) in h.ack {
      assert AckOk(h, n, t);
    }
  }

  /** Growth that leaves every leader's log and every acknowledgement alone. */
  ghost predicate Quiet(h: History, k: History) {
    Grows(h, k) && k.tlog == h.tlog && k.ack == h.ack
  }

  lemma QuietCarries(h: History, k: History)
    requires Quiet(h, k) && LeadersCarry(h)
    ensures LeadersCarry(k)
  {
    forall t, u | t in k.tlog && u in k.tlog && t < u
      ensures Carried(k, t, u)
    {
      CarriedStays(h, k, t, u);
    }
  }

  lemma QuietKeeps(h: History, k: History)
    requires Quiet(h, k) && Shape(h) && Shape(k) && Records(h) && NodesKeep(h) && k.log == h.log
    ensures NodesKeep(k)
  {
    forall n, t | n in k.voters && t in k.tlog
      ensures Kept(k, n, k.log[n], t)
    {
      AckBound(h, n, t);
      KeptStays(h, k, n, h.log[n], h.log[n], t);
    }
  }

  lemma QuietBallotKeeps(h: History, k: History, n: Id, u: nat, t: nat)
    requires Quiet(h, k) && Shape(h) && Records(h) && BallotsKeep(h)
    requires (n, u) in h.ballots && t in k.tlog && t < u
    ensures Kept(k, n, k.ballots[(n, u)].log, t)
  {
    AckBound(h, n, t);
    KeptStays(h, k, n, h.ballots[(n, u)].log, h.ballots[(n, u)].log, t);
  }

  lemma QuietLogs(h: History, k: History)
    requires Quiet(h, k) && Shape(h) && Shape(k) && LogsSourced(h) && k.log == h.log
    ensures LogsSourced(k)
  {
    forall n | n in k.voters
      ensures Sourced(k, k.log[n])
    {
      SourcedStays(h, k, h.log[n]);
    }
  }

  lemma QuietRecords(h: History, k: History)
    requires Quiet(h, k) && Shape(h) && Shape(k) && Records(h)
    requires forall n, t | (n, t) in k.camp && (n, t) !in h.camp :: CampOk(k, n, t)
    requires forall n, t | (n, t) in k.ballots && (n, t) !in h.ballots :: BallotOk(k, n, t)
    ensures Records(k)
  {
    hide CampOk, BallotOk, LeaderOk, AckOk, Grows;
    forall n, t | (n, t) in k.camp
      ensures CampOk(k, n, t)
    {
      if (n, t) in h.camp {
        CampStays(h, k, n, t);
      }
    }
    forall n, t | (n, t) in k.ballots
      ensures BallotOk(k, n, t)
    {
      if (n, t) in h.ballots {
        BallotStays(h, k, n, t);
      }
    }
    forall t | t in k.tlog
      ensures LeaderOk(k, t)
    {
      LeaderStays(h, k, t);
    }
    forall n, t | (n, t) in k.ack
      ensures AckOk(k, n, t)
    {
      AckStays(h, k, n, t);
    }
  }

  lemma QuietBallots(h: History, k: History)
    requires Quiet(h, k) && Shape(h) && Records(h) && BallotsKeep(h)
    requires forall n, u, t | (n, u) in k.ballots && (n, u) !in h.ballots && t in k.tlog && t < u ::
               Kept(k, n, k.ballots[(n, u)].log, t)
    ensures BallotsKeep(k)
  {
    hide Kept, Grows, CampOk, BallotOk, LeaderOk, AckOk;
    forall n, u, t | (n, u) in k.ballots && t in k.tlog && t < u
      ensures Kept(k, n, k.ballots[(n, u)].log, t)
    {
      if (n, u) in h.ballots {
        QuietBallotKeeps(h, k, n, u, t);
      }
    }
  }

  // ------------------------------------------------------- quiet actions

  lemma BumpKeeps(h: History, n: Id, t: nat)
    requires Inv(h) && n in h.voters && h.term[n] <= t
    ensures Inv(Bump(h, n, t)) && Grows(h, Bump(h, n, t))
  {
    hide Sourced, CampOk, BallotOk, LeaderOk, AckOk, Carried, Kept;
    var k := Bump(h, n, t);
    assert Quiet(h, k);
    hide Grows;
    QuietLogs(h, k);
    QuietRecords(h, k);
    QuietCarries(h, k);
    QuietKeeps(h, k);
    QuietBallots(h, k);
  }

  /** Nothing is recorded yet for a term the node has not reached. */
  lemma NoRecordAhead(h: History, n: Id, t: nat)
    requires Shape(h) && Records(h) && n in h.voters && h.term[n] < t
    ensures (n, t) !in h.camp && (n, t) !in h.ballots
  {
  }

  lemma StandKeeps(h: History, n: Id)
    requires Inv(h) && n in h.voters
    ensures Inv(Stand(h, n)) && Grows(h, Stand(h, n))
  {
    hide Sourced, LeaderOk, AckOk, Carried, Kept;
    var k := Stand(h, n);
    var t := h.term[n] + 1;
    NoRecordAhead(h, n, t);
    assert Quiet(h, k);
    hide Grows;
    QuietLogs(h, k);
    assert CampOk(k, n, t) && BallotOk(k, n, t);
    hide CampOk, BallotOk;
    QuietRecords(h, k);
    QuietCarries(h, k);
    QuietKeeps(h, k);
    assert forall v | v in k.tlog :: Kept(k, n, k.log[n], v);
    QuietBallots(h, k);
  }

  lemma VoteKeeps(h: History, n: Id, c: Id)
    requires Inv(h) && n in h.voters
    requires (n, h.term[n]) !in h.ballots
    requires (c, h.term[n]) in h.camp && UpToDate(h.camp[(c, h.term[n])], h.log[n])
    ensures Inv(Vote(h, n, c)) && Grows(h, Vote(h, n, c))
  {
    hide Sourced, CampOk, LeaderOk, AckOk, Carried, Kept;
    var k := Vote(h, n, c);
    assert Quiet(h, k);
    hide Grows;
    QuietLogs(h, k);
    assert BallotOk(k, n, h.term[n]);
    hide BallotOk;
    QuietRecords(h, k);
    QuietCarries(h, k);
    QuietKeeps(h, k);
    assert forall v | v in k.tlog :: Kept(k, n, k.log[n], v);
    QuietBallots(h, k);
  }

  // ------------------------------------------------------------- elections

  /** Terms never decrease along a sourced log. */
  lemma SourcedOrdered(h: History, l: EntryLog, i: nat)
    requires Shape(h) && Records(h) && Sourced(h, l) && 0 < i <= |l|
    ensures l[i - 1].term <= LastTerm(l)
  {
    var u := LastTerm(l);
    assert u == l[|l| - 1].term;
    assert Agree(l, h.tlog[u], |l| - 1 + 1);
    assert LeaderOk(h, u);
  }

  /** A log at least as up to date as one holding index `i` of term `t` holds it too. */
  lemma UpToDateCarries(h: History, cand: EntryLog, voter: EntryLog, t: nat, i: nat)
    requires Shape(h) && Records(h) && LeadersCarry(h)
    requires Sourced(h, cand) && Sourced(h, voter) && UpToDate(cand, voter)
    requires Own(h, t, i) && Agree(h.tlog[t], voter, i)
    ensures Dead(h, t, i) || Agree(h.tlog[t], cand, i)
  {
    hide CampOk, BallotOk, AckOk, Dead;
    SourcedOrdered(h, voter, i);
    var u := LastTerm(cand);
    assert |voter| > 0 && LastTerm(voter) == voter[|voter| - 1].term;
    assert u == cand[|cand| - 1].term;
    assert Agree(cand, h.tlog[u], |cand| - 1 + 1);
    if u == LastTerm(voter) {
      assert Agree(voter, h.tlog[u], |voter| - 1 + 1);
    } else {
      assert Carried(h, t, u);
      if !Dead(h, t, i) {
        assert Agree(h.tlog[t], h.tlog[u], i);
        assert LeaderOk(h, t);
        assert i <= |cand|;
      }
    }
  }

  /** Whatever may still be chosen is in the log of a candidate that a quorum voted for. */
  lemma WinnerCarries(h: History, c: Id, q: set<Id>, u: nat, t: nat, i: nat)
    requires Inv(h) && t < u && Own(h, t, i)
    requires (c, u) in h.camp && IsQuorum(h.voters, q) && VotedFor(h, q, u, c)
    ensures Dead(h, t, i) || Agree(h.tlog[t], h.camp[(c, u)], i)
  {
    hide Sourced, LeaderOk, AckOk, Carried;
    if n :| n in q && CountOf(h.ack, (n, t)) >= i {
      assert BallotOk(h, n, u) && CampOk(h, c, u);
      assert Kept(h, n, h.ballots[(n, u)].log, t);
      hide Kept, CampOk, BallotOk;
      if !Dead(h, t, i) {
        UpToDateCarries(h, h.camp[(c, u)], h.ballots[(n, u)].log, t, i);
      }
    } else {
      forall n | n in q
        ensures h.term[n] > t
      {
        assert BallotOk(h, n, u);
      }
      assert Behind(h, q, t, i);
    }
  }

  /** What `c` needs to take office in its current term. */
  ghost predicate CanLead(h: History, c: Id, q: set<Id>)
    requires Shape(h)
  {
    && c in h.voters
    && h.term[c] !in h.tlog
    && (c, h.term[c]) in h.camp
    && h.log[c] == h.camp[(c, h.term[c])]
    && IsQuorum(h.voters, q)
    && VotedFor(h, q, h.term[c], c)
  }

  /** A new leader has acknowledged nothing of its term and created nothing in it. */
  lemma NothingYet(h: History, c: Id, q: set<Id>)
    requires Inv(h) && CanLead(h, c, q)
    ensures forall i: nat :: !Own(Elect(h, c), h.term[c], i)
    ensures (c, h.term[c]) !in h.ack
  {
    hide Sourced, BallotOk, LeaderOk, LogsSourced, LeadersCarry, NodesKeep, BallotsKeep;
    assert CampOk(h, c, h.term[c]);
  }

  lemma ElectGrows(h: History, c: Id, q: set<Id>)
    requires Inv(h) && CanLead(h, c, q)
    ensures Shape(Elect(h, c)) && Grows(h, Elect(h, c))
    ensures forall i: nat :: !Own(Elect(h, c), h.term[c], i)
    ensures (c, h.term[c]) !in h.ack
  {
    hide Own, Records, LogsSourced, LeadersCarry, NodesKeep, BallotsKeep;
    NothingYet(h, c, q);
  }

  lemma ElectLogs(h: History, c: Id, q: set<Id>)
    requires Inv(h) && CanLead(h, c, q)
    ensures Shape(Elect(h, c)) && LogsSourced(Elect(h, c))
    ensures LeaderOk(Elect(h, c), h.term[c]) && AckOk(Elect(h, c), c, h.term[c])
  {
    hide Sourced, BallotOk, Carried, Kept;
    var k := Elect(h, c);
    var t := h.term[c];
    ElectGrows(h, c, q);
    hide Grows;
    assert CampOk(h, c, t);
    forall n | n in k.voters
      ensures Sourced(k, k.log[n])
    {
      SourcedStays(h, k, h.log[n]);
    }
    assert VotedFor(k, q, t, c);
  }

  lemma ElectRecords(h: History, c: Id, q: set<Id>)
    requires Inv(h) && CanLead(h, c, q)
    ensures Shape(Elect(h, c)) && Records(Elect(h, c))
  {
    hide Grows, Sourced, Carried, Kept, CampOk, BallotOk, LeaderOk, AckOk, LogsSourced, LeadersCarry, NodesKeep, BallotsKeep;
    var k := Elect(h, c);
    var t := h.term[c];
    ElectGrows(h, c, q);
    ElectLogs(h, c, q);
    forall n, u | (n, u) in k.camp
      ensures CampOk(k, n, u)
    {
      CampStays(h, k, n, u);
    }
    forall n, u | (n, u) in k.ballots
      ensures BallotOk(k, n, u)
    {
      BallotStays(h, k, n, u);
    }
    forall u | u in k.tlog
      ensures LeaderOk(k, u)
    {
      if u != t {
        LeaderStays(h, k, u);
      }
    }
    forall n, u | (n, u) in k.ack
      ensures AckOk(k, n, u)
    {
      if (n, u) != (c, t) {
        AckStays(h, k, n, u);
      }
    }
  }

  lemma ElectCarries(h: History, c: Id, q: set<Id>)
    requires Inv(h) && CanLead(h, c, q)
    ensures LeadersCarry(Elect(h, c))
  {
    hide Sourced, CampOk, BallotOk, LeaderOk, AckOk;
    var k := Elect(h, c);
    var w := h.term[c];
    ElectGrows(h, c, q);
    forall t, u | t in k.tlog && u in k.tlog && t < u
      ensures Carried(k, t, u)
    {
      if t == w {
      } else if u == w {
        forall i: nat | Own(k, t, i)
          ensures Dead(k, t, i) || Agree(k.tlog[t], k.tlog[u], i)
        {
          assert Own(h, t, i);
          WinnerCarries(h, c, q, w, t, i);
          if Dead(h, t, i) {
            DeadStays(h, k, t, i);
          }
        }
      } else {
        hide Carried;
        CarriedStays(h, k, t, u);
      }
    }
  }

  lemma ElectKept(h: History, c: Id, q: set<Id>, n: Id, l: EntryLog, t: nat)
    requires Inv(h) && CanLead(h, c, q)
    requires t in Elect(h, c).tlog && (t in h.tlog ==> Kept(h, n, l, t))
    ensures Kept(Elect(h, c), n, l, t)
  {
    hide Sourced, CampOk, BallotOk, LeaderOk, AckOk, Carried;
    ElectGrows(h, c, q);
    if t != h.term[c] {
      AckBound(h, n, t);
      hide Kept;
      KeptStays(h, Elect(h, c), n, l, l, t);
    }
  }

  lemma ElectNodes(h: History, c: Id, q: set<Id>)
    requires Inv(h) && CanLead(h, c, q)
    ensures Shape(Elect(h, c)) && NodesKeep(Elect(h, c)) && BallotsKeep(Elect(h, c))
  {
    hide CampOk, BallotOk, LeaderOk, AckOk, LogsSourced, Records, LeadersCarry, Kept;
    var k := Elect(h, c);
    forall n, t | n in k.voters && t in k.tlog
      ensures Kept(k, n, k.log[n], t)
    {
      ElectKept(h, c, q, n, h.log[n], t);
    }
    forall n, u, t | (n, u) in k.ballots && t in k.tlog && t < u
      ensures Kept(k, n, k.ballots[(n, u)].log, t)
    {
      ElectKept(h, c, q, n, h.ballots[(n, u)].log, t);
    }
  }

  lemma ElectKeeps(h: History, c: Id, q: set<Id>)
    requires Inv(h) && CanLead(h, c, q)
    ensures Inv(Elect(h, c)) && Grows(h, Elect(h, c))
  {
    hide Shape, LogsSourced, Records, LeadersCarry, NodesKeep, BallotsKeep, Grows, Elect, CanLead;
    ElectGrows(h, c, q);
    ElectLogs(h, c, q);
    ElectRecords(h, c, q);
    ElectCarries(h, c, q);
    ElectNodes(h, c, q);
  }

  // ----------------------------------------------------------- replication

  /** Entries a leader of term `t` may append to a log of length `len`. */
  ghost predicate Fresh(ents: EntryLog, len: nat, t: nat) {
    forall j | 0 <= j < |ents| :: ents[j].term == t && ents[j].index == len + j + 1
  }

  ghost predicate CanExtend(h: History, c: Id, ents: EntryLog)
    requires Shape(h)
  {
    && c in h.voters
    && h.term[c] in h.tlog
    && h.led[h.term[c]] == c
    && h.log[c] == h.tlog[h.term[c]]
    && Fresh(ents, |h.log[c]|, h.term[c])
  }

  lemma ExtendGrows(h: History, c: Id, ents: EntryLog)
    requires Inv(h) && CanExtend(h, c, ents)
    ensures Shape(Extend(h, c, ents)) && Grows(h, Extend(h, c, ents))
  {
    hide Sourced, CampOk, BallotOk, LeaderOk, Carried, Kept;
  }

  lemma ExtendSourced(h: History, c: Id, ents: EntryLog)
    requires Shape(h) && CanExtend(h, c, ents) && Sourced(h, h.log[c])
    requires Grows(h, Extend(h, c, ents))
    ensures Sourced(Extend(h, c, ents), Extend(h, c, ents).log[c])
  {
    var k := Extend(h, c, ents);
    SourcedStays(h, k, h.log[c]);
    forall i | 0 <= i < |k.log[c]|
      ensures k.log[c][i].term in k.tlog && Agree(k.log[c], k.tlog[k.log[c][i].term], i + 1) && k.log[c][i].index == i + 1
    {
      if i < |h.log[c]| {
        assert Agree(h.log[c], k.tlog[h.log[c][i].term], i + 1);
      }
    }
  }

  lemma ExtendLeader(h: History, c: Id, ents: EntryLog)
    requires Shape(h) && CanExtend(h, c, ents) && LeaderOk(h, h.term[c])
    requires Shape(Extend(h, c, ents)) && Grows(h, Extend(h, c, ents))
    ensures Sourced(Extend(h, c, ents), Extend(h, c, ents).log[c])
    ensures LeaderOk(Extend(h, c, ents), h.term[c]) && AckOk(Extend(h, c, ents), c, h.term[c])
  {
    hide Sourced, Grows;
    var k := Extend(h, c, ents);
    var t := h.term[c];
    ExtendSourced(h, c, ents);
    var q :| IsQuorum(h.voters, q) && VotedFor(h, q, t, c);
    assert VotedFor(k, q, t, c);
  }

  lemma ExtendLogs(h: History, c: Id, ents: EntryLog)
    requires Inv(h) && CanExtend(h, c, ents)
    ensures Shape(Extend(h, c, ents)) && LogsSourced(Extend(h, c, ents))
  {
    hide Sourced, CampOk, BallotOk, LeaderOk, AckOk, LeadersCarry, NodesKeep, BallotsKeep, Grows;
    var k := Extend(h, c, ents);
    ExtendGrows(h, c, ents);
    assert LeaderOk(h, h.term[c]);
    ExtendLeader(h, c, ents);
    forall n | n in k.voters
      ensures Sourced(k, k.log[n]) && TermsUpTo(k.log[n], k.term[n])
    {
      if n != c {
        SourcedStays(h, k, h.log[n]);
      }
    }
  }

  lemma ExtendRecords(h: History, c: Id, ents: EntryLog)
    requires Inv(h) && CanExtend(h, c, ents)
    ensures Shape(Extend(h, c, ents)) && Records(Extend(h, c, ents))
  {
    hide Grows, CampOk, BallotOk, LeaderOk, AckOk, LogsSourced, LeadersCarry, NodesKeep, BallotsKeep;
    var k := Extend(h, c, ents);
    var t := h.term[c];
    ExtendGrows(h, c, ents);
    ExtendLeader(h, c, ents);
    forall n, u | (n, u) in k.camp
      ensures CampOk(k, n, u)
    {
      CampStays(h, k, n, u);
    }
    forall n, u | (n, u) in k.ballots
      ensures BallotOk(k, n, u)
    {
      BallotStays(h, k, n, u);
    }
    forall u | u in k.tlog
      ensures LeaderOk(k, u)
    {
      if u != t {
        LeaderStays(h, k, u);
      }
    }
    forall n, u | (n, u) in k.ack
      ensures AckOk(k, n, u)
    {
      if (n, u) != (c, t) {
        AckStays(h, k, n, u);
      }
    }
  }

  /** An entry created after a later leader was elected can no longer be chosen. */
  lemma LateEntryDead(h: History, c: Id, ents: EntryLog, u: nat, i: nat)
    requires Inv(h) && CanExtend(h, c, ents) && u in h.tlog && h.term[c] < u
    requires |h.tlog[h.term[c]]| < i
    ensures Dead(Extend(h, c, ents), h.term[c], i)
  {
    hide Sourced, CampOk, Carried, Kept;
    var k := Extend(h, c, ents);
    var t := h.term[c];
    assert LeaderOk(h, u);
    var q :| IsQuorum(h.voters, q) && VotedFor(h, q, u, h.led[u]);
    forall n | n in q
      ensures n in k.term && k.term[n] > t && CountOf(k.ack, (n, t)) < i
    {
      assert BallotOk(h, n, u);
      AckBound(h, n, t);
    }
    assert Behind(k, q, t, i);
  }

  /** A later leader carries the extended term's own entries: what was there before it
      already did, and what comes now is dead. */
  lemma ExtendedEntry(h: History, c: Id, ents: EntryLog, u: nat, i: nat)
    requires Inv(h) && CanExtend(h, c, ents) && u in h.tlog && h.term[c] < u && Own(Extend(h, c, ents), h.term[c], i)
    ensures var k, t := Extend(h, c, ents), h.term[c]; Dead(k, t, i) || Agree(k.tlog[t], k.tlog[u], i)
  {
    hide Sourced, LogsSourced, Records, NodesKeep, BallotsKeep;
    var k, t := Extend(h, c, ents), h.term[c];
    if i <= |h.tlog[t]| {
      assert Own(h, t, i) && Carried(h, t, u);
      if Dead(h, t, i) {
        ExtendGrows(h, c, ents);
        DeadStays(h, k, t, i);
      }
    } else {
      LateEntryDead(h, c, ents, u, i);
    }
  }

  lemma ExtendCarries(h: History, c: Id, ents: EntryLog)
    requires Inv(h) && CanExtend(h, c, ents)
    ensures LeadersCarry(Extend(h, c, ents))
  {
    hide Sourced, LogsSourced, Records, NodesKeep, BallotsKeep, Own, Dead, Agree;
    var k := Extend(h, c, ents);
    ExtendGrows(h, c, ents);
    forall t, u | t in k.tlog && u in k.tlog && t < u
      ensures Carried(k, t, u)
    {
      if t == h.term[c] {
        forall i: nat | Own(k, t, i)
          ensures Dead(k, t, i) || Agree(k.tlog[t], k.tlog[u], i)
        {
          ExtendedEntry(h, c, ents, u, i);
        }
      } else {
        hide Carried;
        CarriedStays(h, k, t, u);
      }
    }
  }

  lemma ExtendKept(h: History, c: Id, ents: EntryLog, n: Id, l: EntryLog, m: EntryLog, t: nat)
    requires Inv(h) && CanExtend(h, c, ents)
    requires t in h.tlog && Kept(h, n, l, t) && Agree(l, m, |l|) && (n, t) != (c, h.term[c])
    ensures Kept(Extend(h, c, ents), n, m, t)
  {
    hide Sourced, CampOk, BallotOk, LeaderOk, AckOk, Carried, Kept;
    ExtendGrows(h, c, ents);
    AckBound(h, n, t);
    KeptStays(h, Extend(h, c, ents), n, l, m, t);
  }

  lemma ExtendNodes(h: History, c: Id, ents: EntryLog)
    requires Inv(h) && CanExtend(h, c, ents)
    ensures Shape(Extend(h, c, ents)) && NodesKeep(Extend(h, c, ents))
  {
    hide LogsSourced, Records, LeadersCarry, BallotsKeep, Dead;
    var k := Extend(h, c, ents);
    forall n, t | n in k.voters && t in k.tlog
      ensures Kept(k, n, k.log[n], t)
    {
      if (n, t) != (c, h.term[c]) {
        assert Kept(h, n, h.log[n], t);
        ExtendKept(h, c, ents, n, h.log[n], k.log[n], t);
      }
    }
  }

  lemma ExtendBallots(h: History, c: Id, ents: EntryLog)
    requires Inv(h) && CanExtend(h, c, ents)
    ensures Shape(Extend(h, c, ents)) && BallotsKeep(Extend(h, c, ents))
  {
    hide CampOk, LeaderOk, AckOk, LogsSourced, LeadersCarry, NodesKeep, Kept;
    var k := Extend(h, c, ents);
    forall n, u, t | (n, u) in k.ballots && t in k.tlog && t < u
      ensures Kept(k, n, k.ballots[(n, u)].log, t)
    {
      assert BallotOk(h, n, u);
      ExtendKept(h, c, ents, n, h.ballots[(n, u)].log, h.ballots[(n, u)].log, t);
    }
  }

  lemma ExtendKeeps(h: History, c: Id, ents: EntryLog)
    requires Inv(h) && CanExtend(h, c, ents)
    ensures Inv(Extend(h, c, ents)) && Grows(h, Extend(h, c, ents))
  {
    hide Shape, LogsSourced, Records, LeadersCarry, NodesKeep, BallotsKeep, Grows, Extend, CanExtend;
    ExtendGrows(h, c, ents);
    ExtendLogs(h, c, ents);
    ExtendRecords(h, c, ents);
    ExtendCarries(h, c, ents);
    ExtendNodes(h, c, ents);
    ExtendBallots(h, c, ents);
  }

  /** Overwriting with the leader's prefix loses nothing both logs share. */
  lemma AdoptedKeeps(mine: EntryLog, leaders: EntryLog, k: nat, l: EntryLog, i: nat)
    requires k <= |leaders| && Agree(l, mine, i) && Agree(l, leaders, i)
    ensures Agree(l, Adopted(mine, leaders, k), i)
  {
  }

  ghost predicate CanAccept(h: History, n: Id, k: nat)
    requires Shape(h)
  {
    && n in h.voters
    && h.term[n] in h.tlog
    && k <= |h.tlog[h.term[n]]|
  }

  lemma AcceptGrows(h: History, n: Id, k: nat)
    requires Inv(h) && CanAccept(h, n, k)
    ensures Shape(Accept(h, n, k)) && Grows(h, Accept(h, n, k))
  {
    hide Sourced, CampOk, BallotOk, LeaderOk, Carried, Kept, Adopted;
  }

  lemma AdoptedSourced(h: History, n: Id, k: nat)
    requires Shape(h) && Records(h) && LogsSourced(h) && CanAccept(h, n, k)
    ensures Sourced(h, Accept(h, n, k).log[n]) && TermsUpTo(Accept(h, n, k).log[n], h.term[n])
  {
    hide CampOk, BallotOk, AckOk;
    assert LeaderOk(h, h.term[n]);
  }

  lemma AcceptLogs(h: History, n: Id, k: nat)
    requires Inv(h) && CanAccept(h, n, k)
    ensures Shape(Accept(h, n, k)) && LogsSourced(Accept(h, n, k))
  {
    hide Sourced, Records, LeadersCarry, NodesKeep, BallotsKeep, Adopted, Grows;
    var g := Accept(h, n, k);
    AcceptGrows(h, n, k);
    AdoptedSourced(h, n, k);
    forall m | m in g.voters
      ensures Sourced(g, g.log[m]) && TermsUpTo(g.log[m], g.term[m])
    {
      SourcedStays(h, g, g.log[m]);
    }
  }

  lemma AcceptRecords(h: History, n: Id, k: nat)
    requires Inv(h) && CanAccept(h, n, k)
    ensures Shape(Accept(h, n, k)) && Records(Accept(h, n, k))
  {
    hide Grows, CampOk, BallotOk, LeaderOk, LogsSourced, LeadersCarry, NodesKeep, BallotsKeep, Adopted;
    var g := Accept(h, n, k);
    AcceptGrows(h, n, k);
    AckBound(h, n, h.term[n]);
    forall m, u | (m, u) in g.camp
      ensures CampOk(g, m, u)
    {
      CampStays(h, g, m, u);
    }
    forall m, u | (m, u) in g.ballots
      ensures BallotOk(g, m, u)
    {
      BallotStays(h, g, m, u);
    }
    forall u | u in g.tlog
      ensures LeaderOk(g, u)
    {
      LeaderStays(h, g, u);
    }
  }

  lemma AcceptCarries(h: History, n: Id, k: nat)
    requires Inv(h) && CanAccept(h, n, k)
    ensures LeadersCarry(Accept(h, n, k))
  {
    hide Sourced, CampOk, BallotOk, LeaderOk, AckOk, Carried, Adopted, Kept;
    var g := Accept(h, n, k);
    AcceptGrows(h, n, k);
    forall t, u | t in g.tlog && u in g.tlog && t < u
      ensures Carried(g, t, u)
    {
      CarriedStays(h, g, t, u);
    }
  }

  /** The accepting node keeps what it acknowledged in its own and in earlier terms. */
  lemma AcceptKept(h: History, n: Id, k: nat, t: nat)
    requires Inv(h) && CanAccept(h, n, k) && t in h.tlog
    ensures Kept(Accept(h, n, k), n, Accept(h, n, k).log[n], t)
  {
    hide Sourced, CampOk, BallotOk, LeaderOk;
    var g := Accept(h, n, k);
    var u := h.term[n];
    AcceptGrows(h, n, k);
    forall i: nat | Own(g, t, i) && i <= CountOf(g.ack, (n, t))
      ensures Dead(g, t, i) || Agree(g.tlog[t], g.log[n], i)
    {
      assert Own(h, t, i);
      if Dead(h, t, i) {
        DeadStays(h, g, t, i);
      } else if t == u && i <= k {
      } else {
        assert Kept(h, n, h.log[n], t);
        assert i <= CountOf(h.ack, (n, t));
        assert (n, t) in h.ack && AckOk(h, n, t);
        assert t < u ==> Carried(h, t, u);
        AdoptedKeeps(h.log[n], h.tlog[u], k, h.tlog[t], i);
      }
    }
  }

  lemma AcceptNodes(h: History, n: Id, k: nat)
    requires Inv(h) && CanAccept(h, n, k)
    ensures Shape(Accept(h, n, k)) && NodesKeep(Accept(h, n, k))
  {
    hide Records, LogsSourced, LeadersCarry, BallotsKeep, Kept, Adopted, Grows;
    var g := Accept(h, n, k);
    AcceptGrows(h, n, k);
    forall m, t | m in g.voters && t in g.tlog
      ensures Kept(g, m, g.log[m], t)
    {
      if m == n {
        AcceptKept(h, n, k, t);
      } else {
        AckBound(h, m, t);
        KeptStays(h, g, m, h.log[m], h.log[m], t);
      }
    }
  }

  lemma AcceptBallots(h: History, n: Id, k: nat)
    requires Inv(h) && CanAccept(h, n, k)
    ensures Shape(Accept(h, n, k)) && BallotsKeep(Accept(h, n, k))
  {
    hide CampOk, LeaderOk, AckOk, LogsSourced, LeadersCarry, NodesKeep, Kept, Adopted, Grows;
    var g := Accept(h, n, k);
    AcceptGrows(h, n, k);
    forall m, u, t | (m, u) in g.ballots && t in g.tlog && t < u
      ensures Kept(g, m, g.ballots[(m, u)].log, t)
    {
      assert BallotOk(h, m, u);
      AckBound(h, m, t);
      KeptStays(h, g, m, h.ballots[(m, u)].log, h.ballots[(m, u)].log, t);
    }
  }

  lemma AcceptKeeps(h: History, n: Id, k: nat)
    requires Inv(h) && CanAccept(h, n, k)
    ensures Inv(Accept(h, n, k)) && Grows(h, Accept(h, n, k))
  {
    AcceptGrows(h, n, k);
    hide Shape, LogsSourced, Records, LeadersCarry, NodesKeep, BallotsKeep, Grows, Accept, CanAccept;
    AcceptLogs(h, n, k);
    AcceptRecords(h, n, k);
    AcceptCarries(h, n, k);
    AcceptNodes(h, n, k);
    AcceptBallots(h, n, k);
  }
}
