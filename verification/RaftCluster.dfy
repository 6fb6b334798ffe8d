/** A consensus group over a network that loses, duplicates and reorders, as a
    transition system; and its safety over whole runs. */
module RaftCluster {
  import opened Common
  import opened RaftTypes
  import opened RaftLog
  import opened RaftState
  import opened RaftHistory
  import opened RaftInvariant
  import Steps = RaftSteps

  /** `net` holds every message ever released: each may be delivered any number
      of times, in any order, or never. `emitted[n]` is what node `n` handed to
      its state machine, `disk[n]` its durable hard state. */
  datatype Cluster = Cluster(
    nodes: map<Id, NodeState>,
    net: set<Message>,
    emitted: map<Id, seq<Entry>>,
    disk: map<Id, HardState>)

  datatype Event =
    | Deliver(n: Id, m: Message)
    | Propose(n: Id, payloads: seq<Entry>)
    | Timeout(n: Id)
    | Heartbeat(n: Id)
    | Transfer(n: Id, target: Id)
    | Drain(n: Id)
    | Compact(n: Id, index: nat)
    | Restart(n: Id, rec: Recovered, appliedIndex: nat)

  /** When the owner of a node may make a call: messages come from the network,
      Tick campaigns only outside leadership and beats only inside it, the log
      is compacted no further than it was applied, and a restarted node finds the
      term and vote it last saved. */
  ghost predicate Enabled(c: Cluster, e: Event) {
    && e.n in c.nodes && e.n in c.emitted && e.n in c.disk
    && match e
       case Deliver(n, m) => m in c.net && m.to == n
       case Timeout(n) => !c.nodes[n].role.Leader?
       case Heartbeat(n) => c.nodes[n].role.Leader?
       case Compact(n, index) => index <= c.nodes[n].log.applied
       case Restart(n, rec, _) => rec.hard.term == c.disk[n].term && rec.hard.vote == c.disk[n].vote
       case _ => true
  }

  /** What the call does to the node itself. */
  ghost function NodeAfter(c: Cluster, e: Event): Checked<NodeState>
    requires Enabled(c, e)
  {
    var s := c.nodes[e.n];
    match e
    case Deliver(_, m) => s.Step(m)
    case Propose(_, payloads) => s.HandlePropose(Plain(MsgProp, s.id).(entries := payloads))
    case Timeout(_) => s.Campaign()
    case Heartbeat(_) => s.BcastAppend()
    case Transfer(_, target) => var (n, _) :- s.TransferLeader(target); Ok(n)
    case Drain(_) => var (n, rd) :- s.TakeReady(); n.Advance(rd)
    case Compact(_, index) => s.CompactTo(index)
    case Restart(n, rec, appliedIndex) => Restore(n, s.peers, rec, appliedIndex)
  }

  function Drained(c: Cluster, n: Id, rd: Ready): Cluster
    requires n in c.emitted
  {
    c.(net := c.net + (set m | m in rd.messages),
       emitted := c.emitted[n := c.emitted[n] + rd.committedEntries],
       disk := if rd.hardState.Some? then c.disk[n := rd.hardState.value] else c.disk)
  }

  /** Draining persists the hard state, then releases the messages and applies the
      committed entries. A crash part way is a drain followed by a restart, with
      the unsent messages among those never delivered. */
  ghost function After(c: Cluster, e: Event): Checked<Cluster>
    requires Enabled(c, e)
  {
    var s :- NodeAfter(c, e);
    var d := if e.Drain? then
               var (_, rd) :- c.nodes[e.n].TakeReady();
               Ok(Drained(c, e.n, rd))
             else
               Ok(c);
    var d' :- d;
    Ok(d'.(nodes := d'.nodes[e.n := s]))
  }

  function Fresh(p: Id, peers: seq<Id>): NodeState
    requires p in peers
  {
    Restore(p, peers, NO_STATE, 0).value
  }

  function Initial(peers: seq<Id>): Cluster {
    Cluster(map p | p in peers :: Fresh(p, peers), {}, map p | p in peers :: [],
            map p | p in peers :: HardState(0, 0, 0))
  }

  ghost predicate IsRun(peers: seq<Id>, states: seq<Cluster>, events: seq<Event>) {
    && 0 !in peers && peers != []
    && |states| == |events| + 1
    && states[0] == Initial(peers)
    && forall i | 0 <= i < |events| :: Enabled(states[i], events[i]) && After(states[i], events[i]) == Ok(states[i + 1])
  }

  ghost predicate CrashFree(events: seq<Event>) {
    forall i | 0 <= i < |events| :: !events[i].Restart?
  }

  // -------------------------------------------------------------- invariant

  ghost predicate ClusterOk(c: Cluster, h: History) {
    && Inv(h)
    && c.nodes.Keys == h.voters && c.emitted.Keys == h.voters && c.disk.Keys == h.voters
    && (forall n | n in c.nodes :: c.nodes[n].id == n && NodeOk(c.nodes[n], h))
    && (forall n | n in c.nodes :: EmittedOk(c, h, n))
    && (forall m | m in c.net :: MsgOk(h, m))
  }

  /** What a node handed out is its log up to the applied index. */
  ghost predicate EmittedOk(c: Cluster, h: History, n: Id) {
    && n in c.nodes && n in c.emitted && n in h.log
    && c.nodes[n].log.applied <= |h.log[n]|
    && c.emitted[n] == h.log[n][..c.nodes[n].log.applied]
  }

  function NewHistory(voters: set<Id>): History {
    History(voters, map p | p in voters :: 0, map p | p in voters :: [], map[], map[], map[], map[], map[])
  }

  lemma EmptyInv(voters: set<Id>)
    ensures Inv(NewHistory(voters))
  {
  }

  lemma FreshOk(p: Id, peers: seq<Id>)
    requires p in peers && 0 !in peers
    ensures NodeOk(Fresh(p, peers), NewHistory(set q | q in peers))
    ensures Fresh(p, peers).id == p && Fresh(p, peers).log == EMPTY_LOG
  {
    var h := NewHistory(set q | q in peers);
    var s := Fresh(p, peers);
    assert s.log == EMPTY_LOG && s.voters == h.voters;
    assert LogPart(s, h) && VotePart(s, h) && LeadPart(s, h) && MsgPart(s, h);
  }

  lemma InitialOk(peers: seq<Id>)
    requires 0 !in peers && peers != []
    ensures ClusterOk(Initial(peers), NewHistory(set p | p in peers))
  {
    hide Inv, NodeOk, MsgOk, Fresh;
    var h := NewHistory(set p | p in peers);
    var c := Initial(peers);
    EmptyInv(set p | p in peers);
    forall p | p in peers
      ensures c.nodes[p].id == p && NodeOk(c.nodes[p], h) && EmittedOk(c, h, p)
    {
      FreshOk(p, peers);
    }
  }

  lemma MovedNode(c: Cluster, h: History, k: History, s': NodeState, n: Id)
    requires s'.id in c.nodes && n in c.nodes
    requires NodeOk(c.nodes[n], h) && EmittedOk(c, h, n)
    requires Moved(h, k, c.nodes[s'.id], s') && NodeOk(s', k)
    requires c.nodes[n].id == n && c.nodes[s'.id].id == s'.id
    ensures var d := c.(nodes := c.nodes[s'.id := s']); NodeOk(d.nodes[n], k) && EmittedOk(d, k, n)
  {
    hide NodeOk;
    MovedGrows(h, k, s'.id);
    MovedLogs(h, k, s'.id, n);
    if n != s'.id {
      OthersStay(h, k, s'.id, c.nodes[n]);
    } else {
      AppliedBelow(h, c.nodes[n]);
      assert k.log[n][..s'.log.applied] == h.log[n][..s'.log.applied];
    }
  }

  lemma MovedLogs(h: History, k: History, c: Id, n: Id)
    requires ActedBy(h, k, c) && n in h.log
    ensures n in k.log && (n != c ==> k.log[n] == h.log[n])
  {
  }

  /** The acting node's new state fits the grown history, so the whole cluster does. */
  lemma MovedCluster(c: Cluster, h: History, k: History, s': NodeState)
    requires ClusterOk(c, h) && Inv(k) && s'.id in c.nodes
    requires Moved(h, k, c.nodes[s'.id], s') && NodeOk(s', k)
    ensures ClusterOk(c.(nodes := c.nodes[s'.id := s']), k) && Grows(h, k)
  {
    hide Inv, NodeOk, MsgOk, Grows, ActedBy, EmittedOk;
    var d := c.(nodes := c.nodes[s'.id := s']);
    MovedGrows(h, k, s'.id);
    forall n | n in d.nodes
      ensures d.nodes[n].id == n && NodeOk(d.nodes[n], k) && EmittedOk(d, k, n)
    {
      MovedNode(c, h, k, s', n);
    }
    forall m | m in c.net
      ensures MsgOk(k, m)
    {
      MsgStays(h, k, m);
    }
  }

  lemma MovedGrows(h: History, k: History, n: Id)
    requires ActedBy(h, k, n)
    ensures Grows(h, k) && k.voters == h.voters && k.log.Keys == k.voters && h.log.Keys == h.voters
  {
  }

  lemma AppliedBelow(h: History, s: NodeState)
    requires NodeOk(s, h)
    ensures s.log.applied <= s.log.committed
  {
  }

  lemma DrainedNode(c: Cluster, h: History, n: Id)
    requires ClusterOk(c, h) && n in c.nodes
    ensures Enabled(c, Drain(n)) && c.nodes[n].TakeReady().Ok? && NodeAfter(c, Drain(n)).Ok?
    ensures var s := NodeAfter(c, Drain(n)).value; var rd := c.nodes[n].TakeReady().value.1;
            && NodeOk(s, h) && s.id == n && rd.messages == c.nodes[n].msgs
            && s.log.applied <= |h.log[n]|
            && c.emitted[n] + rd.committedEntries == h.log[n][..s.log.applied]
  {
    hide Inv, NodeOk, MsgOk, NodeState.TakeReady, NodeState.Advance;
    assert EmittedOk(c, h, n);
    Steps.TakeReadyOk(h, c.nodes[n]);
    Steps.AdvanceOk(h, c.nodes[n]);
  }

  lemma DrainShape(c: Cluster, n: Id)
    requires Enabled(c, Drain(n))
    ensures After(c, Drain(n)).Ok? <==> c.nodes[n].TakeReady().Ok? && NodeAfter(c, Drain(n)).Ok?
    ensures After(c, Drain(n)).Ok? ==>
              After(c, Drain(n)).value == Drained(c, n, c.nodes[n].TakeReady().value.1).(nodes := c.nodes[n := NodeAfter(c, Drain(n)).value])
  {
    hide NodeState.TakeReady, NodeState.Advance;
  }

  lemma DrainOk(c: Cluster, h: History, n: Id)
    requires ClusterOk(c, h) && n in c.nodes
    ensures Enabled(c, Drain(n)) && After(c, Drain(n)).Ok? && ClusterOk(After(c, Drain(n)).value, h)
  {
    hide Inv, NodeOk, MsgOk, NodeState.TakeReady, NodeAfter, After;
    DrainedNode(c, h, n);
    DrainShape(c, n);
    var d := After(c, Drain(n)).value;
    forall m | m in d.net
      ensures MsgOk(h, m)
    {
      if m !in c.net {
        QueuedOk(h, c.nodes[n], m);
      }
    }
    forall p | p in d.nodes
      ensures EmittedOk(d, h, p)
    {
      assert EmittedOk(c, h, p);
    }
  }

  lemma QueuedOk(h: History, s: NodeState, m: Message)
    requires NodeOk(s, h) && m in s.msgs
    ensures MsgOk(h, m)
  {
    hide MsgOk;
  }

  /** Every crash-free step keeps the cluster consistent with a grown history, and no guard fires. */
  lemma StepKeeps(c: Cluster, h: History, e: Event) returns (k: History)
    requires ClusterOk(c, h) && Enabled(c, e) && !e.Restart?
    ensures After(c, e).Ok? && ClusterOk(After(c, e).value, k) && Grows(h, k)
  {
    hide Inv, NodeOk, Moved, Grows, EmittedOk;
    k := h;
    var s := c.nodes[e.n];
    if e.Drain? {
      DrainOk(c, h, e.n);
      GrowsItself(h);
    } else {
      match e {
        case Deliver(n, m) => k := Steps.StepOk(h, s, m);
        case Propose(n, payloads) => k := Steps.HandleProposeOk(h, s, Plain(MsgProp, s.id).(entries := payloads));
        case Timeout(n) => k := Steps.CampaignOk(h, s);
        case Heartbeat(n) => HeartbeatOk(h, s);
        case Transfer(n, target) => Steps.TransferLeaderOk(h, s, target);
        case Compact(n, index) => Steps.CompactOk(h, s, index);
      }
      SameId(h, k, s, NodeAfter(c, e).value);
      MovedCluster(c, h, k, NodeAfter(c, e).value);
    }
  }

  lemma HeartbeatOk(h: History, s: NodeState)
    requires NodeOk(s, h) && s.role.Leader?
    ensures s.BcastAppend().Ok? && NodeOk(s.BcastAppend().value, h) && Moved(h, h, s, s.BcastAppend().value)
  {
    hide LogPart, VotePart, LeadPart, MsgPart, Moved;
    Steps.BcastAppendOk(h, s, s.peers);
  }

  lemma SameId(h: History, k: History, s: NodeState, s': NodeState)
    requires Moved(h, k, s, s')
    ensures s'.id == s.id
  {
  }

  lemma GrowsItself(h: History)
    ensures Grows(h, h)
  {
  }

  // ---------------------------------------------------------- whole runs

  /** A growing history explains every state of a crash-free run. */
  lemma {:induction false} Histories(peers: seq<Id>, states: seq<Cluster>, events: seq<Event>, n: nat)
    returns (hs: seq<History>)
    requires IsRun(peers, states, events) && CrashFree(events) && n <= |events|
    ensures |hs| == n + 1
    ensures forall i | 0 <= i <= n :: ClusterOk(states[i], hs[i])
    ensures forall i, j | 0 <= i <= j <= n :: Grows(hs[i], hs[j])
  {
    hide ClusterOk, Grows, After, Enabled;
    if n == 0 {
      InitialOk(peers);
      hs := [NewHistory(set p | p in peers)];
      GrowsItself(hs[0]);
    } else {
      hs := Histories(peers, states, events, n - 1);
      var k := StepKeeps(states[n - 1], hs[n - 1], events[n - 1]);
      GrowsItself(k);
      forall i | 0 <= i < n
        ensures Grows(hs[i], k)
      {
        GrowsTransitive(hs[i], hs[n - 1], k);
      }
      hs := hs + [k];
    }
  }

  /** No guard of the log or of the node fires in a crash-free run: whatever a
      node's owner may call next completes. */
  lemma NoPanicReachable(peers: seq<Id>, states: seq<Cluster>, events: seq<Event>, e: Event)
    requires IsRun(peers, states, events) && CrashFree(events)
    requires Enabled(states[|events|], e) && !e.Restart?
    ensures After(states[|events|], e).Ok?
  {
    hide ClusterOk, After, Enabled;
    var hs := Histories(peers, states, events, |events|);
    var k := StepKeeps(states[|events|], hs[|events|], e);
  }

  /** The documented order of the log's counters, in every state of every crash-free run. */
  lemma LogBounds(peers: seq<Id>, states: seq<Cluster>, events: seq<Event>, i: nat, n: Id)
    requires IsRun(peers, states, events) && CrashFree(events) && i <= |events| && n in states[i].nodes
    ensures var g := states[i].nodes[n].log; g.snapIndex <= g.applied <= g.committed <= g.LastIndex()
  {
    hide Inv, MsgOk, EmittedOk;
    var hs := Histories(peers, states, events, i);
    assert ClusterOk(states[i], hs[i]);
    Steps.Bounds(hs[i], states[i].nodes[n]);
  }

  /** What node `n` has committed and handed out in one state, in terms of the history. */
  lemma CommittedReads(c: Cluster, h: History, n: Id)
    requires ClusterOk(c, h) && n in c.nodes
    ensures n in h.log && n in c.emitted
    ensures var s := c.nodes[n];
            && Whole(s.log, h.log[n]) && s.log.applied <= s.log.committed <= |h.log[n]|
            && Settled(h, h.log[n], s.log.committed, s.term)
            && c.emitted[n] == h.log[n][..s.log.applied]
            && (s.role.Leader? ==> s.term in h.tlog && h.log[n] == h.tlog[s.term])
  {
    hide Inv, MsgPart, VotePart, Settled, MsgOk;
    assert EmittedOk(c, h, n) && NodeOk(c.nodes[n], h);
    Steps.WholeTerm(c.nodes[n].log, h.log[n], 0);
  }

  lemma CarryOf(c: Cluster, h: History)
    requires ClusterOk(c, h)
    ensures LeadersCarry(h)
  {
    hide ClusterOk;
    assert Inv(h) by { InvOf(c, h); }
  }

  lemma InvOf(c: Cluster, h: History)
    requires ClusterOk(c, h)
    ensures Inv(h)
  {
    hide Inv;
  }

  /** State machine safety: what any two nodes have handed to their state
      machines, at any two moments of a crash-free run, is one a prefix of the other. */
  lemma StateMachineSafety(peers: seq<Id>, states: seq<Cluster>, events: seq<Event>, i: nat, j: nat, a: Id, b: Id)
    requires IsRun(peers, states, events) && CrashFree(events) && i <= j <= |events|
    requires a in states[i].nodes && b in states[j].nodes
    ensures a in states[i].emitted && b in states[j].emitted
    ensures states[i].emitted[a] <= states[j].emitted[b] || states[j].emitted[b] <= states[i].emitted[a]
  {
    hide ClusterOk, Grows, Settled, LeadersCarry;
    var hs := Histories(peers, states, events, j);
    CommittedReads(states[i], hs[i], a);
    CommittedReads(states[j], hs[j], b);
    CarryOf(states[j], hs[j]);
    var s := states[i].nodes[a];
    var t := states[j].nodes[b];
    SettledStays(hs[i], hs[j], hs[i].log[a], s.log.committed, s.term, s.term);
    SettledAgree(hs[j], hs[i].log[a], s.log.committed, s.term, hs[j].log[b], t.log.committed, t.term);
  }

  /** The entry a node holds at index `x`, when it has not been compacted away. */
  function EntryAt(s: NodeState, x: nat): Entry
    requires s.log.snapIndex < x <= s.log.LastIndex()
  {
    s.log.entries[x - s.log.snapIndex - 1]
  }

  /** Any two nodes agree on the entry at every index both have committed, at any two
      moments, as long as neither has compacted it away. */
  lemma CommittedAgree(peers: seq<Id>, states: seq<Cluster>, events: seq<Event>, i: nat, j: nat, a: Id, b: Id, x: nat)
    requires IsRun(peers, states, events) && CrashFree(events) && i <= j <= |events|
    requires a in states[i].nodes && b in states[j].nodes
    requires states[i].nodes[a].log.snapIndex < x <= states[i].nodes[a].log.committed
    requires states[j].nodes[b].log.snapIndex < x <= states[j].nodes[b].log.committed
    ensures x <= states[i].nodes[a].log.LastIndex() && x <= states[j].nodes[b].log.LastIndex()
    ensures EntryAt(states[i].nodes[a], x) == EntryAt(states[j].nodes[b], x)
  {
    hide ClusterOk, Grows, Settled, LeadersCarry;
    var hs := Histories(peers, states, events, j);
    CommittedReads(states[i], hs[i], a);
    CommittedReads(states[j], hs[j], b);
    CarryOf(states[j], hs[j]);
    var s := states[i].nodes[a];
    var t := states[j].nodes[b];
    SettledStays(hs[i], hs[j], hs[i].log[a], s.log.committed, s.term, s.term);
    SettledAgree(hs[j], hs[i].log[a], s.log.committed, s.term, hs[j].log[b], t.log.committed, t.term);
  }

  /** Leader completeness: an entry some node has committed is in the log of
      every leader of the same or a later term, then and at any later moment. */
  lemma LeadersHoldCommitted(peers: seq<Id>, states: seq<Cluster>, events: seq<Event>, i: nat, j: nat, a: Id, b: Id, x: nat)
    requires IsRun(peers, states, events) && CrashFree(events) && i <= j <= |events|
    requires a in states[i].nodes && b in states[j].nodes
    requires states[j].nodes[b].role.Leader? && states[i].nodes[a].term <= states[j].nodes[b].term
    requires states[i].nodes[a].log.snapIndex < x <= states[i].nodes[a].log.committed
    ensures x <= states[i].nodes[a].log.LastIndex() && x <= states[j].nodes[b].log.LastIndex()
    ensures states[j].nodes[b].log.snapIndex < x ==> EntryAt(states[j].nodes[b], x) == EntryAt(states[i].nodes[a], x)
  {
    hide ClusterOk, Grows, Settled, LeadersCarry;
    var hs := Histories(peers, states, events, j);
    CommittedReads(states[i], hs[i], a);
    CommittedReads(states[j], hs[j], b);
    CarryOf(states[j], hs[j]);
    var s := states[i].nodes[a];
    var t := states[j].nodes[b];
    SettledStays(hs[i], hs[j], hs[i].log[a], s.log.committed, s.term, s.term);
    SettledInLeader(hs[j], hs[i].log[a], s.log.committed, s.term, t.term);
  }

  /** Log matching: two logs that hold entries of one term at an index hold the
      same entries at every index up to it. */
  lemma LogsMatch(peers: seq<Id>, states: seq<Cluster>, events: seq<Event>, i: nat, a: Id, b: Id, x: nat, y: nat)
    requires IsRun(peers, states, events) && CrashFree(events) && i <= |events|
    requires a in states[i].nodes && b in states[i].nodes
    requires var s := states[i].nodes[a]; var t := states[i].nodes[b];
             && s.log.snapIndex < y <= x <= s.log.LastIndex() && t.log.snapIndex < y <= x <= t.log.LastIndex()
             && EntryAt(s, x).term == EntryAt(t, x).term
    ensures EntryAt(states[i].nodes[a], y) == EntryAt(states[i].nodes[b], y)
  {
    hide ClusterOk, Settled, Sourced;
    var hs := Histories(peers, states, events, i);
    CommittedReads(states[i], hs[i], a);
    CommittedReads(states[i], hs[i], b);
    SourcedOf(states[i], hs[i], a);
    SourcedOf(states[i], hs[i], b);
    LogMatching(hs[i], hs[i].log[a], hs[i].log[b], x);
  }

  lemma SourcedOf(c: Cluster, h: History, n: Id)
    requires ClusterOk(c, h) && n in c.nodes
    ensures n in h.log && Sourced(h, h.log[n])
  {
    hide Sourced, Records, LeadersCarry, NodesKeep, BallotsKeep, NodeOk, MsgOk, EmittedOk;
  }
}
