/** A run in which a committed entry is lost. Three nodes, every request delivered at most once and none
    invented: a snapshot overtaken by a younger append makes its receiver forget an entry it had
    acknowledged, and a leader is elected without it. */
module SnapshotLoss {
  import opened Wrappers
  import opened RaftTypes
  import opened RaftNode
  import opened RaftLink
  import opened RaftSteps
  import opened RaftNetwork
  import opened RaftSafety
  import opened Traces

  // ----------------------------------------------------------------- the nodes' states

  /** Every timeout is one tick. */
  predicate Quick(t: Timers) {
    t.cfgMin == t.cfgMax == t.cfgHeartbeat == t.electionTimeout == 1
  }

  const QUICK: Timers := TimersRaw(0, 0, 1, 1, 1, 1, x => 0, 0)

  /** `n` is `m` but for its timers. */
  ghost predicate Is(n: Node, m: Node) {
    Quick(n.timers) && n == m.(timers := n.timers)
  }

  function Idle(id: NodeId, peers: seq<NodeId>): Node {
    Node(id, peers, Follower, 0, None, None, [], 0, 0, [], 0, 0, {}, map[], map[], QUICK, None)
  }

  function Standing(n: Node, term: nat): Node {
    n.(role := Candidate, term := term, votedFor := Some(n.id), votesGranted := {n.id}, leaderId := None)
  }

  function Entry(x: Triple): LogEntry { LogEntry(1, Insert(x)) }

  /** Node 1 leads term 1 by the votes of 1 and 3, with nothing acknowledged. */
  function Leading(log: Log): Node {
    Idle(1, [2, 3]).(role := Leader, term := 1, votedFor := Some(1), leaderId := Some(1), votesGranted := {1, 3},
                     log := log, nextIndex := map[2 := 1, 3 := 1], matchIndex := map[2 := 0, 3 := 0])
  }

  /** Node 1 after node 3 acknowledged the first of two entries. */
  function OneAcked(x: Triple, y: Triple): Node {
    Leading([Entry(x), Entry(y)]).(nextIndex := map[2 := 1, 3 := 2], matchIndex := map[2 := 0, 3 := 1], commit := 1)
  }

  /** Node 1 after folding the first entry away. */
  function Folded(x: Triple, y: Triple): Node {
    OneAcked(x, y).(log := [Entry(y)], applied := 1, baseIndex := 1, baseTerm := 1, snapshot := [x])
  }

  function Follows1(n: Node, log: Log): Node {
    n.(term := 1, leaderId := Some(1), log := log)
  }

  function Installed2(x: Triple): Node {
    Follows1(Idle(2, [1, 3]), []).(baseIndex := 1, baseTerm := 1, snapshot := [x], commit := 1, applied := 1,
                                   pendingReset := Some([x]))
  }

  function Voted3(): Node {
    Idle(3, [1, 2]).(term := 1, votedFor := Some(1))
  }

  /** Node 3 leads term 2 by the votes of 2 and 3; its second entry is its own. */
  function Usurping(x: Triple): Node {
    Voted3().(role := Leader, term := 2, votedFor := Some(3), leaderId := Some(3), votesGranted := {3, 2},
              log := [Entry(x), LogEntry(2, Noop)], nextIndex := map[1 := 3, 2 := 3], matchIndex := map[1 := 0, 2 := 0])
  }

  // --------------------------------------------------------------- what each step makes

  lemma Two(a: NodeId, b: NodeId)
    requires a != b
    ensures |{a, b}| == 2 && {a} + {b} == {a, b}
  {
  }

  lemma Stands(n: Node, m: Node, p: NodeId, q: NodeId)
    requires Is(n, m) && m.role != Leader && m.peers == [p, q]
    ensures var r := Tick(n);
            var ask := RequestVote(m.term + 1, m.id, m.LastIndex(), m.LastLogTerm());
            Is(r.0, Standing(m, m.term + 1)) && Outgoing(p, ask) in r.1 && Outgoing(q, ask) in r.1
  {
    var s := Stood(n.(timers := n.timers.(electionElapsed := n.timers.electionElapsed + 1)));
    assert |{m.id}| == 1;
    var outs := VoteRequests(s, s.peers);
    assert Tick(n) == (s, outs);
    var ask := RequestVote(m.term + 1, m.id, m.LastIndex(), m.LastLogTerm());
    assert s.LastIndex() == m.LastIndex() && s.LastLogTerm() == m.LastLogTerm();
    assert outs[0] == Outgoing(p, ask) && outs[1] == Outgoing(q, ask);
    assert outs[0] in outs && outs[1] in outs;
  }

  lemma Replicates(n: Node, p: NodeId, q: NodeId)
    requires n.peers == [p, q] && n.role == Leader
    ensures ReplicateToAll(n, n.peers) == [ReplicateTo(n, p).value, ReplicateTo(n, q).value]
  {
    assert [p, q][..1] == [p] && [p][..0] == [];
    assert ReplicateToAll(n, [p]) == [ReplicateTo(n, p).value];
  }

  lemma Votes3(n: Node)
    requires Is(n, Idle(3, [1, 2]))
    ensures var r := Handle(n, RequestVote(1, 1, 0, 0)); Is(r.0, Voted3()) && r.1 == VoteReply(1, true)
  {
  }

  lemma Leads1(n: Node)
    requires Is(n, Standing(Idle(1, [2, 3]), 1))
    ensures Is(HandleReply(n, 3, VoteReply(1, true)).0, Leading([]))
  {
    hide ReplicateToAll;
    Two(1, 3);
    var m := n.(votesGranted := n.votesGranted + {3});
    assert Crowned(m).nextIndex == map[2 := 1, 3 := 1] && Crowned(m).matchIndex == map[2 := 0, 3 := 0];
  }

  lemma PushTo(n: Node, log: Log, p: NodeId)
    requires Is(n, Leading(log)) && (p == 2 || p == 3)
    ensures ReplicateTo(n, p) == Some(Outgoing(p, AppendEntries(1, 1, 0, 0, 0, log)))
  {
    assert n.log[0..] == log;
  }

  lemma Pushes(n: Node, log: Log)
    requires Is(n, Leading(log))
    ensures var r := ReplicateNow(n);
            && Is(r.0, Leading(log))
            && Outgoing(2, AppendEntries(1, 1, 0, 0, 0, log)) in r.1
            && Outgoing(3, AppendEntries(1, 1, 0, 0, 0, log)) in r.1
  {
    hide ReplicateToAll;
    hide ReplicateTo;
    Replicates(n, 2, 3);
    PushTo(n, log, 2);
    PushTo(n, log, 3);
  }

  lemma Proposes(n: Node, log: Log, x: Triple)
    requires Is(n, Leading(log))
    ensures Is(Propose(n, Insert(x)).0, Leading(log + [Entry(x)]))
  {
  }

  lemma Stores(n: Node, m: Node, log: Log)
    requires Is(n, m) && m.term <= 1 && m.log == [] && m.baseIndex == 0 && m.commit == 0 && m.role == Follower
    requires m.votesGranted == {} && (m.term == 0 ==> m.votedFor.None?)
    requires |log| == 1 || |log| == 2
    ensures var r := Handle(n, AppendEntries(1, 1, 0, 0, 0, log));
            Is(r.0, Follows1(m, log)) && r.1 == AppendReply(1, true, |log|)
  {
    hide StoreEntries;
    StoresBoth(Following(n, 1, 1), log);
  }

  lemma StoresBoth(f: Node, log: Log)
    requires f.log == [] && f.baseIndex == 0 && (|log| == 1 || |log| == 2)
    ensures StoreEntries(f, 0, log) == f.(log := log)
  {
    assert log[..|log| - 1][..0] == [];
    if |log| == 1 {
      assert StoreEntries(f, 0, []) == f && log == [log[0]];
    } else {
      StoresBoth(f, log[..1]);
      assert log == log[..1] + [log[1]];
    }
  }

  lemma Counted(m: map<NodeId, nat>, k: nat)
    requires m.Keys == {2, 3}
    ensures CountMatched([2, 3], m, k) == (if m[2] >= k then 1 else 0) + (if m[3] >= k then 1 else 0)
  {
    assert [2, 3][..1] == [2] && [2][..0] == [];
    assert CountMatched([2], m, k) == if m[2] >= k then 1 else 0;
  }

  lemma Acked3(n: Node, x: Triple, y: Triple)
    requires Is(n, Leading([Entry(x), Entry(y)]))
    ensures Is(HandleReply(n, 3, AppendReply(1, true, 1)).0, OneAcked(x, y))
  {
    hide ReplicateTo;
    hide ReplicateToAll;
    var m := n.(matchIndex := n.matchIndex[3 := 1], nextIndex := n.nextIndex[3 := 2]);
    assert m.matchIndex == map[2 := 0, 3 := 1] && m.nextIndex == map[2 := 1, 3 := 2];
    Counted(m.matchIndex, 2);
    Counted(m.matchIndex, 1);
    assert HighestCommittable(m, 2) == HighestCommittable(m, 1) == 1;
  }

  lemma Folds(n: Node, x: Triple, y: Triple)
    requires Is(n, OneAcked(x, y))
    ensures DrainApply(n).1 == [Apply(Insert(x))] && DrainApply(n).0.pendingReset.None?
    ensures var d := DrainApply(n).0; d.applied == 1 && Is(Compact(d, d.applied, [x]), Folded(x, y))
  {
    assert ActionsAfter(n, 1) == [];
    assert ActionsAfter(n, 0) == [Apply(Insert(x))] + [];
    assert [Entry(x), Entry(y)][1..] == [Entry(y)];
  }

  lemma SendsSnapshot(n: Node, x: Triple, y: Triple)
    requires Is(n, Folded(x, y))
    ensures Is(Tick(n).0, Folded(x, y)) && Outgoing(2, InstallSnapshot(1, 1, 1, 1, [x])) in Tick(n).1
  {
    var m := n.(timers := n.timers.(heartbeatElapsed := n.timers.heartbeatElapsed + 1));
    Replicates(m, 2, 3);
    assert Tick(n) == Replicate(m);
  }

  lemma Acked2(n: Node, x: Triple, y: Triple)
    requires Is(n, Folded(x, y))
    ensures var m := HandleReply(n, 2, AppendReply(1, true, 2)).0;
            m.commit == 2 && m.term == 1 && m.baseIndex == 1 && m.log == [Entry(y)]
  {
    hide ReplicateTo;
    hide ReplicateToAll;
    var m := n.(matchIndex := n.matchIndex[2 := 2], nextIndex := n.nextIndex[2 := 3]);
    Counted(m.matchIndex, 2);
    assert HighestCommittable(m, 2) == 2;
  }

  lemma Forgets(n: Node, x: Triple, y: Triple)
    requires Is(n, Follows1(Idle(2, [1, 3]), [Entry(x), Entry(y)]))
    ensures DiscardsMatch(n, InstallSnapshot(1, 1, 1, 1, [x]))
    ensures Is(Handle(n, InstallSnapshot(1, 1, 1, 1, [x])).0, Installed2(x))
  {
  }

  lemma Votes2(n: Node, x: Triple)
    requires Is(n, Installed2(x))
    ensures Handle(n, RequestVote(2, 3, 1, 1)).1 == VoteReply(2, true)
  {
  }

  lemma Usurps(n: Node, x: Triple)
    requires Is(n, Standing(Follows1(Voted3(), [Entry(x)]), 2))
    ensures Is(HandleReply(n, 2, VoteReply(2, true)).0, Usurping(x))
  {
    hide ReplicateToAll;
    Two(3, 2);
    var m := n.(votesGranted := n.votesGranted + {2});
    assert Crowned(m).nextIndex == map[1 := 3, 2 := 3] && Crowned(m).matchIndex == map[1 := 0, 2 := 0];
    assert [Entry(x)] + [LogEntry(2, Noop)] == [Entry(x), LogEntry(2, Noop)];
  }

  // ------------------------------------------------------------------------------ the run

  ghost predicate Free(t: Trace, v: NodeId) {
    IsRun(t) && !t.guarded && v in Now(t).nodes && v in Now(t).stores
  }

  ghost predicate Sent(t: Trace, v: NodeId, to: NodeId, msg: RaftMsg) {
    IsRun(t) && Envelope(v, to, msg) in Now(t).requests
  }

  ghost predicate SentBack(t: Trace, v: NodeId, to: NodeId, reply: RaftReply) {
    IsRun(t) && Envelope(v, to, reply) in Now(t).replies
  }

  /** `u` is `t` with one more state, in which only node `v` differs. */
  ghost predicate Moves(t: Trace, u: Trace, v: NodeId, n: Node) {
    && Continues(t, u) && u.nets == t.nets + [Now(u)]
    && Now(u).nodes == Now(t).nodes[v := n] && Now(u).stores == Now(t).stores
  }

  lemma Ticks(t: Trace, v: NodeId) returns (u: Trace)
    requires Free(t, v)
    ensures Moves(t, u, v, Tick(Now(t).nodes[v]).0)
    ensures forall o :: o in Tick(Now(t).nodes[v]).1 ==> Sent(u, v, o.to, o.msg)
  {
    hide IsRun;
    hide Tick;
    u := Take(t, TickAt(v));
    var outs := Tick(Now(t).nodes[v]).1;
    assert forall o :: o in outs ==> Envelope(v, o.to, o.msg) in SentBy(v, outs);
  }

  lemma Delivers(t: Trace, v: NodeId, w: NodeId, msg: RaftMsg) returns (u: Trace)
    requires Free(t, w) && Sent(t, v, w, msg)
    ensures Moves(t, u, w, Handle(Now(t).nodes[w], msg).0)
    ensures SentBack(u, w, v, Handle(Now(t).nodes[w], msg).1)
  {
    hide IsRun;
    hide Handle;
    u := Take(t, Deliver(Envelope(v, w, msg)));
  }

  lemma Answers(t: Trace, v: NodeId, w: NodeId, reply: RaftReply) returns (u: Trace)
    requires Free(t, w) && SentBack(t, v, w, reply)
    ensures Moves(t, u, w, HandleReply(Now(t).nodes[w], v, reply).0)
  {
    hide IsRun;
    hide HandleReply;
    u := Take(t, Answer(Envelope(v, w, reply)));
  }

  /** A command is proposed and pushed to the peers. */
  lemma Appends(t: Trace, log: Log, x: Triple) returns (u: Trace)
    requires Free(t, 1) && Is(Now(t).nodes[1], Leading(log))
    ensures Continues(t, u) && Free(u, 1) && Is(Now(u).nodes[1], Leading(log + [Entry(x)]))
    ensures Now(u).nodes == Now(t).nodes[1 := Now(u).nodes[1]] && Now(u).stores == Now(t).stores
    ensures Sent(u, 1, 2, AppendEntries(1, 1, 0, 0, 0, log + [Entry(x)]))
    ensures Sent(u, 1, 3, AppendEntries(1, 1, 0, 0, 0, log + [Entry(x)]))
  {
    hide IsRun;
    hide Propose;
    hide ReplicateNow;
    hide Is;
    Proposes(Now(t).nodes[1], log, x);
    var w := Take(t, Submit(1, Insert(x)));
    Pushes(Now(w).nodes[1], log + [Entry(x)]);
    u := Take(w, Push(1));
    var outs := ReplicateNow(Now(w).nodes[1]).1;
    assert forall o :: o in outs ==> Envelope(1, o.to, o.msg) in SentBy(1, outs);
    ContinuesTrans(t, w, u);
  }

  /** What nodes 1, 2 and 3 are. */
  ghost predicate Are(t: Trace, a: Node, b: Node, c: Node) {
    && IsRun(t) && !t.guarded && Now(t).nodes.Keys == {1, 2, 3} && Now(t).stores.Keys == {1, 2, 3}
    && Is(Now(t).nodes[1], a) && Is(Now(t).nodes[2], b) && Is(Now(t).nodes[3], c)
  }

  lemma Three()
    ensures PeersOf({1, 2, 3}, 1, [2, 3]) && PeersOf({1, 2, 3}, 2, [1, 3]) && PeersOf({1, 2, 3}, 3, [1, 2])
  {
    assert |{1, 2, 3}| == 3;
  }

  lemma IdlesQuick()
    ensures Quick(QUICK)
  {
  }

  lemma Begins() returns (t: Trace)
    ensures Are(t, Idle(1, [2, 3]), Idle(2, [1, 3]), Idle(3, [1, 2])) && Now(t).stores[1] == {}
  {
    hide PeersOf;
    hide Quick;
    var nodes := map[1 := Idle(1, [2, 3]), 2 := Idle(2, [1, 3]), 3 := Idle(3, [1, 2])];
    var stores: map<NodeId, set<Triple>> := map[1 := {}, 2 := {}, 3 := {}];
    var net := Net(nodes, stores, {}, {});
    assert nodes.Keys == {1, 2, 3} && stores.Keys == {1, 2, 3};
    Three();
    forall v | v in nodes
      ensures PeersOf(nodes.Keys, v, nodes[v].peers)
      ensures nodes[v] == Fresh(v, nodes[v].peers, nodes[v].timers).(timers := nodes[v].timers)
    {
    }
    t := Trace([net], [], false);
    IdlesQuick();
  }

  /** Node 1 wins term 1 by its own vote and that of node 3. */
  lemma Elects() returns (t: Trace)
    ensures Are(t, Leading([]), Idle(2, [1, 3]), Voted3()) && Now(t).stores[1] == {}
  {
    hide FreeRun;
    hide Tick;
    hide Handle;
    hide HandleReply;
    hide Is;
    var t0 := Begins();
    Stands(Now(t0).nodes[1], Idle(1, [2, 3]), 2, 3);
    var t1 := Ticks(t0, 1);
    Votes3(Now(t1).nodes[3]);
    var t2 := Delivers(t1, 1, 3, RequestVote(1, 1, 0, 0));
    Leads1(Now(t2).nodes[1]);
    t := Answers(t2, 3, 1, VoteReply(1, true));
  }

  lemma SentStays(t: Trace, u: Trace, v: NodeId, w: NodeId, msg: RaftMsg)
    requires Continues(t, u) && Sent(t, v, w, msg)
    ensures Sent(u, v, w, msg)
  {
    hide IsRun;
  }

  /** Node 1 proposes two commands and pushes after each; both pushes to node 2 and the first to node 3
      are still on their way. */
  lemma Pushed(x: Triple, y: Triple) returns (t: Trace)
    ensures Are(t, Leading([Entry(x), Entry(y)]), Idle(2, [1, 3]), Voted3()) && Now(t).stores[1] == {}
    ensures Sent(t, 1, 3, AppendEntries(1, 1, 0, 0, 0, [Entry(x)]))
    ensures Sent(t, 1, 2, AppendEntries(1, 1, 0, 0, 0, [Entry(x), Entry(y)]))
  {
    hide FreeRun;
    hide Sent;
    hide Is;
    var t0 := Elects();
    var t1 := Appends(t0, [], x);
    assert [] + [Entry(x)] == [Entry(x)];
    t := Appends(t1, [Entry(x)], y);
    assert [Entry(x)] + [Entry(y)] == [Entry(x), Entry(y)];
    SentStays(t1, t, 1, 3, AppendEntries(1, 1, 0, 0, 0, [Entry(x)]));
  }

  /** Node 3 acknowledges the first entry; node 1 commits, applies and folds it, and its next heartbeat
      sends node 2 a snapshot. */
  lemma FirstCommitted(x: Triple, y: Triple) returns (t: Trace)
    ensures Are(t, Folded(x, y), Idle(2, [1, 3]), Follows1(Voted3(), [Entry(x)]))
    ensures Sent(t, 1, 2, AppendEntries(1, 1, 0, 0, 0, [Entry(x), Entry(y)]))
    ensures Sent(t, 1, 2, InstallSnapshot(1, 1, 1, 1, [x]))
  {
    hide FreeRun;
    hide Is;
    hide Tick;
    hide Handle;
    hide HandleReply;
    hide DrainApply;
    hide Compact;
    var both := AppendEntries(1, 1, 0, 0, 0, [Entry(x), Entry(y)]);
    var t0 := Pushed(x, y);
    Stores(Now(t0).nodes[3], Voted3(), [Entry(x)]);
    var t1 := Delivers(t0, 1, 3, AppendEntries(1, 1, 0, 0, 0, [Entry(x)]));
    Acked3(Now(t1).nodes[1], x, y);
    var t2 := Answers(t1, 3, 1, AppendReply(1, true, 1));
    Folds(Now(t2).nodes[1], x, y);
    var t3 := Take(t2, Drain(1));
    Applied(x);
    var t4 := Take(t3, Compaction(1, [x]));
    SendsSnapshot(Now(t4).nodes[1], x, y);
    t := Ticks(t4, 1);
    SentStays(t0, t1, 1, 2, both);
    SentStays(t1, t2, 1, 2, both);
    SentStays(t2, t3, 1, 2, both);
    SentStays(t3, t4, 1, 2, both);
    SentStays(t4, t, 1, 2, both);
  }

  lemma Applied(x: Triple)
    ensures Perform({}, [Apply(Insert(x))]) == {x} == TripleSet([x])
  {
    assert [Apply(Insert(x))][1..] == [];
  }

  /** Node 2 stores and acknowledges both entries, so node 1 commits the second one too. */
  lemma SecondCommitted(x: Triple, y: Triple) returns (t: Trace)
    ensures IsRun(t) && 1 in Now(t).nodes
    ensures var n := Now(t).nodes[1]; n.commit == 2 && n.term == 1 && n.baseIndex == 1 && n.log == [Entry(y)]
    ensures Are(t, Now(t).nodes[1], Follows1(Idle(2, [1, 3]), [Entry(x), Entry(y)]), Follows1(Voted3(), [Entry(x)]))
    ensures Sent(t, 1, 2, InstallSnapshot(1, 1, 1, 1, [x]))
  {
    hide FreeRun;
    hide Handle;
    hide HandleReply;
    var snap := InstallSnapshot(1, 1, 1, 1, [x]);
    var t0 := FirstCommitted(x, y);
    Stores(Now(t0).nodes[2], Idle(2, [1, 3]), [Entry(x), Entry(y)]);
    var t1 := Delivers(t0, 1, 2, AppendEntries(1, 1, 0, 0, 0, [Entry(x), Entry(y)]));
    Acked2(Now(t1).nodes[1], x, y);
    ReplySetupQuick(Now(t1).nodes[1], 2, AppendReply(1, true, 2));
    t := Answers(t1, 2, 1, AppendReply(1, true, 2));
    SentStays(t0, t1, 1, 2, snap);
    SentStays(t1, t, 1, 2, snap);
  }

  lemma ReplySetupQuick(n: Node, from: NodeId, reply: RaftReply)
    requires Quick(n.timers)
    ensures Quick(HandleReply(n, from, reply).0.timers)
  {
  }

  /** Leader completeness fails for arbitrary deliveries of snapshots. In this run node 1 commits entry
      `y` at index 2 in term 1, after node 2 acknowledged it; an older snapshot makes node 2 forget it,
      and node 3 wins term 2 with another entry at that index. */
  lemma CommittedEntryLost(x: Triple, y: Triple) returns (t: Trace, i: nat, j: nat)
    ensures FreeRun(t.nets, t.steps) && i < j < |t.nets|
    ensures 1 in t.nets[i].nodes && 3 in t.nets[j].nodes
    ensures var u, v := t.nets[i].nodes[1], t.nets[j].nodes[3];
            && u.term == 1 && u.commit == 2 && HasEntry(u, 2) && EntryAt(u, 2) == LogEntry(1, Insert(y))
            && v.term == 2 && v.role == Leader && HasEntry(v, 2) && EntryAt(v, 2) == LogEntry(2, Noop)
  {
    hide FreeRun;
    hide Tick;
    hide Handle;
    hide HandleReply;
    var t0 := SecondCommitted(x, y);
    FreeLength(t0.nets, t0.steps);
    i := |t0.nets| - 1;
    Forgets(Now(t0).nodes[2], x, y);
    var t1 := Delivers(t0, 1, 2, InstallSnapshot(1, 1, 1, 1, [x]));
    Stands(Now(t1).nodes[3], Follows1(Voted3(), [Entry(x)]), 1, 2);
    var t2 := Ticks(t1, 3);
    Votes2(Now(t2).nodes[2], x);
    var t3 := Delivers(t2, 3, 2, RequestVote(2, 3, 1, 1));
    Usurps(Now(t3).nodes[3], x);
    t := Answers(t3, 2, 3, VoteReply(2, true));
    j := |t.nets| - 1;
  }
}
