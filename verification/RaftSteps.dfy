/** Every step function of a node is a sequence of protocol actions: given a node that fits the
    ledger and messages that fit the ledger, each lemma extends the ledger so that the node's next
    state and everything it sends fit again. */
module RaftSteps {
  import opened Wrappers
  import opened RaftTypes
  import opened RaftNode
  import opened RaftLedger
  import opened RaftActions
  import opened RaftLink

  /** The node moved from `n` to `m` while the ledger moved from `g` to `h`; nothing it had
      committed or applied was lost. */
  ghost predicate Took(g: Ledger, h: Ledger, v: NodeId, n: Node, m: Node, store: set<Triple>) {
    && Local(g, h, v) && NodeOk(h, v, m, store)
    && n.commit <= m.commit && n.applied <= m.applied
    && Agree(g.log[v], h.log[v], n.commit)
  }

  ghost predicate SentOk(h: Ledger, v: NodeId, outs: seq<Outgoing>) {
    forall o :: o in outs ==> RequestOk(h, Envelope(v, o.to, o.msg))
  }

  lemma TookTrans(g: Ledger, h: Ledger, k: Ledger, v: NodeId, n: Node, m: Node, r: Node, s: set<Triple>,
      s': set<Triple>)
    requires Took(g, h, v, n, m, s) && Took(h, k, v, m, r, s')
    ensures Took(g, k, v, n, r, s')
  {
    hide NodeOk;
    hide Local;
    LocalTrans(g, h, k, v);
  }

  lemma TookFacts(g: Ledger, h: Ledger, v: NodeId, n: Node, m: Node, s: set<Triple>)
    requires Took(g, h, v, n, m, s)
    ensures Sound(h) && Shape(h) && Grows(g, h) && g.ids == h.ids && v in h.ids && NodeOk(h, v, m, s)
  {
    hide NodeOk;
    hide Sound;
  }

  // ---------------------------------------------------- changes without an action

  ghost predicate SameLog(n: Node, m: Node) {
    && m.id == n.id && m.peers == n.peers && m.term == n.term && m.log == n.log
    && m.baseIndex == n.baseIndex && m.baseTerm == n.baseTerm && m.commit == n.commit && m.applied == n.applied
    && m.snapshot == n.snapshot && m.pendingReset == n.pendingReset
  }

  lemma SameCore(g: Ledger, v: NodeId, n: Node, m: Node, store: set<Triple>)
    requires Core(g, v, n, store) && SameLog(n, m)
    ensures Core(g, v, m, store)
  {
    hide CommittedPrefix;
    hide Fold;
    hide PeersOf;
  }

  /** A node whose bookkeeping changed, but whose log and obligations did not, took no action. */
  lemma Idle(g: Ledger, v: NodeId, n: Node, m: Node, store: set<Triple>)
    requires Sound(g) && NodeOk(g, v, n, store) && SameLog(n, m) && Duty(g, v, m)
    ensures Took(g, g, v, n, m, store)
  {
    hide Sound;
    hide Core;
    hide Duty;
    hide Local;
    NodeFacts(g, v, n, store);
    LocalRefl(g, v);
    SameCore(g, v, n, m, store);
  }

  lemma RelabelledDuty(g: Ledger, v: NodeId, n: Node, m: Node)
    requires Duty(g, v, n) && m == n.(role := m.role, timers := m.timers, leaderId := m.leaderId)
    requires m.role == n.role || m.role == Follower
    ensures Duty(g, v, m)
  {
    if m.role == Leader {
      forall p | p in m.matchIndex
        ensures Matched(g, m, p, m.matchIndex[p])
      {
        assert Matched(g, n, p, n.matchIndex[p]);
      }
    }
  }

  /** Timers, the believed leader and a step down to follower do not matter to the protocol. */
  lemma Relabelled(g: Ledger, v: NodeId, n: Node, m: Node, store: set<Triple>)
    requires Sound(g) && NodeOk(g, v, n, store)
    requires m == n.(role := m.role, timers := m.timers, leaderId := m.leaderId)
    requires m.role == n.role || m.role == Follower
    ensures Took(g, g, v, n, m, store)
  {
    hide Sound;
    hide Core;
    hide Duty;
    hide Local;
    RelabelledDuty(g, v, n, m);
    Idle(g, v, n, m, store);
  }

  // ------------------------------------------------------------------ newer terms

  lemma BumpOk(g: Ledger, v: NodeId, n: Node, t: nat, store: set<Triple>)
    requires Core(g, v, n, store) && t > n.term && (v, t) !in g.votes && Grows(g, Bump(g, v, t))
    ensures NodeOk(Bump(g, v, t), v, ObserveTerm(n, t), store)
  {
    hide NodeCommit;
    hide NodeStore;
    CoreKept(g, Bump(g, v, t), v, n, ObserveTerm(n, t), store);
  }

  lemma ObserveSteps(g: Ledger, v: NodeId, n: Node, t: nat, store: set<Triple>) returns (h: Ledger)
    requires Sound(g) && NodeOk(g, v, n, store)
    ensures Took(g, h, v, n, ObserveTerm(n, t), store)
    ensures h.log == g.log
  {
    hide Sound;
    hide Core;
    hide Duty;
    hide Local;
    NodeFacts(g, v, n, store);
    if t > n.term {
      h := Bump(g, v, t);
      NotYetWon(g, v, t);
      BumpLocal(g, v, t);
      LocalFacts(g, h, v);
      BumpOk(g, v, n, t, store);
    } else {
      h := g;
      LocalRefl(g, v);
    }
  }

  lemma StoodOk(g: Ledger, v: NodeId, n: Node, store: set<Triple>)
    requires Core(g, v, n, store) && v in g.ids && n.id == v
    requires n.term + 1 in g.elected ==> g.elected[n.term + 1].leader != v
    requires Grows(g, Stand(g, v))
    ensures NodeOk(Stand(g, v), v, Stood(n), store)
  {
    hide NodeCommit;
    hide NodeStore;
    CoreKept(g, Stand(g, v), v, n, Stood(n), store);
  }

  lemma StoodSteps(g: Ledger, v: NodeId, n: Node, store: set<Triple>) returns (h: Ledger)
    requires Sound(g) && NodeOk(g, v, n, store)
    ensures Took(g, h, v, n, Stood(n), store)
    ensures SentOk(h, v, VoteRequests(Stood(n), n.peers))
  {
    hide Sound;
    hide Core;
    hide Duty;
    hide Local;
    NodeFacts(g, v, n, store);
    h := Stand(g, v);
    NotYetWon(g, v, n.term + 1);
    StandLocal(g, v);
    LocalFacts(g, h, v);
    StoodOk(g, v, n, store);
    BallotsOk(h, v, n);
  }

  lemma BallotsOk(h: Ledger, v: NodeId, n: Node)
    requires Shape(h) && v in h.ids && n.id == v && h.term[v] == n.term + 1
    requires (v, n.term + 1) in h.votes && h.votes[(v, n.term + 1)] == Vote(v, h.log[v])
    requires n.LastIndex() == |h.log[v]| && n.LastLogTerm() == LastTerm(h.log[v])
    requires forall p :: p in n.peers ==> p in h.ids && p != v
    ensures SentOk(h, v, VoteRequests(Stood(n), n.peers))
  {
    var outs := VoteRequests(Stood(n), n.peers);
    assert Stood(n).LastIndex() == n.LastIndex() && Stood(n).LastLogTerm() == n.LastLogTerm();
    forall o | o in outs
      ensures RequestOk(h, Envelope(v, o.to, o.msg))
    {
      var i :| 0 <= i < |outs| && outs[i] == o;
      assert n.peers[i] in n.peers;
    }
  }

  // ------------------------------------------------------------------- leadership

  lemma VotesMakeMajority(g: Ledger, v: NodeId, n: Node)
    requires Sound(g) && NodeLog(g, v, n) && NodeCandidate(g, v, n) && n.role == Candidate
    requires |n.votesGranted| >= n.MajoritySize()
    ensures MayWin(g, v, n.votesGranted)
  {
    forall p | p in n.votesGranted
      ensures p in g.ids
    {
      assert GoodVote(g, p, n.term);
    }
    if n.term in g.elected {
      OneWinnerPerTerm(g, v, n.term, n.votesGranted);
    }
  }

  function Won(n: Node): Node {
    n.(role := Leader, nextIndex := map p | p in n.peers :: 1, matchIndex := map[])
  }

  lemma WonOk(g: Ledger, v: NodeId, n: Node, store: set<Triple>)
    requires Core(g, v, n, store) && NodeVote(g, v, n) && v in g.ids
    requires Grows(g, Win(g, v, n.votesGranted))
    ensures NodeOk(Win(g, v, n.votesGranted), v, Won(n), store)
  {
    hide NodeCommit;
    hide NodeStore;
    CoreKept(g, Win(g, v, n.votesGranted), v, n, Won(n), store);
  }

  lemma WinSteps(g: Ledger, v: NodeId, n: Node, store: set<Triple>) returns (h: Ledger)
    requires Sound(g) && NodeOk(g, v, n, store) && n.role == Candidate
    requires |n.votesGranted| >= n.MajoritySize()
    ensures Took(g, h, v, n, Won(n), store)
  {
    hide Sound;
    hide NodeLog;
    hide NodeCommit;
    hide NodeStore;
    hide NodeCandidate;
    hide NodeLeader;
    hide NodeVote;
    hide Local;
    NodeFacts(g, v, n, store);
    VotesMakeMajority(g, v, n);
    h := Win(g, v, n.votesGranted);
    WinLocal(g, v, n.votesGranted);
    LocalFacts(g, h, v);
    WonOk(g, v, n, store);
  }

  function Extended(n: Node, op: LogOp): Node {
    n.(log := n.log + [LogEntry(n.term, op)])
  }

  lemma ExtendedCore(g: Ledger, h: Ledger, v: NodeId, n: Node, op: LogOp, store: set<Triple>)
    requires Core(g, v, n, store) && Leads(g, v) && h == Append(g, v, LogEntry(n.term, op)) && Grows(g, h)
    ensures Core(h, v, Extended(n, op), store)
  {
    hide NodeCommit;
    hide NodeStore;
    CoreKept(g, h, v, n, Extended(n, op), store);
  }

  lemma ExtendedDuty(g: Ledger, h: Ledger, v: NodeId, n: Node, op: LogOp)
    requires Duty(g, v, n) && n.role == Leader && Leads(g, v) && n.term == g.term[v]
    requires h == Append(g, v, LogEntry(n.term, op)) && Grows(g, h)
    ensures Duty(h, v, Extended(n, op))
  {
    var m := Extended(n, op);
    forall p | p in m.matchIndex
      ensures Matched(h, m, p, m.matchIndex[p])
    {
      assert Matched(g, n, p, n.matchIndex[p]);
    }
  }

  /** A leader's complete log grows by one entry of its term. */
  lemma ExtendSteps(g: Ledger, v: NodeId, n: Node, op: LogOp, store: set<Triple>) returns (h: Ledger)
    requires Sound(g) && NodeOk(g, v, n, store) && n.role == Leader
    ensures Took(g, h, v, n, Extended(n, op), store)
  {
    hide Sound;
    hide Core;
    hide Duty;
    hide Local;
    NodeFacts(g, v, n, store);
    LeaderFacts(g, v, n);
    h := Append(g, v, LogEntry(n.term, op));
    AppendLocal(g, v, LogEntry(n.term, op));
    LocalFacts(g, h, v);
    ExtendedCore(g, h, v, n, op, store);
    ExtendedDuty(g, h, v, n, op);
  }

  lemma LeaderFacts(g: Ledger, v: NodeId, n: Node)
    requires Duty(g, v, n) && n.role == Leader
    ensures Leads(g, v) && n.term == g.term[v] && n.term in g.tlog
    ensures forall p :: p in n.nextIndex ==> 1 <= n.nextIndex[p] <= n.LastIndex() + 1
    ensures forall p :: p in n.peers ==> p in n.nextIndex
  {
  }

  lemma IndexesDuty(g: Ledger, v: NodeId, n: Node, m: Node)
    requires Duty(g, v, n) && n.role == Leader
    requires m == n.(matchIndex := m.matchIndex, nextIndex := m.nextIndex)
    requires forall p :: p in m.nextIndex ==> 1 <= m.nextIndex[p] <= n.LastIndex() + 1
    requires forall p :: p in n.peers ==> p in m.nextIndex
    requires forall p :: p in m.matchIndex ==>
      (p in n.matchIndex && m.matchIndex[p] == n.matchIndex[p]) || Matched(g, n, p, m.matchIndex[p])
    ensures Duty(g, v, m)
  {
    forall p | p in m.matchIndex
      ensures Matched(g, m, p, m.matchIndex[p])
    {
      assert p in n.matchIndex ==> Matched(g, n, p, n.matchIndex[p]);
    }
  }

  lemma IndexesOk(g: Ledger, v: NodeId, n: Node, m: Node, store: set<Triple>)
    requires Sound(g) && NodeOk(g, v, n, store) && n.role == Leader
    requires m == n.(matchIndex := m.matchIndex, nextIndex := m.nextIndex)
    requires forall p :: p in m.nextIndex ==> 1 <= m.nextIndex[p] <= n.LastIndex() + 1
    requires forall p :: p in n.peers ==> p in m.nextIndex
    requires forall p :: p in m.matchIndex ==>
      (p in n.matchIndex && m.matchIndex[p] == n.matchIndex[p]) || Matched(g, n, p, m.matchIndex[p])
    ensures Took(g, g, v, n, m, store)
  {
    hide Sound;
    hide Core;
    hide Duty;
    hide Local;
    IndexesDuty(g, v, n, m);
    Idle(g, v, n, m, store);
  }

  lemma CrownedSteps(g: Ledger, v: NodeId, n: Node, store: set<Triple>) returns (h: Ledger)
    requires Sound(g) && NodeOk(g, v, n, store) && n.role == Candidate
    requires |n.votesGranted| >= n.MajoritySize()
    ensures Took(g, h, v, n, Crowned(n), store)
  {
    hide Sound;
    hide NodeOk;
    hide Local;
    h := WinSteps(g, v, n, store);
    TookFacts(g, h, v, n, Won(n), store);
    var m := Won(n);
    if n.LastIndex() > n.commit {
      var k := ExtendSteps(h, v, m, Noop, store);
      TookTrans(g, h, k, v, n, m, Extended(m, Noop), store, store);
      TookFacts(g, k, v, n, Extended(m, Noop), store);
      m, h := Extended(m, Noop), k;
    }
    var c := m.(nextIndex := Crowned(n).nextIndex, matchIndex := Crowned(n).matchIndex);
    IndexesOk(h, v, m, c, store);
    TookTrans(g, h, h, v, n, m, c, store, store);
    TookFacts(h, h, v, m, c, store);
    Relabelled(h, v, c, Crowned(n), store);
    TookTrans(g, h, h, v, n, c, Crowned(n), store, store);
  }

  /** Every message a leader emits fits the ledger; in particular the commit index it advertises
      never exceeds the last entry the message is about. */
  lemma ReplicateToOk(g: Ledger, v: NodeId, n: Node, store: set<Triple>, p: NodeId)
    requires Sound(g) && NodeOk(g, v, n, store) && p in g.ids && p != v
    ensures var o := ReplicateTo(n, p); o.Some? ==> o.value.to == p && RequestOk(g, Envelope(v, p, o.value.msg))
  {
    hide Sound;
    hide Duty;
    hide Core;
    if n.role == Leader {
      NodeFacts(g, v, n, store);
      LeaderFacts(g, v, n);
      LeaderOwnsLog(g, v);
      EmittedOk(g, v, n, store, p);
    }
  }

  lemma EmittedSnapshot(g: Ledger, v: NodeId, n: Node, store: set<Triple>, p: NodeId)
    requires Core(g, v, n, store) && p in g.ids && p != v && Leads(g, v) && g.log[v] == g.tlog[n.term]
    ensures RequestOk(g, Envelope(v, p, InstallSnapshot(n.term, n.id, n.baseIndex, n.baseTerm, n.snapshot)))
  {
    hide CommittedPrefix;
    hide Fold;
    hide PeersOf;
  }

  lemma EmittedAppend(g: Ledger, v: NodeId, n: Node, p: NodeId, next: nat)
    requires NodeLog(g, v, n) && CommittedPrefix(g, g.log[v], n.commit, n.term)
    requires p in g.ids && p != v && Leads(g, v) && g.log[v] == g.tlog[n.term]
    requires n.baseIndex < next <= n.LastIndex() + 1
    ensures RequestOk(g, Envelope(v, p, AppendEntries(n.term, n.id, next - 1, n.TermAt(next - 1), n.commit,
                                                      n.log[next - n.baseIndex - 1..])))
  {
    hide CommittedPrefix;
    hide PeersOf;
    var l, tail := g.log[v], n.log[next - n.baseIndex - 1..];
    assert tail == l[next - 1..] && |tail| == |l| - (next - 1);
    assert l[next - 1..next - 1 + |tail|] == tail;
    assert n.TermAt(next - 1) == TermAtIndex(l, next - 1) by {
      TermAtMeansLog(g, v, n, next - 1);
    }
  }

  lemma EmittedOk(g: Ledger, v: NodeId, n: Node, store: set<Triple>, p: NodeId)
    requires Core(g, v, n, store) && p in g.ids && p != v && n.role == Leader
    requires Leads(g, v) && g.log[v] == g.tlog[n.term]
    requires forall p :: p in n.nextIndex ==> 1 <= n.nextIndex[p] <= n.LastIndex() + 1
    ensures RequestOk(g, Envelope(v, p, ReplicateTo(n, p).value.msg)) && ReplicateTo(n, p).value.to == p
  {
    hide CommittedPrefix;
    hide RequestOk;
    hide NodeLog;
    hide NodeStore;
    var next := if p in n.nextIndex then n.nextIndex[p] else n.LastIndex() + 1;
    if next <= n.baseIndex {
      EmittedSnapshot(g, v, n, store, p);
    } else {
      EmittedAppend(g, v, n, p, next);
    }
  }

  lemma {:induction false} ReplicateToAllOk(g: Ledger, v: NodeId, n: Node, store: set<Triple>, peers: seq<NodeId>)
    requires Sound(g) && NodeOk(g, v, n, store) && forall p :: p in peers ==> p in g.ids && p != v
    ensures SentOk(g, v, ReplicateToAll(n, peers))
  {
    hide Sound;
    hide NodeOk;
    hide RequestOk;
    hide ReplicateTo;
    if peers != [] {
      var init := peers[..|peers| - 1];
      forall p | p in init
        ensures p in g.ids && p != v
      {
        assert p in peers;
      }
      ReplicateToAllOk(g, v, n, store, init);
      ReplicateToOk(g, v, n, store, peers[|peers| - 1]);
    }
  }

  lemma ReplicateSteps(g: Ledger, v: NodeId, n: Node, store: set<Triple>)
    requires Sound(g) && NodeOk(g, v, n, store)
    ensures Took(g, g, v, n, Replicate(n).0, store) && SentOk(g, v, Replicate(n).1)
  {
    hide Sound;
    hide NodeOk;
    hide Local;
    hide RequestOk;
    NodeFacts(g, v, n, store);
    Relabelled(g, v, n, Replicate(n).0, store);
    ReplicateToAllOk(g, v, n, store, n.peers);
  }

  lemma BecomeLeaderSteps(g: Ledger, v: NodeId, n: Node, store: set<Triple>) returns (h: Ledger)
    requires Sound(g) && NodeOk(g, v, n, store) && n.role == Candidate
    requires |n.votesGranted| >= n.MajoritySize()
    ensures Took(g, h, v, n, BecomeLeader(n).0, store) && SentOk(h, v, BecomeLeader(n).1)
  {
    hide Sound;
    hide NodeOk;
    hide Local;
    hide RequestOk;
    h := CrownedSteps(g, v, n, store);
    TookFacts(g, h, v, n, Crowned(n), store);
    ReplicateSteps(h, v, Crowned(n), store);
    TookTrans(g, h, h, v, n, Crowned(n), BecomeLeader(n).0, store, store);
  }

  // ------------------------------------------------------------------------- ticks

  lemma TickSteps(g: Ledger, v: NodeId, n: Node, store: set<Triple>) returns (h: Ledger)
    requires Sound(g) && NodeOk(g, v, n, store)
    ensures Took(g, h, v, n, Tick(n).0, store) && SentOk(h, v, Tick(n).1)
  {
    hide NodeOk;
    hide Local;
    hide Sound;
    hide Replicate;
    hide StartElection;
    hide RequestOk;
    if n.role == Leader {
      var m := n.(timers := n.timers.(heartbeatElapsed := n.timers.heartbeatElapsed + 1));
      Relabelled(g, v, n, m, store);
      TookFacts(g, g, v, n, m, store);
      ReplicateSteps(g, v, m, store);
      TookTrans(g, g, g, v, n, m, Replicate(m).0, store, store);
      h := g;
    } else {
      var m := n.(timers := n.timers.(electionElapsed := n.timers.electionElapsed + 1));
      Relabelled(g, v, n, m, store);
      TookFacts(g, g, v, n, m, store);
      h := g;
      if m.timers.electionElapsed >= m.timers.electionTimeout {
        h := ElectionSteps(g, v, m, store);
        TookTrans(g, g, h, v, n, m, StartElection(m).0, store, store);
      }
    }
  }

  lemma ElectionSteps(g: Ledger, v: NodeId, n: Node, store: set<Triple>) returns (h: Ledger)
    requires Sound(g) && NodeOk(g, v, n, store)
    ensures Took(g, h, v, n, StartElection(n).0, store) && SentOk(h, v, StartElection(n).1)
  {
    hide NodeOk;
    hide Local;
    hide Sound;
    hide RequestOk;
    hide BecomeLeader;
    h := StoodSteps(g, v, n, store);
    var m := Stood(n);
    if |m.votesGranted| >= m.MajoritySize() {
      TookFacts(g, h, v, n, m, store);
      var k := BecomeLeaderSteps(h, v, m, store);
      TookTrans(g, h, k, v, n, m, BecomeLeader(m).0, store, store);
      h := k;
    }
  }

  // ---------------------------------------------------------------------- requests

  function Granted(n: Node, c: NodeId): Node {
    n.(votedFor := Some(c), role := Follower)
  }

  lemma GrantOk(g: Ledger, h: Ledger, v: NodeId, n: Node, c: NodeId, store: set<Triple>)
    requires Core(g, v, n, store) && v in g.ids && Shape(g) && h == CastVote(g, v, c) && Grows(g, h)
    ensures NodeOk(h, v, Granted(n, c), store)
  {
    hide NodeCommit;
    hide NodeStore;
    CoreKept(g, h, v, n, Granted(n, c), store);
  }

  lemma GrantSteps(g: Ledger, v: NodeId, n: Node, c: NodeId, store: set<Triple>) returns (h: Ledger)
    requires Sound(g) && NodeOk(g, v, n, store)
    requires n.votedFor == Some(c) || (n.votedFor.None? && MayVote(g, v, c))
    ensures Took(g, h, v, n, WithElectionReset(Granted(n, c)), store)
    ensures (v, n.term) in h.votes && h.votes[(v, n.term)].cand == c && h.term == g.term
  {
    hide Sound;
    hide Core;
    hide NodeCandidate;
    hide NodeLeader;
    hide Local;
    var m := Granted(n, c);
    NodeFacts(g, v, n, store);
    if n.votedFor.None? {
      h := CastVote(g, v, c);
      VoteLocal(g, v, c);
      LocalFacts(g, h, v);
      GrantOk(g, h, v, n, c, store);
    } else {
      h := g;
      Relabelled(g, v, n, m, store);
    }
    Relabelled(h, v, m, WithElectionReset(m), store);
    TookTrans(g, h, h, v, n, m, WithElectionReset(m), store, store);
  }

  /** A request for a vote that passes the log comparison meets the protocol's condition. */
  lemma VoteAllowed(g: Ledger, e: Envelope<RaftMsg>, n: Node, store: set<Triple>)
    requires NodeOk(g, e.to, n, store) && RequestOk(g, e) && e.msg.RequestVote? && n.votedFor.None?
    requires n.term == e.msg.term && LogOk(n, e.msg.lastLogIndex, e.msg.lastLogTerm)
    ensures MayVote(g, e.to, e.from)
  {
    hide Core;
    hide NodeCandidate;
    hide NodeLeader;
    NodeFacts(g, e.to, n, store);
  }

  lemma VoteSteps(g: Ledger, e: Envelope<RaftMsg>, n: Node, store: set<Triple>) returns (h: Ledger)
    requires Sound(g) && NodeOk(g, e.to, n, store) && RequestOk(g, e) && e.msg.RequestVote?
    ensures Took(g, h, e.to, n, Handle(n, e.msg).0, store)
    ensures ReplyOk(h, Envelope(e.to, e.from, Handle(n, e.msg).1))
  {
    hide Sound;
    hide NodeOk;
    hide Local;
    hide RequestOk;
    var v, c, t := e.to, e.from, e.msg.term;
    RequestFacts(g, e);
    NodeFacts(g, v, n, store);
    if t < n.term {
      h := g;
      LocalRefl(g, v);
    } else {
      h := ObserveSteps(g, v, n, t, store);
      var m := ObserveTerm(n, t);
      TookFacts(g, h, v, n, m, store);
      NodeFacts(h, v, m, store);
      RequestFrame(g, h, e);
      if (m.votedFor.None? || m.votedFor == Some(c)) && LogOk(m, e.msg.lastLogIndex, e.msg.lastLogTerm) {
        if m.votedFor.None? {
          VoteAllowed(h, e, m, store);
        }
        var k := GrantSteps(h, v, m, c, store);
        TookTrans(g, h, k, v, n, m, WithElectionReset(Granted(m, c)), store, store);
        TookFacts(g, k, v, n, WithElectionReset(Granted(m, c)), store);
        h := k;
      }
    }
  }

  lemma RequestFacts(g: Ledger, e: Envelope<RaftMsg>)
    requires RequestOk(g, e)
    ensures Shape(g) && e.from in g.ids && e.to in g.ids && e.from != e.to
    ensures e.msg.RequestVote? ==> e.msg.candidateId == e.from
    ensures e.msg.AppendEntries? || e.msg.InstallSnapshot? ==>
      e.msg.leaderId == e.from && e.msg.term in g.elected && g.elected[e.msg.term].leader == e.from
  {
    hide CommittedPrefix;
    hide Fold;
  }

  lemma FollowingSteps(g: Ledger, v: NodeId, n: Node, t: nat, l: NodeId, store: set<Triple>) returns (h: Ledger)
    requires Sound(g) && NodeOk(g, v, n, store) && t >= n.term
    ensures Took(g, h, v, n, Following(n, t, l), store)
    ensures h.log == g.log
  {
    hide Sound;
    hide NodeOk;
    hide Local;
    h := ObserveSteps(g, v, n, t, store);
    var m := ObserveTerm(n, t);
    TookFacts(g, h, v, n, m, store);
    Relabelled(h, v, m, Following(n, t, l), store);
    TookTrans(g, h, h, v, n, m, Following(n, t, l), store, store);
  }

  /** The append loop touches nothing but the log. */
  lemma {:induction false} StoreFields(n: Node, prev: nat, entries: Log)
    ensures var s := StoreEntries(n, prev, entries); s == n.(log := s.log)
  {
    if entries != [] {
      StoreFields(n, prev, entries[..|entries| - 1]);
    }
  }

  /** The loop over received entries computes `Merge`: the complete log `l` is unchanged when it
      already has the entries and otherwise ends with the last one received. `n` keeps the part of
      `l` above its base, and `src` is the leader's log. */
  lemma {:induction false} StoreEntriesMerges(l: Log, src: Log, n: Node, prev: nat, entries: Log)
    requires n.baseIndex <= |l| && n.log == l[n.baseIndex..]
    requires prev + |entries| <= |src| && entries == src[prev..prev + |entries|]
    requires Agree(l, src, prev) && Agree(l, src, n.baseIndex)
    requires forall i :: 0 <= i < |l| && i < |src| && l[i].term == src[i].term ==> l[i] == src[i]
    ensures var m := Merge(l, src, prev + |entries|);
            n.baseIndex <= |m| && StoreEntries(n, prev, entries) == n.(log := m[n.baseIndex..])
  {
    hide StoreEntry;
    if entries != [] {
      var k := prev + |entries|;
      var init := entries[..|entries| - 1];
      assert init == src[prev..prev + |init|] && entries[|entries| - 1] == src[k - 1];
      StoreEntriesMerges(l, src, n, prev, init);
      MergeReaches(l, src, k - 1);
      StoreOneMerges(l, src, n, k, entries[|entries| - 1]);
    } else {
      assert Merge(l, src, prev) == l;
    }
  }

  lemma MergeReaches(l: Log, src: Log, k: nat)
    requires k <= |src|
    ensures k <= |Merge(l, src, k)|
  {
  }

  lemma StoreOneMerges(l: Log, src: Log, n: Node, k: nat, e: LogEntry)
    requires n.baseIndex <= |l| && 1 <= k <= |src| && e == src[k - 1]
    requires Agree(l, src, n.baseIndex)
    requires forall i :: 0 <= i < |l| && i < |src| && l[i].term == src[i].term ==> l[i] == src[i]
    requires var m := Merge(l, src, k - 1); n.baseIndex <= |m| && k <= |m| + 1
    ensures var m := Merge(l, src, k - 1);
            var r := Merge(l, src, k);
            n.baseIndex <= |r| && StoreEntry(n.(log := m[n.baseIndex..]), k, e) == n.(log := r[n.baseIndex..])
  {
    var m := Merge(l, src, k - 1);
    if Agree(l, src, k - 1) && k <= |l| {
      if l[k - 1].term != src[k - 1].term {
        assert l[..k - 1] + [e] == src[..k];
        if k > n.baseIndex {
          assert l[n.baseIndex..][..k - n.baseIndex - 1] + [e] == src[..k][n.baseIndex..];
        }
      }
    } else {
      assert m + [e] == src[..k];
      if k > n.baseIndex {
        assert m[n.baseIndex..] + [e] == src[..k][n.baseIndex..];
      }
    }
  }

  lemma SameTermSameEntry(g: Ledger, v: NodeId, t: nat)
    requires Sound(g) && v in g.ids && t in g.tlog
    ensures var a, b := g.log[v], g.tlog[t];
            forall i :: 0 <= i < |a| && i < |b| && a[i].term == b[i].term ==> a[i] == b[i]
  {
    assert GoodNode(g, v) && GoodTermLog(g, t);
    var a, b := g.log[v], g.tlog[t];
    forall i | 0 <= i < |a| && i < |b| && a[i].term == b[i].term
      ensures a[i] == b[i]
    {
      LogMatching(g, a, b, i);
    }
  }

  function CommitAfter(s: Node, leaderCommit: nat): nat {
    if leaderCommit > s.commit
    then (if leaderCommit <= s.LastIndex() then leaderCommit else s.LastIndex())
    else s.commit
  }

  lemma AppendSteps(g: Ledger, e: Envelope<RaftMsg>, n: Node, store: set<Triple>) returns (h: Ledger)
    requires Sound(g) && NodeOk(g, e.to, n, store) && RequestOk(g, e) && e.msg.AppendEntries?
    ensures Took(g, h, e.to, n, Handle(n, e.msg).0, store)
    ensures ReplyOk(h, Envelope(e.to, e.from, Handle(n, e.msg).1))
  {
    hide Sound;
    hide NodeOk;
    hide Local;
    hide RequestOk;
    hide StoreEntries;
    var v, t, prev := e.to, e.msg.term, e.msg.prevLogIndex;
    RequestFacts(g, e);
    NodeFacts(g, v, n, store);
    if t < n.term {
      h := g;
      LocalRefl(g, v);
    } else {
      h := FollowingSteps(g, v, n, t, e.from, store);
      var m := Following(n, t, e.from);
      TookFacts(g, h, v, n, m, store);
      NodeFacts(h, v, m, store);
      RequestFrame(g, h, e);
      if prev <= m.LastIndex() && !(prev > m.baseIndex && m.TermAt(prev) != e.msg.prevLogTerm) {
        AnchorMatches(h, e, m, store);
        var k := StoredSteps(h, e, m, store);
        TookTrans(g, h, k, v, n, m, Handle(n, e.msg).0, store, store);
        h := k;
      }
    }
  }

  /** A request that passes the consistency check agrees with the follower up to its anchor. */
  lemma AnchorMatches(g: Ledger, e: Envelope<RaftMsg>, n: Node, store: set<Triple>)
    requires Sound(g) && NodeOk(g, e.to, n, store) && RequestOk(g, e) && e.msg.AppendEntries? && n.term == e.msg.term
    requires e.msg.prevLogIndex <= n.LastIndex()
    requires e.msg.prevLogIndex > n.baseIndex ==> n.TermAt(e.msg.prevLogIndex) == e.msg.prevLogTerm
    ensures n.term in g.tlog && e.to in g.ids
    ensures Agree(g.log[e.to], g.tlog[n.term], e.msg.prevLogIndex) && Agree(g.log[e.to], g.tlog[n.term], n.commit)
  {
    hide Duty;
    hide NodeStore;
    hide Sound;
    hide CommittedPrefix;
    var v, prev := e.to, e.msg.prevLogIndex;
    CommittedInLeader(g, g.log[v], n.commit, n.term, n.term);
    if prev > n.baseIndex {
      TermAtMeansLog(g, v, n, prev);
      SameTermAgree(g, v, n.term, prev - 1);
    }
  }

  lemma SameTermAgree(g: Ledger, v: NodeId, t: nat, i: nat)
    requires Sound(g) && v in g.ids && t in g.tlog && i < |g.log[v]| && i < |g.tlog[t]|
    requires g.log[v][i].term == g.tlog[t][i].term
    ensures Agree(g.log[v], g.tlog[t], i + 1)
  {
    assert GoodNode(g, v) && GoodTermLog(g, t);
    LogMatching(g, g.log[v], g.tlog[t], i);
  }

  lemma StoredSteps(g: Ledger, e: Envelope<RaftMsg>, n: Node, store: set<Triple>) returns (h: Ledger)
    requires Sound(g) && NodeOk(g, e.to, n, store) && RequestOk(g, e) && e.msg.AppendEntries?
    requires n.term == e.msg.term && n.role == Follower && n.term in g.tlog && e.to in g.log
    requires Agree(g.log[e.to], g.tlog[n.term], e.msg.prevLogIndex) && Agree(g.log[e.to], g.tlog[n.term], n.commit)
    ensures var s := StoreEntries(n, e.msg.prevLogIndex, e.msg.entries);
            s.term == n.term && Took(g, h, e.to, n, s.(commit := CommitAfter(s, e.msg.leaderCommit)), store)
    ensures ReplyOk(h, Envelope(e.to, e.from, AppendReply(n.term, true, e.msg.prevLogIndex + |e.msg.entries|)))
  {
    hide Sound;
    hide Core;
    hide Duty;
    hide Local;
    hide CommittedPrefix;
    hide StoreEntries;
    var v, k := e.to, e.msg.prevLogIndex + |e.msg.entries|;
    NodeFacts(g, v, n, store);
    h := Accept(g, v, k);
    AcceptLocal(g, v, k);
    LocalFacts(g, h, v);
    StoredLog(g, h, e, n, store);
    StoredCore(g, h, e, n, store);
    StoredDuty(g, h, v, n, StoreEntries(n, e.msg.prevLogIndex, e.msg.entries));
  }

  /** What the append loop leaves in the node, in terms of the complete log. */
  lemma StoredLog(g: Ledger, h: Ledger, e: Envelope<RaftMsg>, n: Node, store: set<Triple>)
    requires Sound(g) && Core(g, e.to, n, store) && RequestOk(g, e) && e.msg.AppendEntries? && n.term == e.msg.term
    requires MayAccept(g, e.to, e.msg.prevLogIndex + |e.msg.entries|)
    requires h == Accept(g, e.to, e.msg.prevLogIndex + |e.msg.entries|)
    requires Agree(g.log[e.to], g.tlog[n.term], e.msg.prevLogIndex) && Agree(g.log[e.to], g.tlog[n.term], n.commit)
    ensures n.baseIndex <= |h.log[e.to]|
    ensures StoreEntries(n, e.msg.prevLogIndex, e.msg.entries) == n.(log := h.log[e.to][n.baseIndex..])
    ensures Agree(g.log[e.to], h.log[e.to], n.commit)
    ensures Agree(h.log[e.to], g.tlog[n.term], e.msg.prevLogIndex + |e.msg.entries|)
  {
    hide Sound;
    hide CommittedPrefix;
    hide Fold;
    hide PeersOf;
    hide StoreEntries;
    SameTermSameEntry(g, e.to, n.term);
    StoreEntriesMerges(g.log[e.to], g.tlog[n.term], n, e.msg.prevLogIndex, e.msg.entries);
  }

  /** The commit index of a node may move up to any point of its log that a leader committed. */
  lemma CommitRaised(h: Ledger, v: NodeId, n: Node, c: nat, store: set<Triple>)
    requires Core(h, v, n, store) && n.commit <= c <= n.LastIndex() && CommittedPrefix(h, h.log[v], c, n.term)
    ensures Core(h, v, n.(commit := c), store)
  {
    hide CommittedPrefix;
    hide Fold;
    hide PeersOf;
  }

  lemma StoredNode(g: Ledger, h: Ledger, v: NodeId, n: Node, s: Node)
    requires NodeLog(g, v, n) && Grows(g, h) && h.term == g.term && n.baseIndex <= |h.log[v]|
    requires s == n.(log := h.log[v][n.baseIndex..]) && Agree(g.log[v], h.log[v], n.commit)
    ensures v in h.log && NodeLog(h, v, s) && s.LastIndex() == |h.log[v]|
  {
  }

  lemma StoredCore(g: Ledger, h: Ledger, e: Envelope<RaftMsg>, n: Node, store: set<Triple>)
    requires Core(g, e.to, n, store) && RequestOk(g, e) && e.msg.AppendEntries? && n.term == e.msg.term
    requires Grows(g, h) && h.term == g.term && n.baseIndex <= |h.log[e.to]|
    requires StoreEntries(n, e.msg.prevLogIndex, e.msg.entries) == n.(log := h.log[e.to][n.baseIndex..])
    requires Agree(g.log[e.to], h.log[e.to], n.commit)
    requires Agree(h.log[e.to], g.tlog[n.term], e.msg.prevLogIndex + |e.msg.entries|)
    ensures var s := StoreEntries(n, e.msg.prevLogIndex, e.msg.entries);
            Core(h, e.to, s.(commit := CommitAfter(s, e.msg.leaderCommit)), store)
            && CommitAfter(s, e.msg.leaderCommit) >= n.commit
  {
    hide CommittedPrefix;
    hide Core;
    hide StoreEntries;
    hide Grows;
    var s, t := StoreEntries(n, e.msg.prevLogIndex, e.msg.entries), n.term;
    CoreParts(g, e.to, n, store);
    StoredNode(g, h, e.to, n, s);
    var l := h.log[e.to];
    CoreKept(g, h, e.to, n, s, store);
    AppendCommit(g, e);
    CommittedPrefixGrows(g, h, g.tlog[t], e.msg.leaderCommit, t, l, t);
    if e.msg.leaderCommit > n.commit {
      CommitRaised(h, e.to, s, e.msg.leaderCommit, store);
    }
  }

  lemma CoreParts(g: Ledger, v: NodeId, n: Node, store: set<Triple>)
    requires Core(g, v, n, store)
    ensures NodeLog(g, v, n) && v in g.log
  {
    hide NodeCommit;
    hide NodeStore;
  }

  lemma AppendCommit(g: Ledger, e: Envelope<RaftMsg>)
    requires RequestOk(g, e) && e.msg.AppendEntries?
    ensures e.msg.term in g.tlog && e.msg.leaderCommit <= e.msg.prevLogIndex + |e.msg.entries|
    ensures CommittedPrefix(g, g.tlog[e.msg.term], e.msg.leaderCommit, e.msg.term)
  {
    hide CommittedPrefix;
  }

  lemma StoredDuty(g: Ledger, h: Ledger, v: NodeId, n: Node, s: Node)
    requires Duty(g, v, n) && n.role == Follower && h.votes == g.votes
    requires s == n.(log := s.log)
    ensures forall c :: Duty(h, v, s.(commit := c))
  {
  }

  /** Installing this snapshot would throw away entries that follow a matching one. */
  predicate DiscardsMatch(n: Node, msg: RaftMsg) {
    && msg.InstallSnapshot? && msg.term >= n.term
    && n.commit < msg.lastIncludedIndex < n.LastIndex()
    && n.TermAt(msg.lastIncludedIndex) == msg.lastIncludedTerm
  }

  function Installed(n: Node, msg: RaftMsg): Node
    requires msg.InstallSnapshot?
  {
    n.(baseIndex := msg.lastIncludedIndex, baseTerm := msg.lastIncludedTerm, log := [], snapshot := msg.triples,
       pendingReset := Some(msg.triples), commit := msg.lastIncludedIndex, applied := msg.lastIncludedIndex)
  }

  lemma SnapshotSteps(g: Ledger, e: Envelope<RaftMsg>, n: Node, store: set<Triple>) returns (h: Ledger)
    requires Sound(g) && NodeOk(g, e.to, n, store) && RequestOk(g, e) && e.msg.InstallSnapshot?
    requires !DiscardsMatch(n, e.msg)
    ensures Took(g, h, e.to, n, Handle(n, e.msg).0, store)
    ensures ReplyOk(h, Envelope(e.to, e.from, Handle(n, e.msg).1))
  {
    hide Sound;
    hide NodeOk;
    hide Local;
    hide RequestOk;
    var v, t := e.to, e.msg.term;
    RequestFacts(g, e);
    NodeFacts(g, v, n, store);
    if t < n.term {
      h := g;
      LocalRefl(g, v);
    } else {
      h := FollowingSteps(g, v, n, t, e.from, store);
      var m := Following(n, t, e.from);
      TookFacts(g, h, v, n, m, store);
      NodeFacts(h, v, m, store);
      RequestFrame(g, h, e);
      if e.msg.lastIncludedIndex > m.commit {
        var k := InstallSteps(h, e, m, store);
        TookTrans(g, h, k, v, n, m, Installed(m, e.msg), store, store);
        h := k;
      }
    }
  }

  lemma InstallAllowed(g: Ledger, e: Envelope<RaftMsg>, n: Node, store: set<Triple>)
    requires Sound(g) && NodeOk(g, e.to, n, store) && RequestOk(g, e) && e.msg.InstallSnapshot?
    requires n.term == e.msg.term && n.commit < e.msg.lastIncludedIndex && !DiscardsMatch(n, e.msg)
    ensures MayInstall(g, e.to, e.msg.lastIncludedIndex)
    ensures Agree(g.log[e.to], g.tlog[n.term], n.commit)
  {
    hide Sound;
    hide Duty;
    hide NodeStore;
    hide CommittedPrefix;
    hide Fold;
    CommittedInLeader(g, g.log[e.to], n.commit, n.term, n.term);
    if e.msg.lastIncludedIndex < n.LastIndex() {
      TermAtMeansLog(g, e.to, n, e.msg.lastIncludedIndex);
    }
  }

  lemma InstalledCore(g: Ledger, h: Ledger, e: Envelope<RaftMsg>, n: Node, store: set<Triple>)
    requires Core(g, e.to, n, store) && RequestOk(g, e) && e.msg.InstallSnapshot? && n.term == e.msg.term
    requires Grows(g, h) && h.term == g.term && h.log[e.to] == g.tlog[n.term][..e.msg.lastIncludedIndex]
    ensures Core(h, e.to, Installed(n, e.msg), store)
  {
    hide CommittedPrefix;
    hide Fold;
    hide PeersOf;
    var v, t, b := e.to, n.term, e.msg.lastIncludedIndex;
    CommittedPrefixGrows(g, h, g.tlog[t], b, t, h.log[v], t);
    assert h.log[v][..b] == g.tlog[t][..b];
  }

  lemma InstallSteps(g: Ledger, e: Envelope<RaftMsg>, n: Node, store: set<Triple>) returns (h: Ledger)
    requires Sound(g) && NodeOk(g, e.to, n, store) && RequestOk(g, e) && e.msg.InstallSnapshot?
    requires n.term == e.msg.term && n.role == Follower && n.commit < e.msg.lastIncludedIndex
        && !DiscardsMatch(n, e.msg)
    ensures Took(g, h, e.to, n, Installed(n, e.msg), store)
    ensures h.term == g.term && h.ids == g.ids && Shape(h)
  {
    hide Sound;
    hide Core;
    hide Local;
    hide RequestOk;
    NodeFacts(g, e.to, n, store);
    InstallAllowed(g, e, n, store);
    h := Install(g, e.to, e.msg.lastIncludedIndex);
    InstallLocal(g, e.to, e.msg.lastIncludedIndex);
    LocalFacts(g, h, e.to);
    InstalledCore(g, h, e, n, store);
  }

  // ----------------------------------------------------------------------- replies

  lemma ReplyFacts(g: Ledger, e: Envelope<RaftReply>)
    requires ReplyOk(g, e)
    ensures Shape(g) && e.from in g.ids && e.to in g.ids && e.from != e.to
  {
  }

  lemma ReplySteps(g: Ledger, e: Envelope<RaftReply>, n: Node, store: set<Triple>) returns (h: Ledger)
    requires Sound(g) && NodeOk(g, e.to, n, store) && ReplyOk(g, e)
    ensures Took(g, h, e.to, n, HandleReply(n, e.from, e.msg).0, store)
    ensures SentOk(h, e.to, HandleReply(n, e.from, e.msg).1)
  {
    hide Sound;
    hide Local;
    hide NodeOk;
    hide ReplyOk;
    hide RequestOk;
    hide BecomeLeader;
    hide Acknowledged;
    hide BackedUp;
    hide Took;
    hide SentOk;
    hide ReplicateTo;
    var v := e.to;
    ReplyFacts(g, e);
    NothingSent(g, v);
    if e.msg.term > n.term {
      h := ObserveSteps(g, v, n, e.msg.term, store);
      NothingSent(h, v);
    } else {
      NoStep(g, v, n, store);
      h := g;
      if e.msg.VoteReply? && n.role == Candidate && e.msg.term == n.term && e.msg.granted {
        h := BallotSteps(g, e, n, store);
      } else if e.msg.AppendReply? && n.role == Leader && e.msg.term == n.term {
        if e.msg.success {
          AcknowledgedSteps(g, e, n, store);
        } else {
          RejectedSteps(g, v, e.from, n, e.msg.matchIndex, store);
        }
      } else if e.msg.SnapshotReply? && n.role == Leader {
        SnapshotTaken(g, v, e.from, n, store);
      }
    }
  }

  lemma NoStep(g: Ledger, v: NodeId, n: Node, store: set<Triple>)
    requires Sound(g) && NodeOk(g, v, n, store)
    ensures Took(g, g, v, n, n, store)
  {
    hide Sound;
    hide NodeOk;
    hide Local;
    NodeFacts(g, v, n, store);
    LocalRefl(g, v);
  }

  lemma NothingSent(g: Ledger, v: NodeId)
    ensures SentOk(g, v, [])
  {
  }

  lemma BallotOk(g: Ledger, e: Envelope<RaftReply>, n: Node, store: set<Triple>)
    requires Sound(g) && NodeOk(g, e.to, n, store) && ReplyOk(g, e)
    requires e.msg.VoteReply? && n.role == Candidate && e.msg.term == n.term && e.msg.granted
    ensures Took(g, g, e.to, n, n.(votesGranted := n.votesGranted + {e.from}), store)
  {
    hide Sound;
    hide Core;
    hide Local;
    var m := n.(votesGranted := n.votesGranted + {e.from});
    assert Duty(g, e.to, m);
    Idle(g, e.to, n, m, store);
  }

  lemma BallotSteps(g: Ledger, e: Envelope<RaftReply>, n: Node, store: set<Triple>) returns (h: Ledger)
    requires Sound(g) && NodeOk(g, e.to, n, store) && ReplyOk(g, e)
    requires e.msg.VoteReply? && n.role == Candidate && e.msg.term == n.term && e.msg.granted
    ensures Took(g, h, e.to, n, HandleReply(n, e.from, e.msg).0, store)
    ensures SentOk(h, e.to, HandleReply(n, e.from, e.msg).1)
  {
    hide Sound;
    hide Local;
    hide NodeOk;
    hide ReplyOk;
    hide RequestOk;
    hide BecomeLeader;
    var m := n.(votesGranted := n.votesGranted + {e.from});
    BallotOk(g, e, n, store);
    TookFacts(g, g, e.to, n, m, store);
    h := g;
    if |m.votesGranted| >= m.MajoritySize() {
      h := BecomeLeaderSteps(g, e.to, m, store);
      TookTrans(g, g, h, e.to, n, m, BecomeLeader(m).0, store, store);
    }
  }

  lemma RejectedSteps(g: Ledger, v: NodeId, from: NodeId, n: Node, hint: nat, store: set<Triple>)
    requires Sound(g) && NodeOk(g, v, n, store) && n.role == Leader && Shape(g) && from in g.ids && from != v
    ensures Took(g, g, v, n, BackedUp(n, from, hint), store)
    ensures SentOk(g, v, Single(ReplicateTo(BackedUp(n, from, hint), from)))
  {
    hide Sound;
    hide Local;
    hide Core;
    hide Duty;
    hide RequestOk;
    hide ReplicateTo;
    LeaderFacts(g, v, n);
    var m := BackedUp(n, from, hint);
    IndexesOk(g, v, n, m, store);
    ReplicateToOk(g, v, m, store, from);
  }

  lemma SnapshotTaken(g: Ledger, v: NodeId, from: NodeId, n: Node, store: set<Triple>)
    requires Sound(g) && NodeOk(g, v, n, store) && n.role == Leader && Shape(g) && from in g.ids && from != v
    ensures var m := n.(matchIndex := n.matchIndex[from := n.baseIndex],
        nextIndex := n.nextIndex[from := n.baseIndex + 1]);
            Took(g, g, v, n, m, store) && SentOk(g, v, Single(ReplicateTo(m, from)))
  {
    hide Sound;
    hide Local;
    hide Core;
    hide Duty;
    hide RequestOk;
    hide ReplicateTo;
    NodeFacts(g, v, n, store);
    LeaderFacts(g, v, n);
    var m := n.(matchIndex := n.matchIndex[from := n.baseIndex], nextIndex := n.nextIndex[from := n.baseIndex + 1]);
    IndexesOk(g, v, n, m, store);
    ReplicateToOk(g, v, m, store, from);
  }

  /** The count of matching peers is the size of a set of nodes that stored the index. */
  lemma {:induction false} CountIsQuorum(g: Ledger, n: Node, peers: seq<NodeId>, k: nat) returns (q: set<NodeId>)
    requires Distinct(peers) && k > n.commit
    requires forall p :: p in n.matchIndex ==> Matched(g, n, p, n.matchIndex[p])
    ensures |q| == CountMatched(peers, n.matchIndex, k) && q <= (set p | p in peers)
    ensures Stored(g, q, n.term, k)
  {
    q := {};
    if peers != [] {
      var p := peers[|peers| - 1];
      q := CountIsQuorum(g, n, peers[..|peers| - 1], k);
      if p in n.matchIndex && n.matchIndex[p] >= k {
        assert Matched(g, n, p, n.matchIndex[p]);
        assert p !in q;
        q := q + {p};
      }
    }
  }

  /** The leader only advances its commit index to an entry of its own term that a majority has
      stored. */
  lemma AdvanceIsCommit(g: Ledger, v: NodeId, n: Node, k: nat)
    requires NodeLog(g, v, n) && NodeLeader(g, v, n) && n.role == Leader && g.log[v] == g.tlog[n.term]
    requires n.commit < k <= n.LastIndex() && Committable(n, k)
    ensures Committed(g, n.term, k)
  {
    var q := CountIsQuorum(g, n, n.peers, k);
    assert v !in q;
    var r := q + {v};
    assert |r| == |q| + 1;
    assert Majority(r, g.ids) && Stored(g, r, n.term, k);
    TermAtMeansLog(g, v, n, k);
  }

  lemma AdvancedCore(g: Ledger, v: NodeId, n: Node, store: set<Triple>)
    requires Core(g, v, n, store) && NodeLeader(g, v, n) && n.role == Leader && g.log[v] == g.tlog[n.term]
    ensures Core(g, v, AdvanceCommit(n), store) && n.commit <= AdvanceCommit(n).commit
  {
    hide Fold;
    hide HighestCommittable;
    hide PeersOf;
    hide Committed;
    hide Committable;
    var m := AdvanceCommit(n);
    HighestRange(n, n.LastIndex());
    if m.commit > n.commit {
      AdvanceIsCommit(g, v, n, m.commit);
      assert CommittedBy(g, g.log[v], m.commit, n.term, n.term) by {
        CommittedBound(g, n.term, m.commit);
      }
    }
  }

  lemma CommittedBound(g: Ledger, t: nat, n: nat)
    requires Committed(g, t, n)
    ensures t in g.tlog && n <= |g.tlog[t]|
  {
  }

  lemma AdvancedDuty(g: Ledger, v: NodeId, n: Node)
    requires Duty(g, v, n) && n.role == Leader && n.commit <= AdvanceCommit(n).commit
    ensures Duty(g, v, AdvanceCommit(n))
  {
    hide HighestCommittable;
    var m := AdvanceCommit(n);
    forall p | p in m.matchIndex
      ensures Matched(g, m, p, m.matchIndex[p])
    {
      assert Matched(g, n, p, n.matchIndex[p]);
    }
  }

  lemma AdvanceSteps(g: Ledger, v: NodeId, n: Node, store: set<Triple>)
    requires Sound(g) && NodeOk(g, v, n, store) && n.role == Leader
    ensures Took(g, g, v, n, AdvanceCommit(n), store)
  {
    hide Sound;
    hide Core;
    hide NodeVote;
    hide NodeCandidate;
    hide NodeLeader;
    hide Local;
    hide HighestCommittable;
    NodeFacts(g, v, n, store);
    LeaderFacts(g, v, n);
    LeaderOwnsLog(g, v);
    LocalRefl(g, v);
    AdvancedCore(g, v, n, store);
    AdvancedDuty(g, v, n);
  }

  lemma HighestRange(n: Node, k: nat)
    ensures var c := HighestCommittable(n, k); c == n.commit || (n.commit < c <= k && Committable(n, c))
  {
    hide Committable;
    if k > n.commit && !Committable(n, k) {
      HighestRange(n, k - 1);
    }
  }

  lemma AckBound(g: Ledger, v: NodeId, t: nat)
    requires Sound(g) && (v, t) in g.acks
    ensures t in g.tlog && g.acks[(v, t)] <= |g.tlog[t]|
  {
    assert GoodAck(g, v, t);
  }

  lemma AcknowledgedSteps(g: Ledger, e: Envelope<RaftReply>, n: Node, store: set<Triple>)
    requires Sound(g) && NodeOk(g, e.to, n, store) && ReplyOk(g, e) && n.role == Leader
    requires e.msg.AppendReply? && e.msg.success && e.msg.term == n.term
    ensures Took(g, g, e.to, n, Acknowledged(n, e.from, e.msg.matchIndex).0, store)
    ensures SentOk(g, e.to, Acknowledged(n, e.from, e.msg.matchIndex).1)
  {
    hide Sound;
    hide Local;
    hide Core;
    hide Duty;
    hide RequestOk;
    hide Replicate;
    hide ReplicateTo;
    hide HighestCommittable;
    var v, matched := e.to, e.msg.matchIndex;
    NodeFacts(g, v, n, store);
    LeaderFacts(g, v, n);
    LeaderOwnsLog(g, v);
    AckBound(g, e.from, n.term);
    var m := n.(matchIndex := n.matchIndex[e.from := matched], nextIndex := n.nextIndex[e.from := matched + 1]);
    IndexesOk(g, v, n, m, store);
    AdvanceSteps(g, v, m, store);
    var a := AdvanceCommit(m);
    TookTrans(g, g, g, v, n, m, a, store, store);
    ReplicateToOk(g, v, a, store, e.from);
    ReplicateSteps(g, v, a, store);
    TookTrans(g, g, g, v, n, a, Replicate(a).0, store, store);
  }

  // ------------------------------------------------- clients, applying, compaction

  lemma ProposeSteps(g: Ledger, v: NodeId, n: Node, op: LogOp, store: set<Triple>) returns (h: Ledger)
    requires Sound(g) && NodeOk(g, v, n, store)
    ensures Took(g, h, v, n, Propose(n, op).0, store)
  {
    hide Sound;
    hide NodeOk;
    hide Local;
    hide HighestCommittable;
    NodeFacts(g, v, n, store);
    if n.role != Leader {
      h := g;
      LocalRefl(g, v);
    } else {
      h := ExtendSteps(g, v, n, op, store);
      var m := Extended(n, op);
      if m.peers == [] {
        TookFacts(g, h, v, n, m, store);
        AdvanceSteps(h, v, m, store);
        TookTrans(g, h, h, v, n, m, AdvanceCommit(m), store, store);
      }
    }
  }

  lemma {:induction false} ActionsFold(l: Log, n: Node, k: nat)
    requires n.baseIndex <= k <= n.commit <= |l| && n.log == l[n.baseIndex..]
    ensures Perform(Fold(l[..k]), ActionsAfter(n, k)) == Fold(l[..n.commit])
    decreases n.commit - k
  {
    if k < n.commit {
      ActionsFold(l, n, k + 1);
      assert l[..k + 1][..k] == l[..k];
      assert n.OpAt(k + 1) == Some(l[k].op);
      var rest := ActionsAfter(n, k + 1);
      assert ([Apply(l[k].op)] + rest)[1..] == rest;
    }
  }

  lemma DrainedCore(g: Ledger, v: NodeId, n: Node, store: set<Triple>)
    requires Core(g, v, n, store)
    ensures Core(g, v, DrainApply(n).0, Perform(store, DrainApply(n).1))
    ensures Perform(store, DrainApply(n).1) == Fold(g.log[v][..n.commit])
  {
    hide CommittedPrefix;
    hide PeersOf;
    hide Fold;
    hide ActionsAfter;
    ActionsFold(g.log[v], n, n.applied);
    var rest := ActionsAfter(n, n.applied);
    if n.pendingReset.Some? {
      assert ([Reset(n.pendingReset.value)] + rest)[1..] == rest;
    } else {
      assert [] + rest == rest;
    }
  }

  lemma DrainedDuty(g: Ledger, v: NodeId, n: Node, m: Node)
    requires Duty(g, v, n) && m == n.(applied := m.applied, pendingReset := m.pendingReset)
    ensures Duty(g, v, m)
  {
    if n.role == Leader {
      forall p | p in n.matchIndex
        ensures Matched(g, m, p, n.matchIndex[p])
      {
        assert Matched(g, n, p, n.matchIndex[p]);
      }
    }
  }

  /** Draining brings the store to the fold of the whole committed prefix. */
  lemma DrainSteps(g: Ledger, v: NodeId, n: Node, store: set<Triple>)
    requires Sound(g) && NodeOk(g, v, n, store)
    ensures Took(g, g, v, n, DrainApply(n).0, Perform(store, DrainApply(n).1))
    ensures DrainApply(n).0.applied == n.commit
    ensures Shape(g) && v in g.ids && Perform(store, DrainApply(n).1) == Fold(g.log[v][..n.commit])
  {
    hide Sound;
    hide Local;
    hide Core;
    hide Duty;
    hide Fold;
    hide Perform;
    hide ActionsAfter;
    NodeFacts(g, v, n, store);
    LocalRefl(g, v);
    DrainedCore(g, v, n, store);
    DrainedDuty(g, v, n, DrainApply(n).0);
  }

  lemma CompactedCore(g: Ledger, v: NodeId, n: Node, triples: seq<Triple>, store: set<Triple>)
    requires Core(g, v, n, store) && n.pendingReset.None? && TripleSet(triples) == store
    ensures Core(g, v, Compact(n, n.applied, triples), store)
  {
    hide CommittedPrefix;
    hide PeersOf;
    hide Fold;
    if n.applied > n.baseIndex {
      TermAtMeansLog(g, v, n, n.applied);
      assert Compact(n, n.applied, triples).log == g.log[v][n.applied..];
    }
  }

  lemma CompactedDuty(g: Ledger, v: NodeId, n: Node, m: Node)
    requires Duty(g, v, n) && m.LastIndex() == n.LastIndex()
    requires m == n.(log := m.log, baseIndex := m.baseIndex, baseTerm := m.baseTerm, snapshot := m.snapshot)
    ensures Duty(g, v, m)
  {
    if n.role == Leader {
      forall p | p in n.matchIndex
        ensures Matched(g, m, p, n.matchIndex[p])
      {
        assert Matched(g, n, p, n.matchIndex[p]);
      }
    }
  }

  lemma CompactSteps(g: Ledger, v: NodeId, n: Node, triples: seq<Triple>, store: set<Triple>)
    requires Sound(g) && NodeOk(g, v, n, store) && n.pendingReset.None? && TripleSet(triples) == store
    ensures Took(g, g, v, n, Compact(n, n.applied, triples), store)
  {
    hide Sound;
    hide Local;
    hide Core;
    hide Duty;
    NodeFacts(g, v, n, store);
    LocalRefl(g, v);
    CompactedCore(g, v, n, triples, store);
    CompactedDuty(g, v, n, Compact(n, n.applied, triples));
  }
}
