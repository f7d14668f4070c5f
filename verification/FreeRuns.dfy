/** What every run guarantees, whatever snapshots are delivered: at most one leader a term, and terms
    that never decrease. Logs play no part in either. */
module FreeRuns {
  import opened Wrappers
  import opened RaftTypes
  import opened RaftNode
  import opened RaftLedger
  import opened RaftLink
  import opened RaftSteps
  import opened RaftNetwork

  datatype Victory = Victory(leader: NodeId, voters: set<NodeId>)

  /** Every vote ever given, by voter and term, and who won each term with which votes. */
  datatype Ballots = Ballots(votes: map<(NodeId, nat), NodeId>, won: map<nat, Victory>)

  ghost predicate VotedFor(b: Ballots, v: NodeId, t: nat, c: NodeId) {
    (v, t) in b.votes && b.votes[(v, t)] == c
  }

  ghost predicate AllVotedFor(b: Ballots, q: set<NodeId>, t: nat, c: NodeId) {
    forall v :: v in q ==> VotedFor(b, v, t, c)
  }

  // ------------------------------------------------------------------------ invariant

  ghost predicate NodeCounts(ids: set<NodeId>, b: Ballots, v: NodeId, n: Node) {
    && PeersOf(ids, v, n.peers) && n.id == v
    && (forall u :: (v, u) in b.votes ==> u <= n.term)
    && (match n.votedFor
        case None => (v, n.term) !in b.votes
        case Some(c) => VotedFor(b, v, n.term, c))
    && (n.role == Candidate ==> n.votesGranted <= ids && AllVotedFor(b, n.votesGranted, n.term, v))
    && (n.role == Leader ==> n.term in b.won && b.won[n.term].leader == v)
  }

  ghost predicate Won(ids: set<NodeId>, b: Ballots, t: nat)
    requires t in b.won
  {
    Majority(b.won[t].voters, ids) && AllVotedFor(b, b.won[t].voters, t, b.won[t].leader)
  }

  ghost predicate AllWon(ids: set<NodeId>, b: Ballots) {
    forall t {:trigger Won(ids, b, t)} :: t in b.won ==> Won(ids, b, t)
  }

  ghost predicate ReplyCounts(ids: set<NodeId>, b: Ballots, e: Envelope<RaftReply>) {
    e.from in ids && (e.msg.VoteReply? && e.msg.granted ==> VotedFor(b, e.from, e.msg.term, e.to))
  }

  ghost predicate RequestCounts(ids: set<NodeId>, e: Envelope<RaftMsg>) {
    e.from in ids && (e.msg.RequestVote? ==> e.msg.candidateId == e.from)
  }

  ghost predicate Counted(n: Net, b: Ballots) {
    && AllWon(n.nodes.Keys, b)
    && (forall v {:trigger n.nodes[v]} :: v in n.nodes ==> NodeCounts(n.nodes.Keys, b, v, n.nodes[v]))
    && (forall e :: e in n.requests ==> RequestCounts(n.nodes.Keys, e))
    && forall e :: e in n.replies ==> ReplyCounts(n.nodes.Keys, b, e)
  }

  /** Votes and victories stay on record, and only `v` has voted or won. */
  ghost predicate Extends(b: Ballots, c: Ballots, v: NodeId) {
    && (forall k :: k in b.votes ==> k in c.votes && c.votes[k] == b.votes[k])
    && (forall k :: k in c.votes && k !in b.votes ==> k.0 == v)
    && (forall t :: t in b.won ==> t in c.won && c.won[t] == b.won[t])
  }

  ghost predicate Later(b: Ballots, c: Ballots) {
    forall t :: t in b.won ==> t in c.won && c.won[t] == b.won[t]
  }

  /** Node `v` moved from `n` to `m`. */
  ghost predicate Counts(ids: set<NodeId>, b: Ballots, c: Ballots, v: NodeId, n: Node, m: Node) {
    Extends(b, c, v) && NodeCounts(ids, c, v, m) && AllWon(ids, c) && n.term <= m.term
  }

  // ------------------------------------------------------------------ a node's actions

  /** Neither the term nor the vote changes, and nobody starts to stand or lead. */
  lemma Unmoved(ids: set<NodeId>, b: Ballots, v: NodeId, n: Node, m: Node)
    requires NodeCounts(ids, b, v, n) && AllWon(ids, b)
    requires m.id == n.id && m.peers == n.peers && m.term == n.term && m.votedFor == n.votedFor
    requires m.role == Follower || (m.role == n.role && m.votesGranted == n.votesGranted)
    ensures Counts(ids, b, b, v, n, m)
  {
  }

  lemma Observed(ids: set<NodeId>, b: Ballots, v: NodeId, n: Node, t: nat)
    requires NodeCounts(ids, b, v, n) && AllWon(ids, b)
    ensures Counts(ids, b, b, v, n, ObserveTerm(n, t))
  {
  }

  lemma VotesGrow(ids: set<NodeId>, b: Ballots, c: Ballots, v: NodeId)
    requires AllWon(ids, b) && Extends(b, c, v) && c.won == b.won
    ensures AllWon(ids, c)
  {
    forall t | t in c.won
      ensures Won(ids, c, t)
    {
      assert Won(ids, b, t);
      assert forall p :: p in b.won[t].voters ==> VotedFor(b, p, t, b.won[t].leader);
    }
  }

  lemma StoodCounts(ids: set<NodeId>, b: Ballots, v: NodeId, n: Node) returns (c: Ballots)
    requires NodeCounts(ids, b, v, n) && AllWon(ids, b)
    ensures Counts(ids, b, c, v, n, Stood(n))
  {
    hide PeersOf;
    c := b.(votes := b.votes[(v, n.term + 1) := v]);
    VotesGrow(ids, b, c, v);
    assert v in ids by {
      Member(ids, v, n);
    }
  }

  lemma Member(ids: set<NodeId>, v: NodeId, n: Node)
    requires PeersOf(ids, v, n.peers)
    ensures v in ids
  {
  }

  lemma GrantCounts(ids: set<NodeId>, b: Ballots, v: NodeId, n: Node, m: Node, cand: NodeId) returns (c: Ballots)
    requires NodeCounts(ids, b, v, n) && AllWon(ids, b) && (n.votedFor.None? || n.votedFor == Some(cand))
    requires m.id == n.id && m.peers == n.peers && m.term == n.term && m.votedFor == Some(cand) && m.role == Follower
    ensures Counts(ids, b, c, v, n, m) && VotedFor(c, v, n.term, cand)
  {
    hide PeersOf;
    c := b.(votes := b.votes[(v, n.term) := cand]);
    VotesGrow(ids, b, c, v);
  }

  /** A majority of votes in a term excludes any other winner of that term. */
  lemma OneWinner(ids: set<NodeId>, b: Ballots, v: NodeId, t: nat, q: set<NodeId>)
    requires AllWon(ids, b) && t in b.won && Majority(q, ids) && AllVotedFor(b, q, t, v)
    ensures b.won[t].leader == v
  {
    assert Won(ids, b, t);
    var p := MajoritiesMeet(q, b.won[t].voters, ids);
    assert VotedFor(b, p, t, v) && VotedFor(b, p, t, b.won[t].leader);
  }

  lemma CrownCounts(ids: set<NodeId>, b: Ballots, v: NodeId, n: Node) returns (c: Ballots)
    requires NodeCounts(ids, b, v, n) && AllWon(ids, b) && n.role == Candidate
    requires |n.votesGranted| >= n.MajoritySize()
    ensures Counts(ids, b, c, v, n, BecomeLeader(n).0)
  {
    hide ReplicateToAll;
    assert Majority(n.votesGranted, ids);
    if n.term in b.won {
      OneWinner(ids, b, v, n.term, n.votesGranted);
      c := b;
    } else {
      c := b.(won := b.won[n.term := Victory(v, n.votesGranted)]);
      forall t | t in c.won
        ensures Won(ids, c, t)
      {
        assert t in b.won ==> Won(ids, b, t);
        assert forall p, x :: VotedFor(b, p, t, x) ==> VotedFor(c, p, t, x);
      }
    }
  }

  lemma CountsTrans(ids: set<NodeId>, b: Ballots, c: Ballots, d: Ballots, v: NodeId, n: Node, m: Node, r: Node)
    requires Counts(ids, b, c, v, n, m) && Counts(ids, c, d, v, m, r)
    ensures Counts(ids, b, d, v, n, r)
  {
    hide NodeCounts;
    hide AllWon;
  }

  lemma TickCounts(ids: set<NodeId>, b: Ballots, v: NodeId, n: Node) returns (c: Ballots)
    requires NodeCounts(ids, b, v, n) && AllWon(ids, b)
    ensures Counts(ids, b, c, v, n, Tick(n).0)
  {
    hide NodeCounts;
    hide AllWon;
    hide BecomeLeader;
    hide ReplicateToAll;
    c := b;
    if n.role == Leader {
      Unmoved(ids, b, v, n, Tick(n).0);
    } else {
      var m := n.(timers := n.timers.(electionElapsed := n.timers.electionElapsed + 1));
      Unmoved(ids, b, v, n, m);
      if m.timers.electionElapsed >= m.timers.electionTimeout {
        c := StoodCounts(ids, b, v, m);
        CountsTrans(ids, b, b, c, v, n, m, Stood(m));
        if |Stood(m).votesGranted| >= Stood(m).MajoritySize() {
          var d := CrownCounts(ids, c, v, Stood(m));
          CountsTrans(ids, b, c, d, v, n, Stood(m), BecomeLeader(Stood(m)).0);
          c := d;
        }
      }
    }
  }

  lemma VoteCounts(ids: set<NodeId>, b: Ballots, v: NodeId, n: Node, term: nat, cand: NodeId, lastIndex: nat,
                   lastTerm: nat) returns (c: Ballots)
    requires NodeCounts(ids, b, v, n) && AllWon(ids, b)
    ensures var r := HandleRequestVote(n, term, cand, lastIndex, lastTerm);
            && Counts(ids, b, c, v, n, r.0)
            && (r.1.granted ==> VotedFor(c, v, r.1.term, cand))
  {
    hide NodeCounts;
    hide AllWon;
    hide LogOk;
    c := b;
    if term < n.term {
      Unmoved(ids, b, v, n, n);
    } else {
      Observed(ids, b, v, n, term);
      var m := ObserveTerm(n, term);
      if (m.votedFor.None? || m.votedFor == Some(cand)) && LogOk(m, lastIndex, lastTerm) {
        var r := HandleRequestVote(n, term, cand, lastIndex, lastTerm).0;
        c := GrantCounts(ids, b, v, m, r, cand);
        CountsTrans(ids, b, b, c, v, n, m, r);
      }
    }
  }

  lemma HandleCounts(ids: set<NodeId>, b: Ballots, v: NodeId, n: Node, msg: RaftMsg) returns (c: Ballots)
    requires NodeCounts(ids, b, v, n) && AllWon(ids, b)
    ensures var r := Handle(n, msg);
            && Counts(ids, b, c, v, n, r.0)
            && (r.1.VoteReply? && r.1.granted ==> msg.RequestVote? && VotedFor(c, v, r.1.term, msg.candidateId))
  {
    hide NodeCounts;
    hide AllWon;
    hide HandleRequestVote;
    hide StoreEntries;
    c := b;
    if msg.RequestVote? {
      c := VoteCounts(ids, b, v, n, msg.term, msg.candidateId, msg.lastLogIndex, msg.lastLogTerm);
    } else {
      var m := if msg.term < n.term then n else ObserveTerm(n, msg.term);
      Observed(ids, b, v, n, if msg.term < n.term then 0 else msg.term);
      if msg.AppendEntries? {
        StoreFields(Following(n, msg.term, msg.leaderId), msg.prevLogIndex, msg.entries);
      }
      Unmoved(ids, b, v, m, Handle(n, msg).0);
      CountsTrans(ids, b, b, b, v, n, m, Handle(n, msg).0);
    }
  }

  lemma BallotCounts(ids: set<NodeId>, b: Ballots, v: NodeId, n: Node, from: NodeId) returns (c: Ballots)
    requires NodeCounts(ids, b, v, n) && AllWon(ids, b) && n.role == Candidate
    requires from in ids && VotedFor(b, from, n.term, v)
    ensures Counts(ids, b, c, v, n, HandleReply(n, from, VoteReply(n.term, true)).0)
  {
    hide AllWon;
    hide BecomeLeader;
    var m := n.(votesGranted := n.votesGranted + {from});
    assert Counts(ids, b, b, v, n, m);
    c := b;
    if |m.votesGranted| >= m.MajoritySize() {
      c := CrownCounts(ids, b, v, m);
      CountsTrans(ids, b, b, c, v, n, m, BecomeLeader(m).0);
    }
  }

  lemma ReplyHeard(ids: set<NodeId>, b: Ballots, v: NodeId, n: Node, e: Envelope<RaftReply>) returns (c: Ballots)
    requires NodeCounts(ids, b, v, n) && AllWon(ids, b) && ReplyCounts(ids, b, e) && e.to == v
    ensures Counts(ids, b, c, v, n, HandleReply(n, e.from, e.msg).0)
  {
    hide NodeCounts;
    hide AllWon;
    hide BecomeLeader;
    hide ReplicateTo;
    hide ReplicateToAll;
    hide HighestCommittable;
    c := b;
    if e.msg.term > n.term {
      Observed(ids, b, v, n, e.msg.term);
    } else if e.msg.VoteReply? && n.role == Candidate && e.msg.term == n.term && e.msg.granted {
      c := BallotCounts(ids, b, v, n, e.from);
    } else {
      Unmoved(ids, b, v, n, HandleReply(n, e.from, e.msg).0);
    }
  }

  lemma ProposeCounts(ids: set<NodeId>, b: Ballots, v: NodeId, n: Node, op: LogOp)
    requires NodeCounts(ids, b, v, n) && AllWon(ids, b)
    ensures Counts(ids, b, b, v, n, Propose(n, op).0)
  {
    hide NodeCounts;
    hide AllWon;
    hide HighestCommittable;
    Unmoved(ids, b, v, n, Propose(n, op).0);
  }

  // ------------------------------------------------------------------------- messages

  ghost predicate OwnBallots(v: NodeId, outs: seq<Outgoing>) {
    forall o :: o in outs && o.msg.RequestVote? ==> o.msg.candidateId == v
  }

  lemma {:induction false} ReplicateAsksNone(n: Node, peers: seq<NodeId>)
    ensures OwnBallots(n.id, ReplicateToAll(n, peers))
  {
    if peers != [] {
      ReplicateAsksNone(n, peers[..|peers| - 1]);
    }
  }

  lemma TickAsks(n: Node)
    ensures OwnBallots(n.id, Tick(n).1)
  {
    hide ReplicateToAll;
    var m := n.(timers := n.timers.(heartbeatElapsed := n.timers.heartbeatElapsed + 1));
    ReplicateAsksNone(m, m.peers);
    var s := Stood(n.(timers := n.timers.(electionElapsed := n.timers.electionElapsed + 1)));
    ReplicateAsksNone(Crowned(s), s.peers);
  }

  lemma ReplyAsks(n: Node, from: NodeId, reply: RaftReply)
    ensures OwnBallots(n.id, HandleReply(n, from, reply).1)
  {
    hide ReplicateToAll;
    hide HighestCommittable;
    if reply.VoteReply? {
      var m := n.(votesGranted := n.votesGranted + {from});
      ReplicateAsksNone(Crowned(m), m.peers);
    } else if reply.AppendReply? {
      var m := n.(matchIndex := n.matchIndex[from := reply.matchIndex],
                  nextIndex := n.nextIndex[from := reply.matchIndex + 1]);
      var a := AdvanceCommit(m);
      ReplicateAsksNone(a, a.peers);
    }
  }

  // ------------------------------------------------------------------------ every step

  /** One step of a free run. */
  ghost predicate Forward(n: Net, b: Ballots, m: Net, c: Ballots) {
    && Counted(m, c) && Later(b, c) && n.nodes.Keys == m.nodes.Keys
    && forall v {:trigger m.nodes[v]} :: v in n.nodes ==>
         n.nodes[v].term <= m.nodes[v].term
  }

  lemma OthersCount(ids: set<NodeId>, b: Ballots, c: Ballots, v: NodeId, w: NodeId, n: Node)
    requires Extends(b, c, v) && w != v && NodeCounts(ids, b, w, n)
    ensures NodeCounts(ids, c, w, n)
  {
    hide PeersOf;
    assert (w, n.term) in c.votes ==> (w, n.term) in b.votes;
    forall u | (w, u) in c.votes
      ensures u <= n.term
    {
      assert (w, u) in b.votes;
    }
    assert forall p :: VotedFor(b, p, n.term, w) ==> VotedFor(c, p, n.term, w);
  }

  lemma CountGlue(n: Net, b: Ballots, m: Net, c: Ballots, v: NodeId)
    requires Counted(n, b) && v in n.nodes && v in m.nodes && m.nodes == n.nodes[v := m.nodes[v]]
    requires Counts(n.nodes.Keys, b, c, v, n.nodes[v], m.nodes[v])
    requires forall e :: e in m.requests && e !in n.requests ==> RequestCounts(n.nodes.Keys, e)
    requires forall e :: e in m.replies && e !in n.replies ==> ReplyCounts(n.nodes.Keys, c, e)
    ensures Forward(n, b, m, c)
  {
    hide NodeCounts;
    hide AllWon;
    assert m.nodes.Keys == n.nodes.Keys;
    forall w | w in m.nodes
      ensures NodeCounts(m.nodes.Keys, c, w, m.nodes[w])
    {
      if w != v {
        OthersCount(n.nodes.Keys, b, c, v, w, n.nodes[w]);
      }
    }
    forall e | e in m.replies
      ensures ReplyCounts(m.nodes.Keys, c, e)
    {
      if e in n.replies {
        assert ReplyCounts(n.nodes.Keys, b, e);
      }
    }
  }

  lemma EmitCounts(n: Net, b: Ballots, c: Ballots, v: NodeId, r: (Node, seq<Outgoing>))
    requires Counted(n, b) && v in n.nodes && Counts(n.nodes.Keys, b, c, v, n.nodes[v], r.0) && OwnBallots(v, r.1)
    ensures Forward(n, b, Emit(n, v, r), c)
  {
    hide Counts;
    hide Forward;
    hide Counted;
    CountGlue(n, b, Emit(n, v, r), c, v);
  }

  lemma FreeStep(n: Net, b: Ballots, s: Step) returns (c: Ballots)
    requires Counted(n, b) && Possible(n, s)
    ensures Forward(n, b, Next(n, s), c)
  {
    hide NodeCounts;
    hide AllWon;
    hide Counts;
    hide Forward;
    hide Tick;
    hide Handle;
    hide HandleReply;
    hide Propose;
    hide ReplicateToAll;
    hide Perform;
    hide ActionsAfter;
    var v := Actor(s);
    var ids, node := n.nodes.Keys, n.nodes[v];
    CountedId(ids, b, v, node);
    c := b;
    match s
    case TickAt(_) =>
      c := TickCounts(ids, b, v, node);
      TickAsks(node);
      EmitCounts(n, b, c, v, Tick(node));
    case Deliver(e) =>
      c := HandleCounts(ids, b, v, node, e.msg);
      assert RequestCounts(ids, e);
      CountGlue(n, b, Next(n, s), c, v);
    case Answer(e) =>
      c := ReplyHeard(ids, b, v, node, e);
      ReplyAsks(node, e.from, e.msg);
      EmitCounts(n, b, c, v, HandleReply(node, e.from, e.msg));
    case Submit(_, op) =>
      ProposeCounts(ids, b, v, node, op);
      CountGlue(n, b, Next(n, s), c, v);
    case Push(_) =>
      Unmoved(ids, b, v, node, ReplicateNow(node).0);
      ReplicateAsksNone(node, node.peers);
      EmitCounts(n, b, c, v, ReplicateNow(node));
    case Drain(_) =>
      Unmoved(ids, b, v, node, DrainApply(node).0);
      CountGlue(n, b, Next(n, s), c, v);
    case Compaction(_, triples) =>
      Unmoved(ids, b, v, node, Compact(node, node.applied, triples));
      CountGlue(n, b, Next(n, s), c, v);
    case Revive(_) =>
      Unmoved(ids, b, v, node, NoteRevived(node));
      CountGlue(n, b, Next(n, s), c, v);
  }

  lemma CountedId(ids: set<NodeId>, b: Ballots, v: NodeId, n: Node)
    requires NodeCounts(ids, b, v, n)
    ensures n.id == v && v in ids
  {
  }

  lemma InitialCounted(n: Net) returns (b: Ballots)
    requires Initial(n)
    ensures Counted(n, b)
  {
    hide PeersOf;
    b := Ballots(map[], map[]);
  }

  ghost predicate CountedRun(nets: seq<Net>, bs: seq<Ballots>) {
    && |bs| == |nets| && |nets| > 0 && Counted(nets[0], bs[0])
    && forall i {:trigger bs[i]} :: 0 <= i < |nets| - 1 ==> Forward(nets[i], bs[i], nets[i + 1], bs[i + 1])
  }

  lemma {:induction false} FreeCounted(nets: seq<Net>, steps: seq<Step>) returns (bs: seq<Ballots>)
    requires FreeRun(nets, steps)
    ensures CountedRun(nets, bs)
  {
    hide Counted;
    hide Forward;
    hide Initial;
    hide Possible;
    hide Next;
    if steps == [] {
      var b := InitialCounted(nets[0]);
      bs := [b];
    } else {
      var k := |steps| - 1;
      assert FreeRun(nets[..|nets| - 1], steps[..k]);
      var before := FreeCounted(nets[..|nets| - 1], steps[..k]);
      StillCounted(nets[..|nets| - 1], before, k);
      var c := FreeStep(nets[k], before[k], steps[k]);
      bs := before + [c];
      forall i | 0 <= i < |nets| - 1
        ensures Forward(nets[i], bs[i], nets[i + 1], bs[i + 1])
      {
        if i < k {
          assert before[i] == bs[i] && before[i + 1] == bs[i + 1];
        }
      }
    }
  }

  lemma StillCounted(nets: seq<Net>, bs: seq<Ballots>, i: nat)
    requires CountedRun(nets, bs) && i < |nets|
    ensures Counted(nets[i], bs[i])
  {
    hide Counted;
    if i > 0 {
      assert Forward(nets[i - 1], bs[i - 1], nets[i], bs[i]);
    }
  }

  lemma {:induction false} ForwardBetween(nets: seq<Net>, bs: seq<Ballots>, i: nat, j: nat)
    requires CountedRun(nets, bs) && i <= j < |nets|
    ensures Forward(nets[i], bs[i], nets[j], bs[j])
    decreases j - i
  {
    hide Counted;
    hide Forward;
    if i == j {
      StillCounted(nets, bs, i);
      ForwardRefl(nets[i], bs[i]);
    } else {
      ForwardBetween(nets, bs, i, j - 1);
      ForwardTrans(nets[i], bs[i], nets[j - 1], bs[j - 1], nets[j], bs[j]);
    }
  }

  lemma ForwardRefl(n: Net, b: Ballots)
    requires Counted(n, b)
    ensures Forward(n, b, n, b)
  {
    hide Counted;
  }

  lemma ForwardTrans(n: Net, b: Ballots, m: Net, c: Ballots, r: Net, d: Ballots)
    requires Forward(n, b, m, c) && Forward(m, c, r, d)
    ensures Forward(n, b, r, d)
  {
    hide Counted;
    hide Later;
    LaterTrans(b, c, d);
    forall v | v in n.nodes
      ensures n.nodes[v].term <= r.nodes[v].term
    {
      assert n.nodes[v].term <= m.nodes[v].term;
    }
  }

  lemma LaterTrans(b: Ballots, c: Ballots, d: Ballots)
    requires Later(b, c) && Later(c, d)
    ensures Later(b, d)
  {
  }

  // --------------------------------------------------------------------- main theorems

  /** At most one node ever leads a term, at any two moments, whatever snapshots are delivered. */
  lemma ElectionSafety(nets: seq<Net>, steps: seq<Step>, i: nat, j: nat, u: NodeId, v: NodeId)
    requires FreeRun(nets, steps) && i <= j < |nets| && u in nets[i].nodes && v in nets[j].nodes
    requires nets[i].nodes[u].role == Leader && nets[j].nodes[v].role == Leader
    requires nets[i].nodes[u].term == nets[j].nodes[v].term
    ensures u == v
  {
    hide FreeRun;
    hide PeersOf;
    hide AllWon;
    var bs := FreeCounted(nets, steps);
    StillCounted(nets, bs, i);
    ForwardBetween(nets, bs, i, j);
  }

  /** Terms never decrease, whatever snapshots are delivered. */
  lemma TermsOnlyGrow(nets: seq<Net>, steps: seq<Step>, i: nat, j: nat, v: NodeId)
    requires FreeRun(nets, steps) && i <= j < |nets| && v in nets[i].nodes
    ensures v in nets[j].nodes
    ensures nets[i].nodes[v].term <= nets[j].nodes[v].term
  {
    hide FreeRun;
    hide Counted;
    var bs := FreeCounted(nets, steps);
    ForwardBetween(nets, bs, i, j);
    assert nets[j].nodes[v] == nets[j].nodes[v];
  }
}
