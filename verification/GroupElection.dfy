/** Electing the most up-to-date running replica always succeeds: within two elections, and so within
    the driver's thousand ticks, whatever terms and votes the replicas start with. */
module GroupElection {
  import opened Wrappers
  import opened RaftTypes
  import opened RaftNode
  import opened RaftSteps
  import opened TripleStore
  import opened RaftLedger
  import opened RaftLink
  import opened RaftNetwork
  import opened RaftSafety
  import opened Traces
  import opened GroupSpec
  import opened GroupRuns
  import opened GroupSafety

  // ------------------------------------------------------------ candidate and voters

  ghost predicate Indexed(n: Node) {
    n.baseIndex <= n.applied <= n.commit <= n.LastIndex()
  }

  /** Terms never decrease along the log and do not exceed the node's own. */
  ghost predicate SortedTerms(n: Node) {
    && n.baseTerm <= n.term
    && (forall i :: 0 <= i < |n.log| ==> n.baseTerm <= n.log[i].term <= n.term)
    && forall i, j :: 0 <= i < j < |n.log| ==> n.log[i].term <= n.log[j].term
  }

  ghost predicate CandidateOk(c: Node) {
    Indexed(c) && SortedTerms(c)
  }

  /** `n` accepts the candidate's log, and its commit index lies within it. */
  ghost predicate VoterOk(c: Node, n: Node) {
    && LogOk(n, c.LastIndex(), c.LastLogTerm())
    && n.applied <= n.commit <= n.LastIndex() && n.commit <= c.LastIndex()
  }

  /** Any message the candidate may have sent, seen against its present log. */
  ghost predicate Fits(c: Node, msg: RaftMsg) {
    && msg.term <= c.term
    && match msg
       case RequestVote(_, _, _, _) => true
       case AppendEntries(_, _, prev, _, commit, entries) =>
         && c.role != Candidate && commit <= c.LastIndex()
         && (entries != [] ==> prev + |entries| == c.LastIndex() && entries[|entries| - 1].term == c.LastLogTerm())
       case InstallSnapshot(_, _, index, term, _) =>
         && c.role != Candidate && index <= c.LastIndex()
         && (c.LastLogTerm() > term || (c.LastLogTerm() == term && c.LastIndex() >= index))
  }

  /** The append loop leaves the log alone, or ending exactly with the last entry sent. */
  lemma {:induction false} StoreEnds(n: Node, prev: nat, entries: Log)
    requires prev <= n.LastIndex()
    ensures var s := StoreEntries(n, prev, entries);
            && prev + |entries| <= s.LastIndex()
            && (s.log == n.log || (entries != [] && s.LastIndex() == prev + |entries|
                                   && s.LastLogTerm() == entries[|entries| - 1].term))
            && s == n.(log := s.log)
  {
    if entries != [] {
      StoreEnds(n, prev, entries[..|entries| - 1]);
    }
  }

  lemma VoterStores(c: Node, n: Node, prev: nat, entries: Log, commit: nat)
    requires VoterOk(c, n) && prev <= n.LastIndex() && commit <= c.LastIndex()
    requires entries != [] ==> prev + |entries| == c.LastIndex() && entries[|entries| - 1].term == c.LastLogTerm()
    ensures var s := StoreEntries(n, prev, entries);
            var k := if commit > s.commit then (if commit <= s.LastIndex() then commit else s.LastIndex())
                else s.commit;
            VoterOk(c, s.(commit := k)) && s.term == n.term
  {
    hide StoreEntries;
    StoreEnds(n, prev, entries);
  }

  lemma VoterAppends(c: Node, n: Node, msg: RaftMsg)
    requires VoterOk(c, n) && Fits(c, msg) && msg.AppendEntries?
    ensures var r := HandleAppendEntries(n, msg.term, msg.leaderId, msg.prevLogIndex, msg.prevLogTerm,
        msg.leaderCommit, msg.entries);
            && VoterOk(c, r.0)
            && r.0.term == (if n.term < msg.term then msg.term else n.term) == r.1.term
  {
    hide StoreEntries;
    var m := Following(n, msg.term, msg.leaderId);
    assert VoterOk(c, m) && m.LastIndex() == n.LastIndex();
    if msg.prevLogIndex <= n.LastIndex() {
      VoterStores(c, m, msg.prevLogIndex, msg.entries, msg.leaderCommit);
    }
  }

  lemma VoterKeeps(c: Node, n: Node, msg: RaftMsg)
    requires VoterOk(c, n) && Fits(c, msg)
    ensures VoterOk(c, Handle(n, msg).0)
    ensures Handle(n, msg).0.term == (if n.term < msg.term then msg.term else n.term) == Handle(n, msg).1.term
  {
    hide HandleAppendEntries;
    if msg.AppendEntries? {
      VoterAppends(c, n, msg);
    }
  }

  lemma ReplicateFits(c: Node, p: NodeId)
    requires CandidateOk(c)
    ensures var o := ReplicateTo(c, p); o.Some? ==> Fits(c, o.value.msg)
  {
  }

  ghost predicate AllFit(c: Node, outs: seq<Outgoing>) {
    forall o :: o in outs ==> Fits(c, o.msg)
  }

  lemma {:induction false} ReplicateAllFits(c: Node, peers: seq<NodeId>)
    requires CandidateOk(c)
    ensures AllFit(c, ReplicateToAll(c, peers))
  {
    hide CandidateOk;
    hide Fits;
    hide ReplicateTo;
    if peers != [] {
      ReplicateAllFits(c, peers[..|peers| - 1]);
      ReplicateFits(c, peers[|peers| - 1]);
    }
  }

  /** What the candidate's own state may do during a delivery. */
  ghost predicate CandidateOnward(c: Node, d: Node) {
    && c.term <= d.term && c.LastIndex() <= d.LastIndex()
    && (d.LastLogTerm() > c.LastLogTerm() || (d.LastLogTerm() == c.LastLogTerm() && d.log == c.log))
    && (c.role != Candidate ==> d.role != Candidate && d.log == c.log)
    && d.baseIndex == c.baseIndex && d.baseTerm == c.baseTerm
  }

  lemma CrownKeeps(c: Node)
    requires CandidateOk(c) && StandsHigher(c) && c.role == Candidate
    ensures var r := BecomeLeader(c);
            CandidateOk(r.0) && CandidateOnward(c, r.0) && r.0.term == c.term && r.0.role == Leader && AllFit(r.0, r.1)
  {
    hide ReplicateToAll;
    var d := Crowned(c);
    assert CandidateOk(d);
    ReplicateAllFits(d, d.peers);
    FitsTimers(d, Replicate(d).0, Replicate(d).1);
  }

  lemma FitsTimers(c: Node, d: Node, outs: seq<Outgoing>)
    requires AllFit(c, outs) && d == c.(timers := d.timers)
    ensures AllFit(d, outs)
  {
    forall o | o in outs
      ensures Fits(d, o.msg)
    {
      assert Fits(c, o.msg);
    }
  }

  /** While it stands, the candidate's last entry is from an earlier term than the one it stands in. */
  ghost predicate StandsHigher(c: Node) {
    c.role == Candidate && c.log != [] ==> c.LastLogTerm() < c.term
  }

  lemma CommitKeeps(c: Node, d: Node)
    requires CandidateOk(c) && c.commit <= d.commit <= c.LastIndex()
    requires d == c.(nextIndex := d.nextIndex, matchIndex := d.matchIndex, commit := d.commit, timers := d.timers)
    ensures CandidateOk(d) && CandidateOnward(c, d)
  {
  }

  lemma CommitInside(c: Node)
    requires CandidateOk(c)
    ensures c.commit <= c.LastIndex()
  {
  }

  lemma AcknowledgedKeeps(c: Node, from: NodeId, matched: nat)
    requires CandidateOk(c) && c.role == Leader
    ensures var r := Acknowledged(c, from, matched);
            CandidateOk(r.0) && CandidateOnward(c, r.0) && r.0.term == c.term && r.0.role == Leader && AllFit(r.0, r.1)
  {
    hide CandidateOk;
    hide CandidateOnward;
    hide Fits;
    hide ReplicateToAll;
    hide ReplicateTo;
    hide HighestCommittable;
    var m := c.(matchIndex := c.matchIndex[from := matched], nextIndex := c.nextIndex[from := matched + 1]);
    var a := AdvanceCommit(m);
    CommitInside(c);
    HighestRange(m, m.LastIndex());
    CommitKeeps(c, a);
    CommitKeeps(c, Replicate(a).0);
    ReplicateFits(a, from);
    ReplicateAllFits(a, a.peers);
    FitsTimers(a, Replicate(a).0, Replicate(a).1);
  }

  lemma RetryKeeps(c: Node, d: Node, from: NodeId)
    requires CandidateOk(c) && c.role == Leader && d == c.(nextIndex := d.nextIndex, matchIndex := d.matchIndex)
    ensures CandidateOk(d) && CandidateOnward(c, d) && AllFit(d, Single(ReplicateTo(d, from)))
  {
    ReplicateFits(d, from);
  }

  lemma ObserveKeeps(c: Node, t: nat)
    requires CandidateOk(c) && StandsHigher(c)
    ensures CandidateOk(ObserveTerm(c, t)) && StandsHigher(ObserveTerm(c, t)) && CandidateOnward(c, ObserveTerm(c, t))
  {
  }

  lemma VoteKeeps(c: Node, votes: set<NodeId>)
    requires CandidateOk(c) && StandsHigher(c) && c.role == Candidate
    ensures var d := c.(votesGranted := votes);
            && CandidateOk(d) && StandsHigher(d) && CandidateOnward(c, d)
            && CandidateOk(BecomeLeader(d).0) && CandidateOnward(c, BecomeLeader(d).0)
            && AllFit(BecomeLeader(d).0, BecomeLeader(d).1)
            && BecomeLeader(d).0.term == c.term && BecomeLeader(d).0.role == Leader
  {
    hide BecomeLeader;
    CrownKeeps(c.(votesGranted := votes));
  }

  lemma LeaderStands(c: Node)
    requires c.role == Leader
    ensures StandsHigher(c)
  {
  }

  lemma CandidateKeeps(c: Node, from: NodeId, reply: RaftReply)
    requires CandidateOk(c) && StandsHigher(c)
    ensures var r := HandleReply(c, from, reply);
            && CandidateOk(r.0) && StandsHigher(r.0) && CandidateOnward(c, r.0) && AllFit(r.0, r.1)
            && r.0.term == (if c.term < reply.term then reply.term else c.term)
            && (reply.term <= c.term && c.role == Leader ==> r.0.role == Leader)
  {
    hide BecomeLeader;
    hide Acknowledged;
    hide ReplicateTo;
    hide CandidateOk;
    hide CandidateOnward;
    hide StandsHigher;
    OnwardSame(c);
    LeaderStands(c.(role := Leader));
    LeaderStands(HandleReply(c, from, reply).0.(role := Leader));
    if reply.term > c.term {
      ObserveKeeps(c, reply.term);
    } else if c.role == Candidate {
      VoteKeeps(c, c.votesGranted + {from});
    } else if c.role == Leader {
      match reply
      case VoteReply(term, granted) =>
      case AppendReply(term, success, matched) =>
        AcknowledgedKeeps(c, from, matched);
        RetryKeeps(c, BackedUp(c, from, matched), from);
      case SnapshotReply(term) =>
        RetryKeeps(c, c.(matchIndex := c.matchIndex[from := c.baseIndex],
                         nextIndex := c.nextIndex[from := c.baseIndex + 1]), from);
    }
  }

  lemma FitsOn(c: Node, d: Node, msg: RaftMsg)
    requires Fits(c, msg) && CandidateOnward(c, d)
    ensures Fits(d, msg)
  {
  }

  lemma VoterOn(c: Node, d: Node, n: Node)
    requires VoterOk(c, n) && CandidateOnward(c, d)
    ensures VoterOk(d, n)
  {
  }

  // ------------------------------------------------------------------ one delivery

  predicate Up(g: Group, p: NodeId) {
    p in g.nodes && p !in g.down
  }

  ghost predicate Ready(g: Group, c: NodeId) {
    && WellFormed(g) && Up(g, c) && CandidateOk(g.nodes[c]) && StandsHigher(g.nodes[c])
    && forall p :: Up(g, p) && p != c ==> VoterOk(g.nodes[c], g.nodes[p])
  }

  ghost predicate FromCandidate(g: Group, c: NodeId, q: seq<Mail>) {
    && c in g.nodes
    && forall m :: m in q ==> m.from == c && m.out.to in g.nodes && m.out.to != c && Fits(g.nodes[c], m.out.msg)
  }

  /** What one exchange leaves alone, and what it does to the two nodes. */
  ghost predicate Exchanged(g: Group, h: Group, c: NodeId, p: NodeId) {
    && h.nodes.Keys == g.nodes.Keys && h.down == g.down && h.replicas == g.replicas
    && c in g.nodes && p in g.nodes && CandidateOnward(g.nodes[c], h.nodes[c])
    && (forall x :: x in g.nodes && x != c && x != p ==> h.nodes[x] == g.nodes[x])
    && (Up(g, p) ==> h.nodes[p].term <= h.nodes[c].term)
    && (!Up(g, p) ==> h == g)
    && (g.nodes[c].role == Leader && (Up(g, p) ==> g.nodes[p].term <= g.nodes[c].term) ==>
          h.nodes[c].role == Leader && h.nodes[c].term == g.nodes[c].term)
  }

  lemma ExchangeElects(g: Group, c: NodeId, m: Mail, rest: seq<Mail>)
    requires Ready(g, c) && FromCandidate(g, c, [m] + rest)
    ensures m.from in g.nodes && m.out.to in g.nodes
    ensures var (h, more) := Exchange(g, m);
            Ready(h, c) && FromCandidate(h, c, rest + more) && Exchanged(g, h, c, m.out.to)
  {
    hide WellFormed;
    hide Handle;
    hide HandleReply;
    hide CandidateOk;
    hide StandsHigher;
    hide VoterOk;
    hide Fits;
    hide CandidateOnward;
    assert ([m] + rest)[0] == m;
    var p := m.out.to;
    var (h, more) := Exchange(g, m);
    if p in g.down {
      OnwardSame(g.nodes[c]);
      RestFits(g, g, c, m, rest, []);
    } else {
      var heard := Handle(g.nodes[p], m.out.msg);
      VoterKeeps(g.nodes[c], g.nodes[p], m.out.msg);
      var back := HandleReply(g.nodes[c], p, heard.1);
      CandidateKeeps(g.nodes[c], p, heard.1);
      assert h.nodes == g.nodes[p := heard.0][c := back.0];
      forall x | Up(h, x) && x != c
        ensures VoterOk(h.nodes[c], h.nodes[x])
      {
        VoterOn(g.nodes[c], back.0, if x == p then heard.0 else g.nodes[x]);
      }
      PeersExcept(g, c);
      ReplySentTo(g.nodes[c], p, heard.1, g.nodes.Keys - {c});
      RestFits(g, h, c, m, rest, back.1);
      OnwardTerm(g.nodes[c], back.0);
      FitsTerm(g.nodes[c], m.out.msg);
    }
  }

  lemma PeersExcept(g: Group, c: NodeId)
    requires WellFormed(g) && c in g.nodes
    ensures forall p :: p in g.nodes[c].peers <==> p in g.nodes.Keys - {c}
  {
    OthersMembers(g.replicas, c);
  }

  lemma OnwardSame(c: Node)
    ensures CandidateOnward(c, c)
  {
  }

  lemma OnwardTerm(c: Node, d: Node)
    requires CandidateOnward(c, d)
    ensures c.term <= d.term
  {
  }

  lemma FitsTerm(c: Node, msg: RaftMsg)
    requires Fits(c, msg)
    ensures msg.term <= c.term
  {
  }

  lemma RestFits(g: Group, h: Group, c: NodeId, m: Mail, rest: seq<Mail>, outs: seq<Outgoing>)
    requires FromCandidate(g, c, [m] + rest) && h.nodes.Keys == g.nodes.Keys && CandidateOnward(g.nodes[c], h.nodes[c])
    requires AllFit(h.nodes[c], outs) && forall o :: o in outs ==> o.to in g.nodes && o.to != c
    ensures FromCandidate(h, c, rest + Addressed(c, outs))
  {
    hide Fits;
    hide CandidateOnward;
    forall x | x in rest + Addressed(c, outs)
      ensures x.from == c && x.out.to in h.nodes && x.out.to != c && Fits(h.nodes[c], x.out.msg)
    {
      if x in rest {
        assert x in [m] + rest;
        FitsOn(g.nodes[c], h.nodes[c], x.out.msg);
      } else {
        assert x in Addressed(c, outs) && x.out in outs;
      }
    }
  }

  // ---------------------------------------------------------------- the first election

  /** Every running replica outside `pending` has a term no higher than the candidate's. */
  ghost predicate Above(g: Group, c: NodeId, pending: set<NodeId>) {
    && c in g.nodes
    && forall p {:trigger g.nodes[p]} :: Up(g, p) && p != c && p !in pending ==> g.nodes[p].term <= g.nodes[c].term
  }

  lemma AboveOn(g: Group, h: Group, c: NodeId, p: NodeId, pending: set<NodeId>)
    requires Above(g, c, pending) && Exchanged(g, h, c, p)
    ensures Above(h, c, pending - {p})
    ensures g.nodes[c].role == Leader && p !in pending && p != c ==> h.nodes[c].role == Leader
  {
    hide CandidateOnward;
    OnwardTerm(g.nodes[c], h.nodes[c]);
  }

  /** Once the candidate's term is highest nothing in the queue changes that, and a leader stays one. */
  lemma {:induction false} LaterFlush(g: Group, c: NodeId, q: seq<Mail>, left: nat)
    requires Ready(g, c) && FromCandidate(g, c, q) && Above(g, c, {})
    ensures WellFormed(g) && MailOk(g, q)
    ensures var h := Flush(g, q, left);
            Ready(h, c) && Above(h, c, {}) && (g.nodes[c].role == Leader ==> h.nodes[c].role == Leader)
    decreases left
  {
    hide Exchange;
    hide CandidateOk;
    hide StandsHigher;
    hide VoterOk;
    hide Fits;
    hide WellFormed;
    hide CandidateOnward;
    hide Exchanged;
    hide Above;
    if q != [] && left != 0 {
      assert q == [q[0]] + q[1..] && q[0] in q;
      ExchangeElects(g, c, q[0], q[1..]);
      var (h, more) := Exchange(g, q[0]);
      AboveOn(g, h, c, q[0].out.to, {});
      assert {} - {q[0].out.to} == {};
      LaterFlush(h, c, q[1..] + more, left - 1);
    }
  }

  ghost function Targets(asks: seq<Mail>): set<NodeId> {
    set m | m in asks :: m.out.to
  }

  lemma TargetsTail(asks: seq<Mail>)
    requires asks != []
    ensures Targets(asks) - {asks[0].out.to} <= Targets(asks[1..])
  {
    assert asks == [asks[0]] + asks[1..];
  }

  lemma AboveMore(g: Group, c: NodeId, a: set<NodeId>, b: set<NodeId>)
    requires Above(g, c, a) && a <= b
    ensures Above(g, c, b)
  {
  }

  /** After a whole election the candidate's term is at least that of every running replica. */
  lemma {:induction false} FirstFlush(g: Group, c: NodeId, asks: seq<Mail>, rest: seq<Mail>, left: nat)
    requires Ready(g, c) && FromCandidate(g, c, asks + rest) && Above(g, c, Targets(asks)) && |asks| <= left
    ensures WellFormed(g) && MailOk(g, asks + rest)
    ensures var h := Flush(g, asks + rest, left); Ready(h, c) && Above(h, c, {})
    decreases left
  {
    hide Exchange;
    hide CandidateOk;
    hide StandsHigher;
    hide VoterOk;
    hide Fits;
    hide WellFormed;
    hide CandidateOnward;
    hide Exchanged;
    hide Above;
    if asks == [] {
      assert Targets(asks) == {};
      LaterFlush(g, c, asks + rest, left);
    } else {
      var m, q := asks[0], asks[1..] + rest;
      assert asks + rest == [m] + q && m in asks + rest;
      ExchangeElects(g, c, m, q);
      var (h, more) := Exchange(g, m);
      assert (asks + rest)[1..] + more == asks[1..] + (rest + more) == q + more;
      AboveOn(g, h, c, m.out.to, Targets(asks));
      TargetsTail(asks);
      AboveMore(h, c, Targets(asks) - {m.out.to}, Targets(asks[1..]));
      FirstFlush(h, c, asks[1..], rest + more, left - 1);
    }
  }

  // --------------------------------------------------------------- the second election

  lemma Grants(n: Node, term: nat, c: NodeId, lastIndex: nat, lastTerm: nat)
    requires n.term < term && LogOk(n, lastIndex, lastTerm)
    ensures Handle(n, RequestVote(term, c, lastIndex, lastTerm)).1 == VoteReply(term, true)
  {
  }

  lemma CountsVote(c: Node, p: NodeId)
    ensures var d := HandleReply(c, p, VoteReply(c.term, true)).0;
            && d.term == c.term && d.peers == c.peers
            && (c.role == Leader ==> d.role == Leader)
            && (c.role == Candidate ==>
                  d.role == Leader || (d.role == Candidate && d.votesGranted == c.votesGranted + {p}
                                       && |d.votesGranted| < d.MajoritySize()))
  {
    hide ReplicateToAll;
  }

  /** The candidate stands in a term above every replica still to be asked, and holds the votes of all
      running replicas already asked. */
  ghost predicate Winning(g: Group, c: NodeId, asks: seq<Mail>, ask: RaftMsg) {
    && c in g.nodes && ask.RequestVote? && ask.term == g.nodes[c].term && ask.candidateId == c
    && (g.nodes[c].role == Leader || g.nodes[c].role == Candidate)
    && (forall m :: m in asks ==> m.out.msg == ask)
    && (forall i, j :: 0 <= i < j < |asks| ==> asks[i].out.to != asks[j].out.to)
    && (forall p {:trigger g.nodes[p]} :: Up(g, p) && p != c && p in Targets(asks) ==>
          g.nodes[p].term < ask.term && LogOk(g.nodes[p], ask.lastLogIndex, ask.lastLogTerm))
    && (g.nodes[c].role == Candidate ==>
          && |g.nodes[c].votesGranted| < g.nodes[c].MajoritySize()
          && forall p :: Up(g, p) && p !in Targets(asks) ==> p in g.nodes[c].votesGranted)
  }

  lemma WinningStep(g: Group, c: NodeId, asks: seq<Mail>, ask: RaftMsg)
    requires WellFormed(g) && asks != [] && Winning(g, c, asks, ask) && Above(g, c, {}) && Up(g, c)
    requires asks[0].from == c && asks[0].out.to in g.nodes && asks[0].out.to != c
    ensures Winning(Exchange(g, asks[0]).0, c, asks[1..], ask)
  {
    hide WellFormed;
    hide Handle;
    hide HandleReply;
    hide LogOk;
    var p := asks[0].out.to;
    TargetsHead(asks);
    assert asks[0] in asks;
    var h := Exchange(g, asks[0]).0;
    if p !in g.down {
      Grants(g.nodes[p], ask.term, c, ask.lastLogIndex, ask.lastLogTerm);
      CountsVote(g.nodes[c], p);
      assert h.nodes
             == g.nodes[p := Handle(g.nodes[p], ask).0][c := HandleReply(g.nodes[c], p, VoteReply(ask.term, true)).0];
    }
  }

  lemma TargetsHead(asks: seq<Mail>)
    requires asks != [] && forall i, j :: 0 <= i < j < |asks| ==> asks[i].out.to != asks[j].out.to
    ensures Targets(asks[1..]) == Targets(asks) - {asks[0].out.to} && asks[0].out.to in Targets(asks)
  {
    assert asks[0] in asks;
    TargetsTail(asks);
    forall x | x in Targets(asks[1..])
      ensures x in Targets(asks) && x != asks[0].out.to
    {
      var i :| 0 <= i < |asks[1..]| && asks[1..][i].out.to == x;
      assert asks[i + 1].out.to == x && asks[i + 1] in asks;
    }
  }

  ghost predicate MajorityUp(g: Group) {
    2 * |g.nodes.Keys - g.down| > |g.replicas|
  }

  lemma AllVotesWin(g: Group, c: NodeId, votes: set<NodeId>)
    requires WellFormed(g) && c in g.nodes && MajorityUp(g) && forall p :: Up(g, p) ==> p in votes
    ensures |votes| >= g.nodes[c].MajoritySize()
  {
    OthersDistinct(g.replicas, c);
    var up := g.nodes.Keys - g.down;
    assert up <= votes;
    assert votes == up + (votes - up);
  }

  /** Standing above everyone, the candidate collects every running replica's vote and leads. */
  lemma {:induction false} SecondFlush(g: Group, c: NodeId, asks: seq<Mail>, ask: RaftMsg, rest: seq<Mail>, left: nat)
    requires Ready(g, c) && FromCandidate(g, c, asks + rest) && Above(g, c, {}) && |asks| <= left
    requires Winning(g, c, asks, ask) && MajorityUp(g)
    ensures WellFormed(g) && MailOk(g, asks + rest)
    ensures var h := Flush(g, asks + rest, left); Ready(h, c) && h.nodes[c].role == Leader
    decreases left
  {
    hide Exchange;
    hide CandidateOk;
    hide StandsHigher;
    hide VoterOk;
    hide Fits;
    hide WellFormed;
    hide CandidateOnward;
    hide Exchanged;
    hide Above;
    hide Winning;
    if asks == [] {
      NobodyLeft(g, c, ask);
      LaterFlush(g, c, asks + rest, left);
    } else {
      var m, q := asks[0], asks[1..] + rest;
      assert asks + rest == [m] + q && m in asks + rest;
      ExchangeElects(g, c, m, q);
      var (h, more) := Exchange(g, m);
      assert (asks + rest)[1..] + more == asks[1..] + (rest + more) == q + more;
      AboveOn(g, h, c, m.out.to, {});
      assert {} - {m.out.to} == {};
      WinningStep(g, c, asks, ask);
      SecondFlush(h, c, asks[1..], ask, rest + more, left - 1);
    }
  }

  lemma NobodyLeft(g: Group, c: NodeId, ask: RaftMsg)
    requires WellFormed(g) && Winning(g, c, [], ask) && MajorityUp(g)
    ensures g.nodes[c].role == Leader
  {
    hide WellFormed;
    if g.nodes[c].role == Candidate {
      assert Targets([]) == {};
      AllVotesWin(g, c, g.nodes[c].votesGranted);
    }
  }

  // ------------------------------------------------------------ ticking the candidate

  /** Applying and folding keeps a node's place in every comparison. */
  ghost predicate SameStanding(n: Node, m: Node) {
    && m.LastIndex() == n.LastIndex() && m.LastLogTerm() == n.LastLogTerm() && m.commit == n.commit
    && m.term == n.term && m.role == n.role && m.timers == n.timers && m.applied <= m.commit
    && (n.log == [] ==> m.log == [])
  }

  lemma CompactStanding(n: Node, triples: seq<Triple>)
    requires n.applied <= n.commit <= n.LastIndex()
    ensures SameStanding(n, Compact(n, n.applied, triples))
    ensures CandidateOk(n) ==> CandidateOk(Compact(n, n.applied, triples))
  {
  }

  lemma SyncedStanding(g: Group, v: NodeId)
    requires v in g.nodes && v in g.stores && g.nodes[v].applied <= g.nodes[v].commit <= g.nodes[v].LastIndex()
    ensures SameStanding(g.nodes[v], Synced(g, v).0)
    ensures CandidateOk(g.nodes[v]) ==> CandidateOk(Synced(g, v).0)
  {
    hide Perform;
    hide ActionsAfter;
    hide IterAll;
    hide Compact;
    var n := DrainApply(g.nodes[v]).0;
    CompactStanding(n, IterAll(Synced(g, v).1));
  }

  lemma SyncReady(g: Group, c: NodeId)
    requires Ready(g, c)
    ensures Ready(SyncApply(g), c)
    ensures SameStanding(g.nodes[c], SyncApply(g).nodes[c])
    ensures Above(g, c, {}) ==> Above(SyncApply(g), c, {})
  {
    hide Synced;
    hide Placed;
    hide CandidateOk;
    SyncApplyKeeps(g);
    var h := SyncApply(g);
    assert Indexed(g.nodes[c]) by {
      CandidateIndexed(g.nodes[c]);
    }
    SyncedStanding(g, c);
    forall p | Up(g, p) && p != c
      ensures VoterOk(h.nodes[c], h.nodes[p]) && h.nodes[p].term == g.nodes[p].term
    {
      assert VoterOk(g.nodes[c], g.nodes[p]);
      SyncedStanding(g, p);
    }
  }

  lemma CandidateIndexed(n: Node)
    requires CandidateOk(n)
    ensures Indexed(n)
  {
  }

  lemma Stands(n: Node)
    requires CandidateOk(n)
    ensures var s := Stood(n);
            && CandidateOk(s) && s.LastLogTerm() < s.term == n.term + 1 && s.role == Candidate
            && s.votesGranted == {n.id}
            && s.LastIndex() == n.LastIndex() && s.LastLogTerm() == n.LastLogTerm() && s.peers == n.peers
            && s.id == n.id
            && AllFit(s, VoteRequests(s, s.peers))
  {
  }

  ghost function Asking(g: Group, c: NodeId, n: Node): Group
    requires c in g.nodes
  {
    g.(nodes := g.nodes[c := n])
  }

  /** The candidate may be replaced by a later state of itself that holds the same log. */
  lemma ReadyWith(g: Group, c: NodeId, n: Node)
    requires Ready(g, c) && SameSetup(g.nodes[c], n) && CandidateOk(n) && StandsHigher(n)
    requires n.LastIndex() == g.nodes[c].LastIndex() && n.LastLogTerm() == g.nodes[c].LastLogTerm()
    ensures Ready(Asking(g, c, n), c)
  {
    hide WellFormed;
    hide SameSetup;
    Replaced(g, c, n);
  }

  lemma AskMails(g: Group, c: NodeId, n: Node)
    requires WellFormed(g) && c in g.nodes && n.peers == g.nodes[c].peers && AllFit(n, VoteRequests(n, n.peers))
    ensures var asks := Addressed(c, VoteRequests(n, n.peers));
            && FromCandidate(Asking(g, c, n), c, asks) && Targets(asks) == g.nodes.Keys - {c}
            && |asks| + 1 == |g.replicas| && SentTo(VoteRequests(n, n.peers), g.nodes.Keys)
            && (forall i, j :: 0 <= i < j < |asks| ==> asks[i].out.to != asks[j].out.to)
            && (forall m :: m in asks ==> m.out.msg == RequestVote(n.term, n.id, n.LastIndex(), n.LastLogTerm()))
  {
    hide Fits;
    PeersExcept(g, c);
    OthersDistinct(g.replicas, c);
    var outs := VoteRequests(n, n.peers);
    var asks := Addressed(c, outs);
    forall m | m in asks
      ensures m.from == c && m.out.to in g.nodes && m.out.to != c && Fits(n, m.out.msg)
    {
      assert m.out in outs;
      var i :| 0 <= i < |outs| && outs[i] == m.out;
      assert m.out.to == n.peers[i] && n.peers[i] in n.peers;
    }
    forall o | o in outs
      ensures o.to in g.nodes.Keys
    {
      var i :| 0 <= i < |outs| && outs[i] == o;
      assert asks[i] in asks;
    }
    forall p | p in g.nodes.Keys - {c}
      ensures p in Targets(asks)
    {
      var i :| 0 <= i < |n.peers| && n.peers[i] == p;
      assert asks[i] in asks && asks[i].out.to == p;
    }
  }

  /** The tick on which the candidate's timer runs out. */
  predicate TimesOut(n: Node) {
    n.timers.electionElapsed + 1 >= n.timers.electionTimeout
  }

  function Ticked(n: Node): Node {
    n.(timers := n.timers.(electionElapsed := n.timers.electionElapsed + 1))
  }

  lemma TickedKeeps(n: Node)
    requires CandidateOk(n)
    ensures CandidateOk(Ticked(n)) && SameSetup(n, Ticked(n)) && SameSetup(n, Stood(Ticked(n)))
    ensures n.LastIndex() == Ticked(n).LastIndex() && n.LastLogTerm() == Ticked(n).LastLogTerm()
    ensures StandsHigher(n) ==> StandsHigher(Ticked(n))
  {
  }

  /** What delivering the vote requests makes of the group. */
  lemma AsksDelivered(g: Group, c: NodeId, s: Node)
    requires Ready(g, c) && Ready(Asking(g, c, s), c) && s.role == Candidate && s.votesGranted == {c} && s.id == c
    requires s.term == g.nodes[c].term + 1 && s.peers == g.nodes[c].peers && s.peers != []
    requires s.LastIndex() == g.nodes[c].LastIndex() && s.LastLogTerm() == g.nodes[c].LastLogTerm()
    requires AllFit(s, VoteRequests(s, s.peers)) && |g.replicas| <= MAX_DELIVERIES + 1
    ensures WellFormed(Asking(g, c, s)) && SentTo(VoteRequests(s, s.peers), g.nodes.Keys)
    ensures var h := DeliverAll(Asking(g, c, s), c, VoteRequests(s, s.peers));
            && Ready(h, c) && Above(h, c, {})
            && (Above(g, c, {}) && MajorityUp(g) ==> h.nodes[c].role == Leader)
  {
    hide WellFormed;
    hide CandidateOk;
    hide StandsHigher;
    hide VoterOk;
    hide Fits;
    hide Flush;
    hide SyncApply;
    hide VoteRequests;
    hide Winning;
    hide Above;
    var h := Asking(g, c, s);
    AskMails(g, c, s);
    var asks := Addressed(c, VoteRequests(s, s.peers));
    Opening(g, c, s);
    assert asks + [] == asks;
    FirstFlush(h, c, asks, [], MAX_DELIVERIES);
    if Above(g, c, {}) && MajorityUp(g) {
      assert h.nodes.Keys == g.nodes.Keys;
      SecondFlush(h, c, asks, RequestVote(s.term, c, s.LastIndex(), s.LastLogTerm()), [], MAX_DELIVERIES);
    }
    SyncReady(Flush(h, asks, MAX_DELIVERIES), c);
  }

  /** When the candidate's timer runs out an election is held: afterwards its term is the highest among
      running replicas, and if it was so before and a majority is up, the candidate leads. */
  lemma ElectionHeld(g: Group, c: NodeId)
    requires Ready(g, c) && g.nodes[c].role != Leader && TimesOut(g.nodes[c]) && g.nodes[c].peers != []
    requires |g.replicas| <= MAX_DELIVERIES + 1
    ensures var h := TickOne(g, c);
            && Ready(h, c) && Above(h, c, {})
            && (Above(g, c, {}) && MajorityUp(g) ==> h.nodes[c].role == Leader)
  {
    hide WellFormed;
    hide CandidateOk;
    hide VoterOk;
    hide Fits;
    hide DeliverAll;
    hide SameSetup;
    hide VoteRequests;
    hide Stood;
    hide TickOne;
    TickedKeeps(g.nodes[c]);
    Stands(Ticked(g.nodes[c]));
    SameId(g, c);
    ReadyWith(g, c, Stood(Ticked(g.nodes[c])));
    AsksDelivered(g, c, Stood(Ticked(g.nodes[c])));
    TickOpens(g, c);
  }

  lemma SameId(g: Group, c: NodeId)
    requires WellFormed(g) && c in g.nodes
    ensures g.nodes[c].id == c && |g.nodes[c].peers| + 1 == |g.replicas|
  {
    OthersDistinct(g.replicas, c);
  }

  /** The tick itself is standing for election and delivering the vote requests. */
  lemma TickOpens(g: Group, c: NodeId)
    requires WellFormed(g) && Up(g, c) && g.nodes[c].role != Leader && TimesOut(g.nodes[c]) && g.nodes[c].peers != []
    requires var s := Stood(Ticked(g.nodes[c]));
             WellFormed(Asking(g, c, s)) && SentTo(VoteRequests(s, s.peers), g.nodes.Keys)
    ensures var s := Stood(Ticked(g.nodes[c]));
            TickOne(g, c) == DeliverAll(Asking(g, c, s), c, VoteRequests(s, s.peers))
  {
    hide WellFormed;
    hide DeliverAll;
    hide VoteRequests;
    var s := Stood(Ticked(g.nodes[c]));
    assert |s.votesGranted| == 1 && s.MajoritySize() >= 2;
    assert Tick(g.nodes[c]) == (s, VoteRequests(s, s.peers));
  }

  lemma Opening(g: Group, c: NodeId, s: Node)
    requires Ready(g, c) && s.term == g.nodes[c].term + 1 && s.role == Candidate && s.votesGranted == {c}
    requires s.id == c && s.LastIndex() == g.nodes[c].LastIndex() && s.LastLogTerm() == g.nodes[c].LastLogTerm()
    requires s.peers == g.nodes[c].peers && s.peers != []
    requires AllFit(s, VoteRequests(s, s.peers))
    ensures var h, asks := Asking(g, c, s), Addressed(c, VoteRequests(s, s.peers));
            && Above(h, c, Targets(asks))
            && (Above(g, c, {}) ==>
                  Above(h, c, {}) && Winning(h, c, asks, RequestVote(s.term, c, s.LastIndex(), s.LastLogTerm())))
  {
    hide WellFormed;
    hide CandidateOk;
    hide Fits;
    hide VoteRequests;
    AskMails(g, c, s);
    var h, asks := Asking(g, c, s), Addressed(c, VoteRequests(s, s.peers));
    var ask := RequestVote(s.term, c, s.LastIndex(), s.LastLogTerm());
    if Above(g, c, {}) {
      forall p | Up(h, p) && p != c && p in Targets(asks)
        ensures h.nodes[p].term < ask.term && LogOk(h.nodes[p], ask.lastLogIndex, ask.lastLogTerm)
      {
        assert VoterOk(g.nodes[c], g.nodes[p]);
      }
    }
  }

  /** Before the timer runs out a tick only counts. */
  lemma QuietTick(g: Group, c: NodeId)
    requires Ready(g, c) && g.nodes[c].role != Leader && !TimesOut(g.nodes[c])
    ensures var h := TickOne(g, c);
            && Ready(h, c) && (Above(g, c, {}) ==> Above(h, c, {}))
            && h.nodes[c].role == g.nodes[c].role && h.nodes[c].timers == Ticked(g.nodes[c]).timers
  {
    hide WellFormed;
    hide CandidateOk;
    hide VoterOk;
    hide SyncApply;
    hide SameSetup;
    var n := Ticked(g.nodes[c]);
    TickedKeeps(g.nodes[c]);
    ReadyWith(g, c, n);
    var h := Asking(g, c, n);
    assert Tick(g.nodes[c]) == (n, []);
    assert Addressed(c, []) == [];
    assert Flush(h, [], MAX_DELIVERIES) == h;
    SyncReady(h, c);
  }

  /** Alone, the candidate leads as soon as its timer runs out. */
  lemma LoneElection(g: Group, c: NodeId)
    requires Ready(g, c) && g.nodes[c].role != Leader && TimesOut(g.nodes[c]) && g.nodes[c].peers == []
    ensures TickOne(g, c).nodes[c].role == Leader
  {
    hide WellFormed;
    hide CandidateOk;
    hide VoterOk;
    hide SyncApply;
    hide SameSetup;
    var n := g.nodes[c];
    var s := Stood(Ticked(n));
    assert |s.votesGranted| == 1 && s.MajoritySize() == 1;
    var r := BecomeLeader(s);
    assert Tick(n) == r && r.1 == [] && r.0.role == Leader;
    TickSetup(n);
    Replaced(g, c, r.0);
    var h := Asking(g, c, r.0);
    assert Addressed(c, []) == [];
    assert Flush(h, [], MAX_DELIVERIES) == h;
    SyncRole(h, c);
  }

  lemma SyncRole(g: Group, c: NodeId)
    requires WellFormed(g) && c in g.nodes
    ensures SyncApply(g).nodes[c].role == g.nodes[c].role
  {
    hide Placed;
    hide Perform;
    hide ActionsAfter;
    hide IterAll;
  }

  // ------------------------------------------------------------- the configured timeout

  lemma {:induction false} FlushSetup(g: Group, q: seq<Mail>, left: nat, c: NodeId)
    requires WellFormed(g) && MailOk(g, q) && c in g.nodes
    ensures Flush(g, q, left).nodes[c].timers.cfgMax == g.nodes[c].timers.cfgMax
    decreases left
  {
    hide WellFormed;
    hide Exchange;
    if q != [] && left != 0 {
      ExchangeSetup(g, q[0], c);
      var (h, more) := Exchange(g, q[0]);
      FlushSetup(h, q[1..] + more, left - 1, c);
    }
  }

  lemma ExchangeSetup(g: Group, m: Mail, c: NodeId)
    requires WellFormed(g) && m.from in g.nodes && m.out.to in g.nodes && c in g.nodes
    ensures Exchange(g, m).0.nodes[c].timers.cfgMax == g.nodes[c].timers.cfgMax
  {
    hide WellFormed;
    hide Handle;
    hide HandleReply;
    var heard := Handle(g.nodes[m.out.to], m.out.msg);
    HandleSetup(g.nodes[m.out.to], m.out.msg);
    ReplySetup(g.nodes[m.out.to := heard.0][m.from], m.out.to, heard.1);
  }

  lemma TickOneSetup(g: Group, v: NodeId, c: NodeId)
    requires WellFormed(g) && v in g.nodes && c in g.nodes
    ensures TickOne(g, v).nodes[c].timers.cfgMax == g.nodes[c].timers.cfgMax
  {
    hide Placed;
    hide Tick;
    hide Flush;
    hide Synced;
    if v !in g.down {
      var r := Tick(g.nodes[v]);
      TickFormed(g, v);
      var h := Asking(g, v, r.0);
      FlushSetup(h, Addressed(v, r.1), MAX_DELIVERIES, c);
      SyncedSetup(Flush(h, Addressed(v, r.1), MAX_DELIVERIES), c);
    }
  }

  /** Ticks until the next election, at least one. */
  function Wait(n: Node): nat {
    if TimesOut(n) then 1 else n.timers.electionTimeout - n.timers.electionElapsed
  }

  function LongestWait(n: Node): nat {
    if n.timers.cfgMax == 0 then 1 else n.timers.cfgMax
  }

  lemma WaitBounded(g: Group, c: NodeId)
    requires WellFormed(g) && c in g.nodes
    ensures Wait(g.nodes[c]) <= LongestWait(g.nodes[c])
  {
    hide Others;
  }

  lemma {:induction false} SecondElection(g: Group, c: NodeId, ticks: nat)
    requires Ready(g, c) && Above(g, c, {}) && MajorityUp(g) && |g.replicas| <= MAX_DELIVERIES + 1
    requires ticks > Wait(g.nodes[c])
    ensures Elect(g, c, ticks).1 && LeadsUp(Elect(g, c, ticks).0, c)
    decreases ticks
  {
    hide WellFormed;
    hide CandidateOk;
    hide StandsHigher;
    hide VoterOk;
    hide TickOne;
    hide Above;
    if g.nodes[c].role != Leader {
      if !TimesOut(g.nodes[c]) {
        QuietTick(g, c);
        SecondElection(TickOne(g, c), c, ticks - 1);
      } else if g.nodes[c].peers == [] {
        LoneElection(g, c);
      } else {
        ElectionHeld(g, c);
      }
    }
  }

  lemma {:induction false} FirstElection(g: Group, c: NodeId, ticks: nat)
    requires Ready(g, c) && MajorityUp(g) && |g.replicas| <= MAX_DELIVERIES + 1
    requires ticks > Wait(g.nodes[c]) + LongestWait(g.nodes[c])
    ensures Elect(g, c, ticks).1 && LeadsUp(Elect(g, c, ticks).0, c)
    decreases ticks
  {
    hide WellFormed;
    hide CandidateOk;
    hide StandsHigher;
    hide VoterOk;
    hide TickOne;
    hide Above;
    if g.nodes[c].role != Leader {
      TickOneSetup(g, c, c);
      if !TimesOut(g.nodes[c]) {
        QuietTick(g, c);
        FirstElection(TickOne(g, c), c, ticks - 1);
      } else if g.nodes[c].peers == [] {
        LoneElection(g, c);
      } else {
        ElectionHeld(g, c);
        WaitBounded(TickOne(g, c), c);
        SecondElection(TickOne(g, c), c, ticks - 1);
      }
    }
  }

  // ----------------------------------------------------------------- reachable groups

  /** What one replica counts as committed lies within any log at least as up to date as its own. */
  lemma CommittedWithin(g: Ledger, c: NodeId, p: NodeId, k: nat, s: nat)
    requires Sound(g) && c in g.ids && p in g.ids && UpToDate(g.log[c], g.log[p])
    requires CommittedPrefix(g, g.log[p], k, s) && k <= |g.log[p]|
    ensures k <= |g.log[c]|
  {
    if k != 0 {
      var t :| CommittedBy(g, g.log[p], k, s, t);
      assert GoodNode(g, c) && GoodNode(g, p);
      var a, b := g.log[c], g.log[p];
      var x := LastTerm(a);
      assert b[k - 1] == g.tlog[t][k - 1] && b[k - 1].term == t;
      assert x >= LastTerm(b) >= t;
      assert BackedAt(g.tlog, a, |a| - 1);
      if x > LastTerm(b) {
        CommittedStays(g, t, k, x);
        assert GoodTermLog(g, x);
        assert a[|a| - 1] == g.tlog[x][|a| - 1];
      }
    }
  }

  lemma CandidateReached(n: Net, l: Ledger, c: NodeId)
    requires Inv(n, l) && c in n.nodes
    ensures CandidateOk(n.nodes[c]) && StandsHigher(n.nodes[c])
  {
    hide FlightOk;
    hide CandidateOk;
    hide StandsHigher;
    hide Sound;
    hide NodeStore;
    hide NodeCommit;
    hide NodeVote;
    hide NodeLeader;
    var node := n.nodes[c];
    assert NodeOk(l, c, node, n.stores[c]);
    CandidateInLedger(l, c, node);
  }

  lemma CandidateInLedger(l: Ledger, c: NodeId, node: Node)
    requires Sound(l) && c in l.ids && NodeLog(l, c, node) && NodeCandidate(l, c, node)
    ensures CandidateOk(node) && StandsHigher(node)
  {
    hide PeersOf;
    assert GoodNode(l, c);
    assert forall i :: 0 <= i < |node.log| ==> node.log[i] == l.log[c][node.baseIndex + i];
    if node.role == Candidate {
      assert GoodVote(l, c, node.term);
    }
  }

  lemma VoterReached(n: Net, l: Ledger, c: NodeId, p: NodeId)
    requires Inv(n, l) && c in n.nodes && p in n.nodes && Fresher(n.nodes[c], n.nodes[p])
    ensures VoterOk(n.nodes[c], n.nodes[p])
  {
    hide Sound;
    hide NodeOk;
    hide FlightOk;
    hide CommittedPrefix;
    var x, y := n.nodes[c], n.nodes[p];
    NodeFacts(l, c, x, n.stores[c]);
    NodeFacts(l, p, y, n.stores[p]);
    CommitRecorded(n, l, p);
    CommittedWithin(l, c, p, y.commit, y.term);
  }

  /** In every reachable group the running replica ranked first can be elected. */
  lemma FreshestReady(t: Trace, g: Group, c: NodeId)
    requires WellFormed(g) && Mirrors(t, g) && Run(t.nets, t.steps) && Freshest(g) == Some(c)
    ensures Ready(g, c)
  {
    hide Run;
    hide FreeRun;
    hide WellFormed;
    hide Inv;
    hide CandidateOk;
    hide StandsHigher;
    hide VoterOk;
    hide Fresher;
    var ledgers := RunRecorded(t.nets, t.steps);
    var last := |t.nets| - 1;
    CandidateReached(t.nets[last], ledgers[last], c);
    forall p | Up(g, p) && p != c
      ensures VoterOk(g.nodes[c], g.nodes[p])
    {
      VoterReached(t.nets[last], ledgers[last], c, p);
    }
  }

  /** `ensure_leader` never fails: in every state a group can reach in which a majority of replicas is
      running and twice the longest election timeout is at most 999 ticks, it returns a running leader. */
  lemma EnsureLeaderNeverFails(groups: seq<Group>, calls: seq<Call>)
    requires GroupRun(groups, calls) && Undisturbed(groups, calls)
    requires var g := groups[|groups| - 1];
             && MajorityUp(g) && |g.replicas| <= MAX_DELIVERIES + 1
             && forall v :: v in g.nodes ==> 2 * g.nodes[v].timers.cfgMax <= MAX_ELECTION_TICKS - 1
    ensures var r := EnsureLeader(groups[|groups| - 1]);
            r.1.Some? && LeadsUp(r.0, r.1.value)
  {
    hide WellFormed;
    hide Elect;
    hide Undisturbed;
    hide Run;
    hide FreeRun;
    var g := groups[|groups| - 1];
    if LeaderOf(g).None? {
      var t, at := GuardedRun(groups, calls);
      SomeoneUp(g);
      var c := Freshest(g).value;
      FreshestReady(t, g, c);
      WaitBounded(g, c);
      FirstElection(g, c, MAX_ELECTION_TICKS);
    }
  }

  lemma SomeoneUp(g: Group)
    requires WellFormed(g) && MajorityUp(g)
    ensures Freshest(g).Some?
  {
    hide Placed;
    var up := g.nodes.Keys - g.down;
    assert up != {};
    var v :| v in up;
  }
}
