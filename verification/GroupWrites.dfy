/** A write that reaches a quorum: the call that proposes it commits it and applies it on every running
    replica before it returns. */
module GroupWrites {
  import opened Wrappers
  import opened RaftTypes
  import opened RaftNode
  import opened RaftSteps
  import opened RaftSafety
  import opened TripleStore
  import opened GroupSpec
  import opened GroupRuns
  import opened GroupCalls
  import opened GroupSafety
  import opened GroupElection
  import opened GroupMinority

  // ------------------------------------------------------------ the leader and its messages

  /** A leader whose last entry is `e`, of its own term, at index `k`, still to be applied. */
  ghost predicate Writing(x: Node, e: LogEntry, k: nat) {
    && x.role == Leader && x.LastIndex() == k && x.log != [] && x.log[|x.log| - 1] == e && e.term == x.term
    && x.baseIndex <= x.commit <= k && x.applied < k
    && forall p :: p in x.nextIndex ==> 1 <= x.nextIndex[p] <= k + 1
  }

  /** A message of that leader: its log from some index on, or its snapshot. */
  ghost predicate Written(x: Node, msg: RaftMsg, k: nat) {
    && msg.term == x.term
    && match msg
       case RequestVote(_, _, _, _) => false
       case AppendEntries(_, _, prev, _, commit, entries) => prev + |entries| == k && commit <= x.commit
       case InstallSnapshot(_, _, index, _, _) => index == x.baseIndex
  }

  /** The message tells the commit index, itself or by the message that follows it. */
  predicate Tells(msg: RaftMsg, commit: nat) {
    msg.InstallSnapshot? || (msg.AppendEntries? && msg.leaderCommit == commit)
  }

  ghost predicate AllTold(x: Node, outs: seq<Outgoing>, k: nat) {
    forall o :: o in outs ==> Written(x, o.msg, k) && Tells(o.msg, x.commit)
  }

  ghost predicate HasFor(outs: seq<Outgoing>, p: NodeId) {
    exists o :: o in outs && o.to == p
  }

  lemma ReplicateWritten(x: Node, e: LogEntry, k: nat, p: NodeId)
    requires Writing(x, e, k)
    ensures AllTold(x, Single(ReplicateTo(x, p)), k) && HasFor(Single(ReplicateTo(x, p)), p)
  {
    var o := ReplicateTo(x, p).value;
    assert o in Single(ReplicateTo(x, p));
  }

  lemma BroadcastWritten(x: Node, e: LogEntry, k: nat)
    requires Writing(x, e, k)
    ensures AllTold(x, ReplicateToAll(x, x.peers), k)
    ensures forall p :: p in x.peers ==> HasFor(ReplicateToAll(x, x.peers), p)
  {
    hide ReplicateToAll;
    hide ReplicateTo;
    hide Written;
    hide Writing;
    WritingLeads(x, e, k);
    Broadcast(x, x.peers);
    forall o | o in ReplicateToAll(x, x.peers)
      ensures Written(x, o.msg, k) && Tells(o.msg, x.commit)
    {
      ReplicateWritten(x, e, k, o.to);
      assert o in Single(ReplicateTo(x, o.to));
    }
  }

  lemma WritingLeads(x: Node, e: LogEntry, k: nat)
    requires Writing(x, e, k)
    ensures x.role == Leader
  {
  }

  /** What a follower makes of such a message. */
  lemma HeardWritten(n: Node, msg: RaftMsg, x: Node, e: LogEntry, k: nat)
    requires Writing(x, e, k) && Written(x, msg, k) && n.term <= x.term && n.commit <= k
    ensures var r := Handle(n, msg);
            && r.0.term == r.1.term == x.term && n.commit <= r.0.commit <= k
            && (msg.AppendEntries? ==>
                  r.1.AppendReply? && (r.1.success ==> r.1.matchIndex == k && msg.leaderCommit <= r.0.commit))
            && (msg.InstallSnapshot? ==> r.1.SnapshotReply?)
  {
    hide StoreEntries;
    if msg.AppendEntries? && msg.prevLogIndex <= n.LastIndex() {
      StoreEnds(Following(n, msg.term, msg.leaderId), msg.prevLogIndex, msg.entries);
    }
  }

  /** If the leader knew of a majority that holds the entry, it has committed it. */
  predicate Reckoned(x: Node, k: nat) {
    x.commit >= k || !Committable(x, k)
  }

  lemma {:induction false} CountLower(peers: seq<NodeId>, matched: map<NodeId, nat>, p: NodeId, m: nat, k: nat)
    requires m < k
    ensures CountMatched(peers, matched[p := m], k) <= CountMatched(peers, matched, k)
  {
    if peers != [] {
      CountLower(peers[..|peers| - 1], matched, p, m, k);
    }
  }

  /** The leader's state and messages after a reply from `p`. */
  ghost predicate Progress(x: Node, p: NodeId, success: bool, r: (Node, seq<Outgoing>), e: LogEntry, k: nat) {
    && Writing(r.0, e, k) && r.0.term == x.term && r.0.peers == x.peers && r.0.baseIndex == x.baseIndex
    && x.commit <= r.0.commit && AllTold(r.0, r.1, k)
    && (r.0.commit > x.commit ==> forall y :: y in x.peers ==> HasFor(r.1, y))
    && (!success ==> r.0.commit == x.commit && HasFor(r.1, p) && (Reckoned(x, k) ==> Reckoned(r.0, k)))
    && (success ==> Reckoned(r.0, k) && p in r.0.matchIndex && r.0.matchIndex[p] == k)
    && (forall y :: y in x.matchIndex && y != p ==> y in r.0.matchIndex && r.0.matchIndex[y] == x.matchIndex[y])
  }

  lemma AcknowledgedProgress(x: Node, p: NodeId, e: LogEntry, k: nat)
    requires Writing(x, e, k)
    ensures Progress(x, p, true, Acknowledged(x, p, k), e, k)
  {
    hide ReplicateToAll;
    hide ReplicateTo;
    hide Committable;
    hide AllTold;
    hide HasFor;
    var m := x.(matchIndex := x.matchIndex[p := k], nextIndex := x.nextIndex[p := k + 1]);
    var a := AdvanceCommit(m);
    HighestRange(m, k);
    SameCommittable(m, a, k);
    assert Writing(a, e, k);
    var b := Replicate(a).0;
    SameBroadcast(a, b, a.peers);
    assert Writing(b, e, k);
    BroadcastWritten(b, e, k);
    NobodyTold(a, k);
    SameCommittable(m, b, k);
  }

  lemma NobodyTold(x: Node, k: nat)
    ensures AllTold(x, [], k)
  {
  }

  lemma SameCommittable(x: Node, y: Node, k: nat)
    requires y == x.(commit := y.commit, timers := y.timers)
    ensures Committable(x, k) == Committable(y, k)
  {
  }

  lemma AnswerProgress(x: Node, p: NodeId, reply: RaftReply, e: LogEntry, k: nat)
    requires Writing(x, e, k) && reply.term == x.term && !reply.VoteReply?
    requires reply.AppendReply? && reply.success ==> reply.matchIndex == k
    ensures Progress(x, p, reply.AppendReply? && reply.success, HandleReply(x, p, reply), e, k)
  {
    hide Acknowledged;
    hide ReplicateTo;
    hide AllTold;
    hide HasFor;
    if reply.AppendReply? && reply.success {
      AcknowledgedProgress(x, p, e, k);
    } else if reply.AppendReply? {
      ReplicateWritten(BackedUp(x, p, reply.matchIndex), e, k, p);
    } else {
      var m := x.(matchIndex := x.matchIndex[p := x.baseIndex], nextIndex := x.nextIndex[p := x.baseIndex + 1]);
      ReplicateWritten(m, e, k, p);
      CountLower(x.peers, x.matchIndex, p, x.baseIndex, k);
    }
  }

  // ------------------------------------------------------------------------- deliveries

  /** The leader is up and above every running replica, none of which has committed more than `k`. */
  ghost predicate Serving(g: Group, c: NodeId, e: LogEntry, k: nat) {
    && WellFormed(g) && Up(g, c) && Writing(g.nodes[c], e, k)
    && forall p {:trigger g.nodes[p]} :: Up(g, p) ==> g.nodes[p].term <= g.nodes[c].term && g.nodes[p].commit <= k
  }

  ghost predicate FromLeader(g: Group, c: NodeId, q: seq<Mail>, k: nat) {
    && c in g.nodes
    && forall m :: m in q ==> m.from == c && m.out.to in g.nodes && m.out.to != c && Written(g.nodes[c], m.out.msg, k)
  }

  /** A message that tells the commit index is on the way. */
  ghost predicate Due(q: seq<Mail>, p: NodeId, commit: nat) {
    exists m :: m in q && m.out.to == p && Tells(m.out.msg, commit)
  }

  /** The leader knows that `p` holds the entry, and `p` has committed what the leader has. */
  ghost predicate Told(x: Node, p: NodeId, n: Node, k: nat) {
    p in x.matchIndex && x.matchIndex[p] >= k && n.commit >= x.commit
  }

  ghost predicate Served(g: Group, c: NodeId, q: seq<Mail>, k: nat) {
    && c in g.nodes
    && forall p {:trigger g.nodes[p]} :: Up(g, p) && p != c ==>
         Due(q, p, g.nodes[c].commit) || Told(g.nodes[c], p, g.nodes[p], k)
  }

  /** The leader has counted its acknowledgements since the last one came in, if any did. */
  ghost predicate Tallied(g: Group, c: NodeId, q: seq<Mail>, k: nat) {
    c in g.nodes && (Reckoned(g.nodes[c], k) || forall p :: Up(g, p) && p != c ==> Due(q, p, g.nodes[c].commit))
  }

  ghost predicate Spreading(g: Group, c: NodeId, q: seq<Mail>, e: LogEntry, k: nat) {
    Serving(g, c, e, k) && FromLeader(g, c, q, k) && Served(g, c, q, k) && Tallied(g, c, q, k)
  }

  lemma DueLater(q: seq<Mail>, more: seq<Mail>, p: NodeId, commit: nat)
    requires q != [] && Due(q, p, commit) && !(q[0].out.to == p && Tells(q[0].out.msg, commit))
    ensures Due(q[1..] + more, p, commit)
  {
    var m :| m in q && m.out.to == p && Tells(m.out.msg, commit);
    assert m in q[1..] + more;
  }

  lemma DueSent(c: NodeId, q: seq<Mail>, outs: seq<Outgoing>, x: Node, p: NodeId, k: nat)
    requires AllTold(x, outs, k) && HasFor(outs, p)
    ensures Due(q + Addressed(c, outs), p, x.commit)
  {
    var o :| o in outs && o.to == p;
    var i :| 0 <= i < |outs| && outs[i] == o;
    assert Addressed(c, outs)[i] == Mail(c, o);
    assert Mail(c, o) in q + Addressed(c, outs);
  }

  /** An exchange of the leader with a running replica; `ok` when it acknowledged. */
  ghost predicate Conversed(g: Group, h: Group, c: NodeId, m: Mail, n: Node, r: (Node, seq<Outgoing>), ok: bool,
                            e: LogEntry, k: nat) {
    && Answered(g, h, c, m, n, r.0) && Progress(g.nodes[c], m.out.to, ok, r, e, k)
    && n.term == r.0.term && g.nodes[m.out.to].commit <= n.commit <= k
    && (ok ==> m.out.msg.AppendEntries? && m.out.msg.leaderCommit <= n.commit)
  }

  lemma ServingOn(g: Group, h: Group, c: NodeId, m: Mail, n: Node, r: (Node, seq<Outgoing>), ok: bool, e: LogEntry,
                  k: nat)
    requires Serving(g, c, e, k) && Conversed(g, h, c, m, n, r, ok, e, k) && WellFormed(h)
    ensures Serving(h, c, e, k)
  {
    hide WellFormed;
    hide AllTold;
    hide Reckoned;
    forall p | Up(h, p)
      ensures h.nodes[p].term <= h.nodes[c].term && h.nodes[p].commit <= k
    {
      assert Up(g, p);
      assert Writing(h.nodes[c], e, k);
    }
  }

  lemma LeaderMail(g: Group, h: Group, c: NodeId, q: seq<Mail>, n: Node, r: (Node, seq<Outgoing>), ok: bool,
                   e: LogEntry, k: nat)
    requires q != [] && FromLeader(g, c, q, k) && Conversed(g, h, c, q[0], n, r, ok, e, k)
    requires SentTo(r.1, g.nodes.Keys - {c})
    ensures FromLeader(h, c, q[1..] + Addressed(c, r.1), k)
  {
    hide Writing;
    hide Reckoned;
    forall m | m in q[1..] + Addressed(c, r.1)
      ensures m.from == c && m.out.to in h.nodes && m.out.to != c && Written(h.nodes[c], m.out.msg, k)
    {
      if m in q[1..] {
        assert m in q;
        assert Written(g.nodes[c], m.out.msg, k);
      } else {
        assert m in Addressed(c, r.1) && m.out in r.1;
      }
    }
  }

  /** Whoever was served stays served. */
  lemma ServedOn(g: Group, h: Group, c: NodeId, q: seq<Mail>, n: Node, r: (Node, seq<Outgoing>), ok: bool, e: LogEntry,
                 k: nat)
    requires q != [] && Served(g, c, q, k) && Conversed(g, h, c, q[0], n, r, ok, e, k)
    requires forall p :: Up(g, p) && p != c ==> p in g.nodes[c].peers
    ensures Served(h, c, q[1..] + Addressed(c, r.1), k)
  {
    hide Writing;
    hide Reckoned;
    hide AllTold;
    hide HasFor;
    hide Due;
    hide Tells;
    var x, to, more := g.nodes[c], q[0].out.to, Addressed(c, r.1);
    forall p | Up(h, p) && p != c
      ensures Due(q[1..] + more, p, h.nodes[c].commit) || Told(h.nodes[c], p, h.nodes[p], k)
    {
      assert Up(g, p);
      if r.0.commit > x.commit || (p == to && !ok) {
        DueSent(c, q[1..], r.1, r.0, p, k);
      } else if Due(q, p, x.commit) && !(to == p && Tells(q[0].out.msg, x.commit)) {
        DueLater(q, more, p, x.commit);
      } else if p == to {
        TellsCommit(q[0].out.msg, x.commit);
      }
    }
  }

  lemma TellsCommit(msg: RaftMsg, commit: nat)
    ensures msg.AppendEntries? && Tells(msg, commit) ==> msg.leaderCommit == commit
  {
  }

  lemma TalliedOn(g: Group, h: Group, c: NodeId, q: seq<Mail>, n: Node, r: (Node, seq<Outgoing>), ok: bool,
                  e: LogEntry, k: nat)
    requires q != [] && Tallied(g, c, q, k) && Conversed(g, h, c, q[0], n, r, ok, e, k)
    ensures Tallied(h, c, q[1..] + Addressed(c, r.1), k)
  {
    hide Writing;
    hide Reckoned;
    hide AllTold;
    hide HasFor;
    hide Due;
    hide Tells;
    var x, to, more := g.nodes[c], q[0].out.to, Addressed(c, r.1);
    if !Reckoned(r.0, k) {
      forall p | Up(h, p) && p != c
        ensures Due(q[1..] + more, p, h.nodes[c].commit)
      {
        assert Up(g, p);
        if p == to {
          DueSent(c, q[1..], r.1, r.0, p, k);
        } else {
          DueLater(q, more, p, x.commit);
        }
      }
    }
  }

  lemma DroppedSpreads(g: Group, c: NodeId, q: seq<Mail>, e: LogEntry, k: nat)
    requires q != [] && Spreading(g, c, q, e, k) && q[0].out.to in g.down
    ensures Spreading(g, c, q[1..] + [], e, k)
  {
    hide WellFormed;
    hide Writing;
    hide Written;
    hide Reckoned;
    hide Due;
    assert q[1..] + [] == q[1..];
    forall p | Up(g, p) && p != c && Due(q, p, g.nodes[c].commit)
      ensures Due(q[1..], p, g.nodes[c].commit)
    {
      DueLater(q, [], p, g.nodes[c].commit);
    }
  }

  lemma ExchangeSpreads(g: Group, c: NodeId, q: seq<Mail>, e: LogEntry, k: nat)
    requires q != [] && Spreading(g, c, q, e, k)
    ensures WellFormed(g) && q[0].from in g.nodes && q[0].out.to in g.nodes
    ensures var (h, more) := Exchange(g, q[0]); Spreading(h, c, q[1..] + more, e, k)
  {
    hide WellFormed;
    hide Handle;
    hide HandleReply;
    hide Writing;
    hide Written;
    hide Progress;
    hide Served;
    hide Tallied;
    var m := q[0];
    assert m in q;
    var p := m.out.to;
    var (h, more) := Exchange(g, m);
    if p in g.down {
      DroppedSpreads(g, c, q, e, k);
    } else {
      var n := Handle(g.nodes[p], m.out.msg).0;
      var reply := Handle(g.nodes[p], m.out.msg).1;
      var r := HandleReply(g.nodes[c], p, reply);
      var ok := reply.AppendReply? && reply.success;
      HeardWritten(g.nodes[p], m.out.msg, g.nodes[c], e, k);
      WrittenKind(g.nodes[c], m.out.msg, k);
      AnswerProgress(g.nodes[c], p, reply, e, k);
      ProgressTerm(g.nodes[c], p, ok, r, e, k);
      assert h.nodes == g.nodes[p := n][c := r.0];
      assert Conversed(g, h, c, m, n, r, ok, e, k);
      PeersExcept(g, c);
      ReplySentTo(g.nodes[c], p, reply, g.nodes.Keys - {c});
      ServingOn(g, h, c, m, n, r, ok, e, k);
      LeaderMail(g, h, c, q, n, r, ok, e, k);
      ServedOn(g, h, c, q, n, r, ok, e, k);
      TalliedOn(g, h, c, q, n, r, ok, e, k);
    }
  }

  lemma WrittenKind(x: Node, msg: RaftMsg, k: nat)
    requires Written(x, msg, k)
    ensures msg.AppendEntries? || msg.InstallSnapshot?
  {
  }

  lemma ProgressTerm(x: Node, p: NodeId, ok: bool, r: (Node, seq<Outgoing>), e: LogEntry, k: nat)
    requires Progress(x, p, ok, r, e, k)
    ensures r.0.term == x.term
  {
  }

  lemma SpreadingMail(g: Group, c: NodeId, q: seq<Mail>, e: LogEntry, k: nat)
    requires Spreading(g, c, q, e, k)
    ensures WellFormed(g) && MailOk(g, q)
  {
    hide WellFormed;
    hide Writing;
    hide Written;
  }

  /** A delivery loop that is not cut off ends with every running replica told. */
  lemma {:induction false} FlushSpreads(g: Group, c: NodeId, q: seq<Mail>, e: LogEntry, k: nat, left: nat)
    requires Spreading(g, c, q, e, k) && WellFormed(g) && MailOk(g, q) && Ends(g, q, left)
    ensures Spreading(Flush(g, q, left), c, [], e, k)
    decreases left
  {
    hide WellFormed;
    hide Spreading;
    hide Exchange;
    if q != [] {
      ExchangeSpreads(g, c, q, e, k);
      var (h, more) := Exchange(g, q[0]);
      SpreadingMail(h, c, q[1..] + more, e, k);
      FlushSpreads(h, c, q[1..] + more, e, k, left - 1);
    }
  }

  // ------------------------------------------------------------------ when it has spread

  lemma {:induction false} ManyMatched(peers: seq<NodeId>, matched: map<NodeId, nat>, u: set<NodeId>, k: nat)
    requires forall p :: p in u ==> p in peers && p in matched && matched[p] >= k
    ensures |u| <= CountMatched(peers, matched, k)
  {
    if peers == [] {
      assert u == {};
    } else {
      var init, last := peers[..|peers| - 1], peers[|peers| - 1];
      assert peers == init + [last];
      ManyMatched(init, matched, u - {last}, k);
    }
  }

  lemma NothingDue(p: NodeId, commit: nat)
    ensures !Due([], p, commit)
  {
  }

  lemma SpreadTold(g: Group, c: NodeId, e: LogEntry, k: nat)
    requires Spreading(g, c, [], e, k)
    ensures WellFormed(g) && Up(g, c) && Writing(g.nodes[c], e, k)
    ensures forall p {:trigger g.nodes[p]} :: Up(g, p) && p != c ==>
              Told(g.nodes[c], p, g.nodes[p], k) && g.nodes[p].commit <= k && Reckoned(g.nodes[c], k)
  {
    hide WellFormed;
    hide Writing;
    hide Due;
    hide Told;
    hide Reckoned;
    var x := g.nodes[c];
    forall p | Up(g, p) && p != c
      ensures Told(x, p, g.nodes[p], k) && g.nodes[p].commit <= k && Reckoned(x, k)
    {
      NothingDue(p, x.commit);
    }
  }

  /** The running replicas besides the leader, and how many they are. */
  lemma RunningPeers(g: Group, c: NodeId) returns (u: set<NodeId>)
    requires WellFormed(g) && Up(g, c) && MajorityUp(g)
    ensures forall p :: p in u <==> Up(g, p) && p != c
    ensures 1 + |u| >= g.nodes[c].MajoritySize() && (u == {} ==> g.nodes[c].peers == [])
    ensures forall p :: p in u ==> p in g.nodes[c].peers
  {
    hide WellFormed;
    u := g.nodes.Keys - g.down - {c};
    PeersExcept(g, c);
    PeersNumber(g, c);
    assert g.nodes.Keys - g.down == u + {c};
  }

  lemma PeersNumber(g: Group, c: NodeId)
    requires WellFormed(g) && c in g.nodes
    ensures |g.nodes[c].peers| + 1 == |g.replicas|
  {
    OthersDistinct(g.replicas, c);
  }

  lemma MajorityHolds(x: Node, e: LogEntry, k: nat, u: set<NodeId>)
    requires Writing(x, e, k) && 1 + |u| >= x.MajoritySize() && Reckoned(x, k)
    requires forall p :: p in u ==> p in x.peers && p in x.matchIndex && x.matchIndex[p] >= k
    ensures x.commit == k
  {
    ManyMatched(x.peers, x.matchIndex, u, k);
  }

  lemma ToldFacts(x: Node, p: NodeId, n: Node, k: nat)
    requires Told(x, p, n, k)
    ensures p in x.matchIndex && x.matchIndex[p] >= k && n.commit >= x.commit
  {
  }

  /** With a majority running the entry is committed, and every running replica knows. */
  lemma SpreadCommits(g: Group, c: NodeId, e: LogEntry, k: nat)
    requires Spreading(g, c, [], e, k) && MajorityUp(g) && (g.nodes[c].peers == [] ==> g.nodes[c].commit == k)
    ensures forall p {:trigger g.nodes[p]} :: Up(g, p) ==> g.nodes[p].commit == k
  {
    hide Spreading;
    hide WellFormed;
    hide MajorityUp;
    hide Writing;
    hide Reckoned;
    hide Told;
    SpreadTold(g, c, e, k);
    var x := g.nodes[c];
    var u := RunningPeers(g, c);
    if u != {} {
      var p :| p in u;
      assert Told(x, p, g.nodes[p], k);
      forall y | y in u
        ensures y in x.matchIndex && x.matchIndex[y] >= k && g.nodes[y].commit >= x.commit
      {
        ToldFacts(x, y, g.nodes[y], k);
      }
      MajorityHolds(x, e, k, u);
    }
  }

  // --------------------------------------------------------------------- applying it

  /** The command shows in the store. */
  predicate TakesEffect(op: LogOp, store: set<Triple>) {
    match op
    case Insert(t) => t in store
    case Delete(t) => t !in store
    case _ => true
  }

  lemma {:induction false} LastAction(n: Node, j: nat, op: LogOp)
    requires j < n.commit && n.OpAt(n.commit) == Some(op)
    ensures ActionsAfter(n, j) != [] && ActionsAfter(n, j)[|ActionsAfter(n, j)| - 1] == Apply(op)
    decreases n.commit - j
  {
    if j + 1 < n.commit {
      LastAction(n, j + 1, op);
    }
  }

  lemma {:induction false} PerformLast(store: set<Triple>, actions: seq<StoreAction>, op: LogOp)
    requires actions != [] && actions[|actions| - 1] == Apply(op)
    ensures TakesEffect(op, Perform(store, actions))
    decreases |actions|
  {
    if |actions| > 1 {
      var next := match actions[0] case Apply(o) => ApplyOp(store, o) case Reset(ts) => TripleSet(ts);
      PerformLast(next, actions[1..], op);
    }
  }

  lemma SyncedEffect(g: Group, v: NodeId, op: LogOp, k: nat)
    requires v in g.nodes && v in g.stores && Writing(g.nodes[v], LogEntry(g.nodes[v].term, op), k)
    requires g.nodes[v].commit == k
    ensures TakesEffect(op, Synced(g, v).1)
  {
    hide Perform;
    hide TakesEffect;
    hide ActionsAfter;
    hide IterAll;
    hide Compact;
    var n := g.nodes[v];
    LastAction(n, n.applied, op);
    PerformLast(g.stores[v], DrainApply(n).1, op);
  }

  // ------------------------------------------------------------------------- proposing

  lemma ProposeWrites(x: Node, op: LogOp)
    requires x.role == Leader && Informed(x) && Indexed(x)
    ensures var (n, index) := Propose(x, op); var r := ReplicateNow(n); var k := x.LastIndex() + 1;
            && index == Some(k) && r.1 == ReplicateToAll(r.0, r.0.peers) && Writing(r.0, LogEntry(x.term, op), k)
            && r.0.term == x.term && r.0.peers == x.peers && r.0.role == Leader
            && (x.peers == [] ==> r.0.commit == k)
  {
    hide ReplicateToAll;
    var m := x.(log := x.log + [LogEntry(x.term, op)]);
    HighestRange(m, m.LastIndex());
    var n := Propose(x, op).0;
    SameBroadcast(n, Replicate(n).0, n.peers);
  }

  /** Where a proposal starts from. */
  ghost predicate Proposable(g: Group, v: NodeId) {
    && WellFormed(g) && LeadsUp(g, v) && Informed(g.nodes[v]) && Indexed(g.nodes[v])
    && forall p {:trigger g.nodes[p]} :: Up(g, p) ==>
         g.nodes[p].term <= g.nodes[v].term && g.nodes[p].commit <= g.nodes[v].LastIndex()
  }

  lemma ProposeSpreads(g: Group, v: NodeId, op: LogOp, h: Group, outs: seq<Outgoing>)
    requires Proposable(g, v)
    requires var r := ReplicateNow(Propose(g.nodes[v], op).0); h == g.(nodes := g.nodes[v := r.0]) && outs == r.1
    ensures Spreading(h, v, Addressed(v, outs), LogEntry(g.nodes[v].term, op), g.nodes[v].LastIndex() + 1)
    ensures h.nodes[v].peers == [] ==> outs == [] && h.nodes[v].commit == g.nodes[v].LastIndex() + 1
  {
    hide WellFormed;
    hide Propose;
    hide ReplicateNow;
    hide ReplicateToAll;
    hide SameSetup;
    hide Writing;
    hide Written;
    hide Informed;
    hide Indexed;
    hide HasFor;
    hide Reckoned;
    var x := g.nodes[v];
    var e, k, q := LogEntry(x.term, op), x.LastIndex() + 1, Addressed(v, outs);
    ProposeWrites(x, op);
    ProposeSetup(x, op);
    PushFormed(g, v, Propose(x, op).0);
    PeersExcept(h, v);
    BroadcastWritten(h.nodes[v], e, k);
    Broadcast(h.nodes[v], h.nodes[v].peers);
    WritingCommit(h.nodes[v], e, k);
    forall p | Up(h, p)
      ensures h.nodes[p].term <= h.nodes[v].term && h.nodes[p].commit <= k
      ensures p != v ==> Due(q, p, h.nodes[v].commit)
    {
      assert Up(g, p);
      if p != v {
        DueSent(v, [], outs, h.nodes[v], p, k);
        assert [] + q == q;
      }
    }
    forall m | m in q
      ensures m.from == v && m.out.to in h.nodes && m.out.to != v && Written(h.nodes[v], m.out.msg, k)
    {
      assert m.out in outs;
    }
    NoBroadcast(h.nodes[v]);
  }

  lemma WritingCommit(x: Node, e: LogEntry, k: nat)
    requires Writing(x, e, k)
    ensures x.commit <= k
  {
  }

  lemma NoBroadcast(x: Node)
    ensures x.peers == [] ==> ReplicateToAll(x, x.peers) == []
  {
  }

  lemma SpreadingTerm(g: Group, v: NodeId, e: LogEntry, k: nat)
    requires Spreading(g, v, [], e, k)
    ensures v in g.nodes && g.nodes[v].term == e.term
  {
  }

  lemma SpreadApplies(g: Group, v: NodeId, op: LogOp, k: nat)
    requires v in g.nodes && Spreading(g, v, [], LogEntry(g.nodes[v].term, op), k) && MajorityUp(g)
    requires g.nodes[v].peers == [] ==> g.nodes[v].commit == k
    ensures WellFormed(g) && v in SyncApply(g).stores
    ensures var h := SyncApply(g);
            && h.nodes[v].role == Leader && TakesEffect(op, h.stores[v])
            && forall p {:trigger h.nodes[p]} :: Up(h, p) ==> h.nodes[p].commit == k
  {
    hide Placed;
    hide Synced;
    hide TakesEffect;
    hide Written;
    hide Reckoned;
    hide Due;
    SpreadCommits(g, v, LogEntry(g.nodes[v].term, op), k);
    SyncedEffect(g, v, op, k);
    forall p | Up(g, p)
      ensures Synced(g, p).0.commit == k && Synced(g, p).0.role == g.nodes[p].role
    {
      SyncedCommit(g, p);
    }
  }

  lemma SyncedCommit(g: Group, p: NodeId)
    requires p in g.nodes && p in g.stores
    ensures Synced(g, p).0.commit == g.nodes[p].commit && Synced(g, p).0.role == g.nodes[p].role
  {
    hide Perform;
    hide ActionsAfter;
    hide IterAll;
  }

  /** A delivery loop leaves the peers known as they are, and does nothing when there are none. */
  lemma LoneFlush(g: Group, v: NodeId, outs: seq<Outgoing>, left: nat)
    requires WellFormed(g) && v in g.nodes && MailOk(g, Addressed(v, outs)) && (g.nodes[v].peers == [] ==> outs == [])
    ensures var h := Flush(g, Addressed(v, outs), left);
            && h.nodes[v].peers == g.nodes[v].peers
            && (g.nodes[v].peers == [] ==> h == g)
  {
    hide Flush;
    FlushNothing(g, Addressed(v, outs), left);
    assert Placed(g.replicas, v, Flush(g, Addressed(v, outs), left).nodes[v]) && Placed(g.replicas, v, g.nodes[v]);
  }

  lemma FlushNothing(g: Group, q: seq<Mail>, left: nat)
    requires WellFormed(g) && MailOk(g, q)
    ensures q == [] ==> Flush(g, q, left) == g
  {
  }

  /** The call itself commits the write and applies it on every running replica. */
  lemma ProposeApplies(g: Group, v: NodeId, op: LogOp)
    requires Proposable(g, v) && LeaderOf(g) == Some(v) && MajorityUp(g) && AllComplete(ProposeDeliveries(g, op))
    ensures var (h, r) := ProposeOne(g, op); var k := g.nodes[v].LastIndex() + 1;
            && r == Some((v, k)) && h.down == g.down && h.nodes.Keys == g.nodes.Keys && v in h.stores
            && h.nodes[v].role == Leader && TakesEffect(op, h.stores[v])
            && forall p {:trigger Up(h, p)} :: Up(h, p) ==> h.nodes[p].commit == k
  {
    hide WellFormed;
    hide LeaderAmong;
    hide Propose;
    hide ReplicateNow;
    hide SameSetup;
    hide Spreading;
    hide TakesEffect;
    hide Informed;
    hide Indexed;
    hide Flush;
    hide SyncApply;
    hide Ends;
    var x := g.nodes[v];
    var e, k := LogEntry(x.term, op), x.LastIndex() + 1;
    var r := ReplicateNow(Propose(x, op).0);
    var h := g.(nodes := g.nodes[v := r.0]);
    ProposeWrites(x, op);
    ProposeSetup(x, op);
    PushFormed(g, v, Propose(x, op).0);
    ProposeSpreads(g, v, op, h, r.1);
    assert Complete(ProposeDeliveries(g, op)[0]);
    SpreadingMail(h, v, Addressed(v, r.1), e, k);
    FlushSpreads(h, v, Addressed(v, r.1), e, k, MAX_DELIVERIES);
    LoneFlush(h, v, r.1, MAX_DELIVERIES);
    var a := Flush(h, Addressed(v, r.1), MAX_DELIVERIES);
    SpreadingTerm(a, v, e, k);
    assert a.nodes.Keys == g.nodes[v := r.0].Keys == g.nodes.Keys;
    SpreadApplies(a, v, op, k);
  }

  // ------------------------------------------------------------------------- whole runs

  /** The group's leader, whose term no running replica exceeds. */
  ghost predicate Reigns(g: Group, v: NodeId)
    requires WellFormed(g)
  {
    LeaderOf(g) == Some(v) && forall p {:trigger g.nodes[p]} :: Up(g, p) ==> g.nodes[p].term <= g.nodes[v].term
  }

  lemma ReigningProposes(groups: seq<Group>, calls: seq<Call>, i: nat, v: NodeId)
    requires GroupRun(groups, calls) && WithinBounds(groups, calls) && i < |groups| && Reigns(groups[i], v)
    ensures Proposable(groups[i], v) && LeaderOf(groups[i]) == Some(v)
  {
    hide IsNew;
    hide WellFormed;
    hide WithinBounds;
    hide After;
    hide LeaderAmong;
    hide Informed;
    hide Indexed;
    LeaderReached(groups, calls, i, v);
  }

  /** Every running replica has applied `op` as its last command, at index `k`, and all hold one store. */
  ghost predicate AppliedEverywhere(h: Group, v: NodeId, op: LogOp, k: nat) {
    && v in h.stores && TakesEffect(op, h.stores[v])
    && forall p {:trigger Up(h, p)} :: Up(h, p) ==>
         && h.nodes[p].commit == h.nodes[p].applied == k
         && p in h.stores && h.stores[p] == h.stores[v]
  }

  /** With a majority running, the call that proposes a write commits it, and when it returns every
      running replica has applied it as its last command: their stores are the same and show it. */
  lemma QuorumApplies(groups: seq<Group>, calls: seq<Call>, i: nat, v: NodeId, op: LogOp)
    requires GroupRun(groups, calls) && WithinBounds(groups, calls) && i < |calls| && calls[i] == ProposeCall(op)
    requires Reigns(groups[i], v) && MajorityUp(groups[i])
    ensures v in groups[i].nodes && ProposeOne(groups[i], op).1 == Some((v, groups[i].nodes[v].LastIndex() + 1))
    ensures AppliedEverywhere(groups[i + 1], v, op, groups[i].nodes[v].LastIndex() + 1)
  {
    hide IsNew;
    hide WellFormed;
    hide WithinBounds;
    hide ProposeOne;
    hide ProposeDeliveries;
    hide AllComplete;
    hide AppliedEverywhere;
    hide Proposable;
    hide Reigns;
    hide LeaderAmong;
    hide TakesEffect;
    var g, h := groups[i], groups[i + 1];
    ReigningProposes(groups, calls, i, v);
    ProposableUp(g, v);
    var k := g.nodes[v].LastIndex() + 1;
    assert h == After(g, calls[i]) == ProposeOne(g, op).0;
    BoundedIsHarmless(groups, calls, i);
    ProposeApplies(g, v, op);
    AllApplied(groups, calls, i + 1, v, k);
    Everywhere(h, v, op, k);
  }

  lemma Everywhere(h: Group, v: NodeId, op: LogOp, k: nat)
    requires v in h.stores && TakesEffect(op, h.stores[v])
    requires forall p {:trigger Up(h, p)} :: Up(h, p) ==> h.nodes[p].commit == k
    requires forall p {:trigger Up(h, p)} :: Up(h, p) ==>
               h.nodes[p].applied == k && p in h.stores && h.stores[p] == h.stores[v]
    ensures AppliedEverywhere(h, v, op, k)
  {
    hide TakesEffect;
  }

  lemma ProposableUp(g: Group, v: NodeId)
    requires Proposable(g, v)
    ensures Up(g, v)
  {
    hide WellFormed;
  }

  /** Between two calls running replicas with the same commit index have the same store. */
  lemma AllApplied(groups: seq<Group>, calls: seq<Call>, i: nat, v: NodeId, k: nat)
    requires GroupRun(groups, calls) && WithinBounds(groups, calls) && i < |groups| && LeadsUp(groups[i], v)
    requires forall p {:trigger Up(groups[i], p)} :: Up(groups[i], p) ==> groups[i].nodes[p].commit == k
    ensures forall p {:trigger Up(groups[i], p)} :: Up(groups[i], p) ==>
              && groups[i].nodes[p].applied == k && p in groups[i].stores && v in groups[i].stores
              && groups[i].stores[p] == groups[i].stores[v]
  {
    hide GroupRun;
    hide WithinBounds;
    hide Fold;
    var h := groups[i];
    var canon := GroupHistory(groups, calls);
    LeaderReached(groups, calls, i, v);
    RunSettled(groups, calls, i);
    forall p | Up(h, p)
      ensures h.nodes[p].applied == k && p in h.stores && v in h.stores && h.stores[p] == h.stores[v]
    {
      assert Up(h, v) && Indexed(h.nodes[p]) && Settled(h.nodes[p]);
      assert FollowsHistory(h.nodes[p], h.stores[p], canon) && FollowsHistory(h.nodes[v], h.stores[v], canon);
    }
  }

  lemma ProposedFormed(g: Group, v: NodeId, op: LogOp)
    requires WellFormed(g) && v in g.nodes
    ensures var r := ReplicateNow(Propose(g.nodes[v], op).0);
            WellFormed(g.(nodes := g.nodes[v := r.0])) && SentTo(r.1, g.nodes.Keys)
  {
    hide Propose;
    hide ReplicateNow;
    hide WellFormed;
    hide SameSetup;
    ProposeSetup(g.nodes[v], op);
    PushFormed(g, v, Propose(g.nodes[v], op).0);
    assert g.nodes[v := ReplicateNow(Propose(g.nodes[v], op).0).0].Keys == g.nodes.Keys;
  }

  lemma SameRunning(g: Group, op: LogOp)
    requires WellFormed(g)
    ensures ProposeOne(g, op).0.down == g.down && ProposeOne(g, op).0.replicas == g.replicas
    ensures ProposeOne(g, op).0.nodes.Keys == g.nodes.Keys
  {
    hide WellFormed;
    hide DeliverAll;
    hide Propose;
    hide ReplicateNow;
    hide LeaderAmong;
    if LeaderOf(g).Some? {
      ProposedFormed(g, LeaderOf(g).value, op);
    }
  }

  /** Without a majority the running replicas are a minority to which nothing new is committed. */
  lemma MinorityKeeps(groups: seq<Group>, calls: seq<Call>, i: nat, v: NodeId, op: LogOp, p: NodeId)
    requires GroupRun(groups, calls) && WithinBounds(groups, calls) && i < |calls| && calls[i] == ProposeCall(op)
    requires Proposable(groups[i], v) && LeaderOf(groups[i]) == Some(v) && Up(groups[i], p) && !MajorityUp(groups[i])
    ensures p in groups[i + 1].nodes && groups[i + 1].nodes[p].commit <= groups[i].nodes[v].LastIndex()
  {
    hide IsNew;
    hide WellFormed;
    hide WithinBounds;
    hide ProposeOne;
    hide LeaderAmong;
    hide Informed;
    hide Indexed;
    var s := groups[i].nodes.Keys - groups[i].down;
    SameRunning(groups[i], op);
    NeverApplied(groups, calls, i, i + 1, v, op, s, p);
  }

  /** The call commits the write it proposes, on any running replica and on all, if and only if a majority
      of the replicas is running. */
  lemma CommitsIffQuorum(groups: seq<Group>, calls: seq<Call>, i: nat, v: NodeId, op: LogOp, p: NodeId)
    requires GroupRun(groups, calls) && WithinBounds(groups, calls) && i < |calls| && calls[i] == ProposeCall(op)
    requires Reigns(groups[i], v) && Up(groups[i], p)
    ensures v in groups[i].nodes && p in groups[i + 1].nodes
    ensures groups[i + 1].nodes[p].commit > groups[i].nodes[v].LastIndex() <==> MajorityUp(groups[i])
  {
    hide IsNew;
    hide WellFormed;
    hide WithinBounds;
    hide ProposeOne;
    hide Reigns;
    hide MajorityUp;
    hide Proposable;
    hide TakesEffect;
    ReigningProposes(groups, calls, i, v);
    ProposableUp(groups[i], v);
    SameRunning(groups[i], op);
    if MajorityUp(groups[i]) {
      QuorumApplies(groups, calls, i, v, op);
      assert Up(groups[i + 1], p);
    } else {
      MinorityKeeps(groups, calls, i, v, op, p);
    }
  }
}
