/** A write that cannot reach a quorum: it is appended to the leader's log and never applied, for as long
    as the replicas that have run since are no majority. */
module GroupMinority {
  import opened Wrappers
  import opened RaftTypes
  import opened RaftNode
  import opened RaftLedger
  import opened RaftLink
  import opened RaftSteps
  import opened RaftNetwork
  import opened RaftSafety
  import opened Traces
  import opened TripleStore
  import opened GroupSpec
  import opened GroupRuns
  import opened GroupCalls
  import opened GroupSafety
  import opened GroupElection

  // ------------------------------------------------------------- leaders between calls

  /** What a leader knows of its peers lies within its own log. */
  ghost predicate Informed(x: Node) {
    && (forall p :: p in x.peers ==> p in x.nextIndex)
    && (forall p :: p in x.nextIndex ==> 1 <= x.nextIndex[p] <= x.LastIndex() + 1)
    && (forall p :: p in x.matchIndex ==> x.matchIndex[p] <= x.LastIndex())
  }

  lemma LeaderInformed(n: Net, l: Ledger, v: NodeId)
    requires Inv(n, l) && v in n.nodes && n.nodes[v].role == Leader
    ensures Informed(n.nodes[v])
  {
    hide Sound;
    hide Core;
    hide FlightOk;
    var x := n.nodes[v];
    assert NodeOk(l, v, x, n.stores[v]);
    NodeFacts(l, v, x, n.stores[v]);
    LeaderFacts(l, v, x);
    LeaderRecorded(n, l, v);
    forall p | p in x.matchIndex
      ensures x.matchIndex[p] <= x.LastIndex()
    {
      assert Matched(l, x, p, x.matchIndex[p]);
      if (p, x.term) in l.acks {
        AckBound(l, p, x.term);
      }
    }
  }

  /** A leader's log reaches as far as any replica of no higher term has committed. */
  lemma CommitKnown(n: Net, l: Ledger, p: NodeId, v: NodeId)
    requires Inv(n, l) && p in n.nodes && v in n.nodes && n.nodes[v].role == Leader
    requires n.nodes[p].term <= n.nodes[v].term
    ensures n.nodes[p].commit <= n.nodes[v].LastIndex()
  {
    hide Sound;
    hide NodeOk;
    hide FlightOk;
    hide Committed;
    var x, c := n.nodes[v], n.nodes[p].commit;
    NodeFacts(l, v, x, n.stores[v]);
    CommitRecorded(n, l, p);
    LeaderRecorded(n, l, v);
    if c != 0 {
      var u :| CommittedBy(l, l.log[p], c, n.nodes[p].term, u);
      CommittedStays(l, u, c, x.term);
    }
  }

  lemma IndexedReached(n: Net, l: Ledger, v: NodeId)
    requires Inv(n, l) && v in n.nodes
    ensures Indexed(n.nodes[v])
  {
    hide Sound;
    hide NodeOk;
    hide FlightOk;
    NodeFacts(l, v, n.nodes[v], n.stores[v]);
  }

  /** What holds of a running leader between two calls. */
  lemma LeaderReached(groups: seq<Group>, calls: seq<Call>, i: nat, v: NodeId)
    requires GroupRun(groups, calls) && WithinBounds(groups, calls) && i < |groups| && LeadsUp(groups[i], v)
    ensures Informed(groups[i].nodes[v])
    ensures forall p :: p in groups[i].nodes ==> Indexed(groups[i].nodes[p])
    ensures forall p :: p in groups[i].nodes && groups[i].nodes[p].term <= groups[i].nodes[v].term ==>
              groups[i].nodes[p].commit <= groups[i].nodes[v].LastIndex()
  {
    hide GroupRun;
    hide WithinBounds;
    hide Run;
    hide Inv;
    hide Onward;
    hide Informed;
    hide Indexed;
    var t, at := GuardedRun(groups, calls);
    var ledgers := RunRecorded(t.nets, t.steps);
    var n, l := t.nets[at[i]], ledgers[at[i]];
    LeaderInformed(n, l, v);
    forall p | p in groups[i].nodes
      ensures Indexed(groups[i].nodes[p])
      ensures groups[i].nodes[p].term <= groups[i].nodes[v].term ==>
                groups[i].nodes[p].commit <= groups[i].nodes[v].LastIndex()
    {
      IndexedReached(n, l, p);
      if n.nodes[p].term <= n.nodes[v].term {
        CommitKnown(n, l, p, v);
      }
    }
  }

  // ------------------------------------------------------------------------ broadcasts

  /** A leader's broadcast is one message to each peer. */
  lemma {:induction false} Broadcast(n: Node, peers: seq<NodeId>)
    requires n.role == Leader
    ensures forall o :: o in ReplicateToAll(n, peers) ==> o.to in peers && ReplicateTo(n, o.to) == Some(o)
    ensures forall p :: p in peers ==>
              && ReplicateTo(n, p).Some? && ReplicateTo(n, p).value.to == p
              && ReplicateTo(n, p).value in ReplicateToAll(n, peers)
  {
    if peers != [] {
      var last := peers[|peers| - 1];
      Broadcast(n, peers[..|peers| - 1]);
      assert peers == peers[..|peers| - 1] + [last];
      assert ReplicateTo(n, last).Some? && ReplicateTo(n, last).value.to == last;
    }
  }

  // ---------------------------------------------------------------- nodes of a minority

  /** Everything the node has committed, applied or folded lies below index `k`. */
  predicate Below(n: Node, k: nat) {
    n.commit < k && n.applied < k && n.baseIndex < k
  }

  /** The message commits nothing at index `k` or beyond. */
  predicate Low(msg: RaftMsg, k: nat) {
    match msg
    case RequestVote(_, _, _, _) => true
    case AppendEntries(_, _, _, _, commit, _) => commit < k
    case InstallSnapshot(_, _, index, _, _) => index < k
  }

  ghost predicate AllLow(outs: seq<Outgoing>, k: nat) {
    forall o :: o in outs ==> Low(o.msg, k)
  }

  /** A leader that has nothing at `k` committed and heard of `k` only from members of `s`. */
  ghost predicate Short(x: Node, s: set<NodeId>, k: nat) {
    x.role == Leader ==> Below(x, k) && forall q :: q in x.matchIndex && x.matchIndex[q] >= k ==> q in s
  }

  /** The members of `s`, the node among them, are no majority of its cluster. */
  ghost predicate Outnumbered(x: Node, s: set<NodeId>) {
    Distinct(x.peers) && x.id !in x.peers && x.id in s && |s| < x.MajoritySize()
  }

  lemma Smaller(a: set<NodeId>, b: set<NodeId>)
    requires a <= b
    ensures |a| <= |b|
  {
    assert b == a + (b - a);
  }

  lemma {:induction false} FewMatched(peers: seq<NodeId>, matched: map<NodeId, nat>, s: set<NodeId>, k: nat, j: nat)
    requires Distinct(peers) && 0 < k <= j && forall q :: q in matched && matched[q] >= k ==> q in s
    ensures CountMatched(peers, matched, j) <= |s * set p | p in peers|
  {
    if peers != [] {
      var init, last := peers[..|peers| - 1], peers[|peers| - 1];
      FewMatched(init, matched, s, k, j);
      assert peers == init + [last];
      var a, b := s * (set p | p in init), s * (set p | p in peers);
      assert last !in a;
      if last in s {
        assert b == a + {last};
      } else {
        assert b == a;
      }
    }
  }

  lemma NotCommittable(x: Node, s: set<NodeId>, k: nat, j: nat)
    requires Outnumbered(x, s) && 0 < k <= j && forall q :: q in x.matchIndex && x.matchIndex[q] >= k ==> q in s
    ensures !Committable(x, j)
  {
    FewMatched(x.peers, x.matchIndex, s, k, j);
    var a := s * set p | p in x.peers;
    assert x.id !in a;
    Smaller(a + {x.id}, s);
    assert |a + {x.id}| == |a| + 1;
  }

  lemma NotCommitted(x: Node, s: set<NodeId>, k: nat)
    requires Outnumbered(x, s) && x.commit < k && forall q :: q in x.matchIndex && x.matchIndex[q] >= k ==> q in s
    ensures AdvanceCommit(x).commit < k
  {
    hide Committable;
    var c := AdvanceCommit(x).commit;
    HighestRange(x, x.LastIndex());
    NotCommittable(x, s, k, if c >= k then c else k);
  }

  lemma SentLow(x: Node, peers: seq<NodeId>, k: nat)
    requires x.role == Leader && Below(x, k)
    ensures AllLow(ReplicateToAll(x, peers), k)
    ensures forall p :: AllLow(Single(ReplicateTo(x, p)), k)
  {
    hide ReplicateToAll;
    Broadcast(x, peers);
  }

  lemma AcknowledgedShort(x: Node, from: NodeId, matched: nat, s: set<NodeId>, k: nat)
    requires x.role == Leader && Outnumbered(x, s) && from in s && Short(x, s, k)
    ensures var r := Acknowledged(x, from, matched);
            && Short(r.0, s, k) && Below(r.0, k) && AllLow(r.1, k) && r.0.term == x.term && r.0.role == Leader
            && r.0.log == x.log && r.0.baseIndex == x.baseIndex
  {
    hide HighestCommittable;
    hide ReplicateToAll;
    hide ReplicateTo;
    var m := x.(matchIndex := x.matchIndex[from := matched], nextIndex := x.nextIndex[from := matched + 1]);
    NotCommitted(m, s, k);
    var a := AdvanceCommit(m);
    SentLow(a, a.peers, k);
  }

  /** What the sender may become, and send, on a reply from a member of the minority. */
  ghost predicate StaysShort(x: Node, r: (Node, seq<Outgoing>), s: set<NodeId>, k: nat) {
    && Short(r.0, s, k) && AllLow(r.1, k) && (Below(x, k) ==> Below(r.0, k))
    && (r.0.role == Candidate ==> r.0.votesGranted <= s)
    && (r.0.role == Leader ==> x.role == Leader && r.0.term == x.term)
    && r.0.log == x.log && r.0.baseIndex == x.baseIndex
  }

  lemma AnswerShort(x: Node, from: NodeId, reply: RaftReply, s: set<NodeId>, k: nat)
    requires Outnumbered(x, s) && from in s && Short(x, s, k)
    requires x.role == Candidate ==> x.votesGranted <= s
    ensures StaysShort(x, HandleReply(x, from, reply), s, k)
  {
    hide Acknowledged;
    hide BecomeLeader;
    hide ReplicateTo;
    if reply.term > x.term {
    } else if x.role == Candidate {
      Smaller(x.votesGranted + {from}, s);
    } else if x.role == Leader {
      match reply
      case VoteReply(_, _) =>
      case AppendReply(_, success, matched) =>
        AcknowledgedShort(x, from, matched, s, k);
        SentLow(BackedUp(x, from, matched), [], k);
      case SnapshotReply(_) =>
        SentLow(x.(matchIndex := x.matchIndex[from := x.baseIndex],
                   nextIndex := x.nextIndex[from := x.baseIndex + 1]), [], k);
    }
  }

  /** Hearing such a message commits nothing at `k` either, and makes nobody a leader. */
  ghost predicate StaysLow(n: Node, msg: RaftMsg, m: Node, k: nat) {
    && (Below(n, k) ==> Below(m, k))
    && (m.role == Leader ==> n.role == Leader && msg.term <= n.term && m.term == n.term && m.matchIndex == n.matchIndex
                             && m.commit == n.commit && m.applied == n.applied && m.baseIndex == n.baseIndex)
  }

  lemma HeardLow(n: Node, msg: RaftMsg, k: nat)
    requires Low(msg, k)
    ensures StaysLow(n, msg, Handle(n, msg).0, k)
  {
    hide StoreEntries;
    if msg.AppendEntries? {
      StoreFields(Following(n, msg.term, msg.leaderId), msg.prevLogIndex, msg.entries);
    }
  }

  lemma TickShort(x: Node, s: set<NodeId>, k: nat)
    requires Outnumbered(x, s) && Short(x, s, k) && |s| > 0
    ensures var r := Tick(x);
            && Short(r.0, s, k) && AllLow(r.1, k) && (Below(x, k) ==> Below(r.0, k))
            && (r.0.role == Candidate && r.1 != [] ==> r.0.votesGranted <= s)
            && (r.0.role == Leader ==> x.role == Leader && r.0.term == x.term)
  {
    hide ReplicateToAll;
    if x.role == Leader {
      var m := x.(timers := x.timers.(heartbeatElapsed := x.timers.heartbeatElapsed + 1));
      SentLow(m, m.peers, k);
    }
  }

  // ---------------------------------------------------------------- groups without quorum

  /** The running replicas are among `s`, and `s` is no majority. */
  ghost predicate Minority(g: Group, s: set<NodeId>) {
    2 * |s| <= |g.replicas| && forall p :: Up(g, p) ==> p in s
  }

  /** Index `k` is out of reach: replica `f` has nothing there, nor has any running leader outside `d`. */
  ghost predicate Stuck(g: Group, s: set<NodeId>, k: nat, f: NodeId, d: set<NodeId>) {
    && WellFormed(g) && Minority(g, s) && k > 0 && f in g.nodes && Below(g.nodes[f], k)
    && forall x {:trigger g.nodes[x]} :: LeadsUp(g, x) && x !in d ==> Short(g.nodes[x], s, k)
  }

  /** A message that will depose it is on the way to every leader in `d`. */
  ghost predicate Doomed(g: Group, q: seq<Mail>, d: set<NodeId>) {
    forall x :: x in d && LeadsUp(g, x) ==> Deposing(q, x, g.nodes[x].term)
  }

  ghost predicate Deposing(q: seq<Mail>, x: NodeId, t: nat) {
    exists m :: m in q && m.out.to == x && m.out.msg.term > t
  }

  /** The queue is `c`'s, and neither it nor `c` can commit anything at `k`. */
  ghost predicate FromStuck(g: Group, c: NodeId, q: seq<Mail>, s: set<NodeId>, k: nat) {
    && Up(g, c) && Short(g.nodes[c], s, k)
    && (q != [] && g.nodes[c].role == Candidate ==> g.nodes[c].votesGranted <= s)
    && forall m :: m in q ==> m.from == c && m.out.to in g.nodes && m.out.to != c && Low(m.out.msg, k)
  }

  lemma SetupOutnumbered(g: Group, c: NodeId, s: set<NodeId>)
    requires WellFormed(g) && Minority(g, s) && Up(g, c)
    ensures Outnumbered(g.nodes[c], s)
    ensures forall p :: p in g.nodes[c].peers <==> p in g.nodes && p != c
  {
    OthersDistinct(g.replicas, c);
    OthersMembers(g.replicas, c);
  }

  /** What a delivery to `p` and its answer to `c` make of the group. */
  ghost predicate Answered(g: Group, h: Group, c: NodeId, m: Mail, n: Node, x: Node) {
    && Up(g, c) && Up(g, m.out.to) && m.out.to != c && h == g.(nodes := g.nodes[m.out.to := n][c := x])
  }

  lemma NodesStuck(g: Group, h: Group, c: NodeId, m: Mail, n: Node, r: (Node, seq<Outgoing>), s: set<NodeId>, k: nat,
                   f: NodeId, d: set<NodeId>)
    requires Stuck(g, s, k, f, d) && c !in d && Answered(g, h, c, m, n, r.0) && WellFormed(h)
    requires Short(g.nodes[c], s, k)
    requires StaysLow(g.nodes[m.out.to], m.out.msg, n, k) && StaysShort(g.nodes[c], r, s, k)
    ensures Stuck(h, s, k, f, d)
  {
    hide WellFormed;
    forall x | LeadsUp(h, x) && x !in d
      ensures Short(h.nodes[x], s, k)
    {
      if x != c {
        assert LeadsUp(g, x);
        assert Short(g.nodes[x], s, k);
      }
    }
  }

  lemma StillDoomed(g: Group, h: Group, c: NodeId, q: seq<Mail>, more: seq<Mail>, n: Node, x: Node, k: nat,
                    d: set<NodeId>)
    requires q != [] && Doomed(g, q, d) && c !in d && Answered(g, h, c, q[0], n, x)
    requires StaysLow(g.nodes[q[0].out.to], q[0].out.msg, n, k)
    ensures Doomed(h, q[1..] + more, d)
  {
    forall y | y in d && LeadsUp(h, y)
      ensures Deposing(q[1..] + more, y, h.nodes[y].term)
    {
      assert LeadsUp(g, y);
      LaterDeposes(q, more, y, g.nodes[y].term);
    }
  }

  lemma LaterDeposes(q: seq<Mail>, more: seq<Mail>, x: NodeId, t: nat)
    requires q != [] && Deposing(q, x, t) && !(q[0].out.to == x && q[0].out.msg.term > t)
    ensures Deposing(q[1..] + more, x, t)
  {
    var m :| m in q && m.out.to == x && m.out.msg.term > t;
    assert m in q[1..] + more;
  }

  lemma DroppedDoomed(g: Group, q: seq<Mail>, d: set<NodeId>)
    requires q != [] && Doomed(g, q, d) && q[0].out.to in g.down
    ensures Doomed(g, q[1..] + [], d)
  {
    forall y | y in d && LeadsUp(g, y)
      ensures Deposing(q[1..] + [], y, g.nodes[y].term)
    {
      LaterDeposes(q, [], y, g.nodes[y].term);
    }
  }

  lemma RestStuck(g: Group, h: Group, c: NodeId, q: seq<Mail>, n: Node, r: (Node, seq<Outgoing>), s: set<NodeId>,
                  k: nat)
    requires q != [] && FromStuck(g, c, q, s, k) && Answered(g, h, c, q[0], n, r.0)
    requires StaysShort(g.nodes[c], r, s, k) && SentTo(r.1, g.nodes.Keys - {c})
    ensures FromStuck(h, c, q[1..] + Addressed(c, r.1), s, k)
  {
    hide Short;
    hide Low;
    var rest := q[1..] + Addressed(c, r.1);
    forall m | m in rest
      ensures m.from == c && m.out.to in h.nodes && m.out.to != c && Low(m.out.msg, k)
    {
      if m in q[1..] {
        assert m in q;
      } else {
        assert m in Addressed(c, r.1) && m.out in r.1;
      }
    }
  }

  lemma ExchangeStuck(g: Group, c: NodeId, q: seq<Mail>, s: set<NodeId>, k: nat, f: NodeId, d: set<NodeId>)
    requires q != [] && Stuck(g, s, k, f, d) && Doomed(g, q, d) && FromStuck(g, c, q, s, k) && c !in d
    ensures WellFormed(g) && q[0].from in g.nodes && q[0].out.to in g.nodes
    ensures var (h, more) := Exchange(g, q[0]);
            && Stuck(h, s, k, f, d) && Doomed(h, q[1..] + more, d) && FromStuck(h, c, q[1..] + more, s, k)
            && c in h.nodes && h.nodes[c].log == g.nodes[c].log && h.nodes[c].baseIndex == g.nodes[c].baseIndex
  {
    hide WellFormed;
    hide Handle;
    hide HandleReply;
    hide Short;
    hide Below;
    hide Low;
    hide StaysLow;
    var m := q[0];
    assert m in q;
    var p := m.out.to;
    var (h, more) := Exchange(g, m);
    if p in g.down {
      DroppedDoomed(g, q, d);
    } else {
      var n := Handle(g.nodes[p], m.out.msg).0;
      var reply := Handle(g.nodes[p], m.out.msg).1;
      var r := HandleReply(g.nodes[c], p, reply);
      SetupOutnumbered(g, c, s);
      HeardLow(g.nodes[p], m.out.msg, k);
      AnswerShort(g.nodes[c], p, reply, s, k);
      assert h.nodes == g.nodes[p := n][c := r.0];
      ReplySentTo(g.nodes[c], p, reply, g.nodes.Keys - {c});
      NodesStuck(g, h, c, m, n, r, s, k, f, d);
      StillDoomed(g, h, c, q, more, n, r.0, k, d);
      RestStuck(g, h, c, q, n, r, s, k);
    }
  }

  lemma StuckMail(g: Group, c: NodeId, q: seq<Mail>, s: set<NodeId>, k: nat)
    requires FromStuck(g, c, q, s, k)
    ensures MailOk(g, q)
  {
  }

  lemma NobodyDoomed(g: Group, s: set<NodeId>, k: nat, f: NodeId, d: set<NodeId>)
    requires Stuck(g, s, k, f, d) && (Doomed(g, [], d) || d == {})
    ensures Stuck(g, s, k, f, {})
  {
    hide WellFormed;
    hide Short;
    forall x | LeadsUp(g, x)
      ensures Short(g.nodes[x], s, k)
    {
      assert !Deposing([], x, g.nodes[x].term);
    }
  }

  /** Delivering such a queue leaves the index out of reach; leaders that were to be deposed are. */
  lemma {:induction false} FlushStuck(g: Group, c: NodeId, q: seq<Mail>, s: set<NodeId>, k: nat, f: NodeId,
                                      d: set<NodeId>, left: nat)
    requires Stuck(g, s, k, f, d) && Doomed(g, q, d) && FromStuck(g, c, q, s, k) && c !in d
    requires MailOk(g, q) && (d == {} || Ends(g, q, left))
    ensures var h := Flush(g, q, left);
            && Stuck(h, s, k, f, {}) && h.nodes[c].log == g.nodes[c].log
            && h.nodes[c].baseIndex == g.nodes[c].baseIndex
    decreases left
  {
    hide WellFormed;
    hide Stuck;
    hide Doomed;
    hide FromStuck;
    hide Exchange;
    if q == [] || left == 0 {
      NobodyDoomed(g, s, k, f, d);
    } else {
      ExchangeStuck(g, c, q, s, k, f, d);
      var (h, more) := Exchange(g, q[0]);
      StuckMail(h, c, q[1..] + more, s, k);
      FlushStuck(h, c, q[1..] + more, s, k, f, d, left - 1);
    }
  }

  // ------------------------------------------------------------------ calls on such groups

  lemma SyncedStuck(g: Group, v: NodeId, s: set<NodeId>, k: nat)
    requires v in g.nodes && v in g.stores
    ensures var n := Synced(g, v).0;
            && (Below(g.nodes[v], k) ==> Below(n, k)) && n.role == g.nodes[v].role && n.term == g.nodes[v].term
            && (Short(g.nodes[v], s, k) ==> Short(n, s, k))
  {
    hide Perform;
    hide ActionsAfter;
    hide IterAll;
  }

  lemma SyncStuck(g: Group, s: set<NodeId>, k: nat, f: NodeId)
    requires Stuck(g, s, k, f, {})
    ensures Stuck(SyncApply(g), s, k, f, {})
  {
    hide Placed;
    hide Synced;
    hide Short;
    hide Below;
    var h := SyncApply(g);
    SyncedStuck(g, f, s, k);
    forall x | LeadsUp(h, x)
      ensures Short(h.nodes[x], s, k)
    {
      SyncedStuck(g, x, s, k);
      assert LeadsUp(g, x);
    }
  }

  lemma DeliverStuck(g: Group, c: NodeId, outs: seq<Outgoing>, s: set<NodeId>, k: nat, f: NodeId, d: set<NodeId>)
    requires Stuck(g, s, k, f, d) && SentTo(outs, g.nodes.Keys - {c}) && AllLow(outs, k)
    requires Up(g, c) && Short(g.nodes[c], s, k) && c !in d
    requires outs != [] && g.nodes[c].role == Candidate ==> g.nodes[c].votesGranted <= s
    requires Doomed(g, Addressed(c, outs), d)
    requires d == {} || (MailOk(g, Addressed(c, outs)) && Ends(g, Addressed(c, outs), MAX_DELIVERIES))
    ensures SentTo(outs, g.nodes.Keys) && Stuck(DeliverAll(g, c, outs), s, k, f, {})
    ensures MailOk(g, Addressed(c, outs))
    ensures var h := Flush(g, Addressed(c, outs), MAX_DELIVERIES);
            && DeliverAll(g, c, outs) == SyncApply(h) && Stuck(h, s, k, f, {}) && h.nodes[c].log == g.nodes[c].log
            && h.nodes[c].baseIndex == g.nodes[c].baseIndex
  {
    hide WellFormed;
    hide Doomed;
    hide Short;
    hide Low;
    hide Flush;
    hide SyncApply;
    hide Ends;
    var q := Addressed(c, outs);
    forall m | m in q
      ensures m.from == c && m.out.to in g.nodes && m.out.to != c && Low(m.out.msg, k)
    {
      assert m.out in outs;
    }
    FlushStuck(g, c, q, s, k, f, d, MAX_DELIVERIES);
    SyncStuck(Flush(g, q, MAX_DELIVERIES), s, k, f);
  }

  /** One running replica may be replaced by a state of it that is as harmless. */
  lemma StuckWith(g: Group, w: NodeId, n: Node, s: set<NodeId>, k: nat, f: NodeId, d: set<NodeId>)
    requires Stuck(g, s, k, f, d) && w in g.nodes && WellFormed(g.(nodes := g.nodes[w := n]))
    requires Short(n, s, k) && (Below(g.nodes[w], k) ==> Below(n, k))
    ensures Stuck(g.(nodes := g.nodes[w := n]), s, k, f, d)
  {
    hide WellFormed;
    hide Short;
    hide Below;
    var h := g.(nodes := g.nodes[w := n]);
    forall x | LeadsUp(h, x) && x !in d
      ensures Short(h.nodes[x], s, k)
    {
      if x != w {
        assert LeadsUp(g, x);
      }
    }
  }

  lemma TickStuck(g: Group, w: NodeId, s: set<NodeId>, k: nat, f: NodeId)
    requires Stuck(g, s, k, f, {}) && w in g.nodes
    ensures Stuck(TickOne(g, w), s, k, f, {})
  {
    hide WellFormed;
    hide Tick;
    hide Flush;
    hide SyncApply;
    hide SameSetup;
    hide Short;
    hide Below;
    hide Low;
    if w !in g.down {
      var r := Tick(g.nodes[w]);
      TickFormed(g, w);
      SetupOutnumbered(g, w, s);
      assert w in s;
      NotLeading(g.nodes[w], s, k);
      TickShort(g.nodes[w], s, k);
      TickSentTo(g.nodes[w], g.nodes.Keys - {w});
      StuckWith(g, w, r.0, s, k, f, {});
      DeliverStuck(g.(nodes := g.nodes[w := r.0]), w, r.1, s, k, f, {});
    }
  }

  lemma NotLeading(x: Node, s: set<NodeId>, k: nat)
    ensures x.role != Leader ==> Short(x, s, k)
  {
  }

  lemma {:induction false} ElectStuck(g: Group, w: NodeId, ticks: nat, s: set<NodeId>, k: nat, f: NodeId)
    requires Stuck(g, s, k, f, {}) && w in g.nodes
    ensures Stuck(Elect(g, w, ticks).0, s, k, f, {})
    decreases ticks
  {
    hide WellFormed;
    hide TickOne;
    hide Short;
    hide Below;
    if ticks != 0 && !(w !in g.down && g.nodes[w].role == Leader) {
      TickStuck(g, w, s, k, f);
      ElectStuck(TickOne(g, w), w, ticks - 1, s, k, f);
    }
  }

  lemma {:induction false} SettleStuck(g: Group, rounds: nat, s: set<NodeId>, k: nat, f: NodeId)
    requires Stuck(g, s, k, f, {})
    ensures Stuck(Settle(g, rounds), s, k, f, {})
    decreases rounds
  {
    hide WellFormed;
    hide TickOne;
    hide Short;
    hide Below;
    if rounds != 0 && LeaderOf(g).Some? {
      TickStuck(g, LeaderOf(g).value, s, k, f);
      SettleStuck(TickOne(g, LeaderOf(g).value), rounds - 1, s, k, f);
    }
  }

  // ------------------------------------------------------------------------- proposing

  lemma ProposeShort(x: Node, op: LogOp, s: set<NodeId>, k: nat)
    requires Outnumbered(x, s) && Short(x, s, k) && x.role == Leader
    ensures var (n, index) := Propose(x, op); var r := ReplicateNow(n);
            && index == Some(x.LastIndex() + 1) && r.1 == ReplicateToAll(r.0, x.peers)
            && Short(r.0, s, k) && Below(r.0, k) && AllLow(r.1, k)
            && r.0.role == Leader && r.0.term == x.term && r.0.id == x.id && r.0.peers == x.peers
            && r.0.log == x.log + [LogEntry(x.term, op)] && r.0.baseIndex == x.baseIndex
  {
    hide ReplicateToAll;
    hide HighestCommittable;
    Smaller({x.id}, s);
    var n := Propose(x, op).0;
    SentLow(n, n.peers, k);
    SameBroadcast(n, Replicate(n).0, n.peers);
  }

  /** Timers do not change what a node sends. */
  lemma {:induction false} SameBroadcast(n: Node, m: Node, peers: seq<NodeId>)
    requires m == n.(timers := m.timers)
    ensures ReplicateToAll(m, peers) == ReplicateToAll(n, peers)
  {
    if peers != [] {
      SameBroadcast(n, m, peers[..|peers| - 1]);
    }
  }

  /** A broadcast deposes every running leader of a lower term. */
  lemma BroadcastDooms(g: Group, v: NodeId, outs: seq<Outgoing>, d: set<NodeId>)
    requires v in g.nodes && g.nodes[v].role == Leader && outs == ReplicateToAll(g.nodes[v], g.nodes[v].peers)
    requires forall x :: x in d ==> x in g.nodes[v].peers && (x in g.nodes ==> g.nodes[x].term < g.nodes[v].term)
    ensures Doomed(g, Addressed(v, outs), d)
  {
    hide ReplicateToAll;
    var n := g.nodes[v];
    Broadcast(n, n.peers);
    forall x | x in d && LeadsUp(g, x)
      ensures Deposing(Addressed(v, outs), x, g.nodes[x].term)
    {
      var o := ReplicateTo(n, x).value;
      var i :| 0 <= i < |outs| && outs[i] == o;
      assert Addressed(v, outs)[i] == Mail(v, o);
      assert o.msg.term == n.term;
    }
  }

  lemma SyncedKeeps(g: Group, v: NodeId, k: nat)
    requires v in g.nodes && v in g.stores && Below(g.nodes[v], k) && k <= g.nodes[v].LastIndex()
    ensures Synced(g, v).0.OpAt(k) == g.nodes[v].OpAt(k)
  {
    hide Perform;
    hide ActionsAfter;
    hide IterAll;
  }

  lemma LeaderStuck(g: Group, v: NodeId, s: set<NodeId>, k: nat, f: NodeId, d: set<NodeId>)
    requires Stuck(g, s, k, f, d) && LeadsUp(g, v) && v !in d
    ensures WellFormed(g) && Up(g, v) && Short(g.nodes[v], s, k) && Outnumbered(g.nodes[v], s)
    ensures forall p :: p in g.nodes[v].peers <==> p in g.nodes && p != v
  {
    hide WellFormed;
    hide Short;
    SetupOutnumbered(g, v, s);
  }

  lemma AppendedKept(h: Group, v: NodeId, s: set<NodeId>, k: nat, op: LogOp)
    requires Stuck(h, s, k, v, {}) && h.nodes[v].OpAt(k) == Some(op)
    ensures SyncApply(h).nodes[v].OpAt(k) == Some(op)
  {
    hide Placed;
    hide Synced;
    hide Short;
    SyncedKeeps(h, v, k);
  }

  /** Appending a command on a leader and sending it out. */
  lemma PushStuck(g: Group, v: NodeId, op: LogOp, h: Group, outs: seq<Outgoing>, s: set<NodeId>, k: nat, f: NodeId,
                  d: set<NodeId>)
    requires Stuck(g, s, k, f, d) && LeadsUp(g, v) && v !in d
    requires forall x :: x in d ==> x in g.nodes && g.nodes[x].term < g.nodes[v].term
    requires var r := ReplicateNow(Propose(g.nodes[v], op).0); h == g.(nodes := g.nodes[v := r.0]) && outs == r.1
    requires d == {} || Complete(Delivery(h, Addressed(v, outs)))
    ensures WellFormed(h) && SentTo(outs, h.nodes.Keys) && v in h.nodes
    ensures Stuck(DeliverAll(h, v, outs), s, k, f, {})
    ensures f == v && g.nodes[v].LastIndex() + 1 == k ==> DeliverAll(h, v, outs).nodes[v].OpAt(k) == Some(op)
  {
    hide WellFormed;
    hide Stuck;
    hide Doomed;
    hide Flush;
    hide SyncApply;
    hide Propose;
    hide ReplicateNow;
    hide ReplicateToAll;
    hide SameSetup;
    hide Short;
    hide Below;
    hide Low;
    hide Ends;
    var x := g.nodes[v];
    LeaderStuck(g, v, s, k, f, d);
    ProposeSetup(x, op);
    PushFormed(g, v, Propose(x, op).0);
    ProposeShort(x, op, s, k);
    StuckWith(g, v, h.nodes[v], s, k, f, d);
    BroadcastDooms(h, v, outs, d);
    ReplicateToPeers(h.nodes[v], x.peers, g.nodes.Keys - {v});
    DeliverStuck(h, v, outs, s, k, f, d);
    if f == v && x.LastIndex() + 1 == k {
      AppendedKept(Flush(h, Addressed(v, outs), MAX_DELIVERIES), v, s, k, op);
    }
  }

  lemma ProposeStuck(g: Group, op: LogOp, s: set<NodeId>, k: nat, f: NodeId, d: set<NodeId>)
    requires Stuck(g, s, k, f, d) && LeaderOf(g).Some? && LeaderOf(g).value !in d
    requires forall x :: x in d ==> x in g.nodes && g.nodes[x].term < g.nodes[LeaderOf(g).value].term
    requires d == {} || AllComplete(ProposeDeliveries(g, op))
    ensures var v := LeaderOf(g).value; var (h, r) := ProposeOne(g, op); var last := g.nodes[v].LastIndex() + 1;
            && Stuck(h, s, k, f, {}) && r == Some((v, last))
            && (f == v && last == k ==> h.nodes[v].OpAt(k) == Some(op))
  {
    hide WellFormed;
    hide DeliverAll;
    hide AdvanceCommit;
    hide ReplicateNow;
    hide SameSetup;
    hide Short;
    hide Below;
    hide Complete;
    var v := LeaderOf(g).value;
    var r := ReplicateNow(Propose(g.nodes[v], op).0);
    var h := g.(nodes := g.nodes[v := r.0]);
    if d != {} {
      assert Complete(ProposeDeliveries(g, op)[0]);
    }
    PushStuck(g, v, op, h, r.1, s, k, f, d);
  }

  // ------------------------------------------------------------------------ whole runs

  lemma DownStuck(g: Group, v: NodeId, down: bool, s: set<NodeId>, k: nat, f: NodeId)
    requires Stuck(g, s, k, f, {}) && v in g.nodes && Minority(SetDown(g, v, down), s)
    ensures Stuck(SetDown(g, v, down), s, k, f, {})
  {
    hide WellFormed;
    var h := SetDown(g, v, down);
    forall x | LeadsUp(h, x)
      ensures Short(h.nodes[x], s, k)
    {
      assert LeadsUp(g, x);
    }
  }

  /** No call brings the index within reach while those running stay among `s`. */
  lemma CallStuck(g: Group, c: Call, s: set<NodeId>, k: nat, f: NodeId)
    requires Stuck(g, s, k, f, {}) && Callable(g, c) && Minority(After(g, c), s)
    ensures Stuck(After(g, c), s, k, f, {})
  {
    hide WellFormed;
    hide Short;
    hide Below;
    hide TickOne;
    hide Elect;
    hide Settle;
    hide ProposeOne;
    match c
    case TickCall(v) => TickStuck(g, v, s, k, f);
    case ElectCall(v) => ElectStuck(g, v, MAX_ELECTION_TICKS, s, k, f);
    case EnsureCall =>
      if LeaderOf(g).None? && Freshest(g).Some? {
        ElectStuck(g, Freshest(g).value, MAX_ELECTION_TICKS, s, k, f);
      }
    case ProposeCall(op) => UnledPropose(g, op, s, k, f);
    case DownCall(v, down) => DownStuck(g, v, down, s, k, f);
    case SettleCall(rounds) => SettleStuck(g, rounds, s, k, f);
  }

  lemma UnledPropose(g: Group, op: LogOp, s: set<NodeId>, k: nat, f: NodeId)
    requires Stuck(g, s, k, f, {})
    ensures Stuck(ProposeOne(g, op).0, s, k, f, {})
  {
    hide WellFormed;
    hide Short;
    hide Below;
    hide DeliverAll;
    if LeaderOf(g).Some? {
      ProposeStuck(g, op, s, k, f, {});
    }
  }

  lemma {:induction false} RunStuck(groups: seq<Group>, calls: seq<Call>, i: nat, j: nat, s: set<NodeId>, k: nat,
                                    f: NodeId)
    requires GroupRun(groups, calls) && i <= j < |groups| && Stuck(groups[i], s, k, f, {})
    requires forall m :: i <= m <= j ==> Minority(groups[m], s)
    ensures Stuck(groups[j], s, k, f, {})
    decreases j - i
  {
    hide IsNew;
    hide WellFormed;
    hide Stuck;
    hide Minority;
    hide After;
    if i < j {
      RunStuck(groups, calls, i, j - 1, s, k, f);
      assert Callable(groups[j - 1], calls[j - 1]) && groups[j - 1 + 1] == After(groups[j - 1], calls[j - 1]);
      CallStuck(groups[j - 1], calls[j - 1], s, k, f);
    }
  }

  lemma NewIndexShort(x: Node, s: set<NodeId>)
    requires Informed(x) && Indexed(x)
    ensures Short(x, s, x.LastIndex() + 1)
  {
  }

  ghost function LowerLeaders(g: Group, v: NodeId): set<NodeId> {
    set x | x in g.nodes && LeadsUp(g, x) && x != v
  }

  lemma LowerTerms(groups: seq<Group>, calls: seq<Call>, i: nat, v: NodeId)
    requires GroupRun(groups, calls) && i < |groups| && LeaderOf(groups[i]) == Some(v)
    ensures forall x :: x in LowerLeaders(groups[i], v) ==> groups[i].nodes[x].term < groups[i].nodes[v].term
  {
    hide IsNew;
    hide WellFormed;
    hide After;
    hide LeaderAmong;
    forall x | x in LowerLeaders(groups[i], v)
      ensures groups[i].nodes[x].term < groups[i].nodes[v].term
    {
      GroupElections(groups, calls, i, i, x, v);
    }
  }

  /** Between two calls the index after a leader's log is out of reach but for leaders of lower terms. */
  lemma NewIndexStuck(groups: seq<Group>, calls: seq<Call>, i: nat, v: NodeId, s: set<NodeId>, f: NodeId)
    requires GroupRun(groups, calls) && WithinBounds(groups, calls) && i < |groups| && LeadsUp(groups[i], v)
    requires Minority(groups[i], s) && f in groups[i].nodes
    requires groups[i].nodes[f].commit <= groups[i].nodes[v].LastIndex()
    ensures Stuck(groups[i], s, groups[i].nodes[v].LastIndex() + 1, f, LowerLeaders(groups[i], v))
  {
    hide IsNew;
    hide WellFormed;
    hide WithinBounds;
    hide After;
    hide Minority;
    hide Informed;
    hide Short;
    LeaderReached(groups, calls, i, v);
    NewIndexShort(groups[i].nodes[v], s);
  }

  /** Appended, and never applied: while all replicas that have run since the proposal are no majority,
      the index it was given is committed and applied nowhere it was not passed before, whatever is
      ticked, elected, proposed, failed or revived. */
  lemma NeverApplied(groups: seq<Group>, calls: seq<Call>, i: nat, j: nat, v: NodeId, op: LogOp, s: set<NodeId>,
                     f: NodeId)
    requires GroupRun(groups, calls) && WithinBounds(groups, calls) && i < j < |groups|
    requires calls[i] == ProposeCall(op) && LeaderOf(groups[i]) == Some(v)
    requires forall m :: i <= m <= j ==> Minority(groups[m], s)
    requires f in groups[i].nodes && groups[i].nodes[f].commit <= groups[i].nodes[v].LastIndex()
    ensures var k := groups[i].nodes[v].LastIndex() + 1;
            && ProposeOne(groups[i], op).1 == Some((v, k)) && v in groups[i + 1].nodes
            && groups[i + 1].nodes[v].OpAt(k) == Some(op)
            && f in groups[j].nodes && groups[j].nodes[f].commit < k && groups[j].nodes[f].applied < k
  {
    hide IsNew;
    hide WellFormed;
    hide WithinBounds;
    hide Minority;
    hide ProposeOne;
    hide AllComplete;
    hide ProposeDeliveries;
    var g, k := groups[i], groups[i].nodes[v].LastIndex() + 1;
    LeaderReached(groups, calls, i, v);
    BoundedIsHarmless(groups, calls, i);
    LowerTerms(groups, calls, i, v);
    NewIndexStuck(groups, calls, i, v, s, v);
    ProposeStuck(g, op, s, k, v, LowerLeaders(g, v));
    NewIndexStuck(groups, calls, i, v, s, f);
    ProposeStuck(g, op, s, k, f, LowerLeaders(g, v));
    RunStuck(groups, calls, i + 1, j, s, k, f);
  }
}
