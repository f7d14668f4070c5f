/** No delivery of a replica group throws a matching suffix away, as long as the driver's loop empties its
    queue: the invariant of `GroupTracking` carried through every exchange, every loop and every call. */
module GroupHarmless {
  import opened RaftTypes
  import opened RaftNode
  import opened RaftLedger
  import opened RaftLink
  import opened RaftSteps
  import opened RaftNetwork
  import opened RaftSafety
  import opened GroupSpec
  import opened GroupRuns
  import opened GroupQueue
  import opened GroupTracking

  // ------------------------------------------------------------------------ invariants

  /** The group as a cluster with its queue in flight. */
  ghost function Flight(g: Group, q: seq<Mail>): Net {
    Net(g.nodes, g.stores, set m | m in q :: Envelope(m.from, m.out.to, m.out.msg), {})
  }

  ghost predicate LeaderTracks(g: Group, l: Ledger, u: NodeId)
    requires u in g.nodes
  {
    forall f {:trigger g.nodes[f]} :: f in g.nodes && f != u ==> Tracked(l, g.nodes[u], f, g.nodes[f])
  }

  /** Every running leader but `v` knows enough of every other replica. */
  ghost predicate OthersTrack(g: Group, l: Ledger, v: NodeId) {
    forall u {:trigger LeaderTracks(g, l, u)} :: LeadsUp(g, u) && u != v ==> LeaderTracks(g, l, u)
  }

  ghost predicate AllTrack(g: Group, l: Ledger) {
    forall u {:trigger LeaderTracks(g, l, u)} :: LeadsUp(g, u) ==> LeaderTracks(g, l, u)
  }

  /** While `v`'s messages of term `t` are delivered: what holds of peer `f`. */
  ghost predicate PeerOk(x: Node, l: Ledger, t: nat, q: seq<Mail>, f: NodeId, n: Node, down: bool) {
    && (x.role == Leader ==>
          if down then Tracked(l, x, f, n)
          else n.term <= t ==> Near(l, x, f, n) && Pending(q, f, Depth(l, f, t), n.commit, x.nextIndex[f]))
    && (!down && n.term <= t ==> SnapsSafe(q, f, Depth(l, f, t), n.commit))
  }

  ghost predicate PeersOk(g: Group, l: Ledger, v: NodeId, t: nat, q: seq<Mail>)
    requires v in g.nodes
  {
    forall f {:trigger g.nodes[f]} :: f in g.nodes && f != v ==> PeerOk(g.nodes[v], l, t, q, f, g.nodes[f], f in g.down)
  }

  ghost predicate Sender(g: Group, v: NodeId, t: nat, q: seq<Mail>) {
    && v in g.nodes && v !in g.down && Letters(g.nodes[v], v, t, q)
    && t <= g.nodes[v].term && (g.nodes[v].role != Follower ==> g.nodes[v].term == t)
  }

  ghost predicate Mid(g: Group, l: Ledger, v: NodeId, t: nat, q: seq<Mail>) {
    && WellFormed(g) && Inv(Flight(g, q), l) && Sender(g, v, t, q) && OthersTrack(g, l, v) && PeersOk(g, l, v, t, q)
  }

  // ---------------------------------------------------------------------- one exchange

  /** The group after the receiver has heard, and its reply. */
  ghost function Heard(g: Group, m: Mail): (h: Group)
    requires m.out.to in g.nodes
    ensures h.nodes.Keys == g.nodes.Keys && h.down == g.down && h.replicas == g.replicas && h.stores == g.stores
  {
    g.(nodes := g.nodes[m.out.to := Handle(g.nodes[m.out.to], m.out.msg).0])
  }

  ghost function Replied(g: Group, m: Mail): RaftReply
    requires m.out.to in g.nodes
  {
    Handle(g.nodes[m.out.to], m.out.msg).1
  }

  /** The group after the sender has taken the reply, and what it sends. */
  ghost function Taken(g: Group, m: Mail): (r: (Group, seq<Mail>))
    requires m.from in g.nodes && m.out.to in g.nodes
    ensures r.0.nodes.Keys == g.nodes.Keys && r.0.down == g.down && r.0.replicas == g.replicas && r.0.stores == g.stores
  {
    var b := Heard(g, m);
    var r := HandleReply(b.nodes[m.from], m.out.to, Replied(g, m));
    (b.(nodes := b.nodes[m.from := r.0]), Addressed(m.from, r.1))
  }

  /** The two steps of the cluster an exchange is. */
  ghost predicate TwoSteps(g: Group, l: Ledger, m: Mail, q: seq<Mail>, a: Ledger, k: Ledger)
    requires m.from in g.nodes && m.out.to in g.nodes && q != []
  {
    var e := Envelope(m.from, m.out.to, m.out.msg);
    var n, heard, reply := g.nodes[e.to], Heard(g, m).nodes[e.to], Replied(g, m);
    var after := Flight(Taken(g, m).0, q[1..] + Taken(g, m).1);
    && m.from != m.out.to && Local(l, a, m.out.to) && Local(a, k, m.from)
    && Hears(l, a, e, n, heard, reply)
    && Inv(Flight(Heard(g, m), []), a)
    && Onward(Flight(g, q), l, after, k)
  }

  lemma InvFewer(n: Net, m: Net, g: Ledger)
    requires Inv(n, g) && m.nodes == n.nodes && m.stores == n.stores && m.requests <= n.requests
        && m.replies <= n.replies
    ensures Inv(m, g)
  {
    hide Sound;
    hide NodeOk;
    hide RequestOk;
    hide ReplyOk;
  }

  lemma OnwardFewer(n: Net, g: Ledger, m: Net, h: Ledger, r: Net)
    requires Onward(n, g, m, h) && r.nodes == m.nodes && r.stores == m.stores
    requires r.requests <= m.requests && r.replies <= m.replies
    ensures Onward(n, g, r, h)
  {
    hide Inv;
    hide NodeOnward;
    hide Grows;
    InvFewer(m, r, h);
  }

  lemma FlightHas(g: Group, q: seq<Mail>, l: Ledger, m: Mail)
    requires Inv(Flight(g, q), l) && m in q
    ensures RequestOk(l, Envelope(m.from, m.out.to, m.out.msg))
        && Envelope(m.from, m.out.to, m.out.msg) in Flight(g, q).requests
    ensures m.from in g.nodes && m.out.to in g.nodes && m.from != m.out.to && m.out.to in g.stores && m.from in g.stores
  {
    hide Sound;
    hide NodeOk;
    hide CommittedPrefix;
    hide Fold;
  }

  /** Handing over a harmless message is a delivery and an answer of the cluster. */
  lemma ExchangeSteps(g: Group, l: Ledger, q: seq<Mail>) returns (a: Ledger, k: Ledger)
    requires q != [] && Inv(Flight(g, q), l) && q[0].out.to in g.nodes
    requires !DiscardsMatch(g.nodes[q[0].out.to], q[0].out.msg)
    ensures q[0].from in g.nodes && TwoSteps(g, l, q[0], q, a, k)
  {
    hide Inv;
    hide Onward;
    hide Local;
    hide Hears;
    hide Handle;
    hide HandleReply;
    hide DiscardsMatch;
    var m := q[0];
    FlightHas(g, q, l, m);
    var e := Envelope(m.from, m.out.to, m.out.msg);
    var n0 := Flight(g, q);
    a := StepKeeps(n0, l, Deliver(e));
    var n1 := Next(n0, Deliver(e));
    OnwardInv(n0, l, n1, a);
    var reply := Envelope(e.to, e.from, Handle(g.nodes[e.to], e.msg).1);
    k := StepKeeps(n1, a, Answer(reply));
    var n2 := Next(n1, Answer(reply));
    OnwardTrans(n0, l, n1, a, n2, k);
    AskedAndAnswered(g, q, m.from, HandleReply(n1.nodes[m.from], e.to, reply.msg).1);
    OnwardFewer(n0, l, n2, k, Flight(Taken(g, m).0, q[1..] + Taken(g, m).1));
    InvFewer(n1, Flight(Heard(g, m), []), a);
    DeliveryHears(n0, l, n1, a, e, reply);
  }

  lemma AskedAndAnswered(g: Group, q: seq<Mail>, v: NodeId, outs: seq<Outgoing>)
    requires q != []
    ensures (set m | m in q[1..] + Addressed(v, outs) :: Envelope(m.from, m.out.to, m.out.msg))
            <= Flight(g, q).requests + SentBy(v, outs)
  {
    forall m | m in q[1..] + Addressed(v, outs)
      ensures Envelope(m.from, m.out.to, m.out.msg) in Flight(g, q).requests + SentBy(v, outs)
    {
      if m in q[1..] {
        assert m in q;
      } else {
        assert m in Addressed(v, outs) && m.out in outs;
      }
    }
  }

  lemma OnwardAt(n: Net, g: Ledger, m: Net, h: Ledger, f: NodeId)
    requires Onward(n, g, m, h) && f in n.nodes
    ensures f in m.nodes && f in g.log && f in h.log && Agree(g.log[f], h.log[f], n.nodes[f].commit)
    ensures n.nodes[f].term <= m.nodes[f].term && n.nodes[f].commit <= m.nodes[f].commit && Grows(g, h)
  {
    hide Inv;
    assert NodeOnward(n.nodes[f], g.log[f], m.nodes[f], h.log[f]) by {
      var x := m.nodes[f];
    }
  }

  lemma DeliveryHears(n: Net, l: Ledger, m: Net, a: Ledger, e: Envelope<RaftMsg>, reply: Envelope<RaftReply>)
    requires Inv(n, l) && Inv(m, a) && Onward(n, l, m, a) && Local(l, a, e.to) && RequestOk(l, e)
    requires e.to in n.nodes && e.to in m.nodes && reply in m.replies && reply.from == e.to && reply.to == e.from
    requires m.nodes[e.to] == Handle(n.nodes[e.to], e.msg).0 && reply.msg == Handle(n.nodes[e.to], e.msg).1
    ensures Hears(l, a, e, n.nodes[e.to], m.nodes[e.to], reply.msg)
  {
    hide Sound;
    hide Local;
    hide RequestOk;
    hide ReplyOk;
    hide Duty;
    hide NodeStore;
    hide NodeLog;
    hide NodeCommit;
    hide Grows;
    hide Handle;
    hide NodeOnward;
    assert NodeOk(l, e.to, n.nodes[e.to], n.stores[e.to]) && NodeOk(a, e.to, m.nodes[e.to], m.stores[e.to]);
    assert ReplyOk(a, reply);
    OnwardAt(n, l, m, a, e.to);
  }

  // ----------------------------------------------------------------- the other leaders

  /** Node `w` moved, on behalf of `v`: it keeps its log unless `v` leads its new term, and it goes on
      leading only by not moving at all. */
  ghost predicate MovedFor(g: Group, h: Group, l: Ledger, k: Ledger, v: NodeId, w: NodeId) {
    && v in g.nodes && w in g.nodes && w in h.nodes && h.nodes == g.nodes[w := h.nodes[w]] && h.down == g.down
    && g.nodes[w].term <= h.nodes[w].term && g.nodes[w].commit <= h.nodes[w].commit
    && (w != v && h.nodes[w].role == Leader ==> h.nodes[w] == g.nodes[w])
    && w in l.log && w in k.log
    && (k.log[w] == l.log[w] || (h.nodes[w].term in k.elected && k.elected[h.nodes[w].term].leader == v))
    && Inv(Flight(g, []), l) && Inv(Flight(h, []), k) && Local(l, k, w)
  }

  lemma NodeLogOf(g: Group, l: Ledger, v: NodeId)
    requires Inv(Flight(g, []), l) && v in g.nodes
    ensures NodeLog(l, v, g.nodes[v]) && NodeCommit(l, v, g.nodes[v]) && v in l.ids && l.ids == g.nodes.Keys && Shape(l)
    ensures Sound(l)
  {
    hide Sound;
    hide FlightOk;
    hide Duty;
    hide NodeStore;
    hide CommittedPrefix;
    assert NodeOk(l, v, Flight(g, []).nodes[v], g.stores[v]);
  }

  lemma LeaderKeepsTerm(g: Group, h: Group, l: Ledger, k: Ledger, v: NodeId, w: NodeId, u: NodeId)
    requires MovedFor(g, h, l, k, v, w) && u != v && u in g.nodes && u in h.nodes && h.nodes[u].role == Leader
    ensures h.nodes[u] == g.nodes[u]
    ensures var t := g.nodes[u].term;
            t in l.elected && l.elected[t].leader == u && t in l.tlog && t in k.tlog && k.tlog[t] == l.tlog[t]
  {
    hide Inv;
    hide Sound;
    hide Grows;
    LeaderRecorded(Flight(g, []), l, u);
    LeaderRecorded(Flight(h, []), k, u);
  }

  lemma PairStep(g: Group, h: Group, l: Ledger, k: Ledger, v: NodeId, w: NodeId, u: NodeId, f: NodeId)
    requires MovedFor(g, h, l, k, v, w) && u != v && f != u && f in g.nodes && u in g.nodes
    requires u in h.nodes && f in h.nodes && h.nodes[u].role == Leader && Tracked(l, g.nodes[u], f, g.nodes[f])
    ensures Tracked(k, h.nodes[u], f, h.nodes[f])
  {
    hide Inv;
    hide Sound;
    hide Grows;
    hide Tracked;
    hide NodeLog;
    hide NodeCommit;
    LeaderKeepsTerm(g, h, l, k, v, w, u);
    NodeLogOf(g, l, f);
    NodeLogOf(h, k, f);
    if f == w {
      PairMoved(g, h, l, k, v, w, u);
    } else {
      TrackedAside(l, k, w, u, g.nodes[u], f, g.nodes[f]);
    }
  }

  lemma PairMoved(g: Group, h: Group, l: Ledger, k: Ledger, v: NodeId, w: NodeId, u: NodeId)
    requires MovedFor(g, h, l, k, v, w) && u != v && w != u && u in g.nodes && Tracked(l, g.nodes[u], w, g.nodes[w])
    requires g.nodes[u].term in l.elected && l.elected[g.nodes[u].term].leader == u
    ensures Tracked(k, g.nodes[u], w, h.nodes[w])
  {
    hide Inv;
    hide Sound;
    hide Local;
    hide Tracked;
    hide NodeLog;
    hide NodeCommit;
    NodeLogOf(g, l, w);
    NodeLogOf(h, k, w);
    TrackedStep(l, k, v, w, u, g.nodes[u], g.nodes[w], h.nodes[w]);
  }

  lemma OthersStep(g: Group, h: Group, l: Ledger, k: Ledger, v: NodeId, w: NodeId)
    requires MovedFor(g, h, l, k, v, w) && OthersTrack(g, l, v)
    ensures OthersTrack(h, k, v)
  {
    hide Inv;
    hide Local;
    hide Tracked;
    forall u | LeadsUp(h, u) && u != v
      ensures LeaderTracks(h, k, u)
    {
      LeaderKeepsTerm(g, h, l, k, v, w, u);
      assert LeadsUp(g, u) && LeaderTracks(g, l, u);
      forall f | f in h.nodes && f != u
        ensures Tracked(k, h.nodes[u], f, h.nodes[f])
      {
        assert Tracked(l, g.nodes[u], f, g.nodes[f]);
        PairStep(g, h, l, k, v, w, u, f);
      }
    }
  }

  /** A node goes on leading after a message only by ignoring it. */
  lemma StillLeads(n: Node, msg: RaftMsg)
    requires Handle(n, msg).0.role == Leader
    ensures Handle(n, msg).0 == n
  {
    hide LogOk;
    if msg.AppendEntries? {
      StoreFields(Following(n, msg.term, msg.leaderId), msg.prevLogIndex, msg.entries);
    }
  }

  /** A message changes its receiver's log only if its sender leads the receiver's new term. */
  lemma HearsFor(l: Ledger, a: Ledger, e: Envelope<RaftMsg>, n: Node, m: Node, reply: RaftReply)
    requires Hears(l, a, e, n, m, reply)
    ensures e.to in l.log && e.to in a.log && n.term <= m.term && n.commit <= m.commit
    ensures a.log[e.to] == l.log[e.to] || (m.term in a.elected && a.elected[m.term].leader == e.from)
  {
    hide Hears;
    HearsGrows(l, a, e, n, m, reply);
    if e.msg.term < n.term {
      StaleHears(l, a, e, n, m, reply);
    } else {
      HearsRequest(l, a, e, n, m, reply);
      match e.msg
      case RequestVote(_, _, _, _) => VoteHears(l, a, e, n, m, reply);
      case AppendEntries(_, _, _, _, _, _) => AppendHears(l, a, e, n, m, reply);
      case InstallSnapshot(_, _, _, _, _) => SnapshotHears(l, a, e, n, m, reply);
    }
  }

  lemma HearsRequest(l: Ledger, a: Ledger, e: Envelope<RaftMsg>, n: Node, m: Node, reply: RaftReply)
    requires Hears(l, a, e, n, m, reply)
    ensures !e.msg.RequestVote? ==> e.msg.term in a.elected && a.elected[e.msg.term].leader == e.from
  {
    hide Sound;
    hide NodeLog;
    hide NodeCommit;
    hide ReplyOk;
    hide CommittedPrefix;
    hide Fold;
  }

  // -------------------------------------------------------------- the sender's next state

  /** Without leading before and after, a node answers a reply by nothing but a newer term or a vote. */
  lemma AnswerOther(x: Node, f: NodeId, reply: RaftReply)
    requires x.role != Leader || reply.term > x.term
    ensures var r := HandleReply(x, f, reply);
            && (r.0.role == Leader ==> x.role == Candidate && reply.term <= x.term
                                       && r == BecomeLeader(x.(votesGranted := x.votesGranted + {f})))
            && (r.0.role != Leader ==> && r.1 == [] && r.0.log == x.log && r.0.baseIndex == x.baseIndex
                                       && x.term <= r.0.term && x.commit == r.0.commit && r.0.peers == x.peers
                                       && (r.0.role == Candidate ==> x.role == Candidate && r.0.term == x.term))
  {
    hide BecomeLeader;
    CrownLeads(x.(votesGranted := x.votesGranted + {f}));
  }

  lemma CrownLeads(x: Node)
    ensures BecomeLeader(x).0.role == Leader
  {
    hide ReplicateToAll;
  }

  /** What `v` knows as an exchange of the head of its queue with a running replica begins and ends. */
  ghost predicate Handing(g: Group, l: Ledger, v: NodeId, t: nat, q: seq<Mail>, a: Ledger, k: Ledger) {
    && q != [] && v in g.nodes && q[0].from == v && q[0].out.to in g.nodes && q[0].out.to !in g.down
    && q[0].out.to != v && q[0].out.msg.term == t
    && TwoSteps(g, l, q[0], q, a, k) && Mid(g, l, v, t, q)
  }

  lemma HeadLetter(x: Node, v: NodeId, t: nat, q: seq<Mail>)
    requires q != [] && Letters(x, v, t, q)
    ensures q[0].from == v && q[0].out.to != v && q[0].out.msg.term == t
    ensures forall m :: m in q[1..] ==> m in q
  {
    assert q[0] in q && Letter(x, v, t, q[0]);
  }

  lemma WithinFlight(g: Group, l: Ledger, x: Node, v: NodeId, t: nat, q: seq<Mail>)
    requires Inv(Flight(g, q), l) && Letters(x, v, t, q) && q != []
    ensures SnapsWithin(l, q[1..], t)
  {
    hide Inv;
    hide Sound;
    hide CommittedPrefix;
    hide Fold;
    forall m | m in q[1..] && m.out.msg.InstallSnapshot?
      ensures t in l.tlog && m.out.msg.lastIncludedIndex <= |l.tlog[t]|
    {
      assert m in q && Letter(x, v, t, m);
      FlightHas(g, q, l, m);
    }
  }

  lemma WithinGrows(l: Ledger, a: Ledger, q: seq<Mail>, t: nat)
    requires Grows(l, a) && SnapsWithin(l, q, t)
    ensures SnapsWithin(a, q, t)
  {
    hide Shape;
    assert t in l.tlog ==> Agree(l.tlog[t], a.tlog[t], |l.tlog[t]|);
  }

  /** The logs of the other replicas are untouched by the whole exchange. */
  lemma BystanderLog(g: Group, l: Ledger, v: NodeId, t: nat, q: seq<Mail>, a: Ledger, k: Ledger, p: NodeId)
    requires Handing(g, l, v, t, q, a, k) && p in g.nodes && p != v
    ensures p in l.log && p in a.log && p in k.log && k.log[p] == a.log[p]
    ensures q != [] && (p != q[0].out.to ==> a.log[p] == l.log[p])
    ensures Grows(l, a) && Grows(a, k) && Grows(l, k)
  {
    hide Hears;
    hide Inv;
    hide Local;
    hide Grows;
    hide WellFormed;
    hide Letters;
    hide PeersOk;
    hide OthersTrack;
    hide Onward;
    hide Handle;
    hide HandleReply;
    LocalFacts(l, a, q[0].out.to);
    LocalFacts(a, k, v);
    GrowsTransitive(l, a, k);
    NodesOf(g, q, l);
    LocalOther(a, k, v, p);
    GrowsShape(l, a);
    if p != q[0].out.to {
      LocalOther(l, a, q[0].out.to, p);
    }
  }

  lemma NodesOf(g: Group, q: seq<Mail>, l: Ledger)
    requires Inv(Flight(g, q), l)
    ensures g.nodes.Keys == l.ids && Sound(l) && Shape(l)
  {
    hide NodeOk;
    hide FlightOk;
  }

  /** No snapshot left in the queue is harmful to any follower. */
  lemma SnapsAfter(g: Group, l: Ledger, v: NodeId, t: nat, q: seq<Mail>, a: Ledger, k: Ledger, p: NodeId, n: Node)
    requires q != [] && q[0].out.to in g.nodes && p in g.nodes && p != v && p !in g.down
    requires n == Heard(g, q[0]).nodes[p] && n.term <= t
    requires Handing(g, l, v, t, q, a, k)
    ensures SnapsSafe(q[1..], p, Depth(k, p, t), n.commit)
  {
    hide WellFormed;
    hide HandleReply;
    hide Hears;
    hide Inv;
    hide OthersTrack;
    hide Onward;
    hide Local;
    hide Grows;
    hide SnapsSafe;
    hide Depth;
    hide SnapsWithin;
    hide Letters;
    hide Handle;
    var x, m, f := g.nodes[v], q[0], q[0].out.to;
    BystanderLog(g, l, v, t, q, a, k, p);
    WithinFlight(g, l, x, v, t, q);
    if p == f {
      WithinGrows(l, a, q[1..], t);
      var e := Envelope(v, f, m.out.msg);
      HearsFor(l, a, e, g.nodes[f], Heard(g, m).nodes[f], Replied(g, m));
      HeardSnaps(l, a, e, g.nodes[f], Heard(g, m).nodes[f], Replied(g, m), x, q);
      SnapsKeptSafe(a, k, p, t, q[1..], n.commit);
    } else {
      PopSnaps(q, p, Depth(l, p, t), g.nodes[p].commit);
      SnapsKeptSafe(l, k, p, t, q[1..], g.nodes[p].commit);
    }
  }

  /** The sender's next state and what it sends are its answer to the reply. */
  ghost predicate Answering(g: Group, m: Mail, y: Node, outs: seq<Outgoing>) {
    && m.from in g.nodes && m.out.to in g.nodes && m.from != m.out.to
    && y == Taken(g, m).0.nodes[m.from] && (y, outs) == HandleReply(g.nodes[m.from], m.out.to, Replied(g, m))
    && Taken(g, m).1 == Addressed(m.from, outs)
    && Heard(g, m).nodes[m.from] == g.nodes[m.from]
    && Taken(g, m).0.nodes == Heard(g, m).nodes[m.from := y]
  }

  lemma SenderAnswers(g: Group, m: Mail) returns (y: Node, outs: seq<Outgoing>)
    requires m.from in g.nodes && m.out.to in g.nodes && m.from != m.out.to
    ensures Answering(g, m, y, outs)
  {
    hide Handle;
    hide HandleReply;
    var r := HandleReply(g.nodes[m.from], m.out.to, Replied(g, m));
    y, outs := r.0, r.1;
  }

  /** The sender at the beginning, in between and at the end of an exchange. */
  lemma SenderLogs(g: Group, l: Ledger, v: NodeId, t: nat, q: seq<Mail>, a: Ledger, k: Ledger, y: Node,
                   outs: seq<Outgoing>)
    requires q != [] && Answering(g, q[0], y, outs) && v in g.nodes
    requires Handing(g, l, v, t, q, a, k)
    ensures NodeLog(l, v, g.nodes[v]) && NodeLog(a, v, g.nodes[v]) && NodeLog(k, v, y)
    ensures a.log[v] == l.log[v] && Agree(a.log[v], k.log[v], g.nodes[v].commit) && g.nodes[v].term <= y.term
    ensures Sound(k) && Shape(k) && v in k.ids && k.ids == g.nodes.Keys
  {
    hide Hears;
    hide Inv;
    hide Local;
    hide Onward;
    hide NodeLog;
    hide NodeCommit;
    hide WellFormed;
    hide Letters;
    hide PeersOk;
    hide OthersTrack;
    hide Handle;
    hide HandleReply;
    hide Sound;
    var m := q[0];
    InvFewer(Flight(g, q), Flight(g, []), l);
    NodeLogOf(g, l, v);
    NodeLogOf(Heard(g, m), a, v);
    OnwardInv(Flight(g, q), l, Flight(Taken(g, m).0, q[1..] + Taken(g, m).1), k);
    InvFewer(Flight(Taken(g, m).0, q[1..] + Taken(g, m).1), Flight(Taken(g, m).0, []), k);
    NodeLogOf(Taken(g, m).0, k, v);
    OnwardAt(Flight(g, q), l, Flight(Taken(g, m).0, q[1..] + Taken(g, m).1), k, v);
    LocalOther(l, a, m.out.to, v);
  }

  lemma LeaderLog(g: Group, l: Ledger, v: NodeId)
    requires Inv(Flight(g, []), l) && v in g.nodes && g.nodes[v].role == Leader
    ensures var t := g.nodes[v].term;
            && t in l.elected && l.elected[t].leader == v && t in l.tlog && v in l.log && l.log[v] == l.tlog[t]
            && |l.tlog[t]| == g.nodes[v].LastIndex()
  {
    hide Inv;
    LeaderRecorded(Flight(g, []), l, v);
    LastInLedger(Flight(g, []), l, v);
  }

  /** While the sender goes on leading its recorded log stays the same. */
  lemma SameTermLog(g: Group, l: Ledger, v: NodeId, t: nat, q: seq<Mail>, a: Ledger, k: Ledger, y: Node,
                    outs: seq<Outgoing>)
    requires q != [] && Answering(g, q[0], y, outs) && v in g.nodes && g.nodes[v].role == Leader == y.role
    requires y.log == g.nodes[v].log && y.baseIndex == g.nodes[v].baseIndex && y.term == g.nodes[v].term == t
    requires Handing(g, l, v, t, q, a, k)
    ensures t in l.elected && t in k.elected && k.elected[t] == l.elected[t]
    ensures t in l.tlog && t in a.tlog && t in k.tlog && k.tlog[t] == a.tlog[t] == l.tlog[t]
    ensures |k.tlog[t]| == g.nodes[v].LastIndex()
  {
    hide Hears;
    hide Inv;
    hide Local;
    hide Onward;
    hide NodeLog;
    hide NodeCommit;
    hide WellFormed;
    hide Letters;
    hide PeersOk;
    hide OthersTrack;
    hide Handle;
    hide HandleReply;
    hide Sound;
    hide Grows;
    var m := q[0];
    SenderLogs(g, l, v, t, q, a, k, y, outs);
    SameFull(a, k, v, g.nodes[v], y);
    InvFewer(Flight(g, q), Flight(g, []), l);
    OnwardInv(Flight(g, q), l, Flight(Taken(g, m).0, q[1..] + Taken(g, m).1), k);
    InvFewer(Flight(Taken(g, m).0, q[1..] + Taken(g, m).1), Flight(Taken(g, m).0, []), k);
    LeaderLog(g, l, v);
    LeaderLog(Heard(g, m), a, v);
    LeaderLog(Taken(g, m).0, k, v);
    LocalFacts(l, a, m.out.to);
    LocalFacts(a, k, v);
    GrowsTransitive(l, a, k);
    ElectedKept(l, k, t);
  }

  lemma ElectedKept(l: Ledger, k: Ledger, t: nat)
    requires Grows(l, k) && t in l.elected
    ensures t in k.elected && k.elected[t] == l.elected[t]
  {
  }

  lemma PeersListed(g: Group, l: Ledger, v: NodeId)
    requires Inv(Flight(g, []), l) && v in g.nodes
    ensures forall p :: p in g.nodes[v].peers <==> p in g.nodes && p != v
  {
    hide Inv;
    hide Sound;
    NodeLogOf(g, l, v);
  }

  lemma LeaderIndexes(g: Group, l: Ledger, v: NodeId)
    requires Inv(Flight(g, []), l) && v in g.nodes && g.nodes[v].role == Leader
    ensures Indexes(g.nodes[v], v, g.nodes[v].peers)
    ensures forall p :: p in g.nodes && p != v ==> p in g.nodes[v].peers
  {
    hide Sound;
    hide FlightOk;
    hide Core;
    hide Duty;
    assert NodeOk(l, v, Flight(g, []).nodes[v], g.stores[v]);
    NodeFacts(l, v, g.nodes[v], g.stores[v]);
    LeaderFacts(l, v, g.nodes[v]);
    PeersListed(g, l, v);
  }

  lemma SameDepth(l: Ledger, k: Ledger, p: NodeId, t: nat)
    requires p in l.log && p in k.log && k.log[p] == l.log[p] && t in l.tlog && t in k.tlog && k.tlog[t] == l.tlog[t]
    ensures Depth(k, p, t) == Depth(l, p, t) <= |k.tlog[t]|
  {
  }

  /** All that is needed of peer `p` before leader `x` takes a reply, its own or another's. */
  ghost predicate Prepared(x: Node, l: Ledger, q: seq<Mail>, p: NodeId, d: nat, n: Node, reply: RaftReply, own: bool) {
    && p in x.nextIndex && SnapsSafe(q, p, d, n.commit) && d <= x.LastIndex()
    && if own then ReplyFits(x, q, p, d, n.commit, reply) && n.term == x.term && Timely(x, reply)
       else Pending(q, p, d, n.commit, x.nextIndex[p]) && Near(l, x, p, n)
  }

  /** A running follower of a leader that goes on leading: what is known and queued before the leader
      takes the reply. */
  lemma PeerBefore(g: Group, l: Ledger, v: NodeId, t: nat, q: seq<Mail>, a: Ledger, k: Ledger, y: Node,
                   outs: seq<Outgoing>, p: NodeId, n: Node)
    requires q != [] && Answering(g, q[0], y, outs) && v in g.nodes && g.nodes[v].role == Leader == y.role
    requires y.log == g.nodes[v].log && y.baseIndex == g.nodes[v].baseIndex && y.term == g.nodes[v].term == t
    requires p in g.nodes && p != v && p !in g.down && n == Heard(g, q[0]).nodes[p] && n.term <= t
    requires Handing(g, l, v, t, q, a, k)
    ensures Prepared(g.nodes[v], l, q[1..], p, Depth(k, p, t), n, Replied(g, q[0]), p == q[0].out.to)
  {
    hide Hears;
    hide Inv;
    hide Local;
    hide Onward;
    hide WellFormed;
    hide OthersTrack;
    hide Handle;
    hide HandleReply;
    hide Letters;
    hide Sound;
    hide Grows;
    hide Depth;
    hide SnapsSafe;
    hide Pending;
    hide ReplyFits;
    hide Near;
    var x, m, f := g.nodes[v], q[0], q[0].out.to;
    SnapsAfter(g, l, v, t, q, a, k, p, n);
    SameTermLog(g, l, v, t, q, a, k, y, outs);
    BystanderLog(g, l, v, t, q, a, k, p);
    SameDepth(a, k, p, t);
    assert PeerOk(x, l, t, q, p, g.nodes[p], p in g.down);
    if p == f {
      var e := Envelope(v, f, m.out.msg);
      HearsFor(l, a, e, g.nodes[f], n, Replied(g, m));
      NearIndex(l, x, f, g.nodes[f]);
      HeardFits(l, a, e, g.nodes[f], n, Replied(g, m), x, q);
      HeardTerm(l, a, e, g.nodes[f], n, Replied(g, m));
    } else {
      NearIndex(l, x, p, n);
      SameDepth(l, k, p, t);
      PopPending(q, p, Depth(l, p, t), n.commit, x.nextIndex[p]);
    }
  }

  lemma NearIndex(l: Ledger, x: Node, f: NodeId, n: Node)
    requires Near(l, x, f, n)
    ensures f in x.nextIndex
  {
  }

  lemma HeardTerm(l: Ledger, a: Ledger, e: Envelope<RaftMsg>, n: Node, m: Node, reply: RaftReply)
    requires Hears(l, a, e, n, m, reply)
    ensures m.term == reply.term == if n.term < e.msg.term then e.msg.term else n.term
  {
    hide Hears;
    if e.msg.term < n.term {
      StaleHears(l, a, e, n, m, reply);
    } else {
      match e.msg
      case RequestVote(_, _, _, _) => VoteHears(l, a, e, n, m, reply);
      case AppendEntries(_, _, _, _, _, _) => AppendHears(l, a, e, n, m, reply);
      case InstallSnapshot(_, _, _, _, _) => SnapshotHears(l, a, e, n, m, reply);
    }
  }

  lemma LettersTail(x: Node, v: NodeId, t: nat, q: seq<Mail>)
    requires Letters(x, v, t, q) && q != []
    ensures Letters(x, v, t, q[1..])
  {
    hide Letter;
    forall m | m in q[1..]
      ensures Letter(x, v, t, m)
    {
      assert m in q;
    }
  }

  /** A leader that goes on leading has every peer in order after taking the reply. */
  lemma LeaderPeer(g: Group, l: Ledger, v: NodeId, t: nat, q: seq<Mail>, a: Ledger, k: Ledger, y: Node,
                   outs: seq<Outgoing>, p: NodeId, n: Node)
    requires q != [] && Answering(g, q[0], y, outs) && v in g.nodes && g.nodes[v].role == Leader == y.role
    requires StillLeading(g.nodes[v], y, q[0].out.to) && g.nodes[v].term == t
    requires Indexes(g.nodes[v], v, g.nodes[v].peers) && Timely(g.nodes[v], Replied(g, q[0]))
    requires forall x :: x in g.nodes && x != v ==> x in g.nodes[v].peers
    requires p in g.nodes && p != v && n == Heard(g, q[0]).nodes[p]
    requires Handing(g, l, v, t, q, a, k)
    ensures PeerOk(y, k, t, q[1..] + Addressed(v, outs), p, n, p in g.down)
  {
    hide Hears;
    hide Inv;
    hide Local;
    hide Onward;
    hide WellFormed;
    hide OthersTrack;
    hide Handle;
    hide HandleReply;
    hide Letters;
    hide Letter;
    hide Sound;
    hide Grows;
    hide Depth;
    hide SnapsSafe;
    hide Pending;
    hide ReplyFits;
    var x, m, f := g.nodes[v], q[0], q[0].out.to;
    SameTermLog(g, l, v, t, q, a, k, y, outs);
    BystanderLog(g, l, v, t, q, a, k, p);
    assert PeerOk(x, l, t, q, p, g.nodes[p], p in g.down);
    if p in g.down {
      SameDepth(l, k, p, t);
    } else if n.term <= t {
      PeerBefore(g, l, v, t, q, a, k, y, outs, p, n);
      LettersTail(x, v, t, q);
      AnswerLines(x, v, f, Replied(g, m), q[1..], p, Depth(k, p, t), n.commit);
    }
  }

  lemma ElectedWithin(k: Ledger, t: nat)
    requires Sound(k) && t in k.tlog
    ensures ElectedLength(k, t) <= |k.tlog[t]|
  {
    assert GoodTermLog(k, t);
  }

  /** A replica that wins its election has every peer in order after its first round. */
  lemma CrownPeer(g: Group, l: Ledger, v: NodeId, t: nat, q: seq<Mail>, a: Ledger, k: Ledger, x: Node, y: Node,
                  outs: seq<Outgoing>, p: NodeId, n: Node)
    requires q != [] && Answering(g, q[0], y, outs) && v in g.nodes && g.nodes[v].role == Candidate
    requires x == g.nodes[v].(votesGranted := x.votesGranted) && (y, outs) == BecomeLeader(x)
    requires x.term == t && p in g.nodes && p != v && n == Heard(g, q[0]).nodes[p]
    requires Handing(g, l, v, t, q, a, k)
    ensures PeerOk(y, k, t, q[1..] + Addressed(v, outs), p, n, p in g.down)
    ensures Letters(y, v, t, q[1..] + Addressed(v, outs)) && y.term == t
  {
    hide Hears;
    hide Inv;
    hide Local;
    hide Onward;
    hide WellFormed;
    hide PeersOk;
    hide OthersTrack;
    hide Handle;
    hide HandleReply;
    hide BecomeLeader;
    hide Letters;
    hide Letter;
    hide Sound;
    hide SnapsSafe;
    hide Pending;
    hide NodeCommit;
    var m := q[0];
    var after := Flight(Taken(g, m).0, q[1..] + Taken(g, m).1);
    InvFewer(Flight(g, q), Flight(g, []), l);
    OnwardInv(Flight(g, q), l, after, k);
    InvFewer(after, Flight(Taken(g, m).0, []), k);
    NodeLogOf(g, l, v);
    NodeLogOf(Taken(g, m).0, k, v);
    PeersListed(g, l, v);
    CrownLeads(x);
    CrownLength(x);
    LeaderLog(Taken(g, m).0, k, v);
    LettersFor(g.nodes[v], x, v, t, q);
    LettersTail(x, v, t, q);
    CrownLines(x, v, q[1..], p, Depth(k, p, t), n.commit);
    ElectedWithin(k, t);
  }

  lemma CrownLength(x: Node)
    ensures BecomeLeader(x).0.LastIndex() == Crowned(x).LastIndex() && BecomeLeader(x).0.term == x.term
  {
    hide ReplicateToAll;
  }

  /** A sender that does not lead has nothing to know. */
  lemma QuietPeer(g: Group, l: Ledger, v: NodeId, t: nat, q: seq<Mail>, a: Ledger, k: Ledger, y: Node,
                  p: NodeId, n: Node)
    requires q != [] && q[0].out.to in g.nodes && y.role != Leader
    requires p in g.nodes && p != v && n == Heard(g, q[0]).nodes[p]
    requires Handing(g, l, v, t, q, a, k)
    ensures PeerOk(y, k, t, q[1..] + Addressed(v, []), p, n, p in g.down)
  {
    hide Hears;
    hide Inv;
    hide Local;
    hide Onward;
    hide WellFormed;
    hide PeersOk;
    hide OthersTrack;
    hide Handle;
    hide HandleReply;
    hide SnapsSafe;
    NothingMore(v, q[1..]);
    if p !in g.down && n.term <= t {
      SnapsAfter(g, l, v, t, q, a, k, p, n);
    }
  }

  // -------------------------------------------------------------- the exchange as a whole

  /** Only the delivery of the head is harmful, if anything is, and it is not. */
  lemma HeadHarmless(g: Group, l: Ledger, v: NodeId, t: nat, q: seq<Mail>)
    requires q != [] && Mid(g, l, v, t, q) && q[0].out.to in g.nodes && q[0].out.to !in g.down
    ensures !DiscardsMatch(g.nodes[q[0].out.to], q[0].out.msg)
  {
    hide Inv;
    hide WellFormed;
    hide OthersTrack;
    hide Letters;
    hide Sound;
    hide NodeLog;
    hide NodeCommit;
    hide DiscardsMatch;
    hide RequestOk;
    var m, f := q[0], q[0].out.to;
    HeadLetter(g.nodes[v], v, t, q);
    FlightHas(g, q, l, m);
    InvFewer(Flight(g, q), Flight(g, []), l);
    NodeLogOf(g, l, f);
    assert PeerOk(g.nodes[v], l, t, q, f, g.nodes[f], f in g.down);
    if g.nodes[f].term <= t && m.out.msg.InstallSnapshot? {
      FirstSnap(q, f, Depth(l, f, t), g.nodes[f].commit);
    }
    HarmlessSnapshot(l, Envelope(v, f, m.out.msg), g.nodes[f]);
  }

  lemma FirstSnap(q: seq<Mail>, f: NodeId, d: nat, c: nat)
    requires q != [] && SnapsSafe(q, f, d, c) && q[0].out.to == f && q[0].out.msg.InstallSnapshot?
    ensures d < q[0].out.msg.lastIncludedIndex || q[0].out.msg.lastIncludedIndex <= c
  {
    assert SnapAt(q, f, d, c, 0);
  }

  lemma LeaderStays(x: Node, f: NodeId, reply: RaftReply)
    requires x.role == Leader && reply.term <= x.term
    ensures HandleReply(x, f, reply).0.role == Leader
  {
    hide ReplicateToAll;
    hide ReplicateTo;
    hide HighestCommittable;
  }

  lemma HeardMoves(g: Group, l: Ledger, v: NodeId, t: nat, q: seq<Mail>, a: Ledger, k: Ledger, f: NodeId, b: Group)
    requires q != [] && f == q[0].out.to && f in g.nodes && b == Heard(g, q[0])
    requires Handing(g, l, v, t, q, a, k)
    ensures MovedFor(g, b, l, a, v, f)
  {
    hide Hears;
    hide Inv;
    hide Local;
    hide Onward;
    hide WellFormed;
    hide Letters;
    hide PeersOk;
    hide OthersTrack;
    hide Handle;
    hide HandleReply;
    var m := q[0];
    InvFewer(Flight(g, q), Flight(g, []), l);
    var e := Envelope(v, f, m.out.msg);
    HearsFor(l, a, e, g.nodes[f], Heard(g, m).nodes[f], Replied(g, m));
    if Handle(g.nodes[f], m.out.msg).0.role == Leader {
      StillLeads(g.nodes[f], m.out.msg);
    }
  }

  lemma TakenMoves(g: Group, l: Ledger, v: NodeId, t: nat, q: seq<Mail>, a: Ledger, k: Ledger, y: Node,
                   outs: seq<Outgoing>, b: Group, h: Group)
    requires q != [] && Answering(g, q[0], y, outs) && b == Heard(g, q[0]) && h == Taken(g, q[0]).0
    requires Handing(g, l, v, t, q, a, k)
    ensures MovedFor(b, h, a, k, v, v)
  {
    hide Hears;
    hide Inv;
    hide Local;
    hide Onward;
    hide WellFormed;
    hide Letters;
    hide PeersOk;
    hide OthersTrack;
    hide Handle;
    hide HandleReply;
    hide NodeLog;
    var m := q[0];
    var after := Flight(Taken(g, m).0, q[1..] + Taken(g, m).1);
    OnwardInv(Flight(g, q), l, after, k);
    OnwardAt(Flight(g, q), l, after, k, v);
    InvFewer(after, Flight(Taken(g, m).0, []), k);
    SenderLogs(g, l, v, t, q, a, k, y, outs);
    InLogs(a, v, g.nodes[v]);
    if y.role == Leader {
      LeaderLog(Taken(g, m).0, k, v);
    } else {
      if g.nodes[v].role == Leader && Replied(g, m).term <= g.nodes[v].term {
        LeaderStays(g.nodes[v], m.out.to, Replied(g, m));
      }
      AnswerOther(g.nodes[v], m.out.to, Replied(g, m));
      SameFull(a, k, v, g.nodes[v], y);
    }
  }

  lemma InLogs(a: Ledger, v: NodeId, n: Node)
    requires NodeLog(a, v, n)
    ensures v in a.log
  {
  }

  lemma OthersExchange(g: Group, l: Ledger, v: NodeId, t: nat, q: seq<Mail>, a: Ledger, k: Ledger, y: Node,
                       outs: seq<Outgoing>, h: Group)
    requires q != [] && Answering(g, q[0], y, outs) && h == Taken(g, q[0]).0
    requires Handing(g, l, v, t, q, a, k)
    ensures OthersTrack(h, k, v)
  {
    hide MovedFor;
    hide OthersTrack;
    hide Hears;
    hide Inv;
    hide Local;
    hide Onward;
    hide WellFormed;
    hide Letters;
    hide PeersOk;
    hide Handle;
    hide HandleReply;
    var b := Heard(g, q[0]);
    HeardMoves(g, l, v, t, q, a, k, q[0].out.to, b);
    OthersStep(g, b, l, a, v, q[0].out.to);
    TakenMoves(g, l, v, t, q, a, k, y, outs, b, h);
    OthersStep(b, h, a, k, v, v);
  }

  /** The sender's letters, term and role after it took the reply. */
  ghost predicate SenderOk(y: Node, v: NodeId, t: nat, q: seq<Mail>) {
    Letters(y, v, t, q) && t <= y.term && (y.role != Follower ==> y.term == t)
  }

  ghost predicate PeerAfter(g: Group, k: Ledger, t: nat, q: seq<Mail>, y: Node, p: NodeId, n: Node) {
    PeerOk(y, k, t, q, p, n, p in g.down)
  }

  /** The reply a leader that goes on leading takes is of its own term. */
  lemma ReplyTimely(g: Group, l: Ledger, v: NodeId, t: nat, q: seq<Mail>, a: Ledger, k: Ledger, f: NodeId,
                    x: Node, reply: RaftReply)
    requires q != [] && f == q[0].out.to && f in g.nodes && reply == Replied(g, q[0]) && v in g.nodes && x == g.nodes[v]
    requires x.role == Leader && reply.term <= x.term
    requires Handing(g, l, v, t, q, a, k)
    ensures Timely(x, reply) && x.term == t
  {
    hide Inv;
    hide Local;
    hide Onward;
    hide WellFormed;
    hide OthersTrack;
    hide PeersOk;
    hide Handle;
    hide HandleReply;
    hide Hears;
    hide Depth;
    var m := q[0];
    var e := Envelope(v, f, m.out.msg);
    HeardTerm(l, a, e, g.nodes[f], Heard(g, m).nodes[f], reply);
    assert q[0] in q && Letter(x, v, t, q[0]);
    match m.out.msg
    case RequestVote(_, _, _, _) => VoteHears(l, a, e, g.nodes[f], Heard(g, m).nodes[f], reply);
    case AppendEntries(_, _, _, _, _, _) => AppendHears(l, a, e, g.nodes[f], Heard(g, m).nodes[f], reply);
    case InstallSnapshot(_, _, _, _, _) => SnapshotHears(l, a, e, g.nodes[f], Heard(g, m).nodes[f], reply);
  }

  /** Every way a sender can take a reply keeps what is known of each peer. */
  lemma PeerExchange(g: Group, l: Ledger, v: NodeId, t: nat, q: seq<Mail>, a: Ledger, k: Ledger, y: Node,
                     outs: seq<Outgoing>, p: NodeId, n: Node)
    requires q != [] && Answering(g, q[0], y, outs) && v in g.nodes
    requires p in g.nodes && p != v && n == Heard(g, q[0]).nodes[p]
    requires Handing(g, l, v, t, q, a, k)
    ensures PeerAfter(g, k, t, q[1..] + Addressed(v, outs), y, p, n)
    ensures SenderOk(y, v, t, q[1..] + Addressed(v, outs))
  {
    hide Inv;
    hide Local;
    hide Onward;
    hide WellFormed;
    hide OthersTrack;
    hide PeersOk;
    hide PeerOk;
    hide Handle;
    hide HandleReply;
    hide BecomeLeader;
    hide Hears;
    hide Letters;
    hide Indexes;
    hide Timely;
    var x, f, reply := g.nodes[v], q[0].out.to, Replied(g, q[0]);
    LettersTail(x, v, t, q);
    if x.role == Leader && reply.term <= x.term {
      LeaderExchange(g, l, v, t, q, a, k, y, outs, p, n);
    } else {
      AnswerOther(x, f, reply);
      if y.role == Leader {
        var c := x.(votesGranted := x.votesGranted + {f});
        CrownPeer(g, l, v, t, q, a, k, c, y, outs, p, n);
      } else {
        NothingMore(v, q[1..]);
        LettersFor(x, y, v, t, q[1..]);
        QuietPeer(g, l, v, t, q, a, k, y, p, n);
      }
    }
  }

  lemma LeaderExchange(g: Group, l: Ledger, v: NodeId, t: nat, q: seq<Mail>, a: Ledger, k: Ledger, y: Node,
                       outs: seq<Outgoing>, p: NodeId, n: Node)
    requires q != [] && Answering(g, q[0], y, outs) && v in g.nodes
    requires g.nodes[v].role == Leader && Replied(g, q[0]).term <= g.nodes[v].term
    requires p in g.nodes && p != v && n == Heard(g, q[0]).nodes[p]
    requires Handing(g, l, v, t, q, a, k)
    ensures PeerAfter(g, k, t, q[1..] + Addressed(v, outs), y, p, n)
    ensures SenderOk(y, v, t, q[1..] + Addressed(v, outs))
  {
    hide Inv;
    hide Local;
    hide Onward;
    hide WellFormed;
    hide OthersTrack;
    hide PeersOk;
    hide PeerOk;
    hide Handle;
    hide HandleReply;
    hide Hears;
    hide Letters;
    hide Indexes;
    hide Timely;
    hide Pending;
    hide SnapsSafe;
    hide Depth;
    var x, f, reply := g.nodes[v], q[0].out.to, Replied(g, q[0]);
    InvFewer(Flight(g, q), Flight(g, []), l);
    LeaderIndexes(g, l, v);
    ReplyTimely(g, l, v, t, q, a, k, f, x, reply);
    LettersTail(x, v, t, q);
    LeaderAnswers(x, v, f, reply, q[1..]);
    LeaderPeer(g, l, v, t, q, a, k, y, outs, p, n);
  }

  /** A follower that has committed all it shares is safe from any snapshot. */
  lemma CommittedSafe(q: seq<Mail>, f: NodeId, d: nat)
    ensures SnapsSafe(q, f, d, d)
  {
  }

  /** Taking a reply of its own term, a leader goes on leading, and what it sends is in order. */
  lemma LeaderAnswers(x: Node, v: NodeId, f: NodeId, reply: RaftReply, q: seq<Mail>)
    requires Answerable(x, v, f, q) && Timely(x, reply)
    ensures var r := HandleReply(x, f, reply);
            StillLeading(x, r.0, f) && Letters(r.0, v, r.0.term, q + Addressed(v, r.1))
  {
    hide Letters;
    hide HandleReply;
    hide MendQueued;
    hide SnapsSafe;
    var d := if reply.AppendReply? && reply.success then x.LastIndex() else 0;
    CommittedSafe(q, f, d);
    AnswerLines(x, v, f, reply, q, f, d, d);
  }

  /** Handing over the head of the queue keeps the invariant, and harms nobody. */
  lemma ExchangeKeeps(g: Group, l: Ledger, v: NodeId, t: nat, q: seq<Mail>) returns (k: Ledger)
    requires q != [] && Mid(g, l, v, t, q)
    ensures MailOk(g, q) && SafeToHand(g, q[0])
    ensures var (h, more) := Exchange(g, q[0]);
            Mid(h, k, v, t, q[1..] + more) && Onward(Flight(g, q), l, Flight(h, q[1..] + more), k)
  {
    hide Inv;
    hide Onward;
    hide Exchange;
    hide OthersTrack;
    hide PeersOk;
    hide Sender;
    hide Handing;
    hide Answering;
    FlightMail(g, l, q);
    HeadFromSender(g, v, t, q);
    if q[0].out.to in g.down {
      k := l;
      DroppedKeeps(g, l, v, t, q);
    } else {
      var a, y, outs;
      a, k, y, outs := HandedKeeps(g, l, v, t, q);
    }
  }

  lemma FlightMail(g: Group, l: Ledger, q: seq<Mail>)
    requires Inv(Flight(g, q), l)
    ensures MailOk(g, q)
  {
    hide Inv;
    forall m | m in q
      ensures m.from in g.nodes && m.out.to in g.nodes
    {
      FlightHas(g, q, l, m);
    }
  }

  lemma HeadFromSender(g: Group, v: NodeId, t: nat, q: seq<Mail>)
    requires Sender(g, v, t, q) && q != []
    ensures q[0].from == v && q[0].out.to != v && q[0].out.msg.term == t && v in g.nodes && v !in g.down
  {
    HeadLetter(g.nodes[v], v, t, q);
  }

  lemma DroppedKeeps(g: Group, l: Ledger, v: NodeId, t: nat, q: seq<Mail>)
    requires q != [] && Mid(g, l, v, t, q) && MailOk(g, q) && q[0].out.to in g.down
    ensures Exchange(g, q[0]) == (g, []) && Mid(g, l, v, t, q[1..] + [])
    ensures Onward(Flight(g, q), l, Flight(g, q[1..] + []), l)
  {
    hide Inv;
    hide Onward;
    hide WellFormed;
    hide OthersTrack;
    hide Letters;
    hide SnapsSafe;
    hide Pending;
    hide Tracked;
    assert q[1..] + [] == q[1..];
    LettersTail(g.nodes[v], v, t, q);
    OnwardRefl(Flight(g, q), l);
    assert Flight(g, q[1..]).requests <= Flight(g, q).requests;
    OnwardFewer(Flight(g, q), l, Flight(g, q), l, Flight(g, q[1..]));
    InvFewer(Flight(g, q), Flight(g, q[1..]), l);
    forall p | p in g.nodes && p != v
      ensures PeerOk(g.nodes[v], l, t, q[1..], p, g.nodes[p], p in g.down)
    {
      assert PeerOk(g.nodes[v], l, t, q, p, g.nodes[p], p in g.down);
      if p !in g.down && g.nodes[p].term <= t {
        PopSnaps(q, p, Depth(l, p, t), g.nodes[p].commit);
        if g.nodes[v].role == Leader {
          PopPending(q, p, Depth(l, p, t), g.nodes[p].commit, g.nodes[v].nextIndex[p]);
        }
      }
    }
  }

  lemma HandedKeeps(g: Group, l: Ledger, v: NodeId, t: nat, q: seq<Mail>)
    returns (a: Ledger, k: Ledger, y: Node, outs: seq<Outgoing>)
    requires q != [] && Mid(g, l, v, t, q) && MailOk(g, q) && q[0].out.to !in g.down
    requires q[0].from == v && q[0].out.to != v && q[0].out.msg.term == t && v in g.nodes && v !in g.down
    ensures SafeToHand(g, q[0]) && Exchange(g, q[0]) == Taken(g, q[0])
    ensures Answering(g, q[0], y, outs) && Handing(g, l, v, t, q, a, k)
    ensures Mid(Taken(g, q[0]).0, k, v, t, q[1..] + Taken(g, q[0]).1)
    ensures Onward(Flight(g, q), l, Flight(Taken(g, q[0]).0, q[1..] + Taken(g, q[0]).1), k)
  {
    hide Inv;
    hide Onward;
    hide Local;
    hide Hears;
    hide OthersTrack;
    hide PeersOk;
    hide PeerOk;
    hide Letters;
    hide Handle;
    hide HandleReply;
    var m := q[0];
    HeadHarmless(g, l, v, t, q);
    a, k := ExchangeSteps(g, l, q);
    y, outs := SenderAnswers(g, m);
    ExchangeIsTaken(g, m);
    var h, r := Taken(g, m).0, q[1..] + Taken(g, m).1;
    OnwardInv(Flight(g, q), l, Flight(h, r), k);
    OthersExchange(g, l, v, t, q, a, k, y, outs, h);
    PeersExchange(g, l, v, t, q, a, k, y, outs, h);
  }

  lemma ExchangeIsTaken(g: Group, m: Mail)
    requires WellFormed(g) && m.from in g.nodes && m.out.to in g.nodes && m.from !in g.down && m.out.to !in g.down
    ensures Exchange(g, m) == Taken(g, m)
  {
    hide WellFormed;
    hide Handle;
    hide HandleReply;
  }

  lemma PeersExchange(g: Group, l: Ledger, v: NodeId, t: nat, q: seq<Mail>, a: Ledger, k: Ledger, y: Node,
                      outs: seq<Outgoing>, h: Group)
    requires q != [] && Answering(g, q[0], y, outs) && v in g.nodes && h == Taken(g, q[0]).0
    requires Handing(g, l, v, t, q, a, k)
    ensures v in h.nodes && Sender(h, v, t, q[1..] + Addressed(v, outs))
        && PeersOk(h, k, v, t, q[1..] + Addressed(v, outs))
  {
    hide Inv;
    hide Local;
    hide Onward;
    hide WellFormed;
    hide OthersTrack;
    hide Handle;
    hide HandleReply;
    hide Hears;
    hide Letters;
    hide PeerOk;
    var f := q[0].out.to;
    PeerExchange(g, l, v, t, q, a, k, y, outs, f, Heard(g, q[0]).nodes[f]);
    forall p | p in h.nodes && p != v
      ensures PeerOk(y, k, t, q[1..] + Addressed(v, outs), p, h.nodes[p], p in h.down)
    {
      PeerExchange(g, l, v, t, q, a, k, y, outs, p, Heard(g, q[0]).nodes[p]);
    }
  }
}
