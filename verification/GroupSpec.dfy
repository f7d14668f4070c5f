/** One shard bucket replicated by a group of nodes, on values. The driver delivers messages
    synchronously through a first-in-first-out queue, applies what is committed on every replica, and
    folds long applied logs of running replicas into snapshots. The class in ReplicaGroup.dfy does the
    same in place. */
module GroupSpec {
  import opened Wrappers
  import opened RaftTypes
  import opened RaftNode
  import opened RaftSteps
  import opened TripleStore

  datatype Group = Group(
    replicas: seq<NodeId>,
    nodes: map<NodeId, Node>,
    stores: map<NodeId, set<Triple>>,
    down: set<NodeId>,
    threshold: nat)

  /** A message in the driver's queue, with its sender. */
  datatype Mail = Mail(from: NodeId, out: Outgoing)

  const MAX_DELIVERIES: nat := 100_000
  const MAX_ELECTION_TICKS: nat := 1000

  /** The other replicas, in the group's order. */
  function Others(replicas: seq<NodeId>, v: NodeId): seq<NodeId> {
    if replicas == [] then []
    else
      var rest := Others(replicas[..|replicas| - 1], v);
      var last := replicas[|replicas| - 1];
      if last == v then rest else rest + [last]
  }

  ghost predicate WellFormed(g: Group) {
    && g.replicas != [] && Distinct(g.replicas)
    && (forall v :: v in g.replicas <==> v in g.nodes)
    && g.stores.Keys == g.nodes.Keys && g.down <= g.nodes.Keys
    && forall v :: v in g.nodes ==> Placed(g.replicas, v, g.nodes[v])
  }

  /** A replica knows its own id and its peers, and its timeout lies in the configured range. */
  ghost predicate Placed(replicas: seq<NodeId>, v: NodeId, n: Node) {
    n.id == v && n.peers == Others(replicas, v) && n.timers.electionTimeout <= n.timers.cfgMax
  }

  /** The state a node's configuration keeps for ever. */
  ghost predicate SameSetup(n: Node, m: Node) {
    && m.id == n.id && m.peers == n.peers && m.timers.cfgMax == n.timers.cfgMax
    && (n.timers.electionTimeout <= n.timers.cfgMax ==> m.timers.electionTimeout <= m.timers.cfgMax)
  }

  lemma {:induction false} OthersMembers(replicas: seq<NodeId>, v: NodeId)
    ensures forall p :: p in Others(replicas, v) <==> p in replicas && p != v
  {
    if replicas != [] {
      var init, last := replicas[..|replicas| - 1], replicas[|replicas| - 1];
      OthersMembers(init, v);
      assert replicas == init + [last];
    }
  }

  lemma TickSetup(n: Node)
    ensures SameSetup(n, Tick(n).0)
  {
  }

  lemma HandleSetup(n: Node, msg: RaftMsg)
    ensures SameSetup(n, Handle(n, msg).0)
  {
    if msg.AppendEntries? {
      StoreFields(Following(n, msg.term, msg.leaderId), msg.prevLogIndex, msg.entries);
    }
  }

  lemma ReplySetup(n: Node, from: NodeId, reply: RaftReply)
    ensures SameSetup(n, HandleReply(n, from, reply).0)
  {
  }

  /** Every message is addressed to a peer or to the node just heard from. */
  ghost predicate SentTo(outs: seq<Outgoing>, to: set<NodeId>) {
    forall o :: o in outs ==> o.to in to
  }

  lemma {:induction false} ReplicateToPeers(n: Node, peers: seq<NodeId>, to: set<NodeId>)
    requires forall p :: p in peers ==> p in to
    ensures SentTo(ReplicateToAll(n, peers), to)
  {
    if peers != [] {
      ReplicateToPeers(n, peers[..|peers| - 1], to);
      assert peers[|peers| - 1] in peers;
    }
  }

  lemma TickSentTo(n: Node, to: set<NodeId>)
    requires forall p :: p in n.peers ==> p in to
    ensures SentTo(Tick(n).1, to)
  {
    hide ReplicateToAll;
    var m := n.(timers := n.timers.(heartbeatElapsed := n.timers.heartbeatElapsed + 1));
    ReplicateToPeers(m, m.peers, to);
    var s := Stood(n.(timers := n.timers.(electionElapsed := n.timers.electionElapsed + 1)));
    ReplicateToPeers(Crowned(s), s.peers, to);
    assert forall o :: o in VoteRequests(s, s.peers) ==> o.to in s.peers;
  }

  lemma ReplySentTo(n: Node, from: NodeId, reply: RaftReply, to: set<NodeId>)
    requires from in to && forall p :: p in n.peers ==> p in to
    ensures SentTo(HandleReply(n, from, reply).1, to)
  {
    if reply.VoteReply? {
      var m := n.(votesGranted := n.votesGranted + {from});
      ReplicateToPeers(Crowned(m), m.peers, to);
    } else if reply.AppendReply? {
      var m := n.(matchIndex := n.matchIndex[from := reply.matchIndex],
                  nextIndex := n.nextIndex[from := reply.matchIndex + 1]);
      var a := AdvanceCommit(m);
      ReplicateToPeers(a, a.peers, to);
    }
  }

  // ---------------------------------------------------------------------- delivery

  function Addressed(from: NodeId, outs: seq<Outgoing>): seq<Mail> {
    seq(|outs|, i requires 0 <= i < |outs| => Mail(from, outs[i]))
  }

  ghost predicate MailOk(g: Group, q: seq<Mail>) {
    forall m :: m in q ==> m.from in g.nodes && m.out.to in g.nodes
  }

  lemma Replaced(g: Group, v: NodeId, n: Node)
    requires WellFormed(g) && v in g.nodes && SameSetup(g.nodes[v], n)
    ensures WellFormed(g.(nodes := g.nodes[v := n]))
  {
    hide Others;
  }

  /** Both nodes' states after a request and its reply, and what the sender emits next. */
  function Conversation(g: Group, m: Mail): (map<NodeId, Node>, seq<Outgoing>)
    requires m.from in g.nodes && m.out.to in g.nodes
  {
    var heard := Handle(g.nodes[m.out.to], m.out.msg);
    var nodes := g.nodes[m.out.to := heard.0];
    var back := HandleReply(nodes[m.from], m.out.to, heard.1);
    (nodes[m.from := back.0], back.1)
  }

  lemma ConversationKeeps(g: Group, m: Mail)
    requires WellFormed(g) && m.from in g.nodes && m.out.to in g.nodes
    ensures var c := Conversation(g, m);
            && WellFormed(g.(nodes := c.0)) && c.0.Keys == g.nodes.Keys
            && SentTo(c.1, g.nodes.Keys)
  {
    hide Handle;
    hide HandleReply;
    hide SameSetup;
    var heard := Handle(g.nodes[m.out.to], m.out.msg);
    HandleSetup(g.nodes[m.out.to], m.out.msg);
    Replaced(g, m.out.to, heard.0);
    var h := g.(nodes := g.nodes[m.out.to := heard.0]);
    ReplySetup(h.nodes[m.from], m.out.to, heard.1);
    Replaced(h, m.from, HandleReply(h.nodes[m.from], m.out.to, heard.1).0);
    OthersMembers(g.replicas, m.from);
    ReplySentTo(h.nodes[m.from], m.out.to, heard.1, g.nodes.Keys);
  }

  /** One message and its reply; a link to or from a failed replica drops it. */
  function Exchange(g: Group, m: Mail): (r: (Group, seq<Mail>))
    requires WellFormed(g) && m.from in g.nodes && m.out.to in g.nodes
    ensures WellFormed(r.0) && MailOk(r.0, r.1)
    ensures r.0.replicas == g.replicas && r.0.down == g.down && r.0.nodes.Keys == g.nodes.Keys
  {
    if m.out.to in g.down || m.from in g.down then (g, [])
    else
      ConversationKeeps(g, m);
      (g.(nodes := Conversation(g, m).0), Addressed(m.from, Conversation(g, m).1))
  }

  /** Deliver queued messages in order, at most `left` of them. */
  function Flush(g: Group, q: seq<Mail>, left: nat): (r: Group)
    requires WellFormed(g) && MailOk(g, q)
    ensures WellFormed(r) && r.replicas == g.replicas && r.down == g.down && r.nodes.Keys == g.nodes.Keys
    decreases left
  {
    if q == [] || left == 0 then g
    else
      var (h, more) := Exchange(g, q[0]);
      Flush(h, q[1..] + more, left - 1)
  }

  /** One replica after applying what is committed and folding a long log. */
  function Synced(g: Group, v: NodeId): (Node, set<Triple>)
    requires v in g.nodes && v in g.stores
  {
    var (n, actions) := DrainApply(g.nodes[v]);
    var store := Perform(g.stores[v], actions);
    if g.threshold > 0 && v !in g.down && n.applied > n.baseIndex + g.threshold
    then (Compact(n, n.applied, IterAll(store)), store)
    else (n, store)
  }

  lemma SyncedSetup(g: Group, v: NodeId)
    requires v in g.nodes && v in g.stores
    ensures SameSetup(g.nodes[v], Synced(g, v).0)
  {
  }

  lemma AllReplaced(g: Group, nodes: map<NodeId, Node>, stores: map<NodeId, set<Triple>>)
    requires WellFormed(g) && nodes.Keys == stores.Keys == g.nodes.Keys
    requires forall v :: v in g.nodes ==> SameSetup(g.nodes[v], nodes[v])
    ensures WellFormed(g.(nodes := nodes, stores := stores))
  {
    hide Others;
  }

  lemma SyncApplyKeeps(g: Group)
    requires WellFormed(g)
    ensures WellFormed(g.(nodes := map v | v in g.nodes :: Synced(g, v).0,
                          stores := map v | v in g.nodes :: Synced(g, v).1))
  {
    hide Synced;
    hide SameSetup;
    var nodes := map v | v in g.nodes :: Synced(g, v).0;
    forall v | v in g.nodes
      ensures SameSetup(g.nodes[v], nodes[v])
    {
      SyncedSetup(g, v);
    }
    AllReplaced(g, nodes, map v | v in g.nodes :: Synced(g, v).1);
  }

  function SyncApply(g: Group): (r: Group)
    requires WellFormed(g)
    ensures WellFormed(r) && r.replicas == g.replicas && r.down == g.down && r.nodes.Keys == g.nodes.Keys
  {
    SyncApplyKeeps(g);
    g.(nodes := map v | v in g.nodes :: Synced(g, v).0, stores := map v | v in g.nodes :: Synced(g, v).1)
  }

  function DeliverAll(g: Group, src: NodeId, outs: seq<Outgoing>): (r: Group)
    requires WellFormed(g) && src in g.nodes && SentTo(outs, g.nodes.Keys)
    ensures WellFormed(r) && r.replicas == g.replicas && r.down == g.down && r.nodes.Keys == g.nodes.Keys
  {
    SyncApply(Flush(g, Addressed(src, outs), MAX_DELIVERIES))
  }

  // ------------------------------------------------------------------ driver calls

  /** What a tick leaves to be delivered is well formed. */
  lemma TickFormed(g: Group, v: NodeId)
    requires WellFormed(g) && v in g.nodes
    ensures var r := Tick(g.nodes[v]);
            && SameSetup(g.nodes[v], r.0) && WellFormed(g.(nodes := g.nodes[v := r.0]))
            && g.nodes[v := r.0].Keys == g.nodes.Keys && SentTo(r.1, g.nodes.Keys)
  {
    hide Tick;
    hide SameSetup;
    TickSetup(g.nodes[v]);
    Replaced(g, v, Tick(g.nodes[v]).0);
    PeersKnown(g, v);
    TickSentTo(g.nodes[v], g.nodes.Keys);
  }

  lemma PeersKnown(g: Group, v: NodeId)
    requires WellFormed(g) && v in g.nodes
    ensures forall p :: p in g.nodes[v].peers ==> p in g.nodes.Keys
  {
    OthersMembers(g.replicas, v);
  }

  function TickOne(g: Group, v: NodeId): (r: Group)
    requires WellFormed(g) && v in g.nodes
    ensures WellFormed(r) && r.replicas == g.replicas && r.down == g.down && r.nodes.Keys == g.nodes.Keys
  {
    if v in g.down then g
    else
      TickFormed(g, v);
      var (n, outs) := Tick(g.nodes[v]);
      DeliverAll(g.(nodes := g.nodes[v := n]), v, outs)
  }

  /** Tick `v` alone until it leads; `false` when `ticks` rounds were not enough, where the code panics. */
  function Elect(g: Group, v: NodeId, ticks: nat): (r: (Group, bool))
    requires WellFormed(g) && v in g.nodes
    ensures WellFormed(r.0) && r.0.nodes.Keys == g.nodes.Keys
    decreases ticks
  {
    if ticks == 0 then (g, false)
    else if v !in g.down && g.nodes[v].role == Leader then (g, true)
    else Elect(TickOne(g, v), v, ticks - 1)
  }

  predicate LeadsUp(g: Group, v: NodeId) {
    v in g.nodes && v !in g.down && g.nodes[v].role == Leader
  }

  /** The last of the running leaders with the highest term among the first `k` replicas. */
  function LeaderAmong(g: Group, k: nat): (r: Option<NodeId>)
    requires WellFormed(g) && k <= |g.replicas|
    ensures r.Some? ==> LeadsUp(g, r.value)
    ensures forall i :: 0 <= i < k && LeadsUp(g, g.replicas[i]) ==>
              r.Some? && g.nodes[g.replicas[i]].term <= g.nodes[r.value].term
  {
    if k == 0 then None
    else
      var best := LeaderAmong(g, k - 1);
      var v := g.replicas[k - 1];
      if LeadsUp(g, v) && (best.None? || g.nodes[best.value].term <= g.nodes[v].term) then Some(v) else best
  }

  function LeaderOf(g: Group): (r: Option<NodeId>)
    requires WellFormed(g)
    ensures r.Some? ==> LeadsUp(g, r.value) && forall v :: LeadsUp(g, v) ==> g.nodes[v].term <= g.nodes[r.value].term
    ensures r.None? <==> forall v :: v in g.nodes ==> !LeadsUp(g, v)
  {
    LeaderAmong(g, |g.replicas|)
  }

  /** The order in which `ensure_leader` ranks replicas: last term, last index, then the lower id. */
  predicate Fresher(n: Node, m: Node) {
    || n.LastLogTerm() > m.LastLogTerm()
    || (n.LastLogTerm() == m.LastLogTerm() &&
        (n.LastIndex() > m.LastIndex() || (n.LastIndex() == m.LastIndex() && n.id <= m.id)))
  }

  function FreshestAmong(g: Group, k: nat): (r: Option<NodeId>)
    requires WellFormed(g) && k <= |g.replicas|
    ensures r.Some? ==> r.value in g.nodes && r.value !in g.down
    ensures forall i :: 0 <= i < k && g.replicas[i] !in g.down ==>
              r.Some? && Fresher(g.nodes[r.value], g.nodes[g.replicas[i]])
  {
    if k == 0 then None
    else
      var best := FreshestAmong(g, k - 1);
      var v := g.replicas[k - 1];
      if v !in g.down && (best.None? || Fresher(g.nodes[v], g.nodes[best.value])) then Some(v) else best
  }

  /** The running replica with the most up-to-date log. */
  function Freshest(g: Group): (r: Option<NodeId>)
    requires WellFormed(g)
    ensures r.Some? ==> r.value in g.nodes && r.value !in g.down
    ensures forall v :: v in g.nodes && v !in g.down ==> r.Some? && Fresher(g.nodes[r.value], g.nodes[v])
  {
    FreshestAmong(g, |g.replicas|)
  }

  /** The leader after this call, or `None` where the code panics. */
  function EnsureLeader(g: Group): (r: (Group, Option<NodeId>))
    requires WellFormed(g)
    ensures WellFormed(r.0) && r.0.nodes.Keys == g.nodes.Keys
  {
    if LeaderOf(g).Some? then (g, LeaderOf(g))
    else
      match Freshest(g)
      case None => (g, None)
      case Some(v) =>
        var (h, won) := Elect(g, v, MAX_ELECTION_TICKS);
        (h, if won then Some(v) else None)
  }

  lemma ProposeKeeps(g: Group, v: NodeId, op: LogOp)
    requires WellFormed(g) && v in g.nodes
    ensures var n := Propose(g.nodes[v], op).0; var r := ReplicateNow(n);
            && WellFormed(g.(nodes := g.nodes[v := n])) && WellFormed(g.(nodes := g.nodes[v := r.0]))
            && SentTo(r.1, g.nodes.Keys) && g.nodes[v := r.0].Keys == g.nodes.Keys
  {
    hide ReplicateToAll;
    hide HighestCommittable;
    hide Others;
    var n := Propose(g.nodes[v], op).0;
    Replaced(g, v, n);
    Replaced(g, v, ReplicateNow(n).0);
    OthersMembers(g.replicas, v);
    ReplicateToPeers(n, n.peers, g.nodes.Keys);
  }

  function ProposeOne(g: Group, op: LogOp): (r: (Group, Option<(NodeId, nat)>))
    requires WellFormed(g)
    ensures WellFormed(r.0) && r.0.nodes.Keys == g.nodes.Keys
  {
    match LeaderOf(g)
    case None => (g, None)
    case Some(v) =>
      var (n, index) := Propose(g.nodes[v], op);
      ProposeKeeps(g, v, op);
      if index.None? then (g.(nodes := g.nodes[v := n]), None)
      else
        var (m, outs) := ReplicateNow(n);
        (DeliverAll(g.(nodes := g.nodes[v := m]), v, outs), Some((v, index.value)))
  }

  function SetDown(g: Group, v: NodeId, down: bool): (r: Group)
    requires WellFormed(g) && v in g.nodes
    ensures WellFormed(r)
  {
    var nodes := if v in g.down && !down then g.nodes[v := NoteRevived(g.nodes[v])] else g.nodes;
    g.(nodes := nodes, down := if down then g.down + {v} else g.down - {v})
  }

  /** Tick the current leader `rounds` times, stopping when there is none. */
  function Settle(g: Group, rounds: nat): (r: Group)
    requires WellFormed(g)
    ensures WellFormed(r) && r.nodes.Keys == g.nodes.Keys
    decreases rounds
  {
    if rounds == 0 || LeaderOf(g).None? then g
    else Settle(TickOne(g, LeaderOf(g).value), rounds - 1)
  }

  /** A new group of fresh replicas with empty stores. */
  function NewGroup(replicas: seq<NodeId>, timers: NodeId -> Timers, threshold: nat): (r: Group)
    requires replicas != [] && Distinct(replicas)
    ensures WellFormed(r)
  {
    Group(replicas, map v | v in replicas :: Fresh(v, Others(replicas, v), timers(v)),
          map v | v in replicas :: {}, {}, threshold)
  }
}
