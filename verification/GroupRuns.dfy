/** Every run of a replica group is a run of the cluster: each queued message is a delivery followed
    by an answer, each application a drain, each fold a compaction. It is a guarded run when no delivery
    of the group throws a matching suffix away. */
module GroupRuns {
  import opened RaftTypes
  import opened RaftNode
  import opened RaftLedger
  import opened RaftLink
  import opened RaftSteps
  import opened RaftNetwork
  import opened Traces
  import opened TripleStore
  import opened GroupSpec

  /** A call on a group. */
  datatype Call =
    | TickCall(v: NodeId)
    | ElectCall(v: NodeId)
    | EnsureCall
    | ProposeCall(op: LogOp)
    | DownCall(v: NodeId, down: bool)
    | SettleCall(rounds: nat)

  /** Ids passed in are ids of the group; the code panics on any other. */
  predicate Callable(g: Group, c: Call) {
    match c
    case TickCall(v) => v in g.nodes
    case ElectCall(v) => v in g.nodes
    case DownCall(v, _) => v in g.nodes
    case _ => true
  }

  function After(g: Group, c: Call): (r: Group)
    requires WellFormed(g) && Callable(g, c)
    ensures WellFormed(r)
  {
    match c
    case TickCall(v) => TickOne(g, v)
    case ElectCall(v) => Elect(g, v, MAX_ELECTION_TICKS).0
    case EnsureCall => EnsureLeader(g).0
    case ProposeCall(op) => ProposeOne(g, op).0
    case DownCall(v, down) => SetDown(g, v, down)
    case SettleCall(rounds) => Settle(g, rounds)
  }

  ghost predicate GroupRun(groups: seq<Group>, calls: seq<Call>) {
    && |groups| == |calls| + 1 && IsNew(groups[0])
    && (forall i :: 0 <= i < |groups| ==> WellFormed(groups[i]))
    && forall i :: 0 <= i < |calls| ==> Callable(groups[i], calls[i]) && groups[i + 1] == After(groups[i], calls[i])
  }

  ghost predicate IsNew(g: Group) {
    && g.replicas != [] && Distinct(g.replicas)
    && exists timers :: g == NewGroup(g.replicas, timers, g.threshold)
  }

  // ----------------------------------------------------------------- deliveries of a call

  /** A delivery loop about to start: the group and its queue. */
  datatype Delivery = Delivery(group: Group, queue: seq<Mail>)

  ghost function TickDeliveries(g: Group, v: NodeId): seq<Delivery>
    requires WellFormed(g) && v in g.nodes
  {
    if v in g.down then []
    else
      var (n, outs) := Tick(g.nodes[v]);
      [Delivery(g.(nodes := g.nodes[v := n]), Addressed(v, outs))]
  }

  ghost function ElectDeliveries(g: Group, v: NodeId, ticks: nat): seq<Delivery>
    requires WellFormed(g) && v in g.nodes
    decreases ticks
  {
    if ticks == 0 || (v !in g.down && g.nodes[v].role == Leader) then []
    else TickDeliveries(g, v) + ElectDeliveries(TickOne(g, v), v, ticks - 1)
  }

  ghost function SettleDeliveries(g: Group, rounds: nat): seq<Delivery>
    requires WellFormed(g)
    decreases rounds
  {
    if rounds == 0 || LeaderOf(g).None? then []
    else TickDeliveries(g, LeaderOf(g).value) + SettleDeliveries(TickOne(g, LeaderOf(g).value), rounds - 1)
  }

  ghost function ProposeDeliveries(g: Group, op: LogOp): seq<Delivery>
    requires WellFormed(g)
  {
    if LeaderOf(g).None? then []
    else
      var v := LeaderOf(g).value;
      var (m, outs) := ReplicateNow(Propose(g.nodes[v], op).0);
      [Delivery(g.(nodes := g.nodes[v := m]), Addressed(v, outs))]
  }

  /** The delivery loops a call runs, in order. */
  ghost function CallDeliveries(g: Group, c: Call): seq<Delivery>
    requires WellFormed(g) && Callable(g, c)
  {
    match c
    case TickCall(v) => TickDeliveries(g, v)
    case ElectCall(v) => ElectDeliveries(g, v, MAX_ELECTION_TICKS)
    case EnsureCall =>
      if LeaderOf(g).None? && Freshest(g).Some?
      then ElectDeliveries(g, Freshest(g).value, MAX_ELECTION_TICKS) else []
    case ProposeCall(op) => ProposeDeliveries(g, op)
    case DownCall(_, _) => []
    case SettleCall(rounds) => SettleDeliveries(g, rounds)
  }

  /** The loop stops because its queue is empty, not at the bound of `left` deliveries. */
  ghost predicate Ends(g: Group, q: seq<Mail>, left: nat)
    requires WellFormed(g) && MailOk(g, q)
    decreases left
  {
    q == [] || (left > 0 && var (h, more) := Exchange(g, q[0]); Ends(h, q[1..] + more, left - 1))
  }

  /** The message is dropped, or delivering it throws no matching suffix away. */
  ghost predicate SafeToHand(g: Group, m: Mail)
    requires m.out.to in g.nodes
  {
    m.out.to in g.down || m.from in g.down || !DiscardsMatch(g.nodes[m.out.to], m.out.msg)
  }

  ghost predicate Safe(g: Group, q: seq<Mail>, left: nat)
    requires WellFormed(g) && MailOk(g, q)
    decreases left
  {
    q == [] || left == 0
    || (SafeToHand(g, q[0]) && var (h, more) := Exchange(g, q[0]); Safe(h, q[1..] + more, left - 1))
  }

  ghost predicate Complete(d: Delivery) {
    WellFormed(d.group) && MailOk(d.group, d.queue) ==> Ends(d.group, d.queue, MAX_DELIVERIES)
  }

  ghost predicate Harmless(d: Delivery) {
    WellFormed(d.group) && MailOk(d.group, d.queue) ==> Safe(d.group, d.queue, MAX_DELIVERIES)
  }

  ghost predicate AllComplete(ds: seq<Delivery>) {
    forall d :: d in ds ==> Complete(d)
  }

  ghost predicate AllHarmless(ds: seq<Delivery>) {
    forall d :: d in ds ==> Harmless(d)
  }

  /** An upper bound on the deliveries a sender's messages cause, from what it has not folded away and what
      it has not committed. */
  ghost function Load(x: Node): int {
    (x.LastIndex() + 3 - x.commit) * (|x.peers| * (4 + |x.log|))
  }

  /** The loop starts with nothing to deliver, or far enough below the driver's bound. */
  ghost predicate Light(d: Delivery) {
    d.queue == [] || (d.queue[0].from in d.group.nodes && Load(d.group.nodes[d.queue[0].from]) <= MAX_DELIVERIES)
  }

  ghost predicate AllBounded(ds: seq<Delivery>) {
    forall d :: d in ds ==> Complete(d) || Light(d)
  }

  /** Every delivery loop of the run started light, or was not cut off by the driver's bound anyway. */
  ghost predicate WithinBounds(groups: seq<Group>, calls: seq<Call>)
    requires GroupRun(groups, calls)
  {
    forall i :: 0 <= i < |calls| ==> AllBounded(CallDeliveries(groups[i], calls[i]))
  }

  // ------------------------------------------------------------------ mirroring a group

  ghost predicate Mirrors(t: Trace, g: Group) {
    IsRun(t) && Now(t).nodes == g.nodes && Now(t).stores == g.stores
  }

  ghost predicate Posted(t: Trace, q: seq<Mail>) {
    IsRun(t) && forall m :: m in q ==> Envelope(m.from, m.out.to, m.out.msg) in Now(t).requests
  }

  lemma PostedOn(t: Trace, u: Trace, q: seq<Mail>)
    requires Continues(t, u) && Posted(t, q)
    ensures Posted(u, q)
  {
    hide IsRun;
  }

  // -------------------------------------------------------------------- one message

  lemma HearStep(t: Trace, g: Group, e: Envelope<RaftMsg>) returns (u: Trace)
    requires Mirrors(t, g) && e.to in g.nodes && e.to in g.stores && e in Now(t).requests
    requires t.guarded ==> !DiscardsMatch(g.nodes[e.to], e.msg)
    ensures var r := Handle(g.nodes[e.to], e.msg);
            && Continues(t, u)
            && Mirrors(u, g.(nodes := g.nodes[e.to := r.0]))
            && Envelope(e.to, e.from, r.1) in Now(u).replies
  {
    hide IsRun;
    hide Handle;
    u := Take(t, Deliver(e));
  }

  lemma AnswerStep(t: Trace, g: Group, e: Envelope<RaftReply>) returns (u: Trace)
    requires Mirrors(t, g) && e.to in g.nodes && e.to in g.stores && e in Now(t).replies
    ensures var r := HandleReply(g.nodes[e.to], e.from, e.msg);
            && Continues(t, u)
            && Mirrors(u, g.(nodes := g.nodes[e.to := r.0]))
            && Posted(u, Addressed(e.to, r.1))
  {
    hide IsRun;
    hide HandleReply;
    u := Take(t, Answer(e));
    var r := HandleReply(g.nodes[e.to], e.from, e.msg);
    EmittedPosted(u, e.to, r.1);
  }

  lemma EmittedPosted(u: Trace, v: NodeId, outs: seq<Outgoing>)
    requires IsRun(u) && SentBy(v, outs) <= Now(u).requests
    ensures Posted(u, Addressed(v, outs))
  {
    hide IsRun;
    forall m | m in Addressed(v, outs)
      ensures Envelope(m.from, m.out.to, m.out.msg) in Now(u).requests
    {
      assert m.out in outs;
      assert Envelope(v, m.out.to, m.out.msg) in SentBy(v, outs);
    }
  }

  lemma ExchangeRuns(t: Trace, g: Group, m: Mail) returns (u: Trace)
    requires WellFormed(g) && Mirrors(t, g) && Posted(t, [m]) && m.from in g.nodes && m.out.to in g.nodes
    requires t.guarded ==> SafeToHand(g, m)
    ensures Continues(t, u) && Mirrors(u, Exchange(g, m).0) && Posted(u, Exchange(g, m).1)
  {
    hide IsRun;
    hide Handle;
    hide HandleReply;
    hide Placed;
    if m.out.to in g.down || m.from in g.down {
      ContinuesRefl(t);
      u := t;
    } else {
      var e := Envelope(m.from, m.out.to, m.out.msg);
      assert m in [m];
      var w := HearStep(t, g, e);
      var heard := Handle(g.nodes[e.to], e.msg);
      u := AnswerStep(w, g.(nodes := g.nodes[e.to := heard.0]), Envelope(e.to, e.from, heard.1));
      ContinuesTrans(t, w, u);
    }
  }

  lemma {:induction false} FlushRuns(t: Trace, g: Group, q: seq<Mail>, left: nat) returns (u: Trace)
    requires WellFormed(g) && Mirrors(t, g) && MailOk(g, q) && Posted(t, q)
    requires t.guarded ==> Safe(g, q, left)
    ensures Continues(t, u) && Mirrors(u, Flush(g, q, left))
    decreases left
  {
    hide IsRun;
    hide Exchange;
    hide WellFormed;
    if q == [] || left == 0 {
      ContinuesRefl(t);
      u := t;
    } else {
      var (h, more) := Exchange(g, q[0]);
      PostedPart(t, q, [q[0]]);
      var w := ExchangeRuns(t, g, q[0]);
      PostedOn(t, w, q);
      PostedPart(w, q + more, q[1..] + more);
      u := FlushRuns(w, h, q[1..] + more, left - 1);
      ContinuesTrans(t, w, u);
    }
  }

  lemma PostedPart(t: Trace, q: seq<Mail>, p: seq<Mail>)
    requires IsRun(t) && forall m :: m in p ==> m in q
    requires forall m :: m in q ==> Envelope(m.from, m.out.to, m.out.msg) in Now(t).requests
    ensures Posted(t, p)
  {
    hide IsRun;
  }

  // ------------------------------------------------------------ applying and folding

  /** The group with the replicas in `done` already applied and folded. */
  ghost function PartlySynced(g: Group, done: set<NodeId>): Group
    requires WellFormed(g)
  {
    g.(nodes := map v | v in g.nodes :: if v in done then Synced(g, v).0 else g.nodes[v],
       stores := map v | v in g.nodes :: if v in done then Synced(g, v).1 else g.stores[v])
  }

  lemma SyncOne(t: Trace, g: Group, x: Group, v: NodeId) returns (u: Trace)
    requires Mirrors(t, x) && v in g.nodes && v in g.stores && v in x.nodes && v in x.stores
    requires x.nodes[v] == g.nodes[v] && x.stores[v] == g.stores[v]
    ensures Continues(t, u)
    ensures Mirrors(u, x.(nodes := x.nodes[v := Synced(g, v).0], stores := x.stores[v := Synced(g, v).1]))
  {
    hide IsRun;
    hide Perform;
    hide Compact;
    hide ActionsAfter;
    hide IterAll;
    u := Take(t, Drain(v));
    var (n, actions) := DrainApply(g.nodes[v]);
    var store := Perform(g.stores[v], actions);
    if g.threshold > 0 && v !in g.down && n.applied > n.baseIndex + g.threshold {
      var w := Take(u, Compaction(v, IterAll(store)));
      ContinuesTrans(t, u, w);
      u := w;
    }
  }

  lemma {:induction false} SyncRest(t: Trace, g: Group, done: set<NodeId>) returns (u: Trace)
    requires WellFormed(g) && done <= g.nodes.Keys && Mirrors(t, PartlySynced(g, done))
    ensures Continues(t, u) && Mirrors(u, PartlySynced(g, g.nodes.Keys))
    decreases |g.nodes.Keys - done|
  {
    hide IsRun;
    hide Synced;
    hide Placed;
    hide WellFormed;
    hide PartlySynced;
    var rest := g.nodes.Keys - done;
    if rest == {} {
      assert done == g.nodes.Keys;
      ContinuesRefl(t);
      u := t;
    } else {
      var v :| v in rest;
      PartlyStep(g, done, v);
      var w := SyncOne(t, g, PartlySynced(g, done), v);
      assert g.nodes.Keys - (done + {v}) == rest - {v};
      u := SyncRest(w, g, done + {v});
      ContinuesTrans(t, w, u);
    }
  }

  lemma PartlyStep(g: Group, done: set<NodeId>, v: NodeId)
    requires WellFormed(g) && done <= g.nodes.Keys && v in g.nodes && v !in done
    ensures v in g.stores
    ensures var x := PartlySynced(g, done);
            && v in x.nodes && v in x.stores && x.nodes[v] == g.nodes[v] && x.stores[v] == g.stores[v]
            && PartlySynced(g, done + {v}) ==
               x.(nodes := x.nodes[v := Synced(g, v).0], stores := x.stores[v := Synced(g, v).1])
  {
    hide Synced;
    hide Placed;
  }

  lemma SyncRuns(t: Trace, g: Group) returns (u: Trace)
    requires WellFormed(g) && Mirrors(t, g)
    ensures Continues(t, u) && Mirrors(u, SyncApply(g))
  {
    hide IsRun;
    hide WellFormed;
    hide SyncApply;
    hide PartlySynced;
    PartlyEnds(g);
    u := SyncRest(t, g, {});
  }

  lemma PartlyEnds(g: Group)
    requires WellFormed(g)
    ensures PartlySynced(g, {}) == g && PartlySynced(g, g.nodes.Keys) == SyncApply(g)
  {
    hide Synced;
    hide Placed;
    var a := PartlySynced(g, {});
    assert a.nodes == g.nodes && a.stores == g.stores;
    var b := PartlySynced(g, g.nodes.Keys);
    assert b.nodes == SyncApply(g).nodes && b.stores == SyncApply(g).stores;
  }

  lemma DeliverRuns(t: Trace, g: Group, src: NodeId, outs: seq<Outgoing>) returns (u: Trace)
    requires WellFormed(g) && src in g.nodes && SentTo(outs, g.nodes.Keys)
    requires Mirrors(t, g) && Posted(t, Addressed(src, outs))
    requires t.guarded ==> Harmless(Delivery(g, Addressed(src, outs)))
    ensures Continues(t, u) && Mirrors(u, DeliverAll(g, src, outs))
  {
    hide IsRun;
    hide Flush;
    hide WellFormed;
    var q := Addressed(src, outs);
    var w := FlushRuns(t, g, q, MAX_DELIVERIES);
    u := SyncRuns(w, Flush(g, q, MAX_DELIVERIES));
    ContinuesTrans(t, w, u);
  }

  // ------------------------------------------------------------------- driver calls

  /** A step of node `v` that emits messages, followed by their delivery. */
  lemma EmitRuns(t: Trace, g: Group, v: NodeId, s: Step, r: (Node, seq<Outgoing>)) returns (u: Trace)
    requires WellFormed(g) && Mirrors(t, g) && v in g.nodes && SameSetup(g.nodes[v], r.0) && SentTo(r.1, g.nodes.Keys)
    requires Allowed(t.guarded, Now(t), s) && Next(Now(t), s) == Emit(Now(t), v, r)
    requires WellFormed(g.(nodes := g.nodes[v := r.0]))
    requires t.guarded ==> Harmless(Delivery(g.(nodes := g.nodes[v := r.0]), Addressed(v, r.1)))
    ensures Continues(t, u) && Mirrors(u, DeliverAll(g.(nodes := g.nodes[v := r.0]), v, r.1))
  {
    hide IsRun;
    hide Next;
    hide Enabled;
    hide DeliverAll;
    hide WellFormed;
    var w := Take(t, s);
    EmittedPosted(w, v, r.1);
    u := DeliverRuns(w, g.(nodes := g.nodes[v := r.0]), v, r.1);
    ContinuesTrans(t, w, u);
  }

  lemma TickRuns(t: Trace, g: Group, v: NodeId) returns (u: Trace)
    requires WellFormed(g) && Mirrors(t, g) && v in g.nodes && (t.guarded ==> AllHarmless(TickDeliveries(g, v)))
    ensures Continues(t, u) && Mirrors(u, TickOne(g, v))
  {
    hide IsRun;
    hide Tick;
    hide DeliverAll;
    hide SameSetup;
    hide Placed;
    if v in g.down {
      ContinuesRefl(t);
      u := t;
    } else {
      var r := Tick(g.nodes[v]);
      TickFormed(g, v);
      StoreKnown(g, v);
      u := EmitRuns(t, g, v, TickAt(v), r);
    }
  }

  lemma {:induction false} ElectRuns(t: Trace, g: Group, v: NodeId, ticks: nat) returns (u: Trace)
    requires WellFormed(g) && Mirrors(t, g) && v in g.nodes
    requires t.guarded ==> AllHarmless(ElectDeliveries(g, v, ticks))
    ensures Continues(t, u) && Mirrors(u, Elect(g, v, ticks).0)
    decreases ticks
  {
    hide IsRun;
    hide TickOne;
    hide WellFormed;
    if ticks == 0 || (v !in g.down && g.nodes[v].role == Leader) {
      ContinuesRefl(t);
      u := t;
    } else {
      var w := TickRuns(t, g, v);
      u := ElectRuns(w, TickOne(g, v), v, ticks - 1);
      ContinuesTrans(t, w, u);
    }
  }

  lemma {:induction false} SettleRuns(t: Trace, g: Group, rounds: nat) returns (u: Trace)
    requires WellFormed(g) && Mirrors(t, g) && (t.guarded ==> AllHarmless(SettleDeliveries(g, rounds)))
    ensures Continues(t, u) && Mirrors(u, Settle(g, rounds))
    decreases rounds
  {
    hide IsRun;
    hide TickOne;
    hide WellFormed;
    if rounds == 0 || LeaderOf(g).None? {
      ContinuesRefl(t);
      u := t;
    } else {
      var v := LeaderOf(g).value;
      var w := TickRuns(t, g, v);
      u := SettleRuns(w, TickOne(g, v), rounds - 1);
      ContinuesTrans(t, w, u);
    }
  }

  lemma PushRuns(t: Trace, h: Group, v: NodeId) returns (u: Trace)
    requires WellFormed(h) && Mirrors(t, h) && v in h.nodes
    requires var r := ReplicateNow(h.nodes[v]); var k := h.(nodes := h.nodes[v := r.0]);
             && WellFormed(k) && SentTo(r.1, k.nodes.Keys)
             && (t.guarded ==> Harmless(Delivery(k, Addressed(v, r.1))))
    ensures var r := ReplicateNow(h.nodes[v]); var k := h.(nodes := h.nodes[v := r.0]);
            Continues(t, u) && Mirrors(u, DeliverAll(k, v, r.1))
  {
    hide IsRun;
    hide DeliverAll;
    hide ReplicateToAll;
    hide WellFormed;
    StoreKnown(h, v);
    u := EmitRuns(t, h, v, Push(v), ReplicateNow(h.nodes[v]));
  }

  /** What a proposal leaves to be delivered is well formed. */
  lemma PushFormed(g: Group, v: NodeId, n: Node)
    requires WellFormed(g) && v in g.nodes && SameSetup(g.nodes[v], n)
    ensures var r := ReplicateNow(n); var k := g.(nodes := g.nodes[v := r.0]);
            && WellFormed(g.(nodes := g.nodes[v := n])) && WellFormed(k) && SentTo(r.1, k.nodes.Keys)
            && g.nodes[v := n][v := r.0] == g.nodes[v := r.0]
  {
    hide ReplicateToAll;
    hide Others;
    Replaced(g, v, n);
    Replaced(g, v, ReplicateNow(n).0);
    PeersKnown(g, v);
    ReplicateToPeers(n, n.peers, g.nodes.Keys);
  }

  lemma ProposeRuns(t: Trace, g: Group, op: LogOp) returns (u: Trace)
    requires WellFormed(g) && Mirrors(t, g) && (t.guarded ==> AllHarmless(ProposeDeliveries(g, op)))
    ensures Continues(t, u) && Mirrors(u, ProposeOne(g, op).0)
  {
    hide IsRun;
    hide DeliverAll;
    hide AdvanceCommit;
    hide ReplicateNow;
    hide SameSetup;
    hide WellFormed;
    if LeaderOf(g).None? {
      ContinuesRefl(t);
      u := t;
    } else {
      var v := LeaderOf(g).value;
      var n := Propose(g.nodes[v], op).0;
      StoreKnown(g, v);
      var w := Take(t, Submit(v, op));
      ProposeSetup(g.nodes[v], op);
      PushFormed(g, v, n);
      u := PushRuns(w, g.(nodes := g.nodes[v := n]), v);
      ContinuesTrans(t, w, u);
    }
  }

  lemma ProposeSetup(n: Node, op: LogOp)
    ensures var m := Propose(n, op).0;
            m.id == n.id && m.peers == n.peers && m.timers == n.timers && m.role == n.role && SameSetup(n, m)
  {
  }

  lemma CallRuns(t: Trace, g: Group, c: Call) returns (u: Trace)
    requires WellFormed(g) && Mirrors(t, g) && Callable(g, c) && (t.guarded ==> AllHarmless(CallDeliveries(g, c)))
    ensures Continues(t, u) && Mirrors(u, After(g, c))
  {
    hide IsRun;
    hide WellFormed;
    hide TickOne;
    hide Elect;
    hide ProposeOne;
    hide Settle;
    hide NoteRevived;
    match c
    case TickCall(v) => u := TickRuns(t, g, v);
    case ElectCall(v) => u := ElectRuns(t, g, v, MAX_ELECTION_TICKS);
    case EnsureCall =>
      if LeaderOf(g).None? && Freshest(g).Some? {
        u := ElectRuns(t, g, Freshest(g).value, MAX_ELECTION_TICKS);
      } else {
        ContinuesRefl(t);
        u := t;
      }
    case ProposeCall(op) => u := ProposeRuns(t, g, op);
    case DownCall(v, down) =>
      if v in g.down && !down {
        StoreKnown(g, v);
        u := Take(t, Revive(v));
      } else {
        ContinuesRefl(t);
        u := t;
      }
    case SettleCall(rounds) => u := SettleRuns(t, g, rounds);
  }

  lemma StoreKnown(g: Group, v: NodeId)
    requires WellFormed(g) && v in g.nodes
    ensures v in g.stores
  {
  }

  // ----------------------------------------------------------------------- whole runs

  lemma {:induction false} OthersDistinct(replicas: seq<NodeId>, v: NodeId)
    requires Distinct(replicas)
    ensures Distinct(Others(replicas, v))
    ensures |Others(replicas, v)| == |replicas| - (if v in replicas then 1 else 0)
  {
    if replicas != [] {
      var init, last := replicas[..|replicas| - 1], replicas[|replicas| - 1];
      OthersDistinct(init, v);
      OthersMembers(init, v);
      assert replicas == init + [last];
      assert last !in init;
    }
  }

  lemma {:induction false} DistinctSize(s: seq<NodeId>, ids: set<NodeId>)
    requires Distinct(s) && forall v :: v in s <==> v in ids
    ensures |ids| == |s|
  {
    if s == [] {
      assert ids == {};
    } else {
      var init, last := s[..|s| - 1], s[|s| - 1];
      assert s == init + [last];
      DistinctSize(init, ids - {last});
    }
  }

  lemma PeersPlaced(replicas: seq<NodeId>, v: NodeId, ids: set<NodeId>)
    requires Distinct(replicas) && v in replicas && forall w :: w in replicas <==> w in ids
    ensures PeersOf(ids, v, Others(replicas, v))
  {
    OthersDistinct(replicas, v);
    OthersMembers(replicas, v);
    DistinctSize(replicas, ids);
  }

  lemma FreshFixed(v: NodeId, peers: seq<NodeId>, t: Timers)
    ensures var n := Fresh(v, peers, t); n.peers == peers && n == Fresh(v, peers, n.timers).(timers := n.timers)
  {
  }

  lemma NewMirrored(g: Group, guarded: bool) returns (t: Trace)
    requires IsNew(g)
    ensures Mirrors(t, g) && |t.nets| == 1 && t.guarded == guarded
  {
    hide Others;
    hide PeersOf;
    hide Fresh;
    var timers :| g == NewGroup(g.replicas, timers, g.threshold);
    var net := Net(g.nodes, g.stores, {}, {});
    forall v | v in net.nodes
      ensures PeersOf(net.nodes.Keys, v, net.nodes[v].peers)
      ensures net.nodes[v] == Fresh(v, net.nodes[v].peers, net.nodes[v].timers).(timers := net.nodes[v].timers)
    {
      PeersPlaced(g.replicas, v, net.nodes.Keys);
      FreshFixed(v, Others(g.replicas, v), timers(v));
    }
    t := Trace([net], [], guarded);
  }

  /** One run of the cluster passes through every state of a run of the group, in order: `at[i]` is
      where the group's `i`-th state appears. */
  ghost predicate Embeds(t: Trace, at: seq<nat>, groups: seq<Group>) {
    && IsRun(t) && |at| == |groups|
    && (forall i :: 0 <= i < |at| ==> at[i] < |t.nets| && t.nets[at[i]].nodes == groups[i].nodes
                                      && t.nets[at[i]].stores == groups[i].stores)
    && forall i, j :: 0 <= i <= j < |at| ==> at[i] <= at[j]
  }

  /** A run of a group, state by state and in order, within a run of the cluster, which is guarded when
      asked for and no delivery of the group's run throws a matching suffix away. */
  lemma {:induction false} GroupRunEmbeds(groups: seq<Group>, calls: seq<Call>, guarded: bool)
    returns (t: Trace, at: seq<nat>)
    requires GroupRun(groups, calls)
    requires guarded ==> forall i :: 0 <= i < |calls| ==> AllHarmless(CallDeliveries(groups[i], calls[i]))
    ensures t.guarded == guarded && Embeds(t, at, groups) && Mirrors(t, groups[|groups| - 1])
    ensures at[|at| - 1] == |t.nets| - 1
  {
    hide After;
    hide WellFormed;
    hide IsRun;
    hide AllHarmless;
    hide CallDeliveries;
    var k := |calls|;
    if k == 0 {
      t := NewMirrored(groups[0], guarded);
      at := [|t.nets| - 1];
    } else {
      assert GroupRun(groups[..k], calls[..k - 1]);
      var t0, at0 := GroupRunEmbeds(groups[..k], calls[..k - 1], guarded);
      t := CallRuns(t0, groups[k - 1], calls[k - 1]);
      at := at0 + [|t.nets| - 1];
      EmbedsLonger(t0, t, at0, groups[..k], groups[k]);
      assert groups == groups[..k] + [groups[k]];
    }
  }

  lemma EmbedsLonger(t: Trace, u: Trace, at: seq<nat>, groups: seq<Group>, g: Group)
    requires Embeds(t, at, groups) && Continues(t, u) && Mirrors(u, g)
    ensures Embeds(u, at + [|u.nets| - 1], groups + [g])
  {
    hide IsRun;
    forall i | 0 <= i < |at|
      ensures at[i] < |u.nets| && u.nets[at[i]] == t.nets[at[i]]
    {
    }
  }
}
