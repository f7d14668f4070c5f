/** What every run of a replica group guarantees, between any two calls: one history explains every
    replica's store, also across elections, crashes, compaction and snapshot catch-up. */
module GroupSafety {
  import opened RaftTypes
  import opened RaftNode
  import opened RaftLink
  import opened RaftSteps
  import opened RaftNetwork
  import opened RaftSafety
  import opened FreeRuns
  import opened Traces
  import opened TripleStore
  import opened GroupSpec
  import opened GroupRuns
  import opened GroupCalls
  import opened Uncompacted

  // --------------------------------------------------------------- idle between calls

  /** The replica has applied all it knows to be committed and holds no reset back. */
  predicate Settled(n: Node) {
    n.pendingReset.None? && n.commit <= n.applied
  }

  ghost predicate AllSettled(g: Group) {
    forall v :: v in g.nodes ==> Settled(g.nodes[v])
  }

  lemma SyncedSettled(g: Group, v: NodeId)
    requires v in g.nodes && v in g.stores
    ensures Settled(Synced(g, v).0)
  {
    hide IterAll;
    hide Perform;
    hide ActionsAfter;
  }

  lemma SyncSettles(g: Group)
    requires WellFormed(g)
    ensures AllSettled(SyncApply(g))
  {
    hide Placed;
    hide Synced;
    hide Settled;
    forall v | v in g.nodes
      ensures Settled(SyncApply(g).nodes[v])
    {
      SyncedSettled(g, v);
    }
  }

  lemma TickSettles(g: Group, v: NodeId)
    requires WellFormed(g) && v in g.nodes && AllSettled(g)
    ensures AllSettled(TickOne(g, v))
  {
    hide Flush;
    hide Tick;
    hide SyncApply;
    hide SameSetup;
    hide Placed;
    hide Settled;
    if v !in g.down {
      var r := Tick(g.nodes[v]);
      TickFormed(g, v);
      SyncSettles(Flush(g.(nodes := g.nodes[v := r.0]), Addressed(v, r.1), MAX_DELIVERIES));
    }
  }

  lemma {:induction false} ElectSettles(g: Group, v: NodeId, ticks: nat)
    requires WellFormed(g) && v in g.nodes && AllSettled(g)
    ensures AllSettled(Elect(g, v, ticks).0)
    decreases ticks
  {
    hide TickOne;
    hide WellFormed;
    hide Settled;
    if ticks != 0 && !(v !in g.down && g.nodes[v].role == Leader) {
      TickSettles(g, v);
      ElectSettles(TickOne(g, v), v, ticks - 1);
    }
  }

  lemma {:induction false} SettleSettles(g: Group, rounds: nat)
    requires WellFormed(g) && AllSettled(g)
    ensures AllSettled(Settle(g, rounds))
    decreases rounds
  {
    hide TickOne;
    hide WellFormed;
    hide Settled;
    if rounds != 0 && LeaderOf(g).Some? {
      TickSettles(g, LeaderOf(g).value);
      SettleSettles(TickOne(g, LeaderOf(g).value), rounds - 1);
    }
  }

  lemma ProposeSettles(g: Group, op: LogOp)
    requires WellFormed(g) && AllSettled(g)
    ensures AllSettled(ProposeOne(g, op).0)
  {
    hide WellFormed;
    hide Flush;
    hide SyncApply;
    hide AdvanceCommit;
    hide ReplicateNow;
    hide SameSetup;
    hide Settled;
    if LeaderOf(g).Some? {
      var v := LeaderOf(g).value;
      var n := Propose(g.nodes[v], op).0;
      ProposeSetup(g.nodes[v], op);
      PushFormed(g, v, n);
      var r := ReplicateNow(n);
      SyncSettles(Flush(g.(nodes := g.nodes[v := r.0]), Addressed(v, r.1), MAX_DELIVERIES));
    }
  }

  lemma CallSettles(g: Group, c: Call)
    requires WellFormed(g) && Callable(g, c) && AllSettled(g)
    ensures AllSettled(After(g, c))
  {
    hide WellFormed;
    hide TickOne;
    hide Elect;
    hide Settle;
    hide ProposeOne;
    match c
    case TickCall(v) => TickSettles(g, v);
    case ElectCall(v) => ElectSettles(g, v, MAX_ELECTION_TICKS);
    case EnsureCall =>
      if LeaderOf(g).None? && Freshest(g).Some? {
        ElectSettles(g, Freshest(g).value, MAX_ELECTION_TICKS);
      }
    case ProposeCall(op) => ProposeSettles(g, op);
    case DownCall(v, down) =>
    case SettleCall(rounds) => SettleSettles(g, rounds);
  }

  lemma {:induction false} RunSettled(groups: seq<Group>, calls: seq<Call>, i: nat)
    requires GroupRun(groups, calls) && i < |groups|
    ensures AllSettled(groups[i])
  {
    hide After;
    hide WellFormed;
    if i > 0 {
      RunSettled(groups, calls, i - 1);
      CallSettles(groups[i - 1], calls[i - 1]);
    }
  }

  // ---------------------------------------------------------------- without compaction

  ghost predicate GroupUnfolded(g: Group) {
    g.threshold == 0 && forall v :: v in g.nodes ==> Unfolded(g.nodes[v])
  }

  ghost predicate PlainMail(q: seq<Mail>) {
    forall m :: m in q ==> !m.out.msg.InstallSnapshot?
  }

  lemma ExchangeUnfolded(g: Group, m: Mail)
    requires WellFormed(g) && m.from in g.nodes && m.out.to in g.nodes
    requires GroupUnfolded(g) && !m.out.msg.InstallSnapshot?
    ensures GroupUnfolded(Exchange(g, m).0) && PlainMail(Exchange(g, m).1)
  {
    hide WellFormed;
    hide Handle;
    hide HandleReply;
    hide Unfolded;
    if m.out.to !in g.down && m.from !in g.down {
      var heard := Handle(g.nodes[m.out.to], m.out.msg);
      HandleUnfolded(g.nodes[m.out.to], m.out.msg);
      var nodes := g.nodes[m.out.to := heard.0];
      ReplyUnfolded(nodes[m.from], m.out.to, heard.1);
      PlainAddressed(m.from, HandleReply(nodes[m.from], m.out.to, heard.1).1);
    }
  }

  lemma PlainAddressed(v: NodeId, outs: seq<Outgoing>)
    requires NoSnapshots(outs)
    ensures PlainMail(Addressed(v, outs))
  {
    forall m | m in Addressed(v, outs)
      ensures !m.out.msg.InstallSnapshot?
    {
      assert m.out in outs;
    }
  }

  lemma {:induction false} FlushUnfolded(g: Group, q: seq<Mail>, left: nat)
    requires WellFormed(g) && MailOk(g, q) && GroupUnfolded(g) && PlainMail(q)
    ensures GroupUnfolded(Flush(g, q, left)) && Safe(g, q, left)
    decreases left
  {
    hide WellFormed;
    hide Exchange;
    hide GroupUnfolded;
    if q != [] && left != 0 {
      ExchangeUnfolded(g, q[0]);
      var (h, more) := Exchange(g, q[0]);
      FlushUnfolded(h, q[1..] + more, left - 1);
    }
  }

  lemma DeliverUnfolded(g: Group, src: NodeId, outs: seq<Outgoing>)
    requires WellFormed(g) && src in g.nodes && SentTo(outs, g.nodes.Keys) && GroupUnfolded(g) && NoSnapshots(outs)
    ensures GroupUnfolded(DeliverAll(g, src, outs)) && Harmless(Delivery(g, Addressed(src, outs)))
  {
    hide WellFormed;
    hide Flush;
    hide SyncApply;
    PlainAddressed(src, outs);
    FlushUnfolded(g, Addressed(src, outs), MAX_DELIVERIES);
    SyncUnfolded(Flush(g, Addressed(src, outs), MAX_DELIVERIES));
  }

  lemma SyncUnfolded(g: Group)
    requires WellFormed(g) && GroupUnfolded(g)
    ensures GroupUnfolded(SyncApply(g))
  {
    hide Placed;
    hide Synced;
    hide Unfolded;
    forall v | v in g.nodes
      ensures Unfolded(SyncApply(g).nodes[v])
    {
      NodeUnfolded(g, v);
    }
  }

  lemma NodeUnfolded(g: Group, v: NodeId)
    requires v in g.nodes && v in g.stores && g.threshold == 0 && Unfolded(g.nodes[v])
    ensures Unfolded(Synced(g, v).0)
  {
    hide Perform;
    hide ActionsAfter;
    hide IterAll;
  }

  lemma TickOneUnfolded(g: Group, v: NodeId)
    requires WellFormed(g) && v in g.nodes && GroupUnfolded(g)
    ensures GroupUnfolded(TickOne(g, v)) && AllHarmless(TickDeliveries(g, v))
  {
    hide DeliverAll;
    hide Tick;
    hide SameSetup;
    hide Placed;
    hide Unfolded;
    if v !in g.down {
      var r := Tick(g.nodes[v]);
      TickFormed(g, v);
      TickUnfolded(g.nodes[v]);
      DeliverUnfolded(g.(nodes := g.nodes[v := r.0]), v, r.1);
    }
  }

  lemma {:induction false} ElectUnfolded(g: Group, v: NodeId, ticks: nat)
    requires WellFormed(g) && v in g.nodes && GroupUnfolded(g)
    ensures GroupUnfolded(Elect(g, v, ticks).0) && AllHarmless(ElectDeliveries(g, v, ticks))
    decreases ticks
  {
    hide TickOne;
    hide TickDeliveries;
    hide Harmless;
    hide WellFormed;
    hide GroupUnfolded;
    if ticks != 0 && !(v !in g.down && g.nodes[v].role == Leader) {
      TickOneUnfolded(g, v);
      ElectUnfolded(TickOne(g, v), v, ticks - 1);
    }
  }

  lemma {:induction false} SettleUnfolded(g: Group, rounds: nat)
    requires WellFormed(g) && GroupUnfolded(g)
    ensures GroupUnfolded(Settle(g, rounds)) && AllHarmless(SettleDeliveries(g, rounds))
    decreases rounds
  {
    hide TickOne;
    hide TickDeliveries;
    hide Harmless;
    hide WellFormed;
    hide GroupUnfolded;
    if rounds != 0 && LeaderOf(g).Some? {
      TickOneUnfolded(g, LeaderOf(g).value);
      SettleUnfolded(TickOne(g, LeaderOf(g).value), rounds - 1);
    }
  }

  lemma ProposeUnfolded(g: Group, op: LogOp)
    requires WellFormed(g) && GroupUnfolded(g)
    ensures GroupUnfolded(ProposeOne(g, op).0) && AllHarmless(ProposeDeliveries(g, op))
  {
    hide WellFormed;
    hide DeliverAll;
    hide AdvanceCommit;
    hide ReplicateNow;
    hide SameSetup;
    hide Unfolded;
    if LeaderOf(g).Some? {
      var v := LeaderOf(g).value;
      var n := Propose(g.nodes[v], op).0;
      ProposeSetup(g.nodes[v], op);
      PushFormed(g, v, n);
      PushUnfolded(g.nodes[v], op);
      var r := ReplicateNow(n);
      DeliverUnfolded(g.(nodes := g.nodes[v := r.0]), v, r.1);
    }
  }

  lemma CallUnfolded(g: Group, c: Call)
    requires WellFormed(g) && Callable(g, c) && GroupUnfolded(g)
    ensures GroupUnfolded(After(g, c)) && AllHarmless(CallDeliveries(g, c))
  {
    hide WellFormed;
    hide TickOne;
    hide Elect;
    hide Settle;
    hide ProposeOne;
    hide Harmless;
    hide TickDeliveries;
    hide ElectDeliveries;
    hide SettleDeliveries;
    hide ProposeDeliveries;
    match c
    case TickCall(v) => TickOneUnfolded(g, v);
    case ElectCall(v) => ElectUnfolded(g, v, MAX_ELECTION_TICKS);
    case EnsureCall =>
      if LeaderOf(g).None? && Freshest(g).Some? {
        ElectUnfolded(g, Freshest(g).value, MAX_ELECTION_TICKS);
      }
    case ProposeCall(op) => ProposeUnfolded(g, op);
    case DownCall(v, down) =>
    case SettleCall(rounds) => SettleUnfolded(g, rounds);
  }

  /** With compaction switched off no snapshot is ever sent. */
  lemma {:induction false} UncompactedUnfolded(groups: seq<Group>, calls: seq<Call>, i: nat)
    requires GroupRun(groups, calls) && i < |groups| && groups[0].threshold == 0
    ensures GroupUnfolded(groups[i])
  {
    hide After;
    hide WellFormed;
    hide CallDeliveries;
    hide AllHarmless;
    if i > 0 {
      UncompactedUnfolded(groups, calls, i - 1);
      CallUnfolded(groups[i - 1], calls[i - 1]);
    }
  }

  /** Compaction is switched off, or no delivery loop was heavy enough to be cut off at its bound. */
  ghost predicate Undisturbed(groups: seq<Group>, calls: seq<Call>)
    requires GroupRun(groups, calls)
  {
    groups[0].threshold == 0 || WithinBounds(groups, calls)
  }

  /** No delivery of such a run throws a matching suffix away; without compaction also none that was cut
      off. */
  lemma UndisturbedIsHarmless(groups: seq<Group>, calls: seq<Call>)
    requires GroupRun(groups, calls) && Undisturbed(groups, calls)
    ensures forall i :: 0 <= i < |calls| ==> AllHarmless(CallDeliveries(groups[i], calls[i]))
  {
    hide After;
    hide WellFormed;
    hide CallDeliveries;
    hide AllHarmless;
    hide AllBounded;
    hide AllComplete;
    hide IsNew;
    forall i | 0 <= i < |calls|
      ensures AllHarmless(CallDeliveries(groups[i], calls[i]))
    {
      if groups[0].threshold == 0 {
        UncompactedUnfolded(groups, calls, i);
        CallUnfolded(groups[i], calls[i]);
      } else {
        BoundedIsHarmless(groups, calls, i);
      }
    }
  }

  // ------------------------------------------------------------------- main theorems

  /** Such a run of the group is part of a guarded run of the cluster. */
  lemma GuardedRun(groups: seq<Group>, calls: seq<Call>) returns (t: Trace, at: seq<nat>)
    requires GroupRun(groups, calls) && Undisturbed(groups, calls)
    ensures Run(t.nets, t.steps) && Embeds(t, at, groups) && Mirrors(t, groups[|groups| - 1])
  {
    hide GroupRun;
    hide Undisturbed;
    hide CallDeliveries;
    hide AllHarmless;
    hide Run;
    hide FreeRun;
    UndisturbedIsHarmless(groups, calls);
    t, at := GroupRunEmbeds(groups, calls, true);
  }

  /** One sequence of committed commands explains a whole run of the group: before and after every
      call, every replica's store is the fold of the first `commit` of them, every snapshot the fold
      of those below its base, and every committed entry a replica keeps is the one at its index. */
  lemma GroupHistory(groups: seq<Group>, calls: seq<Call>) returns (canon: Log)
    requires GroupRun(groups, calls) && Undisturbed(groups, calls)
    ensures forall i, v :: 0 <= i < |groups| && v in groups[i].nodes ==>
              && v in groups[i].stores
              && FollowsHistory(groups[i].nodes[v], groups[i].stores[v], canon)
              && groups[i].stores[v] == Fold(canon[..groups[i].nodes[v].commit])
  {
    hide Run;
    hide FreeRun;
    hide GroupRun;
    hide Undisturbed;
    hide Fold;
    var t, at := GuardedRun(groups, calls);
    canon := OneHistory(t.nets, t.steps);
    forall i, v | 0 <= i < |groups| && v in groups[i].nodes
      ensures v in groups[i].stores && FollowsHistory(groups[i].nodes[v], groups[i].stores[v], canon)
      ensures groups[i].stores[v] == Fold(canon[..groups[i].nodes[v].commit])
    {
      RunSettled(groups, calls, i);
      assert FollowsHistory(t.nets[at[i]].nodes[v], t.nets[at[i]].stores[v], canon);
    }
  }

  /** Commit indexes never decrease. */
  lemma GroupCommits(groups: seq<Group>, calls: seq<Call>, i: nat, j: nat, v: NodeId)
    requires GroupRun(groups, calls) && Undisturbed(groups, calls) && i <= j < |groups| && v in groups[i].nodes
    ensures v in groups[j].nodes && groups[i].nodes[v].commit <= groups[j].nodes[v].commit
  {
    hide Run;
    hide FreeRun;
    hide GroupRun;
    hide Undisturbed;
    var t, at := GuardedRun(groups, calls);
    NeverBackwards(t.nets, t.steps, at[i], at[j], v);
  }

  /** In every run of the group, cut off or not, two replicas never lead the same term, and terms never
      decrease. */
  lemma GroupElections(groups: seq<Group>, calls: seq<Call>, i: nat, j: nat, u: NodeId, v: NodeId)
    requires GroupRun(groups, calls) && i <= j < |groups| && u in groups[i].nodes && v in groups[j].nodes
    ensures (groups[i].nodes[u].role == Leader && groups[j].nodes[v].role == Leader
             && groups[i].nodes[u].term == groups[j].nodes[v].term) ==> u == v
    ensures u in groups[j].nodes && groups[i].nodes[u].term <= groups[j].nodes[u].term
  {
    hide Run;
    hide FreeRun;
    hide GroupRun;
    hide CallDeliveries;
    hide AllHarmless;
    var t, at := GroupRunEmbeds(groups, calls, false);
    TermsOnlyGrow(t.nets, t.steps, at[i], at[j], u);
    if groups[i].nodes[u].role == Leader && groups[j].nodes[v].role == Leader
       && groups[i].nodes[u].term == groups[j].nodes[v].term {
      ElectionSafety(t.nets, t.steps, at[i], at[j], u, v);
    }
  }
}
