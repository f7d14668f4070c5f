/** Runs in which nobody compacts: no node ever folds its log away, so no snapshot is ever sent and the
    condition under which snapshots may be delivered is no condition at all. */
module Uncompacted {
  import opened RaftTypes
  import opened RaftNode
  import opened RaftLink
  import opened RaftSteps
  import opened RaftNetwork

  /** A node that has folded nothing away and tracks its peers from index one never sends a snapshot. */
  ghost predicate Unfolded(n: Node) {
    n.baseIndex == 0 && forall p :: p in n.nextIndex ==> n.nextIndex[p] >= 1
  }

  ghost predicate NoSnapshots(outs: seq<Outgoing>) {
    forall o :: o in outs ==> !o.msg.InstallSnapshot?
  }

  lemma {:induction false} ReplicateUnfolded(n: Node, peers: seq<NodeId>)
    requires Unfolded(n)
    ensures NoSnapshots(ReplicateToAll(n, peers))
  {
    if peers != [] {
      ReplicateUnfolded(n, peers[..|peers| - 1]);
    }
  }

  lemma CrownedUnfolded(n: Node)
    requires Unfolded(n)
    ensures Unfolded(BecomeLeader(n).0) && NoSnapshots(BecomeLeader(n).1)
  {
    hide ReplicateToAll;
    ReplicateUnfolded(Crowned(n), n.peers);
  }

  lemma StartUnfolded(n: Node)
    requires Unfolded(n)
    ensures Unfolded(StartElection(n).0) && NoSnapshots(StartElection(n).1)
  {
    hide BecomeLeader;
    CrownedUnfolded(Stood(n));
  }

  lemma TickUnfolded(n: Node)
    requires Unfolded(n)
    ensures Unfolded(Tick(n).0) && NoSnapshots(Tick(n).1)
  {
    hide ReplicateToAll;
    hide StartElection;
    var m := n.(timers := n.timers.(heartbeatElapsed := n.timers.heartbeatElapsed + 1));
    ReplicateUnfolded(m, m.peers);
    StartUnfolded(n.(timers := n.timers.(electionElapsed := n.timers.electionElapsed + 1)));
  }

  lemma HandleUnfolded(n: Node, msg: RaftMsg)
    requires Unfolded(n) && !msg.InstallSnapshot?
    ensures Unfolded(Handle(n, msg).0)
  {
    if msg.AppendEntries? {
      StoreFields(Following(n, msg.term, msg.leaderId), msg.prevLogIndex, msg.entries);
    }
  }

  lemma ReplyUnfolded(n: Node, from: NodeId, reply: RaftReply)
    requires Unfolded(n)
    ensures Unfolded(HandleReply(n, from, reply).0) && NoSnapshots(HandleReply(n, from, reply).1)
  {
    hide BecomeLeader;
    hide ReplicateToAll;
    hide HighestCommittable;
    if reply.VoteReply? {
      CrownedUnfolded(n.(votesGranted := n.votesGranted + {from}));
    } else if reply.AppendReply? {
      var m := n.(matchIndex := n.matchIndex[from := reply.matchIndex],
          nextIndex := n.nextIndex[from := reply.matchIndex + 1]);
      var a := AdvanceCommit(m);
      ReplicateUnfolded(a, a.peers);
    }
  }

  lemma PushUnfolded(n: Node, op: LogOp)
    requires Unfolded(n)
    ensures var m := Propose(n, op).0;
            Unfolded(m) && Unfolded(ReplicateNow(m).0) && NoSnapshots(ReplicateNow(m).1)
  {
    var m := Propose(n, op).0;
    ReplicateUnfolded(m, m.peers);
  }

  lemma RevivedUnfolded(n: Node)
    requires Unfolded(n)
    ensures Unfolded(NoteRevived(n)) && Unfolded(DrainApply(n).0)
  {
    hide ActionsAfter;
  }

  ghost predicate NetUnfolded(n: Net) {
    && (forall v :: v in n.nodes ==> Unfolded(n.nodes[v]))
    && forall e :: e in n.requests ==> !e.msg.InstallSnapshot?
  }

  lemma EmitUnfolded(n: Net, v: NodeId, r: (Node, seq<Outgoing>))
    requires NetUnfolded(n) && Unfolded(r.0) && NoSnapshots(r.1)
    ensures NetUnfolded(Emit(n, v, r))
  {
    hide Unfolded;
  }

  lemma StepUnfolded(n: Net, s: Step)
    requires NetUnfolded(n) && Enabled(n, s) && !s.Compaction?
    ensures NetUnfolded(Next(n, s))
  {
    hide Unfolded;
    hide NoSnapshots;
    hide Emit;
    hide Tick;
    hide Handle;
    hide HandleReply;
    hide Propose;
    hide ReplicateNow;
    hide DrainApply;
    hide Perform;
    hide NoteRevived;
    var v := Actor(s);
    var node := n.nodes[v];
    match s
    case TickAt(_) =>
      TickUnfolded(node);
      EmitUnfolded(n, v, Tick(node));
    case Deliver(e) => HandleUnfolded(node, e.msg);
    case Answer(e) =>
      ReplyUnfolded(node, e.from, e.msg);
      EmitUnfolded(n, v, HandleReply(node, e.from, e.msg));
    case Submit(_, op) => PushUnfolded(node, op);
    case Push(_) =>
      NowUnfolded(node);
      EmitUnfolded(n, v, ReplicateNow(node));
    case Drain(_) => RevivedUnfolded(node);
    case Revive(_) => RevivedUnfolded(node);
  }

  lemma NowUnfolded(n: Node)
    requires Unfolded(n)
    ensures Unfolded(ReplicateNow(n).0) && NoSnapshots(ReplicateNow(n).1)
  {
    ReplicateUnfolded(n, n.peers);
  }

  /** Without compaction any request in flight may be delivered: the safety theorems then hold over an
      unrestricted network, with loss, duplication, reordering, crashes and revivals. */
  lemma {:induction false} UncompactedRunsUnrestricted(nets: seq<Net>, steps: seq<Step>, i: nat)
    requires Run(nets, steps) && i < |nets| && forall s :: s in steps ==> !s.Compaction?
    ensures NetUnfolded(nets[i])
    ensures forall e :: e in nets[i].requests && e.to in nets[i].nodes && e.to in nets[i].stores ==>
        Enabled(nets[i], Deliver(e))
  {
    hide Next;
    hide Enabled;
    hide Initial;
    hide NetUnfolded;
    if i == 0 {
      InitialUnfolded(nets[0]);
    } else {
      UncompactedRunsUnrestricted(nets, steps, i - 1);
      assert steps[i - 1] in steps;
      StepUnfolded(nets[i - 1], steps[i - 1]);
    }
    AllDeliverable(nets[i]);
  }

  lemma InitialUnfolded(n: Net)
    requires Initial(n)
    ensures NetUnfolded(n)
  {
    hide PeersOf;
  }

  lemma AllDeliverable(n: Net)
    requires NetUnfolded(n)
    ensures forall e :: e in n.requests && e.to in n.nodes && e.to in n.stores ==> Enabled(n, Deliver(e))
  {
    hide Unfolded;
  }
}
