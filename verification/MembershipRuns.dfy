/** The replicated configuration next to whole runs of the cluster that applies it. */
module MembershipRuns {
  import opened RaftTypes
  import opened RaftNode
  import opened RaftLink
  import opened RaftSteps
  import opened RaftNetwork
  import opened RaftSafety
  import opened Uncompacted
  import M = Membership

  /** Next to a run of the cluster, the configuration of every node: empty at first, and changed by what
      the node drains. */
  ghost predicate Configured(w: M.Weight, numShards: nat, nets: seq<Net>, steps: seq<Step>,
                             configs: seq<map<NodeId, M.Config>>)
    requires Run(nets, steps)
  {
    && |configs| == |nets|
    && (forall i :: 0 <= i < |nets| ==> configs[i].Keys == nets[i].nodes.Keys)
    && (forall v :: v in configs[0] ==> configs[0][v] == M.Empty(numShards))
    && forall i :: 0 <= i < |steps| ==> configs[i + 1] == NextConfigs(w, nets[i], steps[i], configs[i])
  }

  ghost function NextConfigs(w: M.Weight, n: Net, s: Step, configs: map<NodeId, M.Config>): map<NodeId, M.Config> {
    if s.Drain? && s.v in configs && s.v in n.nodes
    then configs[s.v := M.AfterActions(w, configs[s.v], DrainApply(n.nodes[s.v]).1)]
    else configs
  }

  /** Only draining, and installing a snapshot, change what a node has applied. */
  lemma AppliedByDrain(n: Net, s: Step, v: NodeId)
    requires Possible(n, s) && v in n.nodes
    requires s.Deliver? ==> !s.request.msg.InstallSnapshot?
    ensures v in Next(n, s).nodes
    ensures Next(n, s).nodes[v].applied
            == if s == Drain(v) && n.nodes[v].applied < n.nodes[v].commit then n.nodes[v].commit else n.nodes[v].applied
  {
    hide Perform;
    hide ActionsAfter;
    hide ReplicateToAll;
    hide ReplicateTo;
    hide HighestCommittable;
    hide StoreEntries;
    if s.Deliver? && s.request.msg.AppendEntries? {
      var msg := s.request.msg;
      StoreFields(Following(n.nodes[s.request.to], msg.term, msg.leaderId), msg.prevLogIndex, msg.entries);
    }
  }

  lemma NoInstall(nets: seq<Net>, steps: seq<Step>, i: nat)
    requires Run(nets, steps) && i < |steps| && forall s :: s in steps ==> !s.Compaction?
    ensures steps[i].Deliver? ==> !steps[i].request.msg.InstallSnapshot?
    ensures Possible(nets[i], steps[i]) && nets[i + 1] == Next(nets[i], steps[i])
  {
    hide Next;
    hide Initial;
    UncompactedRunsUnrestricted(nets, steps, i);
  }

  lemma {:induction false} ConfigTracksApplied(w: M.Weight, numShards: nat, nets: seq<Net>, steps: seq<Step>,
                                               configs: seq<map<NodeId, M.Config>>, canon: Log, i: nat, v: NodeId)
    requires Run(nets, steps) && Configured(w, numShards, nets, steps, configs)
    requires forall s :: s in steps ==> !s.Compaction?
    requires forall j, u :: 0 <= j < |nets| && u in nets[j].nodes ==>
               u in nets[j].stores && FollowsHistory(nets[j].nodes[u], nets[j].stores[u], canon)
    requires i < |nets| && v in nets[i].nodes
    ensures v in configs[i] && nets[i].nodes[v].applied <= |canon|
    ensures configs[i][v] == M.ConfigAfter(w, numShards, canon[..nets[i].nodes[v].applied])
  {
    hide Next;
    hide Possible;
    hide Initial;
    hide FollowsHistory;
    hide M.AfterActions;
    WithinHistory(nets[i].nodes[v], nets[i].stores[v], canon);
    if i == 0 {
      FreshUnapplied(nets[0], v);
      assert canon[..0] == [];
    } else {
      NoInstall(nets, steps, i - 1);
      SameMembers(nets[i - 1], steps[i - 1]);
      ConfigTracksApplied(w, numShards, nets, steps, configs, canon, i - 1, v);
      AppliedByDrain(nets[i - 1], steps[i - 1], v);
      var n := nets[i - 1].nodes[v];
      WithinHistory(n, nets[i - 1].stores[v], canon);
      M.DrainConfigures(w, numShards, n, nets[i - 1].stores[v], canon, configs[i - 1][v]);
    }
  }

  lemma WithinHistory(n: Node, store: set<Triple>, canon: Log)
    requires FollowsHistory(n, store, canon)
    ensures n.applied <= n.commit <= |canon|
  {
  }

  lemma FreshUnapplied(n: Net, v: NodeId)
    requires Initial(n) && v in n.nodes
    ensures n.nodes[v].applied == 0
  {
    hide PeersOf;
  }

  lemma SameMembers(n: Net, s: Step)
    requires Possible(n, s)
    ensures Next(n, s).nodes.Keys == n.nodes.Keys
  {
    hide Tick;
    hide Handle;
    hide HandleReply;
    hide Propose;
    hide ReplicateNow;
    hide DrainApply;
    hide Perform;
    hide Compact;
  }

  /** Nodes that have applied equally much hold equal configurations, at any two moments of a run without
      compaction; snapshots carry no configuration. */
  lemma ConfigsConverge(w: M.Weight, numShards: nat, nets: seq<Net>, steps: seq<Step>,
                        configs: seq<map<NodeId, M.Config>>, i: nat, j: nat, u: NodeId, v: NodeId)
    requires Run(nets, steps) && Configured(w, numShards, nets, steps, configs)
    requires forall s :: s in steps ==> !s.Compaction?
    requires i < |nets| && j < |nets| && u in nets[i].nodes && v in nets[j].nodes
    requires nets[i].nodes[u].applied == nets[j].nodes[v].applied
    ensures u in configs[i] && v in configs[j] && configs[i][u] == configs[j][v] && M.Settled(w, configs[i][u])
  {
    hide Run;
    hide Configured;
    hide FollowsHistory;
    var canon := OneHistory(nets, steps);
    ConfigTracksApplied(w, numShards, nets, steps, configs, canon, i, u);
    ConfigTracksApplied(w, numShards, nets, steps, configs, canon, j, v);
    M.ConfigSettled(w, numShards, canon[..nets[i].nodes[u].applied]);
  }
}
