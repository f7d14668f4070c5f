/** What every run of a cluster guarantees, stated about node states alone. */
module RaftSafety {
  import opened Wrappers
  import opened RaftTypes
  import opened RaftNode
  import opened RaftLedger
  import opened RaftActions
  import opened RaftLink
  import opened RaftSteps
  import opened RaftNetwork

  // ------------------------------------------------------------------------ leaders

  lemma LeaderRecorded(n: Net, g: Ledger, v: NodeId)
    requires Inv(n, g) && v in n.nodes && n.nodes[v].role == Leader
    ensures n.nodes[v].term in g.elected && g.elected[n.nodes[v].term].leader == v
    ensures v in g.log && n.nodes[v].term in g.tlog && g.log[v] == g.tlog[n.nodes[v].term]
  {
    hide Sound;
    hide Core;
    hide FlightOk;
    var node := n.nodes[v];
    assert NodeOk(g, v, node, n.stores[v]);
    LeaderFacts(g, v, node);
    LeaderOwnsLog(g, v);
  }

  // ------------------------------------------------------------------ log matching

  /** Entry `k` of a node's log, for the entries it has not folded away. */
  function EntryAt(n: Node, k: nat): LogEntry
    requires n.baseIndex < k <= n.LastIndex()
  {
    n.log[k - n.baseIndex - 1]
  }

  predicate HasEntry(n: Node, k: nat) {
    n.baseIndex < k <= n.LastIndex()
  }

  lemma EntryInLedger(n: Net, g: Ledger, v: NodeId, k: nat)
    requires Inv(n, g) && v in n.nodes && HasEntry(n.nodes[v], k)
    ensures Shape(g) && v in g.ids && k <= |g.log[v]| && EntryAt(n.nodes[v], k) == g.log[v][k - 1]
  {
    hide Sound;
    hide Duty;
    hide FlightOk;
    hide NodeStore;
    hide NodeCommit;
    assert NodeOk(g, v, n.nodes[v], n.stores[v]);
  }

  lemma LogsInLedger(g: Ledger, u: NodeId, v: NodeId, k: nat, m: nat)
    requires Sound(g) && u in g.ids && v in g.ids && 1 <= m <= k <= |g.log[u]| && k <= |g.log[v]|
    requires g.log[u][k - 1].term == g.log[v][k - 1].term
    ensures g.log[u][m - 1] == g.log[v][m - 1] && g.log[u][m - 1].term <= g.log[u][k - 1].term
  {
    assert GoodNode(g, u) && GoodNode(g, v);
    LogMatching(g, g.log[u], g.log[v], k - 1);
  }

  /** In every reachable state, two logs with the same term at an index are equal at every index up
      to it that both still hold, and terms never decrease along a log. */
  lemma LogMatchingInRuns(nets: seq<Net>, steps: seq<Step>, i: nat, u: NodeId, v: NodeId, k: nat, m: nat)
    requires Run(nets, steps) && i < |nets| && u in nets[i].nodes && v in nets[i].nodes && m <= k
    requires HasEntry(nets[i].nodes[u], k) && HasEntry(nets[i].nodes[v], k)
    requires HasEntry(nets[i].nodes[u], m) && HasEntry(nets[i].nodes[v], m)
    requires EntryAt(nets[i].nodes[u], k).term == EntryAt(nets[i].nodes[v], k).term
    ensures EntryAt(nets[i].nodes[u], m) == EntryAt(nets[i].nodes[v], m)
    ensures EntryAt(nets[i].nodes[u], m).term <= EntryAt(nets[i].nodes[u], k).term
  {
    hide Run;
    hide Sound;
    hide NodesOk;
    hide FlightOk;
    var ledgers := RunRecorded(nets, steps);
    var g := ledgers[i];
    EntryInLedger(nets[i], g, u, k);
    EntryInLedger(nets[i], g, v, k);
    EntryInLedger(nets[i], g, u, m);
    EntryInLedger(nets[i], g, v, m);
    LogsInLedger(g, u, v, k, m);
  }

  // ----------------------------------------------------------- leader completeness

  lemma CommitRecorded(n: Net, g: Ledger, v: NodeId)
    requires Inv(n, g) && v in n.nodes
    ensures Sound(g) && Shape(g) && v in g.ids && n.nodes[v].commit <= |g.log[v]|
    ensures CommittedPrefix(g, g.log[v], n.nodes[v].commit, n.nodes[v].term)
  {
    hide Sound;
    hide Duty;
    hide FlightOk;
    hide NodeStore;
    hide CommittedPrefix;
    assert NodeOk(g, v, n.nodes[v], n.stores[v]);
  }

  /** A leader's log at any moment contains what was committed in earlier terms, by anyone, ever:
      `g` is the ledger of the leader's moment and `h` a later or equal one. */
  lemma LeaderHasCommitted(g: Ledger, h: Ledger, l: Log, c: nat, s: nat, t: nat)
    requires Sound(g) && Sound(h) && Grows(g, h) && t in g.elected && s < t
    requires CommittedPrefix(h, l, c, s) && c <= |l|
    ensures Agree(l, g.tlog[t], c)
  {
    if c != 0 {
      var u :| CommittedBy(h, l, c, s, u);
      LeaderCompleteness(h, u, c, t);
      assert GoodTermLog(g, t);
      assert Agree(h.elected[t].log, h.tlog[u], c);
      assert h.elected[t] == g.elected[t];
    }
  }

  /** Whatever any node has committed at any moment of a run, every leader of a later term holds:
      its log reaches that far, and any such entry it still keeps is the same. */
  lemma LeaderCompletenessInRuns(nets: seq<Net>, steps: seq<Step>, i: nat, j: nat, u: NodeId, v: NodeId, k: nat)
    requires Run(nets, steps) && i < |nets| && j < |nets| && u in nets[i].nodes && v in nets[j].nodes
    requires 1 <= k <= nets[i].nodes[u].commit && HasEntry(nets[i].nodes[u], k)
    requires nets[j].nodes[v].role == Leader && nets[i].nodes[u].term < nets[j].nodes[v].term
    ensures k <= nets[j].nodes[v].LastIndex()
    ensures HasEntry(nets[j].nodes[v], k) ==> EntryAt(nets[j].nodes[v], k) == EntryAt(nets[i].nodes[u], k)
  {
    hide Run;
    hide Inv;
    hide Sound;
    hide Grows;
    hide CommittedPrefix;
    hide NodeOnward;
    var ledgers := RunRecorded(nets, steps);
    var g, h := ledgers[i], ledgers[j];
    CommitRecorded(nets[i], g, u);
    CommitRecorded(nets[j], h, v);
    LeaderRecorded(nets[j], h, v);
    EntryInLedger(nets[i], g, u, k);
    var c, s, t := nets[i].nodes[u].commit, nets[i].nodes[u].term, nets[j].nodes[v].term;
    if i <= j {
      Between(nets, ledgers, i, j);
      CommittedPrefixGrows(g, h, g.log[u], c, s, g.log[u], s);
      GrowsRefl(h);
      LeaderHasCommitted(h, h, g.log[u], c, s, t);
    } else {
      Between(nets, ledgers, j, i);
      LeaderHasCommitted(h, g, g.log[u], c, s, t);
    }
    LastInLedger(nets[j], h, v);
    if HasEntry(nets[j].nodes[v], k) {
      EntryInLedger(nets[j], h, v, k);
    }
  }

  lemma GrowsRefl(g: Ledger)
    requires Shape(g)
    ensures Grows(g, g)
  {
  }

  lemma LastInLedger(n: Net, g: Ledger, v: NodeId)
    requires Inv(n, g) && v in n.nodes
    ensures Shape(g) && v in g.ids && n.nodes[v].LastIndex() == |g.log[v]|
  {
    hide Sound;
    hide NodeOk;
    hide FlightOk;
    NodeFacts(g, v, n.nodes[v], n.stores[v]);
  }

  // --------------------------------------------------------------- one history

  /** The node's committed log, its snapshot and its store are those of `canon`. */
  ghost predicate FollowsHistory(n: Node, store: set<Triple>, canon: Log) {
    && n.baseIndex <= n.applied <= n.commit <= |canon| && n.commit <= n.LastIndex()
    && (forall i :: 0 <= i < n.commit - n.baseIndex ==> n.log[i] == canon[n.baseIndex + i])
    && TripleSet(n.snapshot) == Fold(canon[..n.baseIndex])
    && (match n.pendingReset case None => store case Some(ts) => TripleSet(ts)) == Fold(canon[..n.applied])
  }

  lemma CoreFollows(g: Ledger, v: NodeId, n: Node, store: set<Triple>, canon: Log)
    requires Core(g, v, n, store) && Agree(g.log[v], canon, n.commit)
    ensures FollowsHistory(n, store, canon)
  {
    hide CommittedPrefix;
    hide PeersOf;
    hide Fold;
    assert canon[..n.baseIndex] == g.log[v][..n.baseIndex];
    assert canon[..n.applied] == g.log[v][..n.applied];
  }

  /** A member of a non-empty set of nodes whose commit index is greatest. */
  lemma {:induction false} FurthestAhead(nodes: map<NodeId, Node>, ids: set<NodeId>) returns (w: NodeId)
    requires ids <= nodes.Keys && ids != {}
    ensures w in ids && forall v :: v in ids ==> nodes[v].commit <= nodes[w].commit
  {
    w :| w in ids;
    var rest := ids - {w};
    if rest != {} {
      var x := FurthestAhead(nodes, rest);
      if nodes[x].commit > nodes[w].commit {
        w := x;
      }
    }
  }

  /** State machine safety: one sequence of entries explains every node at every moment of a run.
      Every commit index stays within it, every committed entry a node keeps is the entry at that
      position, every snapshot is the fold of the part below its base, and every store is the fold of
      the part its node has applied. */
  lemma OneHistory(nets: seq<Net>, steps: seq<Step>) returns (canon: Log)
    requires Run(nets, steps)
    ensures forall i, v :: 0 <= i < |nets| && v in nets[i].nodes ==>
              v in nets[i].stores && FollowsHistory(nets[i].nodes[v], nets[i].stores[v], canon)
  {
    hide Run;
    hide Inv;
    hide Onward;
    hide FollowsHistory;
    var ledgers := RunRecorded(nets, steps);
    var last := |nets| - 1;
    canon := Longest(nets[last], ledgers[last]);
    forall i, v | 0 <= i < |nets| && v in nets[i].nodes
      ensures v in nets[i].stores && FollowsHistory(nets[i].nodes[v], nets[i].stores[v], canon)
    {
      Between(nets, ledgers, i, last);
      SameNodes(nets[i], ledgers[i], nets[last], ledgers[last]);
      Explained(nets[i], ledgers[i], nets[last], ledgers[last], v, canon);
    }
  }

  lemma SameNodes(n: Net, g: Ledger, m: Net, h: Ledger)
    requires Onward(n, g, m, h)
    ensures n.nodes.Keys == m.nodes.Keys == g.ids == h.ids
  {
    hide Inv;
    hide NodeOnward;
  }

  lemma Longest(n: Net, g: Ledger) returns (canon: Log)
    requires Inv(n, g)
    ensures Shape(g) && n.nodes.Keys == g.ids
    ensures forall v :: v in n.nodes ==> Agree(g.log[v], canon, n.nodes[v].commit)
  {
    hide Sound;
    hide NodeOk;
    hide FlightOk;
    hide CommittedPrefix;
    canon := [];
    SoundShape(g);
    if n.nodes.Keys != {} {
      var w := FurthestAhead(n.nodes, n.nodes.Keys);
      CommitRecorded(n, g, w);
      canon := g.log[w];
      forall v | v in n.nodes
        ensures Agree(g.log[v], canon, n.nodes[v].commit)
      {
        CommitRecorded(n, g, v);
        CommittedPrefixesAgree(g, g.log[v], n.nodes[v].commit, n.nodes[v].term,
                               g.log[w], n.nodes[w].commit, n.nodes[w].term);
      }
    }
  }

  lemma Explained(n: Net, g: Ledger, m: Net, h: Ledger, v: NodeId, canon: Log)
    requires Inv(n, g) && Onward(n, g, m, h) && v in n.nodes && v in m.nodes && v in h.log
    requires Agree(h.log[v], canon, m.nodes[v].commit)
    ensures v in n.stores && FollowsHistory(n.nodes[v], n.stores[v], canon)
  {
    hide Sound;
    hide Core;
    hide Duty;
    hide FlightOk;
    hide Grows;
    hide FollowsHistory;
    var node := m.nodes[v];
    assert NodeOk(g, v, n.nodes[v], n.stores[v]);
    CoreFollows(g, v, n.nodes[v], n.stores[v], canon);
  }

  /** Applying entries `a` to `b` of a history. */
  function ApplyAll(log: Log): seq<StoreAction> {
    seq(|log|, i requires 0 <= i < |log| => Apply(log[i].op))
  }

  lemma {:induction false} ActionsAreHistory(n: Node, canon: Log, k: nat)
    requires n.baseIndex <= k <= n.commit <= |canon| && n.commit <= n.LastIndex()
    requires forall i :: 0 <= i < n.commit - n.baseIndex ==> n.log[i] == canon[n.baseIndex + i]
    ensures ActionsAfter(n, k) == ApplyAll(canon[k..n.commit])
    decreases n.commit - k
  {
    if k < n.commit {
      ActionsAreHistory(n, canon, k + 1);
      assert canon[k..n.commit] == [canon[k]] + canon[k + 1..n.commit];
      assert n.log[k - n.baseIndex] == canon[n.baseIndex + (k - n.baseIndex)];
    }
  }

  /** What a node drains is the history between its applied and its commit index: no two nodes ever
      drain different commands for one index. */
  lemma DrainsHistory(n: Node, store: set<Triple>, canon: Log)
    requires FollowsHistory(n, store, canon)
    ensures DrainApply(n).1 == (if n.pendingReset.None? then [] else [Reset(n.pendingReset.value)])
                               + ApplyAll(canon[n.applied..n.commit])
  {
    hide Fold;
    ActionsAreHistory(n, canon, n.applied);
  }

  /** Replicas that have applied equally much hold equal stores, at any two moments. */
  lemma ReplicasConverge(nets: seq<Net>, steps: seq<Step>, i: nat, j: nat, u: NodeId, v: NodeId)
    requires Run(nets, steps) && i < |nets| && j < |nets| && u in nets[i].nodes && v in nets[j].nodes
    requires nets[i].nodes[u].pendingReset.None? && nets[j].nodes[v].pendingReset.None?
    requires nets[i].nodes[u].applied == nets[j].nodes[v].applied
    ensures u in nets[i].stores && v in nets[j].stores && nets[i].stores[u] == nets[j].stores[v]
  {
    hide Run;
    hide Fold;
    var canon := OneHistory(nets, steps);
    assert FollowsHistory(nets[i].nodes[u], nets[i].stores[u], canon);
    assert FollowsHistory(nets[j].nodes[v], nets[j].stores[v], canon);
  }

  /** Terms, commit indexes and applied indexes never decrease along a run. */
  lemma NeverBackwards(nets: seq<Net>, steps: seq<Step>, i: nat, j: nat, v: NodeId)
    requires Run(nets, steps) && i <= j < |nets| && v in nets[i].nodes
    ensures v in nets[j].nodes
    ensures nets[i].nodes[v].commit <= nets[j].nodes[v].commit
    ensures nets[i].nodes[v].applied <= nets[j].nodes[v].applied
    ensures nets[i].nodes[v].term <= nets[j].nodes[v].term
  {
    hide Run;
    hide Inv;
    hide Grows;
    var ledgers := RunRecorded(nets, steps);
    Between(nets, ledgers, i, j);
    var m := nets[j].nodes[v];
  }

  /** Every AppendEntries ever sent advertises a commit index within the entries it covers, so the
      receiver's bound by its own last index never commits an entry the sender does not have. */
  lemma AdvertisedCommit(nets: seq<Net>, steps: seq<Step>, i: nat, e: Envelope<RaftMsg>)
    requires Run(nets, steps) && i < |nets| && e in nets[i].requests && e.msg.AppendEntries?
    ensures e.msg.leaderCommit <= e.msg.prevLogIndex + |e.msg.entries|
  {
    hide Run;
    hide Sound;
    hide NodesOk;
    hide ReplyOk;
    hide CommittedPrefix;
    var ledgers := RunRecorded(nets, steps);
    assert RequestOk(ledgers[i], e);
  }

  // ------------------------------------------------ what a snapshot install can lose

  /** What is left of the receiver's log is a proper part of it, and all of that part is in the recorded
      log of the sender's term: entries following a shared prefix are dropped. */
  ghost predicate DropsShared(before: Log, recorded: Log, left: nat) {
    left < |before| && Agree(before, recorded, left)
  }

  lemma SnapshotHandled(g: Ledger, e: Envelope<RaftMsg>, n: Node)
    requires e.msg.InstallSnapshot? && NodeLog(g, e.to, n)
    ensures Handle(n, e.msg).0.LastIndex()
            == if e.msg.term >= n.term && e.msg.lastIncludedIndex > n.commit then e.msg.lastIncludedIndex
                else |g.log[e.to]|
  {
    hide PeersOf;
  }

  lemma SharedIsTerm(g: Ledger, e: Envelope<RaftMsg>, n: Node)
    requires Sound(g) && NodeLog(g, e.to, n) && RequestOk(g, e) && e.msg.InstallSnapshot?
    requires n.commit < e.msg.lastIncludedIndex < n.LastIndex()
    ensures Agree(g.log[e.to], g.tlog[e.msg.term], e.msg.lastIncludedIndex)
            <==> n.TermAt(e.msg.lastIncludedIndex) == e.msg.lastIncludedTerm
  {
    hide Sound;
    hide CommittedPrefix;
    hide Fold;
    hide PeersOf;
    var b := e.msg.lastIncludedIndex;
    TermAtMeansLog(g, e.to, n, b);
    if n.TermAt(b) == e.msg.lastIncludedTerm {
      SameTermAgree(g, e.to, e.msg.term, b - 1);
    }
  }

  /** Whatever a snapshot in flight and whatever its receiver: handling it drops entries that follow a
      prefix the receiver shares with the recorded log of the sender's term if and only if the receiver
      has an entry at the snapshot's index, of the snapshot's term, and more entries after it, all beyond
      its commit index. The receiver can check that before it installs. */
  lemma InstallDropsShared(nets: seq<Net>, steps: seq<Step>, i: nat, e: Envelope<RaftMsg>) returns (g: Ledger)
    requires Run(nets, steps) && i < |nets| && e in nets[i].requests && e.msg.InstallSnapshot?
    ensures Inv(nets[i], g) && e.to in nets[i].nodes && e.to in g.log && e.msg.term in g.tlog
    ensures DropsShared(g.log[e.to], g.tlog[e.msg.term], Handle(nets[i].nodes[e.to], e.msg).0.LastIndex())
            <==> DiscardsMatch(nets[i].nodes[e.to], e.msg)
  {
    hide Run;
    hide Sound;
    hide NodeStore;
    hide NodeCommit;
    hide Duty;
    hide Handle;
    hide PeersOf;
    hide CommittedPrefix;
    hide Fold;
    var ledgers := RunRecorded(nets, steps);
    g := ledgers[i];
    var n := nets[i].nodes[e.to];
    assert RequestOk(g, e) && NodeOk(g, e.to, n, nets[i].stores[e.to]);
    SnapshotHandled(g, e, n);
    SoundShape(g);
    if n.commit < e.msg.lastIncludedIndex < n.LastIndex() {
      SharedIsTerm(g, e, n);
    }
  }
}
