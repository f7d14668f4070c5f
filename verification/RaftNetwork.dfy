/** A whole cluster over an unreliable network. Requests and replies stay in flight for ever, so
    a step may deliver any of them at any time, any number of times, in any order, or never. A
    crashed node is one that takes no steps; coming back is `Revive`. Nodes apply what is committed
    and may fold applied entries into a snapshot. */
module RaftNetwork {
  import opened RaftTypes
  import opened RaftNode
  import opened RaftLedger
  import opened RaftActions
  import opened RaftLink
  import opened RaftSteps

  datatype Net = Net(
    nodes: map<NodeId, Node>,
    stores: map<NodeId, set<Triple>>,
    requests: set<Envelope<RaftMsg>>,
    replies: set<Envelope<RaftReply>>)

  datatype Step =
    | TickAt(v: NodeId)
    | Deliver(request: Envelope<RaftMsg>)
    | Answer(reply: Envelope<RaftReply>)
    | Submit(v: NodeId, op: LogOp)
    | Push(v: NodeId)
    | Drain(v: NodeId)
    | Compaction(v: NodeId, triples: seq<Triple>)
    | Revive(v: NodeId)

  function Actor(s: Step): NodeId {
    match s
    case Deliver(e) => e.to
    case Answer(e) => e.to
    case _ => s.v
  }

  /** Compaction follows a drain and uses the node's own store. */
  predicate Possible(n: Net, s: Step) {
    && Actor(s) in n.nodes && Actor(s) in n.stores
    && match s
       case Deliver(e) => e in n.requests
       case Answer(e) => e in n.replies
       case Compaction(v, triples) => n.nodes[v].pendingReset.None? && TripleSet(triples) == n.stores[v]
       case _ => true
  }

  /** The delivery of a snapshot that throws no matching suffix away, or any other step; without
      compaction there are no snapshots and this is no restriction. */
  predicate Enabled(n: Net, s: Step) {
    Possible(n, s) && (s.Deliver? ==> !DiscardsMatch(n.nodes[s.request.to], s.request.msg))
  }

  function SentBy(v: NodeId, outs: seq<Outgoing>): set<Envelope<RaftMsg>> {
    set o | o in outs :: Envelope(v, o.to, o.msg)
  }

  function Emit(n: Net, v: NodeId, r: (Node, seq<Outgoing>)): Net {
    n.(nodes := n.nodes[v := r.0], requests := n.requests + SentBy(v, r.1))
  }

  function Next(n: Net, s: Step): Net
    requires Possible(n, s)
  {
    var v := Actor(s);
    var node := n.nodes[v];
    match s
    case TickAt(_) => Emit(n, v, Tick(node))
    case Deliver(e) =>
      var r := Handle(node, e.msg);
      n.(nodes := n.nodes[v := r.0], replies := n.replies + {Envelope(v, e.from, r.1)})
    case Answer(e) => Emit(n, v, HandleReply(node, e.from, e.msg))
    case Submit(_, op) => n.(nodes := n.nodes[v := Propose(node, op).0])
    case Push(_) => Emit(n, v, ReplicateNow(node))
    case Drain(_) =>
      var r := DrainApply(node);
      n.(nodes := n.nodes[v := r.0], stores := n.stores[v := Perform(n.stores[v], r.1)])
    case Compaction(_, triples) => n.(nodes := n.nodes[v := Compact(node, node.applied, triples)])
    case Revive(_) => n.(nodes := n.nodes[v := NoteRevived(node)])
  }

  /** A cluster of fresh nodes with empty stores and nothing in flight. */
  ghost predicate Initial(n: Net) {
    && n.stores.Keys == n.nodes.Keys && n.requests == {} && n.replies == {}
    && forall v :: v in n.nodes ==>
         && n.stores[v] == {}
         && PeersOf(n.nodes.Keys, v, n.nodes[v].peers)
         && n.nodes[v] == Fresh(v, n.nodes[v].peers, n.nodes[v].timers).(timers := n.nodes[v].timers)
  }

  /** States `nets` reached by taking `steps` one after another, with any snapshot delivered. */
  ghost predicate FreeRun(nets: seq<Net>, steps: seq<Step>) {
    && |nets| == |steps| + 1 && Initial(nets[0])
    && forall i :: 0 <= i < |steps| ==> Possible(nets[i], steps[i]) && nets[i + 1] == Next(nets[i], steps[i])
  }

  /** The same with snapshots delivered only where they throw no matching suffix away. */
  ghost predicate Run(nets: seq<Net>, steps: seq<Step>) {
    && |nets| == |steps| + 1 && Initial(nets[0])
    && forall i :: 0 <= i < |steps| ==> Enabled(nets[i], steps[i]) && nets[i + 1] == Next(nets[i], steps[i])
  }

  // --------------------------------------------------------------------- invariant

  ghost predicate NodesOk(n: Net, g: Ledger) {
    && n.nodes.Keys == g.ids && n.stores.Keys == g.ids
    && forall v {:trigger n.nodes[v]} :: v in g.ids ==> NodeOk(g, v, n.nodes[v], n.stores[v])
  }

  ghost predicate FlightOk(n: Net, g: Ledger) {
    && (forall e :: e in n.requests ==> RequestOk(g, e))
    && (forall e :: e in n.replies ==> ReplyOk(g, e))
  }

  ghost predicate Inv(n: Net, g: Ledger) {
    Sound(g) && NodesOk(n, g) && FlightOk(n, g)
  }

  /** One step of a run loses nothing any node has committed or applied. */
  ghost predicate Onward(n: Net, g: Ledger, m: Net, h: Ledger) {
    && Inv(m, h) && Grows(g, h) && n.nodes.Keys == m.nodes.Keys == g.ids
    && forall v {:trigger m.nodes[v]} :: v in g.ids ==> NodeOnward(n.nodes[v], g.log[v], m.nodes[v], h.log[v])
  }

  ghost predicate NodeOnward(n: Node, l: Log, m: Node, k: Log) {
    n.commit <= m.commit && n.applied <= m.applied && n.term <= m.term && Agree(l, k, n.commit)
  }

  lemma InitialInv(n: Net) returns (g: Ledger)
    requires Initial(n)
    ensures Inv(n, g)
  {
    hide Sound;
    hide NodeOk;
    hide PeersOf;
    hide Fresh;
    g := Empty(n.nodes.Keys);
    EmptySound(n.nodes.Keys);
    forall v | v in g.ids
      ensures NodeOk(g, v, n.nodes[v], n.stores[v])
    {
      FreshOk(g, v, n.nodes[v]);
    }
  }

  ghost function Empty(ids: set<NodeId>): Ledger {
    Ledger(ids, map v | v in ids :: 0, map v | v in ids :: [], map[], map[], map[], map[])
  }

  lemma EmptySound(ids: set<NodeId>)
    ensures Sound(Empty(ids))
  {
    var g := Empty(ids);
    forall v | v in g.ids
      ensures GoodNode(g, v)
    {
    }
  }

  lemma FreshOk(g: Ledger, v: NodeId, n: Node)
    requires Shape(g) && v in g.ids && PeersOf(g.ids, v, n.peers) && g.term[v] == 0 && g.log[v] == []
        && g.votes == map[]
    requires n == Fresh(v, n.peers, n.timers).(timers := n.timers)
    ensures NodeOk(g, v, n, {})
  {
    hide PeersOf;
    assert g.log[v][..0] == [];
  }

  /** A local change at `v` that leaves its node and its messages fitting leaves everything fitting. */
  lemma StepGlue(n: Net, g: Ledger, m: Net, h: Ledger, v: NodeId)
    requires Inv(n, g) && v in g.ids && v in m.nodes && v in m.stores
    requires m.nodes == n.nodes[v := m.nodes[v]] && m.stores == n.stores[v := m.stores[v]]
    requires Took(g, h, v, n.nodes[v], m.nodes[v], m.stores[v])
    requires forall e :: e in m.requests && e !in n.requests ==> RequestOk(h, e)
    requires forall e :: e in m.replies && e !in n.replies ==> ReplyOk(h, e)
    ensures Onward(n, g, m, h)
  {
    hide Sound;
    hide NodeOk;
    hide Local;
    hide RequestOk;
    hide ReplyOk;
    hide Grows;
    hide NodeOnward;
    TookFacts(g, h, v, n.nodes[v], m.nodes[v], m.stores[v]);
    SoundShape(g);
    forall w | w in g.ids
      ensures NodeOk(h, w, m.nodes[w], m.stores[w])
      ensures NodeOnward(n.nodes[w], g.log[w], m.nodes[w], h.log[w])
    {
      assert NodeOk(g, w, n.nodes[w], n.stores[w]);
      if w == v {
        ActorGlue(g, h, v, n.nodes[v], m.nodes[v], n.stores[v], m.stores[v]);
      } else {
        OtherGlue(g, h, v, w, n.nodes[w], n.stores[w]);
      }
    }
    forall e | e in m.requests
      ensures RequestOk(h, e)
    {
      if e in n.requests {
        RequestFrame(g, h, e);
      }
    }
    forall e | e in m.replies
      ensures ReplyOk(h, e)
    {
      if e in n.replies {
        ReplyFrame(g, h, e);
      }
    }
  }

  lemma ActorGlue(g: Ledger, h: Ledger, v: NodeId, n: Node, m: Node, s: set<Triple>, s': set<Triple>)
    requires Took(g, h, v, n, m, s') && NodeOk(g, v, n, s) && v in g.log && v in h.log
    ensures NodeOk(h, v, m, s') && NodeOnward(n, g.log[v], m, h.log[v])
  {
    hide NodeOk;
    hide Local;
    LocalFacts(g, h, v);
    NodeFacts(g, v, n, s);
    NodeFacts(h, v, m, s');
  }

  lemma OtherGlue(g: Ledger, h: Ledger, v: NodeId, w: NodeId, n: Node, s: set<Triple>)
    requires Local(g, h, v) && w != v && w in g.ids && NodeOk(g, w, n, s) && w in g.log && w in h.log
    ensures NodeOk(h, w, n, s) && NodeOnward(n, g.log[w], n, h.log[w])
  {
    hide NodeOk;
    hide Local;
    NodeFacts(g, w, n, s);
    NodeFrame(g, h, v, w, n, s);
    LocalOther(g, h, v, w);
  }

  lemma LocalOther(g: Ledger, h: Ledger, v: NodeId, w: NodeId)
    requires Local(g, h, v) && w in g.ids && w != v
    ensures w in h.log && h.log[w] == g.log[w]
  {
    hide Sound;
  }

  lemma EmittedGlue(n: Net, g: Ledger, h: Ledger, v: NodeId, r: (Node, seq<Outgoing>))
    requires Inv(n, g) && v in g.ids && v in n.nodes && v in n.stores
    requires Took(g, h, v, n.nodes[v], r.0, n.stores[v]) && SentOk(h, v, r.1)
    ensures Onward(n, g, Emit(n, v, r), h)
  {
    hide Inv;
    hide Took;
    hide Onward;
    hide RequestOk;
    StepGlue(n, g, Emit(n, v, r), h, v);
  }

  /** Every step of the cluster extends the ledger and keeps the invariant. */
  lemma StepKeeps(n: Net, g: Ledger, s: Step) returns (h: Ledger)
    requires Inv(n, g) && Enabled(n, s)
    ensures Onward(n, g, Next(n, s), h) && Local(g, h, Actor(s))
  {
    hide Sound;
    hide NodeOk;
    hide Local;
    hide Onward;
    hide SentOk;
    hide RequestOk;
    hide ReplyOk;
    hide Tick;
    hide Handle;
    hide HandleReply;
    hide Propose;
    hide DrainApply;
    hide Compact;
    hide Perform;
    var v := Actor(s);
    var node, store := n.nodes[v], n.stores[v];
    match s
    case TickAt(_) =>
      h := TickSteps(g, v, node, store);
      EmittedGlue(n, g, h, v, Tick(node));
    case Deliver(e) =>
      h := DeliverSteps(g, e, node, store);
      StepGlue(n, g, Next(n, s), h, v);
    case Answer(e) =>
      h := ReplySteps(g, e, node, store);
      EmittedGlue(n, g, h, v, HandleReply(node, e.from, e.msg));
    case Submit(_, op) =>
      h := ProposeSteps(g, v, node, op, store);
      StepGlue(n, g, Next(n, s), h, v);
    case Push(_) =>
      h := PushSteps(g, v, node, store);
      EmittedGlue(n, g, h, v, ReplicateNow(node));
    case Drain(_) =>
      DrainSteps(g, v, node, store);
      h := g;
      StepGlue(n, g, Next(n, s), h, v);
    case Compaction(_, triples) =>
      CompactSteps(g, v, node, triples, store);
      h := g;
      StepGlue(n, g, Next(n, s), h, v);
    case Revive(_) =>
      Relabelled(g, v, node, NoteRevived(node), store);
      h := g;
      StepGlue(n, g, Next(n, s), h, v);
  }

  lemma DeliverSteps(g: Ledger, e: Envelope<RaftMsg>, n: Node, store: set<Triple>) returns (h: Ledger)
    requires Sound(g) && NodeOk(g, e.to, n, store) && RequestOk(g, e) && !DiscardsMatch(n, e.msg)
    ensures Took(g, h, e.to, n, Handle(n, e.msg).0, store)
    ensures ReplyOk(h, Envelope(e.to, e.from, Handle(n, e.msg).1))
  {
    hide Sound;
    hide NodeOk;
    hide RequestOk;
    hide ReplyOk;
    hide Took;
    hide Handle;
    match e.msg
    case RequestVote(_, _, _, _) => h := VoteSteps(g, e, n, store);
    case AppendEntries(_, _, _, _, _, _) => h := AppendSteps(g, e, n, store);
    case InstallSnapshot(_, _, _, _, _) => h := SnapshotSteps(g, e, n, store);
  }

  lemma PushSteps(g: Ledger, v: NodeId, n: Node, store: set<Triple>) returns (h: Ledger)
    requires Sound(g) && NodeOk(g, v, n, store)
    ensures Took(g, h, v, n, ReplicateNow(n).0, store) && SentOk(h, v, ReplicateNow(n).1)
  {
    hide Sound;
    hide NodeOk;
    hide RequestOk;
    hide Local;
    h := g;
    ReplicateSteps(g, v, n, store);
    Relabelled(g, v, n, n, store);
  }

  // ---------------------------------------------------------------------- whole runs

  ghost predicate Recorded(nets: seq<Net>, ledgers: seq<Ledger>) {
    && |ledgers| == |nets|
    && (forall i :: 0 <= i < |nets| ==> Inv(nets[i], ledgers[i]))
    && (forall i {:trigger ledgers[i]} :: 0 <= i < |nets| - 1 ==>
        Onward(nets[i], ledgers[i], nets[i + 1], ledgers[i + 1]))
  }

  /** Every run has a sound ledger behind each of its states. */
  lemma {:induction false} RunRecorded(nets: seq<Net>, steps: seq<Step>) returns (ledgers: seq<Ledger>)
    requires Run(nets, steps)
    ensures Recorded(nets, ledgers) && |nets| > 0
  {
    hide Local;
    hide Inv;
    hide Onward;
    hide Initial;
    hide Enabled;
    hide Next;
    if steps == [] {
      var g := InitialInv(nets[0]);
      ledgers := [g];
    } else {
      var k := |steps| - 1;
      RunPrefix(nets, steps);
      var before := RunRecorded(nets[..|nets| - 1], steps[..k]);
      var h := StepKeeps(nets[k], before[k], steps[k]);
      RecordedLonger(nets, before, h);
      ledgers := before + [h];
    }
  }

  lemma RecordedLonger(nets: seq<Net>, before: seq<Ledger>, h: Ledger)
    requires |nets| >= 2 && Recorded(nets[..|nets| - 1], before)
    requires Onward(nets[|nets| - 2], before[|nets| - 2], nets[|nets| - 1], h)
    ensures Recorded(nets, before + [h])
  {
    hide Inv;
    hide Onward;
    var k, ledgers := |nets| - 2, before + [h];
    OnwardInv(nets[k], before[k], nets[k + 1], h);
    forall i | 0 <= i < |nets| - 1
      ensures Onward(nets[i], ledgers[i], nets[i + 1], ledgers[i + 1])
    {
      if i < k {
        assert before[i] == ledgers[i] && before[i + 1] == ledgers[i + 1];
      }
    }
  }

  lemma RunPrefix(nets: seq<Net>, steps: seq<Step>)
    requires Run(nets, steps) && steps != []
    ensures Run(nets[..|nets| - 1], steps[..|steps| - 1])
    ensures Enabled(nets[|steps| - 1], steps[|steps| - 1])
        && nets[|steps|] == Next(nets[|steps| - 1], steps[|steps| - 1])
  {
    hide Initial;
    hide Enabled;
    hide Next;
  }

  lemma OnwardInv(n: Net, g: Ledger, m: Net, h: Ledger)
    requires Onward(n, g, m, h)
    ensures Inv(m, h)
  {
    hide Inv;
  }

  lemma OnwardRefl(n: Net, g: Ledger)
    requires Inv(n, g)
    ensures Onward(n, g, n, g)
  {
    hide NodeOk;
    hide FlightOk;
    hide Sound;
    SoundShape(g);
    forall v | v in g.ids
      ensures NodeOnward(n.nodes[v], g.log[v], n.nodes[v], g.log[v])
    {
      NodeFacts(g, v, n.nodes[v], n.stores[v]);
    }
  }

  lemma GrowsShape(g: Ledger, h: Ledger)
    requires Grows(g, h)
    ensures Shape(g) && Shape(h) && g.ids == h.ids
  {
  }

  lemma SoundShape(g: Ledger)
    requires Sound(g)
    ensures Shape(g)
  {
  }

  lemma OnwardTrans(n: Net, g: Ledger, m: Net, h: Ledger, r: Net, k: Ledger)
    requires Onward(n, g, m, h) && Onward(m, h, r, k)
    ensures Onward(n, g, r, k)
  {
    hide Inv;
    hide Grows;
    hide NodeOnward;
    GrowsTransitive(g, h, k);
    GrowsShape(g, h);
    GrowsShape(h, k);
    forall v | v in g.ids
      ensures NodeOnward(n.nodes[v], g.log[v], r.nodes[v], k.log[v])
    {
      var m' := m.nodes[v];
      NodeOnwardTrans(n.nodes[v], g.log[v], m', h.log[v], r.nodes[v], k.log[v]);
    }
  }

  lemma NodeOnwardTrans(n: Node, l: Log, m: Node, k: Log, r: Node, j: Log)
    requires NodeOnward(n, l, m, k) && NodeOnward(m, k, r, j)
    ensures NodeOnward(n, l, r, j)
  {
  }

  lemma {:induction false} Between(nets: seq<Net>, ledgers: seq<Ledger>, i: nat, j: nat)
    requires Recorded(nets, ledgers) && i <= j < |nets|
    ensures Onward(nets[i], ledgers[i], nets[j], ledgers[j])
    decreases j - i
  {
    hide Inv;
    hide Onward;
    if i == j {
      OnwardRefl(nets[i], ledgers[i]);
    } else {
      Between(nets, ledgers, i, j - 1);
      assert Onward(nets[j - 1], ledgers[j - 1], nets[j], ledgers[j]);
      OnwardTrans(nets[i], ledgers[i], nets[j - 1], ledgers[j - 1], nets[j], ledgers[j]);
    }
  }
}
