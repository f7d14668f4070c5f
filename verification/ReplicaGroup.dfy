/** The replica group as the object it is: parallel lists of replica ids, state machines, stores and
    failure flags, updated in place. Each method does to the fields what the function of the same name
    in `GroupSpec` does to the group. */
module ReplicaGroup {
  import opened Wrappers
  import opened RaftTypes
  import opened RaftNode
  import opened RaftSteps
  import opened RaftState
  import opened TripleStore
  import opened GroupSpec

  function IndexOf(s: seq<NodeId>, v: NodeId): (i: nat)
    requires v in s
    ensures i < |s| && s[i] == v
  {
    if s[0] == v then 0 else 1 + IndexOf(s[1..], v)
  }

  /** The group whose parallel lists these are. */
  function Assemble(replicas: seq<NodeId>, nodes: seq<Node>, stores: seq<set<Triple>>, down: seq<bool>,
                    threshold: nat): Group
    requires |nodes| == |stores| == |down| == |replicas|
  {
    Group(replicas,
          map v | v in replicas :: nodes[IndexOf(replicas, v)],
          map v | v in replicas :: stores[IndexOf(replicas, v)],
          (set v | v in replicas && down[IndexOf(replicas, v)]),
          threshold)
  }

  lemma AssembledAt(replicas: seq<NodeId>, nodes: seq<Node>, stores: seq<set<Triple>>, down: seq<bool>,
                    threshold: nat, i: nat)
    requires |nodes| == |stores| == |down| == |replicas| && i < |replicas| && Distinct(replicas)
    ensures var g := Assemble(replicas, nodes, stores, down, threshold);
            && replicas[i] in g.nodes && g.nodes[replicas[i]] == nodes[i]
            && replicas[i] in g.stores && g.stores[replicas[i]] == stores[i]
            && (replicas[i] in g.down <==> down[i])
            && IndexOf(replicas, replicas[i]) == i
  {
    hide IndexOf;
    IndexUnique(replicas, i);
  }

  lemma IndexUnique(replicas: seq<NodeId>, i: nat)
    requires i < |replicas| && Distinct(replicas)
    ensures IndexOf(replicas, replicas[i]) == i
  {
    hide IndexOf;
    var k := IndexOf(replicas, replicas[i]);
    assert replicas[k] == replicas[i];
  }

  lemma AssembledNode(replicas: seq<NodeId>, nodes: seq<Node>, stores: seq<set<Triple>>, down: seq<bool>,
                      threshold: nat, i: nat, n: Node)
    requires |nodes| == |stores| == |down| == |replicas| && i < |replicas| && Distinct(replicas)
    ensures var g := Assemble(replicas, nodes, stores, down, threshold);
            Assemble(replicas, nodes[i := n], stores, down, threshold)
            == g.(nodes := g.nodes[replicas[i] := n])
  {
    AssembledAt(replicas, nodes, stores, down, threshold, i);
    var g := Assemble(replicas, nodes, stores, down, threshold);
    var h := Assemble(replicas, nodes[i := n], stores, down, threshold);
    assert h.nodes == g.nodes[replicas[i] := n];
  }

  class ReplicaGroup {
    const replicas: seq<NodeId>
    const states: seq<RaftState>
    const threshold: nat
    var stores: seq<set<Triple>>
    var down: seq<bool>

    ghost predicate Aligned()
      reads this
    {
      && Distinct(replicas) && |states| == |stores| == |down| == |replicas|
      && forall i, j :: 0 <= i < j < |states| ==> states[i] != states[j]
    }

    ghost function Nodes(): (r: seq<Node>)
      reads states
      ensures |r| == |states|
    {
      seq(|states|, i requires 0 <= i < |states| reads states => states[i].View())
    }

    ghost function View(): Group
      requires Aligned()
      reads this, states
    {
      Assemble(replicas, Nodes(), stores, down, threshold)
    }

    ghost predicate Valid()
      reads this, states
    {
      Aligned() && WellFormed(View())
    }

    /** Only the state machine at position `i` moved. */
    twostate lemma Moved(i: nat)
      requires old(Aligned()) && Aligned() && i < |states|
      requires stores == old(stores) && down == old(down)
      requires forall j :: 0 <= j < |states| && j != i ==> states[j].View() == old(states[j].View())
      ensures View() == old(View()).(nodes := old(View()).nodes[replicas[i] := states[i].View()])
    {
      hide Assemble;
      assert Nodes() == old(Nodes())[i := states[i].View()];
      AssembledNode(replicas, old(Nodes()), stores, down, threshold, i, states[i].View());
    }

    lemma At(i: nat)
      requires Aligned() && i < |replicas|
      ensures var g := View();
              && replicas[i] in g.nodes && g.nodes[replicas[i]] == states[i].View()
              && replicas[i] in g.stores && g.stores[replicas[i]] == stores[i]
              && (replicas[i] in g.down <==> down[i])
              && IndexOf(replicas, replicas[i]) == i && g.replicas == replicas && g.threshold == threshold
    {
      AssembledAt(replicas, Nodes(), stores, down, threshold, i);
    }

    lemma Listed()
      requires Aligned()
      ensures View().replicas == replicas
    {
    }

    lemma AllListed()
      requires Aligned()
      ensures forall v :: v in View().nodes ==> v in replicas
    {
    }

    method Pos(v: NodeId) returns (i: nat)
      requires Valid() && v in View().nodes
      ensures i < |replicas| && replicas[i] == v
    {
      i := 0;
      while replicas[i] != v
        invariant i < |replicas| && v !in replicas[..i]
        decreases |replicas| - i
      {
        i := i + 1;
        assert v in replicas;
      }
    }

    // -------------------------------------------------------------------- delivery

    method HandleAt(i: nat, msg: RaftMsg) returns (reply: RaftReply)
      requires Aligned() && i < |states|
      modifies states
      ensures Aligned()
      ensures var r := Handle(old(states[i].View()), msg);
              reply == r.1 && View() == old(View()).(nodes := old(View()).nodes[replicas[i] := r.0])
    {
      hide Assemble;
      hide Handle;
      At(i);
      reply := states[i].Handle(msg);
      Moved(i);
    }

    method HandleReplyAt(i: nat, from: NodeId, reply: RaftReply) returns (outs: seq<Outgoing>)
      requires Aligned() && i < |states|
      modifies states
      ensures Aligned()
      ensures var r := HandleReply(old(states[i].View()), from, reply);
              outs == r.1 && View() == old(View()).(nodes := old(View()).nodes[replicas[i] := r.0])
    {
      hide Assemble;
      hide HandleReply;
      At(i);
      outs := states[i].HandleReply(from, reply);
      Moved(i);
    }

    /** Hand one queued message to its receiver and the reply back to its sender. */
    method Exchange(m: Mail) returns (more: seq<Mail>)
      requires Valid() && m.from in View().nodes && m.out.to in View().nodes
      modifies states
      ensures Valid() && (View(), more) == GroupSpec.Exchange(old(View()), m)
    {
      hide WellFormed;
      hide Assemble;
      hide Handle;
      hide HandleReply;
      var fi := Pos(m.from);
      var ti := Pos(m.out.to);
      At(fi);
      At(ti);
      if down[ti] || down[fi] {
        more := [];
      } else {
        var reply := HandleAt(ti, m.out.msg);
        At(fi);
        var outs := HandleReplyAt(fi, m.out.to, reply);
        more := Addressed(m.from, outs);
      }
      assert (View(), more) == GroupSpec.Exchange(old(View()), m);
    }

    /** Deliver the messages `src` emitted and everything that follows from them. */
    method Deliver(src: NodeId, outs: seq<Outgoing>)
      requires Valid() && src in View().nodes && SentTo(outs, View().nodes.Keys)
      modifies this`stores, states
      ensures Valid() && View() == DeliverAll(old(View()), src, outs)
    {
      hide WellFormed;
      hide Assemble;
      hide GroupSpec.Exchange;
      var q := Addressed(src, outs);
      var guard := 0;
      while q != []
        invariant Valid() && guard <= MAX_DELIVERIES && MailOk(View(), q)
        invariant stores == old(stores) && down == old(down)
        invariant Flush(View(), q, MAX_DELIVERIES - guard) == Flush(old(View()), Addressed(src, outs), MAX_DELIVERIES)
        decreases MAX_DELIVERIES - guard
      {
        var m := q[0];
        if guard + 1 > MAX_DELIVERIES {
          break;
        }
        guard := guard + 1;
        var more := Exchange(m);
        q := q[1..] + more;
      }
      SyncApply();
    }

    // ---------------------------------------------------------- applying and folding

    /** Carry out drained actions in order. */
    static method Carry(store: set<Triple>, actions: seq<StoreAction>) returns (r: set<Triple>)
      ensures r == Perform(store, actions)
    {
      r := store;
      for i := 0 to |actions|
        invariant Perform(r, actions[i..]) == Perform(store, actions)
      {
        var rest := actions[i..];
        assert rest[0] == actions[i] && rest[1..] == actions[i + 1..];
        match actions[i]
        case Apply(Insert(t)) => r := r + {t};
        case Apply(Delete(t)) => r := r - {t};
        case Apply(_) =>
        case Reset(ts) => r := TripleSet(ts);
      }
    }

    method SyncApply()
      requires Valid()
      modifies this`stores, states
      ensures Valid() && View() == GroupSpec.SyncApply(old(View()))
    {
      hide WellFormed;
      hide Assemble;
      hide Perform;
      hide DrainApply;
      hide Compact;
      hide IterAll;
      for i := 0 to |states|
        invariant Aligned() && |stores| == |states|
        invariant forall j {:trigger states[j]} :: 0 <= j < i ==>
          states[j].View() == DrainApply(old(states[j].View())).0
          && stores[j] == Perform(old(stores[j]), DrainApply(old(states[j].View())).1)
        invariant forall j {:trigger states[j]} :: i <= j < |states| ==>
          states[j].View() == old(states[j].View()) && stores[j] == old(stores[j])
      {
        var actions := states[i].DrainApply();
        var store := Carry(stores[i], actions);
        stores := stores[i := store];
      }
      MaybeCompact();
      AssembledSync(replicas, old(Nodes()), old(stores), Nodes(), stores, down, threshold);
    }

    method MaybeCompact()
      requires Aligned()
      modifies states
      ensures Aligned()
      ensures forall i :: 0 <= i < |states| ==>
                states[i].View() == Folded(threshold, down[i], old(states[i].View()), stores[i])
    {
      hide Compact;
      hide IterAll;
      if threshold == 0 {
        return;
      }
      for i := 0 to |states|
        invariant Aligned()
        invariant forall j {:trigger states[j]} :: 0 <= j < i ==>
          states[j].View() == Folded(threshold, down[j], old(states[j].View()), stores[j])
        invariant forall j {:trigger states[j]} :: i <= j < |states| ==> states[j].View() == old(states[j].View())
      {
        if !down[i] {
          var applied := states[i].lastApplied;
          var base := states[i].baseIndex;
          var logged := if applied >= base then applied - base else 0;
          if logged > threshold {
            states[i].Compact(applied, IterAll(stores[i]));
          }
        }
      }
    }

    // ----------------------------------------------------------------- driver calls

    method TickAt(i: nat) returns (outs: seq<Outgoing>)
      requires Aligned() && i < |states|
      modifies states
      ensures Aligned()
      ensures var r := RaftNode.Tick(old(states[i].View()));
              outs == r.1 && View() == old(View()).(nodes := old(View()).nodes[replicas[i] := r.0])
    {
      hide Assemble;
      hide RaftNode.Tick;
      At(i);
      outs := states[i].Tick();
      Moved(i);
    }

    /** Advance one replica's clock and deliver what it emits. */
    method Tick(v: NodeId)
      requires Valid() && v in View().nodes
      modifies this`stores, states
      ensures Valid() && View() == TickOne(old(View()), v)
    {
      hide WellFormed;
      hide Assemble;
      hide RaftNode.Tick;
      hide DeliverAll;
      var i := Pos(v);
      At(i);
      if !down[i] {
        ghost var g := View();
        ghost var r := RaftNode.Tick(g.nodes[v]);
        var outs := TickAt(i);
        TickFormed(g, v);
        Deliver(v, outs);
      }
      assert View() == TickOne(old(View()), v);
    }

    /** Tick only `v` until it leads; `false` where the code panics. */
    method Elect(v: NodeId) returns (won: bool)
      requires Valid() && v in View().nodes
      modifies this`stores, states
      ensures Valid() && (View(), won) == GroupSpec.Elect(old(View()), v, MAX_ELECTION_TICKS)
    {
      hide WellFormed;
      hide Assemble;
      hide TickOne;
      for k := 0 to MAX_ELECTION_TICKS
        invariant Valid() && v in View().nodes && down == old(down)
        invariant GroupSpec.Elect(View(), v, MAX_ELECTION_TICKS - k)
            == GroupSpec.Elect(old(View()), v, MAX_ELECTION_TICKS)
      {
        var i := Pos(v);
        At(i);
        if !down[i] && states[i].role == Role.Leader {
          return true;
        }
        Tick(v);
      }
      return false;
    }

    /** The running leader with the highest term, the last such in case of a tie. */
    method Leader() returns (best: Option<NodeId>)
      requires Valid()
      ensures best == LeaderOf(View())
    {
      hide WellFormed;
      hide Assemble;
      best := None;
      ghost var g := View();
      Listed();
      for i := 0 to |replicas|
        invariant |g.replicas| == |replicas| && best == LeaderAmong(g, i)
        invariant best.Some? ==> best.value in g.nodes
      {
        At(i);
        if !down[i] && states[i].role == Role.Leader {
          if best.None? {
            best := Some(replicas[i]);
          } else {
            var j := Pos(best.value);
            At(j);
            if states[j].currentTerm <= states[i].currentTerm {
              best := Some(replicas[i]);
            }
          }
        }
      }
    }

    /** The running replica with the most up-to-date log, ties going to the lowest id. */
    method MostUpToDate() returns (best: Option<NodeId>)
      requires Valid()
      ensures best == Freshest(View())
    {
      hide WellFormed;
      hide Assemble;
      best := None;
      ghost var g := View();
      Listed();
      for i := 0 to |replicas|
        invariant |g.replicas| == |replicas| && best == FreshestAmong(g, i)
        invariant best.Some? ==> best.value in g.nodes
      {
        At(i);
        if !down[i] {
          if best.None? {
            best := Some(replicas[i]);
          } else {
            var j := Pos(best.value);
            At(j);
            if Fresher(states[i].View(), states[j].View()) {
              best := Some(replicas[i]);
            }
          }
        }
      }
    }

    /** Make sure a running replica leads; `None` where the code panics. */
    method EnsureLeader() returns (leader: Option<NodeId>)
      requires Valid()
      modifies this`stores, states
      ensures Valid() && (View(), leader) == GroupSpec.EnsureLeader(old(View()))
    {
      hide WellFormed;
      hide Assemble;
      hide GroupSpec.Elect;
      hide LeaderOf;
      hide Freshest;
      leader := Leader();
      if leader.None? {
        leader := MostUpToDate();
        if leader.Some? {
          var won := Elect(leader.value);
          if !won {
            leader := None;
          }
        }
      }
      assert (View(), leader) == GroupSpec.EnsureLeader(old(View()));
    }

    method ProposeAt(i: nat, op: LogOp) returns (index: Option<nat>, outs: seq<Outgoing>)
      requires Aligned() && i < |states|
      modifies states
      ensures Aligned()
      ensures var r := RaftNode.Propose(old(states[i].View()), op); var s := ReplicateNow(r.0);
              && index == r.1
              && View() == old(View()).(nodes := old(View()).nodes[replicas[i] := if index.Some? then s.0 else r.0])
              && (index.Some? ==> outs == s.1)
    {
      hide Assemble;
      hide RaftNode.Propose;
      hide RaftNode.ReplicateNow;
      At(i);
      index := states[i].Propose(op);
      outs := [];
      if index.Some? {
        outs := states[i].ReplicateNow();
      }
      Moved(i);
    }

    /** Propose a command to the current leader and replicate it. */
    method Propose(op: LogOp) returns (r: Option<(NodeId, nat)>)
      requires Valid()
      modifies this`stores, states
      ensures Valid() && (View(), r) == ProposeOne(old(View()), op)
    {
      hide WellFormed;
      hide Assemble;
      hide DeliverAll;
      hide LeaderOf;
      hide RaftNode.Propose;
      hide RaftNode.ReplicateNow;
      r := None;
      var leader := Leader();
      if leader.Some? {
        var i := Pos(leader.value);
        At(i);
        ghost var g := View();
        var index, outs := ProposeAt(i, op);
        if index.Some? {
          ProposeFormed(g, leader.value, op);
          Deliver(leader.value, outs);
          r := Some((leader.value, index.value));
        }
      }
      assert (View(), r) == ProposeOne(old(View()), op);
    }

    method SetDown(v: NodeId, failed: bool)
      requires Valid() && v in View().nodes
      modifies this`down, states
      ensures Valid() && View() == GroupSpec.SetDown(old(View()), v, failed)
    {
      hide WellFormed;
      hide Assemble;
      hide RaftNode.NoteRevived;
      var i := Pos(v);
      At(i);
      if down[i] && !failed {
        states[i].NoteRevived();
      }
      Moved(i);
      label revived:
      AssembledDown(replicas, Nodes(), stores, down, threshold, i, failed);
      down := down[i := failed];
      assert Nodes() == old@revived(Nodes());
      SameNode(old(View()), v);
      assert View() == GroupSpec.SetDown(old(View()), v, failed);
    }

    method Settle(rounds: nat)
      requires Valid()
      modifies this`stores, states
      ensures Valid() && View() == GroupSpec.Settle(old(View()), rounds)
    {
      hide WellFormed;
      hide Assemble;
      hide TickOne;
      hide LeaderOf;
      var k := 0;
      while k < rounds
        invariant Valid() && k <= rounds
        invariant GroupSpec.Settle(View(), rounds - k) == GroupSpec.Settle(old(View()), rounds)
      {
        var l := Leader();
        if l.None? {
          return;
        }
        Tick(l.value);
        k := k + 1;
      }
    }

    /** The store that may serve reads: the leader's, else any running replica's. */
    method ReadableStore() returns (r: Option<set<Triple>>)
      requires Valid()
      ensures r.None? <==> forall v :: v in View().nodes ==> v in View().down
      ensures r.Some? ==> exists v :: v in View().stores && v !in View().down && View().stores[v] == r.value
                                      && (LeaderOf(View()).Some? ==> LeaderOf(View()) == Some(v))
    {
      hide WellFormed;
      hide Assemble;
      hide LeaderAmong;
      r := None;
      var l := Leader();
      AllListed();
      if l.Some? {
        var i := Pos(l.value);
        At(i);
        assert l.value in View().stores && l.value !in View().down;
        return Some(stores[i]);
      }
      for i := 0 to |replicas|
        invariant forall j :: 0 <= j < i ==> replicas[j] in View().down
      {
        At(i);
        if !down[i] {
          assert replicas[i] in View().stores && replicas[i] !in View().down;
          return Some(stores[i]);
        }
      }
    }

    constructor (replicas: seq<NodeId>, timers: NodeId -> Timers, threshold: nat)
      requires replicas != [] && Distinct(replicas)
      ensures Valid() && View() == NewGroup(replicas, timers, threshold) && fresh(states)
    {
      hide WellFormed;
      hide Assemble;
      hide Others;
      hide Fresh;
      var made: seq<RaftState> := [];
      for i := 0 to |replicas|
        invariant |made| == i && fresh(made)
        invariant forall j, k :: 0 <= j < k < i ==> made[j] != made[k]
        invariant forall j :: 0 <= j < i ==>
            made[j].View() == Fresh(replicas[j], Others(replicas, replicas[j]), timers(replicas[j]))
      {
        var s := new RaftState(replicas[i], Others(replicas, replicas[i]), timers(replicas[i]));
        made := made + [s];
      }
      this.replicas, this.threshold, this.states := replicas, threshold, made;
      stores := seq(|replicas|, i => {});
      down := seq(|replicas|, i => false);
      new;
      AssembledFrom(replicas, Nodes(), stores, down, threshold, NewGroup(replicas, timers, threshold));
    }
  }

  /** A replica after the compaction pass. */
  function Folded(threshold: nat, down: bool, n: Node, store: set<Triple>): Node {
    if threshold > 0 && !down && n.applied > n.baseIndex + threshold then Compact(n, n.applied, IterAll(store)) else n
  }

  lemma AssembledSync(replicas: seq<NodeId>, nodes: seq<Node>, stores: seq<set<Triple>>,
                      synced: seq<Node>, applied: seq<set<Triple>>, down: seq<bool>, threshold: nat)
    requires |nodes| == |stores| == |down| == |replicas| == |synced| == |applied| && Distinct(replicas)
    requires WellFormed(Assemble(replicas, nodes, stores, down, threshold))
    requires forall i :: 0 <= i < |replicas| ==>
               applied[i] == Perform(stores[i], DrainApply(nodes[i]).1)
               && synced[i] == Folded(threshold, down[i], DrainApply(nodes[i]).0, applied[i])
    ensures Assemble(replicas, synced, applied, down, threshold)
            == GroupSpec.SyncApply(Assemble(replicas, nodes, stores, down, threshold))
  {
    hide WellFormed;
    hide Synced;
    hide Assemble;
    hide Folded;
    hide Perform;
    hide DrainApply;
    var g := Assemble(replicas, nodes, stores, down, threshold);
    AssembledKeys(replicas, nodes, stores, down, threshold);
    var k := GroupSpec.SyncApply(g);
    forall i | 0 <= i < |replicas|
      ensures replicas[i] in k.nodes && k.nodes[replicas[i]] == synced[i] && k.stores[replicas[i]] == applied[i]
    {
      AssembledAt(replicas, nodes, stores, down, threshold, i);
      SyncedIs(g, replicas[i]);
    }
    AssembledFrom(replicas, synced, applied, down, threshold, k);
  }

  lemma SyncedIs(g: Group, v: NodeId)
    requires v in g.nodes && v in g.stores
    ensures var d := DrainApply(g.nodes[v]); var s := Perform(g.stores[v], d.1);
            Synced(g, v) == (Folded(g.threshold, v in g.down, d.0, s), s)
  {
    hide Perform;
    hide DrainApply;
    hide Compact;
    hide IterAll;
  }

  lemma AssembledKeys(replicas: seq<NodeId>, nodes: seq<Node>, stores: seq<set<Triple>>, down: seq<bool>,
                      threshold: nat)
    requires |nodes| == |stores| == |down| == |replicas|
    ensures var g := Assemble(replicas, nodes, stores, down, threshold);
            && g.replicas == replicas && g.threshold == threshold
            && (forall v :: v in replicas <==> v in g.nodes) && g.nodes.Keys == g.stores.Keys
            && g.down == (set v | v in replicas && down[IndexOf(replicas, v)])
  {
  }

  lemma AssembledFrom(replicas: seq<NodeId>, nodes: seq<Node>, stores: seq<set<Triple>>, down: seq<bool>,
                      threshold: nat, k: Group)
    requires |nodes| == |stores| == |down| == |replicas|
    requires k.replicas == replicas && k.threshold == threshold
    requires (forall v :: v in replicas <==> v in k.nodes) && k.nodes.Keys == k.stores.Keys
    requires k.down == (set v | v in replicas && down[IndexOf(replicas, v)])
    requires forall i :: 0 <= i < |replicas| ==> k.nodes[replicas[i]] == nodes[i] && k.stores[replicas[i]] == stores[i]
    ensures Assemble(replicas, nodes, stores, down, threshold) == k
  {
    hide IndexOf;
    var g := Assemble(replicas, nodes, stores, down, threshold);
    assert g.nodes == k.nodes by {
      ListedMap(replicas, nodes, k.nodes);
    }
    assert g.stores == k.stores by {
      ListedMap(replicas, stores, k.stores);
    }
    assert g.down == k.down;
  }

  lemma ListedMap<T>(replicas: seq<NodeId>, xs: seq<T>, m: map<NodeId, T>)
    requires |xs| == |replicas| && (forall v :: v in replicas <==> v in m)
    requires forall i :: 0 <= i < |replicas| ==> m[replicas[i]] == xs[i]
    ensures (map v | v in replicas :: xs[IndexOf(replicas, v)]) == m
  {
    hide IndexOf;
    var l := map v | v in replicas :: xs[IndexOf(replicas, v)];
    forall v | v in replicas
      ensures l[v] == m[v]
    {
      assert replicas[IndexOf(replicas, v)] == v;
    }
  }

  lemma ProposeFormed(g: Group, v: NodeId, op: LogOp)
    requires WellFormed(g) && v in g.nodes
    ensures var n := RaftNode.Propose(g.nodes[v], op).0; var r := ReplicateNow(n);
            WellFormed(g.(nodes := g.nodes[v := r.0])) && SentTo(r.1, g.nodes[v := r.0].Keys)
  {
    hide ReplicateToAll;
    hide HighestCommittable;
    hide Others;
    var n := RaftNode.Propose(g.nodes[v], op).0;
    var r := ReplicateNow(n);
    Replaced(g, v, r.0);
    OthersMembers(g.replicas, v);
    ReplicateToPeers(n, n.peers, g.nodes.Keys);
    assert g.nodes[v := r.0].Keys == g.nodes.Keys;
  }

  lemma AssembledDown(replicas: seq<NodeId>, nodes: seq<Node>, stores: seq<set<Triple>>, down: seq<bool>,
                      threshold: nat, i: nat, failed: bool)
    requires |nodes| == |stores| == |down| == |replicas| && i < |replicas| && Distinct(replicas)
    ensures var g := Assemble(replicas, nodes, stores, down, threshold);
            Assemble(replicas, nodes, stores, down[i := failed], threshold)
            == g.(down := if failed then g.down + {replicas[i]} else g.down - {replicas[i]})
  {
    AssembledAt(replicas, nodes, stores, down, threshold, i);
    var g := Assemble(replicas, nodes, stores, down, threshold);
    var h := Assemble(replicas, nodes, stores, down[i := failed], threshold);
    forall v | v in replicas
      ensures v in h.down <==> if v == replicas[i] then failed else v in g.down
    {
      assert replicas[IndexOf(replicas, v)] == v;
    }
    assert h.down == if failed then g.down + {replicas[i]} else g.down - {replicas[i]};
  }

  lemma SameNode(g: Group, v: NodeId)
    requires v in g.nodes
    ensures g.nodes[v := g.nodes[v]] == g.nodes
  {
  }
}
