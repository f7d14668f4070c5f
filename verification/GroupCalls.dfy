/** From call to call: every driver call starts and ends with every leader knowing enough of its followers,
    so no delivery throws a matching suffix away as long as the loops stay within their bound. */
module GroupCalls {
  import opened RaftTypes
  import opened RaftNode
  import opened RaftLedger
  import opened RaftLink
  import opened RaftSteps
  import opened RaftNetwork
  import opened Traces
  import opened TripleStore
  import opened GroupSpec
  import opened GroupRuns
  import opened GroupQueue
  import opened GroupTracking
  import opened GroupHarmless
  import opened GroupBound

  /** A group between two calls. */
  ghost predicate Tracking(g: Group, l: Ledger) {
    WellFormed(g) && Inv(Flight(g, []), l) && AllTrack(g, l)
  }

  // ------------------------------------------------------------------ the delivery loop

  lemma {:induction false} FlushKeeps(g: Group, l: Ledger, v: NodeId, t: nat, q: seq<Mail>, left: nat)
      returns (k: Ledger)
    requires WellFormed(g) && MailOk(g, q) && Ends(g, q, left)
    requires Mid(g, l, v, t, q)
    ensures Safe(g, q, left) && Mid(Flush(g, q, left), k, v, t, [])
    decreases left
  {
    hide Mid;
    hide Onward;
    hide Exchange;
    hide WellFormed;
    hide SafeToHand;
    if q == [] {
      k := l;
    } else {
      var a := ExchangeKeeps(g, l, v, t, q);
      var (h, more) := Exchange(g, q[0]);
      k := FlushKeeps(h, a, v, t, q[1..] + more, left - 1);
    }
  }

  lemma EmptyPending(f: NodeId, d: nat, c: nat, next: nat)
    requires Pending([], f, d, c, next)
    ensures d <= c || d < next
  {
  }

  /** When the queue is empty the sender, if it still leads, knows enough too. */
  lemma MidEnds(g: Group, l: Ledger, v: NodeId, t: nat)
    requires Mid(g, l, v, t, [])
    ensures Tracking(g, l)
  {
    hide WellFormed;
    hide Inv;
    hide Letters;
    hide Near;
    hide Pending;
    hide SnapsSafe;
    if LeadsUp(g, v) {
      forall f | f in g.nodes && f != v
        ensures Tracked(l, g.nodes[v], f, g.nodes[f])
      {
        assert PeerOk(g.nodes[v], l, t, [], f, g.nodes[f], f in g.down);
        if f !in g.down && g.nodes[f].term <= t {
          NearIndex(l, g.nodes[v], f, g.nodes[f]);
          EmptyPending(f, Depth(l, f, t), g.nodes[f].commit, g.nodes[v].nextIndex[f]);
        }
      }
      assert LeaderTracks(g, l, v);
    }
  }

  // --------------------------------------------------------------- applying and folding

  /** Only what a node keeps and has applied may differ. */
  ghost predicate SameKnowledge(n: Node, m: Node) {
    m.role == n.role && m.term == n.term && m.nextIndex == n.nextIndex && m.commit == n.commit
  }

  lemma SyncedOk(g: Group, l: Ledger, v: NodeId)
    requires v in g.nodes && v in g.stores && Sound(l) && NodeOk(l, v, g.nodes[v], g.stores[v])
    ensures NodeOk(l, v, Synced(g, v).0, Synced(g, v).1) && SameKnowledge(g.nodes[v], Synced(g, v).0)
  {
    hide Sound;
    hide NodeOk;
    hide Local;
    hide Perform;
    hide ActionsAfter;
    hide IterAll;
    DrainSteps(l, v, g.nodes[v], g.stores[v]);
    var (n, actions) := DrainApply(g.nodes[v]);
    var store := Perform(g.stores[v], actions);
    CompactSteps(l, v, n, IterAll(store), store);
  }

  lemma KnowledgeKept(g: Group, h: Group, l: Ledger)
    requires AllTrack(g, l) && h.nodes.Keys == g.nodes.Keys
    requires forall v :: LeadsUp(h, v) ==> LeadsUp(g, v) && h.nodes[v].nextIndex == g.nodes[v].nextIndex
    requires forall v :: v in h.nodes ==> h.nodes[v].term == g.nodes[v].term && h.nodes[v].commit == g.nodes[v].commit
    ensures AllTrack(h, l)
  {
    hide Depth;
    forall u | LeadsUp(h, u)
      ensures LeaderTracks(h, l, u)
    {
      assert LeaderTracks(g, l, u);
      forall f | f in h.nodes && f != u
        ensures Tracked(l, h.nodes[u], f, h.nodes[f])
      {
        assert Tracked(l, g.nodes[u], f, g.nodes[f]);
      }
    }
  }

  lemma SyncKeeps(g: Group, l: Ledger)
    requires Tracking(g, l)
    ensures Tracking(SyncApply(g), l)
  {
    hide WellFormed;
    hide AllTrack;
    hide Sound;
    hide NodeOk;
    hide Synced;
    hide FlightOk;
    var h := SyncApply(g);
    forall v | v in g.nodes
      ensures NodeOk(l, v, h.nodes[v], h.stores[v]) && SameKnowledge(g.nodes[v], h.nodes[v])
    {
      assert NodeOk(l, v, Flight(g, []).nodes[v], g.stores[v]);
      SyncedOk(g, l, v);
    }
    KnowledgeKept(g, h, l);
    EmptyFlight(h, l);
  }

  lemma EmptyFlight(g: Group, l: Ledger)
    ensures FlightOk(Flight(g, []), l)
  {
  }

  lemma DeliverKeeps(g: Group, l: Ledger, v: NodeId, t: nat, outs: seq<Outgoing>) returns (k: Ledger)
    requires WellFormed(g) && v in g.nodes && SentTo(outs, g.nodes.Keys)
    requires Complete(Delivery(g, Addressed(v, outs))) || Light(Delivery(g, Addressed(v, outs)))
    requires Starts(g.nodes[v], l, v, t, outs) && Mid(g, l, v, t, Addressed(v, outs))
    ensures Complete(Delivery(g, Addressed(v, outs))) && Harmless(Delivery(g, Addressed(v, outs)))
    ensures Tracking(DeliverAll(g, v, outs), k)
  {
    hide WellFormed;
    hide Mid;
    hide Flush;
    hide Ends;
    hide SyncApply;
    hide Tracking;
    hide Starts;
    hide Light;
    AddressedMail(g, v, outs);
    if Light(Delivery(g, Addressed(v, outs))) {
      LightEnds(g, l, v, t, outs);
    }
    k := FlushKeeps(g, l, v, t, Addressed(v, outs), MAX_DELIVERIES);
    MidEnds(Flush(g, Addressed(v, outs), MAX_DELIVERIES), k, v, t);
    SyncKeeps(Flush(g, Addressed(v, outs), MAX_DELIVERIES), k);
  }

  lemma AddressedMail(g: Group, v: NodeId, outs: seq<Outgoing>)
    requires v in g.nodes && SentTo(outs, g.nodes.Keys)
    ensures MailOk(g, Addressed(v, outs))
  {
  }

  // -------------------------------------------------------------------- a node's own step

  /** Node `v` took step `s` of the cluster and moved to `y`. */
  ghost predicate Stepped(g: Group, l: Ledger, k: Ledger, v: NodeId, y: Node, outs: seq<Outgoing>) {
    && v in g.nodes && v !in g.down && Local(l, k, v) && v in l.log && v in k.log
    && Agree(l.log[v], k.log[v], g.nodes[v].commit)
    && g.nodes[v].term <= y.term && g.nodes[v].commit <= y.commit
    && Inv(Flight(g.(nodes := g.nodes[v := y]), Addressed(v, outs)), k)
  }

  lemma TakeStep(g: Group, l: Ledger, v: NodeId, s: Step, y: Node, outs: seq<Outgoing>) returns (k: Ledger)
    requires Inv(Flight(g, []), l) && v in g.nodes && v !in g.down && Actor(s) == v
    requires Enabled(Flight(g, []), s) && Next(Flight(g, []), s) == Emit(Flight(g, []), v, (y, outs))
    ensures Stepped(g, l, k, v, y, outs)
  {
    hide Inv;
    hide Onward;
    hide Local;
    hide Possible;
    hide Next;
    hide Grows;
    var n := Flight(g, []);
    k := StepKeeps(n, l, s);
    OnwardAt(n, l, Next(n, s), k, v);
    OnwardInv(n, l, Next(n, s), k);
    AskedAndSent(g, v, outs);
    InvFewer(Next(n, s), Flight(g.(nodes := g.nodes[v := y]), Addressed(v, outs)), k);
  }

  lemma AskedAndSent(g: Group, v: NodeId, outs: seq<Outgoing>)
    ensures (set m | m in Addressed(v, outs) :: Envelope(m.from, m.out.to, m.out.msg)) <= SentBy(v, outs)
  {
    forall m | m in Addressed(v, outs)
      ensures Envelope(m.from, m.out.to, m.out.msg) in SentBy(v, outs)
    {
      assert m.out in outs;
    }
  }

  /** The other leaders go on knowing enough, whether or not `v` changed its log. */
  lemma OthersStepped(g: Group, l: Ledger, k: Ledger, v: NodeId, y: Node, outs: seq<Outgoing>)
    requires Tracking(g, l) && Stepped(g, l, k, v, y, outs)
    requires y.role == Leader || (y.log == g.nodes[v].log && y.baseIndex == g.nodes[v].baseIndex)
    ensures OthersTrack(g.(nodes := g.nodes[v := y]), k, v)
  {
    hide WellFormed;
    hide Inv;
    hide Local;
    hide LeaderTracks;
    hide NodeLog;
    hide NodeCommit;
    var h := g.(nodes := g.nodes[v := y]);
    InvFewer(Flight(h, Addressed(v, outs)), Flight(h, []), k);
    if y.role == Leader {
      LeaderLog(h, k, v);
    } else {
      NodeLogOf(g, l, v);
      NodeLogOf(h, k, v);
      SameFull(l, k, v, g.nodes[v], y);
    }
    OthersStep(g, h, l, k, v, v);
  }

  // ------------------------------------------------------------------- a leader's round

  lemma RoundLines(x: Node, y: Node, z: Node, v: NodeId, outs: seq<Outgoing>, p: NodeId, d: nat, c: nat)
    requires RoundOf(x, y, z, outs) && Indexes(x, v, x.peers) && p in x.peers && (d <= c || d < x.nextIndex[p])
    ensures Letters(y, v, y.term, Addressed(v, outs)) && Lined(y, Addressed(v, outs), p, d, c)
  {
    hide ReplicateToAll;
    assert Letters(z, v, z.term, []) && Lined(z, [], p, d, c);
    BroadcastLetters(z, v, [], z.peers);
    BroadcastKeeps(z, v, [], z.peers, p, d, c);
    assert [] + Addressed(v, ReplicateToAll(z, z.peers)) == Addressed(v, ReplicateToAll(z, z.peers));
    assert Addressed(v, []) == [];
    LettersFor(z, y, v, y.term, Addressed(v, outs));
  }

  /** A leader that knows enough of peer `p`, and then the same leader with its round on the way. */
  lemma RoundPeer(g: Group, l: Ledger, k: Ledger, v: NodeId, y: Node, z: Node, outs: seq<Outgoing>, p: NodeId)
    requires Tracking(g, l) && Stepped(g, l, k, v, y, outs) && g.nodes[v].role == Leader
    requires RoundOf(g.nodes[v], y, z, outs) && p in g.nodes && p != v
    ensures PeerOk(y, k, y.term, Addressed(v, outs), p, g.nodes[p], p in g.down)
    ensures Letters(y, v, y.term, Addressed(v, outs))
  {
    hide WellFormed;
    hide Inv;
    hide Local;
    hide NodeLog;
    hide NodeCommit;
    hide RoundOf;
    hide Letters;
    hide Pending;
    hide SnapsSafe;
    hide Depth;
    hide Grows;
    var x, t, h := g.nodes[v], y.term, g.(nodes := g.nodes[v := y]);
    InvFewer(Flight(h, Addressed(v, outs)), Flight(h, []), k);
    RoundSame(x, y, z, outs);
    NodeLogOf(g, l, v);
    NodeLogOf(h, k, v);
    NodeLogOf(g, l, p);
    SameFull(l, k, v, x, y);
    LeaderLog(g, l, v);
    LeaderLog(h, k, v);
    LeaderIndexes(g, l, v);
    LocalFacts(l, k, v);
    LocalOther(l, k, v, p);
    ElectedKept(l, k, t);
    SameDepth(l, k, p, t);
    assert LeaderTracks(g, l, v);
    assert Tracked(l, x, p, g.nodes[p]);
    if g.nodes[p].term <= t {
      RoundLines(x, y, z, v, outs, p, Depth(k, p, t), g.nodes[p].commit);
    } else {
      RoundLines(x, y, z, v, outs, p, 0, 0);
    }
  }

  lemma RoundSame(x: Node, y: Node, z: Node, outs: seq<Outgoing>)
    requires RoundOf(x, y, z, outs)
    ensures y.role == x.role && y.term == x.term && y.log == x.log && y.baseIndex == x.baseIndex
    ensures y.nextIndex == x.nextIndex && y.peers == x.peers && y.commit == x.commit
  {
  }

  lemma LoneRound(x: Node, y: Node, z: Node, v: NodeId, outs: seq<Outgoing>)
    requires RoundOf(x, y, z, outs) && x.peers == []
    ensures outs == [] && Letters(y, v, y.term, Addressed(v, outs))
  {
  }

  lemma StartRound(g: Group, l: Ledger, k: Ledger, v: NodeId, y: Node, z: Node, outs: seq<Outgoing>)
    requires Tracking(g, l) && Stepped(g, l, k, v, y, outs) && g.nodes[v].role == Leader
    requires RoundOf(g.nodes[v], y, z, outs) && WellFormed(g.(nodes := g.nodes[v := y]))
    ensures Mid(g.(nodes := g.nodes[v := y]), k, v, y.term, Addressed(v, outs)) && Starts(y, k, v, y.term, outs)
  {
    hide WellFormed;
    hide Inv;
    hide Local;
    hide RoundOf;
    hide Letters;
    hide PeerOk;
    hide AllTrack;
    hide Starts;
    LeaderIndexes(g, l, v);
    RoundStarts(g.nodes[v], y, z, v, k, outs);
    var h := g.(nodes := g.nodes[v := y]);
    RoundSame(g.nodes[v], y, z, outs);
    OthersStepped(g, l, k, v, y, outs);
    forall p | p in h.nodes && p != v
      ensures PeerOk(y, k, y.term, Addressed(v, outs), p, h.nodes[p], p in h.down)
      ensures Letters(y, v, y.term, Addressed(v, outs))
    {
      RoundPeer(g, l, k, v, y, z, outs, p);
    }
    assert h.nodes.Keys == g.nodes.Keys;
    if forall p :: p in g.nodes.Keys ==> p == v {
      PeersListed(g, l, v);
      NobodyListed(g.nodes[v].peers, v, g.nodes.Keys);
      LoneRound(g.nodes[v], y, z, v, outs);
    }
  }

  lemma SomeListed(peers: seq<NodeId>)
    ensures peers == [] || exists p :: p in peers
  {
    if peers != [] {
      assert peers[0] in peers;
    }
  }

  lemma NobodyListed(peers: seq<NodeId>, v: NodeId, ids: set<NodeId>)
    requires forall p :: p in peers <==> p in ids && p != v
    requires forall p :: p in ids ==> p == v
    ensures peers == []
  {
    SomeListed(peers);
  }

  // ------------------------------------------------------------------------- standing

  /** A node that does not lead: it waits, stands, or wins at once because it is alone. */
  lemma TickOther(n: Node)
    requires n.role != Leader
    ensures var r := Tick(n);
            && (r.0.role != Leader ==> && r.0.log == n.log && r.0.baseIndex == n.baseIndex
                                       && (forall o :: o in r.1 ==> o.msg.RequestVote? && o.msg.term == r.0.term)
                                       && (r.1 != [] ==> forall o :: o in r.1 ==> o.to in n.peers))
            && (r.0.role == Leader ==> n.peers == [] && r.1 == [])
            && |r.1| <= |r.0.peers| && (r.0.role == Follower ==> r.1 == [])
  {
    var s := Stood(n.(timers := n.timers.(electionElapsed := n.timers.electionElapsed + 1)));
    assert |{n.id}| == 1;
    assert forall o :: o in VoteRequests(s, s.peers) ==> o.to in s.peers;
    if s.MajoritySize() <= 1 {
      assert |s.peers| == 0;
      assert ReplicateToAll(Crowned(s), []) == [];
    }
  }

  lemma BallotLetters(y: Node, v: NodeId, outs: seq<Outgoing>)
    requires y.role != Leader || outs == []
    requires forall o :: o in outs ==> o.msg.RequestVote? && o.msg.term == y.term && o.to != v
    ensures Letters(y, v, y.term, Addressed(v, outs))
    ensures forall p, d, c :: SnapsSafe(Addressed(v, outs), p, d, c)
  {
    forall m | m in Addressed(v, outs)
      ensures Letter(y, v, y.term, m) && m.out.msg.RequestVote?
    {
      assert m.out in outs;
    }
    forall p, d, c
      ensures SnapsSafe(Addressed(v, outs), p, d, c)
    {
      CommittedSnaps(Addressed(v, outs), p, d, c);
    }
  }

  /** The tick of a node that does not lead begins a delivery of vote requests or of nothing. */
  lemma StartStanding(g: Group, l: Ledger, k: Ledger, v: NodeId, y: Node, outs: seq<Outgoing>)
    requires Tracking(g, l) && Stepped(g, l, k, v, y, outs) && g.nodes[v].role != Leader
    requires (y, outs) == Tick(g.nodes[v]) && WellFormed(g.(nodes := g.nodes[v := y]))
    ensures Mid(g.(nodes := g.nodes[v := y]), k, v, y.term, Addressed(v, outs)) && Starts(y, k, v, y.term, outs)
  {
    hide WellFormed;
    hide Inv;
    hide Local;
    hide Letters;
    hide AllTrack;
    hide SnapsSafe;
    hide Tick;
    var h := g.(nodes := g.nodes[v := y]);
    TickOther(g.nodes[v]);
    OthersStepped(g, l, k, v, y, outs);
    PeersListed(g, l, v);
    BallotLetters(y, v, outs);
    assert h.nodes.Keys == g.nodes.Keys;
  }

  // --------------------------------------------------------------------------- the calls

  lemma TickKeeps(g: Group, l: Ledger, v: NodeId) returns (k: Ledger)
    requires WellFormed(g) && v in g.nodes && AllBounded(TickDeliveries(g, v))
    requires Tracking(g, l)
    ensures AllComplete(TickDeliveries(g, v)) && AllHarmless(TickDeliveries(g, v)) && Tracking(TickOne(g, v), k)
  {
    hide WellFormed;
    hide Inv;
    hide AllTrack;
    hide Mid;
    hide Starts;
    hide Tick;
    hide DeliverAll;
    hide Complete;
    hide Harmless;
    hide Light;
    if v in g.down {
      k := l;
    } else {
      TickFormed(g, v);
      StoreKnown(g, v);
      var (y, outs) := Tick(g.nodes[v]);
      var a := TakeStep(g, l, v, TickAt(v), y, outs);
      StartTick(g, l, a, v, y, outs);
      k := DeliverKeeps(g.(nodes := g.nodes[v := y]), a, v, y.term, outs);
    }
  }

  lemma StartTick(g: Group, l: Ledger, k: Ledger, v: NodeId, y: Node, outs: seq<Outgoing>)
    requires v in g.nodes && Tracking(g, l) && Stepped(g, l, k, v, y, outs)
    requires (y, outs) == Tick(g.nodes[v]) && WellFormed(g.(nodes := g.nodes[v := y]))
    ensures Mid(g.(nodes := g.nodes[v := y]), k, v, y.term, Addressed(v, outs)) && Starts(y, k, v, y.term, outs)
  {
    hide Tracking;
    hide Stepped;
    hide WellFormed;
    hide Mid;
    hide Starts;
    hide ReplicateToAll;
    hide StartElection;
    var x := g.nodes[v];
    if x.role == Leader {
      var z := x.(timers := x.timers.(heartbeatElapsed := x.timers.heartbeatElapsed + 1));
      StartRound(g, l, k, v, y, z, outs);
    } else {
      StartStanding(g, l, k, v, y, outs);
    }
  }

  lemma {:induction false} ElectKeeps(g: Group, l: Ledger, v: NodeId, ticks: nat) returns (k: Ledger)
    requires WellFormed(g) && v in g.nodes && AllBounded(ElectDeliveries(g, v, ticks))
    requires Tracking(g, l)
    ensures AllComplete(ElectDeliveries(g, v, ticks)) && AllHarmless(ElectDeliveries(g, v, ticks))
    ensures Tracking(Elect(g, v, ticks).0, k)
    decreases ticks
  {
    hide Tracking;
    hide TickOne;
    hide TickDeliveries;
    hide WellFormed;
    hide Complete;
    hide Harmless;
    hide Light;
    k := l;
    if ticks != 0 && !(v !in g.down && g.nodes[v].role == Leader) {
      var a := TickKeeps(g, l, v);
      k := ElectKeeps(TickOne(g, v), a, v, ticks - 1);
    }
  }

  lemma {:induction false} SettleKeeps(g: Group, l: Ledger, rounds: nat) returns (k: Ledger)
    requires WellFormed(g) && AllBounded(SettleDeliveries(g, rounds))
    requires Tracking(g, l)
    ensures AllComplete(SettleDeliveries(g, rounds)) && AllHarmless(SettleDeliveries(g, rounds))
    ensures Tracking(Settle(g, rounds), k)
    decreases rounds
  {
    hide Tracking;
    hide TickOne;
    hide TickDeliveries;
    hide WellFormed;
    hide Complete;
    hide Harmless;
    hide Light;
    k := l;
    if rounds != 0 && LeaderOf(g).Some? {
      var v := LeaderOf(g).value;
      var a := TickKeeps(g, l, v);
      k := SettleKeeps(TickOne(g, v), a, rounds - 1);
    }
  }

  // ------------------------------------------------------------------------- proposals

  /** A leader's complete log grows with what it keeps. */
  lemma ExtendFull(l: Ledger, k: Ledger, v: NodeId, x: Node, y: Node, e: LogEntry)
    requires NodeLog(l, v, x) && NodeLog(k, v, y) && y.log == x.log + [e] && y.baseIndex == x.baseIndex
    requires Agree(l.log[v], k.log[v], x.commit)
    ensures v in l.log && v in k.log && k.log[v] == l.log[v] + [e]
  {
    assert |k.log[v]| == |l.log[v]| + 1;
    forall i | 0 <= i < |k.log[v]|
      ensures k.log[v][i] == (l.log[v] + [e])[i]
    {
      if i >= x.baseIndex {
        assert y.log[i - x.baseIndex] == k.log[v][i];
      }
    }
  }

  /** No follower holds an entry of the leader's term that the leader has not recorded, so a new entry is
      shared with nobody. */
  lemma DepthAppended(l: Ledger, k: Ledger, p: NodeId, t: nat, e: LogEntry)
    requires Sound(l) && p in l.ids && p in l.log && p in k.log && k.log[p] == l.log[p] && t in l.tlog && t in k.tlog
    requires k.tlog[t] == l.tlog[t] + [e] && e.term == t
    ensures Depth(k, p, t) == Depth(l, p, t)
  {
    var a, n := l.log[p], |l.tlog[t]|;
    SharedLonger(a, l.tlog[t], k.tlog[t]);
    SharedAgrees(a, l.tlog[t], n);
    SharedAgrees(a, k.tlog[t], n + 1);
    assert GoodNode(l, p);
    assert n < |a| ==> BackedAt(l.tlog, a, n);
  }

  lemma Submitted(x: Node, op: LogOp)
    requires x.role == Leader
    ensures var y := Propose(x, op).0;
            && y.role == Leader && y.term == x.term && y.log == x.log + [LogEntry(x.term, op)] && y.peers == x.peers
            && y.baseIndex == x.baseIndex && y.nextIndex == x.nextIndex && x.commit <= y.commit
  {
    hide HighestCommittable;
    var m := x.(log := x.log + [LogEntry(x.term, op)]);
    HighestRange(m, m.LastIndex());
  }

  lemma SubmitPeer(g: Group, l: Ledger, k: Ledger, v: NodeId, op: LogOp, y: Node, p: NodeId)
    requires v in g.nodes && g.nodes[v].role == Leader && y == Propose(g.nodes[v], op).0 && p in g.nodes && p != v
    requires Tracking(g, l) && Stepped(g, l, k, v, y, [])
    ensures Tracked(k, y, p, g.nodes[p])
  {
    hide WellFormed;
    hide Inv;
    hide Local;
    hide NodeLog;
    hide NodeCommit;
    hide Sound;
    hide Depth;
    hide Grows;
    hide Propose;
    var x, t, h := g.nodes[v], y.term, g.(nodes := g.nodes[v := y]);
    Submitted(x, op);
    InvFewer(Flight(h, Addressed(v, [])), Flight(h, []), k);
    NodeLogOf(g, l, v);
    NodeLogOf(h, k, v);
    NodeLogOf(g, l, p);
    ExtendFull(l, k, v, x, y, LogEntry(x.term, op));
    LeaderLog(g, l, v);
    LeaderLog(h, k, v);
    LocalFacts(l, k, v);
    LocalOther(l, k, v, p);
    ElectedKept(l, k, t);
    DepthAppended(l, k, p, t, LogEntry(x.term, op));
    assert LeaderTracks(g, l, v);
    assert Tracked(l, x, p, g.nodes[p]);
  }

  lemma SubmitKeeps(g: Group, l: Ledger, v: NodeId, op: LogOp, y: Node) returns (k: Ledger)
    requires v in g.nodes && v !in g.down && g.nodes[v].role == Leader && y == Propose(g.nodes[v], op).0
    requires WellFormed(g.(nodes := g.nodes[v := y])) && Tracking(g, l)
    ensures Tracking(g.(nodes := g.nodes[v := y]), k)
  {
    hide WellFormed;
    hide Inv;
    hide AllTrack;
    hide Propose;
    hide Tracked;
    hide Stepped;
    StoreKnown(g, v);
    var n := Flight(g, []);
    assert SentBy(v, []) == {} && n.requests + {} == n.requests;
    k := TakeStep(g, l, v, Submit(v, op), y, []);
    Submitted(g.nodes[v], op);
    OthersStepped(g, l, k, v, y, []);
    forall p | p in g.nodes && p != v
      ensures Tracked(k, y, p, g.nodes[p])
    {
      SubmitPeer(g, l, k, v, op, y, p);
    }
    SubmitTracks(g, l, k, v, y);
  }

  lemma SubmitTracks(g: Group, l: Ledger, k: Ledger, v: NodeId, y: Node)
    requires Stepped(g, l, k, v, y, []) && OthersTrack(g.(nodes := g.nodes[v := y]), k, v)
    requires WellFormed(g.(nodes := g.nodes[v := y]))
    requires forall p {:trigger g.nodes[p]} :: p in g.nodes && p != v ==> Tracked(k, y, p, g.nodes[p])
    ensures Tracking(g.(nodes := g.nodes[v := y]), k)
  {
    hide WellFormed;
    hide Inv;
    hide Local;
    hide Tracked;
    var h := g.(nodes := g.nodes[v := y]);
    InvFewer(Flight(h, Addressed(v, [])), Flight(h, []), k);
    assert LeaderTracks(h, k, v);
  }

  lemma PushKeeps(h: Group, l: Ledger, v: NodeId, z: Node, outs: seq<Outgoing>) returns (k: Ledger)
    requires v in h.nodes && v !in h.down && h.nodes[v].role == Leader && (z, outs) == ReplicateNow(h.nodes[v])
    requires WellFormed(h.(nodes := h.nodes[v := z])) && SentTo(outs, h.nodes.Keys)
    requires var d := Delivery(h.(nodes := h.nodes[v := z]), Addressed(v, outs)); Complete(d) || Light(d)
    requires Tracking(h, l)
    ensures var d := Delivery(h.(nodes := h.nodes[v := z]), Addressed(v, outs)); Complete(d) && Harmless(d)
    ensures Tracking(DeliverAll(h.(nodes := h.nodes[v := z]), v, outs), k)
  {
    hide WellFormed;
    hide Inv;
    hide AllTrack;
    hide Mid;
    hide DeliverAll;
    hide ReplicateToAll;
    hide Complete;
    hide Harmless;
    hide Light;
    hide Starts;
    hide Stepped;
    StoreKnown(h, v);
    var a := TakeStep(h, l, v, Push(v), z, outs);
    StartRound(h, l, a, v, z, h.nodes[v], outs);
    k := DeliverKeeps(h.(nodes := h.nodes[v := z]), a, v, z.term, outs);
  }

  lemma ProposeKeeps(g: Group, l: Ledger, op: LogOp) returns (k: Ledger)
    requires WellFormed(g) && AllBounded(ProposeDeliveries(g, op))
    requires Tracking(g, l)
    ensures AllComplete(ProposeDeliveries(g, op)) && AllHarmless(ProposeDeliveries(g, op))
    ensures Tracking(ProposeOne(g, op).0, k)
  {
    hide WellFormed;
    hide Tracking;
    hide DeliverAll;
    hide AdvanceCommit;
    hide ReplicateNow;
    hide SameSetup;
    hide Complete;
    hide Harmless;
    hide Light;
    k := l;
    if LeaderOf(g).Some? {
      var v := LeaderOf(g).value;
      var y := Propose(g.nodes[v], op).0;
      ProposeSetup(g.nodes[v], op);
      PushFormed(g, v, y);
      var h := g.(nodes := g.nodes[v := y]);
      var a := SubmitKeeps(g, l, v, op, y);
      var (z, outs) := ReplicateNow(y);
      assert h.(nodes := h.nodes[v := z]) == g.(nodes := g.nodes[v := z]);
      var d := Delivery(g.(nodes := g.nodes[v := z]), Addressed(v, outs));
      assert ProposeDeliveries(g, op) == [d];
      assert d in ProposeDeliveries(g, op);
      k := PushKeeps(h, a, v, z, outs);
    }
  }

  // ------------------------------------------------------------------- failing, reviving

  lemma DownKeeps(g: Group, l: Ledger, v: NodeId, down: bool)
    requires v in g.nodes && Tracking(g, l)
    ensures Tracking(SetDown(g, v, down), l)
  {
    hide WellFormed;
    hide AllTrack;
    hide Sound;
    hide NodeOk;
    hide FlightOk;
    hide Local;
    var h := SetDown(g, v, down);
    StoreKnown(g, v);
    assert h.nodes.Keys == g.nodes.Keys;
    forall w | w in g.nodes
      ensures NodeOk(l, w, h.nodes[w], h.stores[w])
    {
      assert NodeOk(l, w, Flight(g, []).nodes[w], g.stores[w]);
      Relabelled(l, w, g.nodes[w], NoteRevived(g.nodes[w]), g.stores[w]);
    }
    KnowledgeKept(g, h, l);
    EmptyFlight(h, l);
  }

  lemma NewTracking(g: Group) returns (l: Ledger)
    requires IsNew(g)
    ensures Tracking(g, l)
  {
    hide WellFormed;
    hide Inv;
    hide Initial;
    var t := NewMirrored(g, false);
    InitialNodes(t, g);
    l := InitialInv(t.nets[0]);
    InvFewer(t.nets[0], Flight(g, []), l);
  }

  lemma InitialNodes(t: Trace, g: Group)
    requires Mirrors(t, g) && |t.nets| == 1 && IsNew(g)
    ensures Initial(t.nets[0]) && t.nets[0].nodes == g.nodes && t.nets[0].stores == g.stores
    ensures t.nets[0].requests == {} && t.nets[0].replies == {}
    ensures WellFormed(g) && forall v :: v in g.nodes ==> g.nodes[v].role != Leader
  {
    hide PeersOf;
    hide Possible;
    hide Next;
    hide Others;
    var timers :| g == NewGroup(g.replicas, timers, g.threshold);
  }

  // ------------------------------------------------------------------------- whole runs

  lemma CallKeeps(g: Group, l: Ledger, c: Call) returns (k: Ledger)
    requires WellFormed(g) && Callable(g, c) && AllBounded(CallDeliveries(g, c))
    requires Tracking(g, l)
    ensures AllComplete(CallDeliveries(g, c)) && AllHarmless(CallDeliveries(g, c)) && Tracking(After(g, c), k)
  {
    hide Tracking;
    hide WellFormed;
    hide TickOne;
    hide Elect;
    hide Settle;
    hide ProposeOne;
    hide SetDown;
    hide TickDeliveries;
    hide ElectDeliveries;
    hide SettleDeliveries;
    hide ProposeDeliveries;
    hide Complete;
    hide Harmless;
    hide Light;
    k := l;
    match c
    case TickCall(v) => k := TickKeeps(g, l, v);
    case ElectCall(v) => k := ElectKeeps(g, l, v, MAX_ELECTION_TICKS);
    case EnsureCall =>
      if LeaderOf(g).None? && Freshest(g).Some? {
        k := ElectKeeps(g, l, Freshest(g).value, MAX_ELECTION_TICKS);
      }
    case ProposeCall(op) => k := ProposeKeeps(g, l, op);
    case DownCall(v, down) => DownKeeps(g, l, v, down);
    case SettleCall(rounds) => k := SettleKeeps(g, l, rounds);
  }

  lemma {:induction false} RunTracks(groups: seq<Group>, calls: seq<Call>, i: nat) returns (l: Ledger)
    requires GroupRun(groups, calls) && WithinBounds(groups, calls) && i < |groups|
    ensures Tracking(groups[i], l)
  {
    hide Tracking;
    hide WellFormed;
    hide After;
    hide IsNew;
    hide CallDeliveries;
    hide AllBounded;
    hide AllComplete;
    hide AllHarmless;
    if i == 0 {
      l := NewTracking(groups[0]);
    } else {
      var a := RunTracks(groups, calls, i - 1);
      l := CallKeeps(groups[i - 1], a, calls[i - 1]);
    }
  }

  /** In a run of the group no snapshot ever throws away entries that follow a matching one, and no delivery
      loop is cut off, whatever replicas fail and return, are elected and deposed, and fold their logs. Each
      loop is only asked to start light: the peers, times what the sender keeps, times what it has not
      committed, is within the driver's bound. */
  lemma BoundedIsHarmless(groups: seq<Group>, calls: seq<Call>, i: nat)
    requires GroupRun(groups, calls) && WithinBounds(groups, calls) && i < |calls|
    ensures AllComplete(CallDeliveries(groups[i], calls[i])) && AllHarmless(CallDeliveries(groups[i], calls[i]))
  {
    hide Tracking;
    hide WellFormed;
    hide After;
    hide IsNew;
    hide CallDeliveries;
    hide AllBounded;
    hide AllComplete;
    hide AllHarmless;
    var l := RunTracks(groups, calls, i);
    var k := CallKeeps(groups[i], l, calls[i]);
  }
}
