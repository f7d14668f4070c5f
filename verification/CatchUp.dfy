/** Catching up one follower. A leader and a follower exchange request and reply until the leader
    knows the follower to hold its whole log; this takes at most one round more than the follower's
    next index, whatever the follower's log looks like, and also when part of it must come as a
    snapshot. */
module CatchUp {
  import opened RaftTypes
  import opened RaftNode
  import opened RaftLedger
  import opened RaftLink
  import opened RaftSteps
  import opened RaftNetwork
  import opened RaftSafety

  function NextFor(l: Node, w: NodeId): nat {
    if w in l.nextIndex then l.nextIndex[w] else l.LastIndex() + 1
  }

  /** The leader sends what it has for the follower, the follower handles it, the leader hears back. */
  function Round(l: Node, f: Node): (Node, Node) {
    match ReplicateTo(l, f.id)
    case None => (l, f)
    case Some(o) =>
      var heard := Handle(f, o.msg);
      (HandleReply(l, f.id, heard.1).0, heard.0)
  }

  function Rounds(l: Node, f: Node, k: nat): (Node, Node)
    decreases k
  {
    if k == 0 then (l, f) else var (m, e) := Round(l, f); Rounds(m, e, k - 1)
  }

  /** The leader knows the follower to hold everything it holds. */
  predicate KnownCaughtUp(l: Node, w: NodeId) {
    w in l.matchIndex && l.matchIndex[w] == l.LastIndex() && NextFor(l, w) == l.LastIndex() + 1
  }

  ghost predicate Leading(l: Node, f: Node) {
    && l.role == Leader && f.term <= l.term && f.id != l.id && f.id in l.nextIndex
    && l.baseIndex <= l.commit <= l.LastIndex() && f.baseIndex <= f.LastIndex()
    && 1 <= NextFor(l, f.id) <= l.LastIndex() + 1
  }

  /** What the next round sends will not make the follower throw a matching suffix away. */
  predicate SafeToSend(l: Node, f: Node) {
    NextFor(l, f.id) > l.baseIndex
    || !DiscardsMatch(f, InstallSnapshot(l.term, l.id, l.baseIndex, l.baseTerm, l.snapshot))
  }

  predicate Rejects(l: Node, f: Node) {
    var prev := NextFor(l, f.id) - 1;
    NextFor(l, f.id) > l.baseIndex && (prev > f.LastIndex() || (prev > f.baseIndex && f.TermAt(prev) != l.TermAt(prev)))
  }

  /** The leader's own log and standing, which the exchange does not touch. */
  ghost predicate SameLeader(l: Node, m: Node) {
    && m.role == Leader && m.term == l.term && m.id == l.id && m.log == l.log && m.baseIndex == l.baseIndex
    && m.baseTerm == l.baseTerm && m.snapshot == l.snapshot && l.commit <= m.commit <= m.LastIndex()
  }

  function Hint(l: Node, f: Node): nat
    requires Rejects(l, f) && Leading(l, f)
  {
    var prev := NextFor(l, f.id) - 1;
    if prev > f.LastIndex() then f.LastIndex() else prev - 1
  }

  lemma RejectedReply(l: Node, f: Node)
    requires Leading(l, f) && Rejects(l, f)
    ensures ReplicateTo(l, f.id).Some?
    ensures Handle(f, ReplicateTo(l, f.id).value.msg)
            == (Following(f, l.term, l.id), AppendReply(l.term, false, Hint(l, f)))
  {
    hide StoreEntries;
  }

  lemma BackedUpIsSafe(l: Node, f: Node)
    requires Leading(l, f) && Rejects(l, f)
    ensures var m := BackedUp(l, f.id, Hint(l, f));
            && f.id in m.nextIndex && 1 <= m.nextIndex[f.id] < NextFor(l, f.id)
            && (m.nextIndex[f.id] > l.baseIndex || f.LastIndex() < l.baseIndex || f.TermAt(l.baseIndex) != l.baseTerm)
  {
  }

  /** A rejected append strictly lowers the follower's next index and never makes the next message unsafe. */
  lemma RejectedRound(l: Node, f: Node)
    requires Leading(l, f) && Rejects(l, f)
    ensures var (m, e) := Round(l, f);
            && SameLeader(l, m) && e.term == l.term && e.id == f.id && e.baseIndex <= e.LastIndex()
            && 1 <= NextFor(m, f.id) < NextFor(l, f.id)
            && SafeToSend(m, e)
  {
    hide Handle;
    hide ReplicateTo;
    hide Rejects;
    RejectedReply(l, f);
    BackedUpIsSafe(l, f);
  }

  lemma AcceptedReply(l: Node, f: Node)
    requires Leading(l, f) && NextFor(l, f.id) > l.baseIndex && !Rejects(l, f)
    ensures ReplicateTo(l, f.id).Some?
    ensures var r := Handle(f, ReplicateTo(l, f.id).value.msg);
            r.0.term == l.term && r.0.id == f.id && r.1 == AppendReply(l.term, true, l.LastIndex())
  {
    hide StoreEntries;
    var prev := NextFor(l, f.id) - 1;
    StoreFields(Following(f, l.term, l.id), prev, l.log[prev - l.baseIndex..]);
  }

  /** An append that is not rejected tells the leader the follower holds its whole log. */
  lemma AcceptedRound(l: Node, f: Node)
    requires Leading(l, f) && NextFor(l, f.id) > l.baseIndex && !Rejects(l, f)
    ensures var (m, e) := Round(l, f);
            SameLeader(l, m) && e.term == l.term && e.id == f.id && KnownCaughtUp(m, f.id)
  {
    hide HighestCommittable;
    hide ReplicateToAll;
    hide ReplicateTo;
    hide Handle;
    hide Rejects;
    AcceptedReply(l, f);
    var m := l.(matchIndex := l.matchIndex[f.id := l.LastIndex()], nextIndex := l.nextIndex[f.id := l.LastIndex() + 1]);
    HighestRange(m, m.LastIndex());
  }

  /** A snapshot moves the next index just above the snapshot. */
  lemma SnapshotRound(l: Node, f: Node)
    requires Leading(l, f) && NextFor(l, f.id) <= l.baseIndex
    ensures var (m, e) := Round(l, f);
            && SameLeader(l, m) && e.term == l.term && e.id == f.id
            && NextFor(m, f.id) == l.baseIndex + 1
            && (e.baseIndex == l.baseIndex || (l.baseIndex <= e.commit && e.baseIndex == f.baseIndex))
  {
  }

  // ------------------------------------------------------- the cluster around the two

  ghost predicate Pair(n: Net, v: NodeId, w: NodeId) {
    v in n.nodes && w in n.nodes && v in n.stores && w in n.stores && v != w
  }

  lemma LeadingReached(n: Net, g: Ledger, v: NodeId, w: NodeId)
    requires Inv(n, g) && Pair(n, v, w) && n.nodes[v].role == Leader && n.nodes[w].term <= n.nodes[v].term
    ensures Leading(n.nodes[v], n.nodes[w]) && n.nodes[w].id == w && n.nodes[v].id == v
  {
    hide Sound;
    hide Core;
    hide FlightOk;
    assert NodeOk(g, v, n.nodes[v], n.stores[v]) && NodeOk(g, w, n.nodes[w], n.stores[w]);
    NodeFacts(g, v, n.nodes[v], n.stores[v]);
    NodeFacts(g, w, n.nodes[w], n.stores[w]);
    LeaderFacts(g, v, n.nodes[v]);
    PeersAre(g, v, w, n.nodes[v], n.stores[v]);
  }

  lemma PeersAre(g: Ledger, v: NodeId, w: NodeId, l: Node, store: set<Triple>)
    requires NodeOk(g, v, l, store) && w in g.ids && w != v
    ensures w in l.peers
  {
    hide Duty;
    hide NodeCommit;
    hide NodeStore;
  }

  ghost predicate AckedUpTo(h: Ledger, w: NodeId, t: nat, k: nat) {
    (w, t) in h.acks && k <= h.acks[(w, t)]
  }

  /** One round is three steps of the cluster: a request sent, delivered and answered. */
  lemma RoundKeeps(n: Net, g: Ledger, v: NodeId, w: NodeId) returns (m: Net, h: Ledger)
    requires Inv(n, g) && Pair(n, v, w) && n.nodes[v].role == Leader && n.nodes[w].term <= n.nodes[v].term
    requires SafeToSend(n.nodes[v], n.nodes[w])
    ensures ReplicateTo(n.nodes[v], w).Some?
    ensures var r := Round(n.nodes[v], n.nodes[w]);
            Onward(n, g, m, h) && Pair(m, v, w) && m.nodes[v] == r.0 && m.nodes[w] == r.1
    ensures var reply := Handle(n.nodes[w], ReplicateTo(n.nodes[v], w).value.msg).1;
            reply.AppendReply? && reply.success ==> AckedUpTo(h, w, reply.term, reply.matchIndex)
  {
    hide Sound;
    hide NodeOk;
    hide RequestOk;
    hide Local;
    hide ReplyOk;
    hide Onward;
    hide Handle;
    hide HandleReply;
    LeadingReached(n, g, v, w);
    var l, f := n.nodes[v], n.nodes[w];
    var o := ReplicateTo(l, w).value;
    var e := Envelope(v, w, o.msg);
    SoundShape(g);
    ReplicateToOk(g, v, l, n.stores[v], w);
    var a := n.(requests := n.requests + {e});
    var h1 := StepKeeps(a, g, Deliver(e));
    var b := Next(a, Deliver(e));
    OnwardInv(a, g, b, h1);
    var reply := Envelope(w, v, Handle(f, o.msg).1);
    h := StepKeeps(b, h1, Answer(reply));
    m := Next(b, Answer(reply));
    OnwardTrans(a, g, b, h1, m, h);
    OnwardRequests(n, a, g, m, h);
    OnwardInv(n, g, m, h);
    AckInFlight(h, reply);
  }

  lemma AckInFlight(h: Ledger, e: Envelope<RaftReply>)
    requires ReplyOk(h, e)
    ensures e.msg.AppendReply? && e.msg.success ==> AckedUpTo(h, e.from, e.msg.term, e.msg.matchIndex)
  {
  }

  lemma OnwardRequests(n: Net, a: Net, g: Ledger, m: Net, h: Ledger)
    requires Onward(a, g, m, h) && a.nodes == n.nodes
    ensures Onward(n, g, m, h)
  {
    hide Inv;
    hide NodeOnward;
    hide Grows;
  }

  /** A follower that has the leader's snapshot, or has committed as far, accepts what follows it. */
  lemma SnapshotMatches(n: Net, g: Ledger, v: NodeId, w: NodeId)
    requires Inv(n, g) && Pair(n, v, w)
    requires n.nodes[w].id == w && NextFor(n.nodes[v], w) == n.nodes[v].baseIndex + 1
    requires n.nodes[w].baseIndex == n.nodes[v].baseIndex || n.nodes[v].baseIndex <= n.nodes[w].commit
    ensures !Rejects(n.nodes[v], n.nodes[w])
  {
    hide Sound;
    hide Duty;
    hide FlightOk;
    hide NodeStore;
    hide CommittedPrefix;
    hide PeersOf;
    var l, f := n.nodes[v], n.nodes[w];
    assert NodeOk(g, v, l, n.stores[v]) && NodeOk(g, w, f, n.stores[w]);
    if f.baseIndex < l.baseIndex <= f.commit {
      CommittedPrefixesAgree(g, g.log[v], l.baseIndex, l.term, g.log[w], f.commit, f.term);
      TermAtMeansLog(g, w, f, l.baseIndex);
    }
  }

  ghost predicate CaughtUp(n: Net, h: Ledger, l: Node, v: NodeId, w: NodeId) {
    && Inv(n, h) && Pair(n, v, w) && SameLeader(l, n.nodes[v]) && n.nodes[w].term == l.term
    && KnownCaughtUp(n.nodes[v], w) && AckedUpTo(h, w, l.term, l.LastIndex())
  }

  lemma AcceptedConverges(n: Net, g: Ledger, v: NodeId, w: NodeId) returns (m: Net, h: Ledger)
    requires Inv(n, g) && Pair(n, v, w) && n.nodes[v].role == Leader && n.nodes[w].term <= n.nodes[v].term
    requires NextFor(n.nodes[v], w) > n.nodes[v].baseIndex && !Rejects(n.nodes[v], n.nodes[w])
    ensures CaughtUp(m, h, n.nodes[v], v, w) && (m.nodes[v], m.nodes[w]) == Round(n.nodes[v], n.nodes[w])
  {
    hide Inv;
    hide Round;
    hide Rejects;
    hide Handle;
    hide ReplicateTo;
    LeadingReached(n, g, v, w);
    m, h := RoundKeeps(n, g, v, w);
    OnwardInv(n, g, m, h);
    AcceptedRound(n.nodes[v], n.nodes[w]);
    AcceptedReply(n.nodes[v], n.nodes[w]);
  }

  lemma SnapshotConverges(n: Net, g: Ledger, v: NodeId, w: NodeId) returns (m: Net, h: Ledger)
    requires Inv(n, g) && Pair(n, v, w) && n.nodes[v].role == Leader && n.nodes[w].term <= n.nodes[v].term
    requires NextFor(n.nodes[v], w) <= n.nodes[v].baseIndex && SafeToSend(n.nodes[v], n.nodes[w])
    ensures CaughtUp(m, h, n.nodes[v], v, w) && (m.nodes[v], m.nodes[w]) == Rounds(n.nodes[v], n.nodes[w], 2)
  {
    hide Inv;
    hide Round;
    hide Rejects;
    hide SafeToSend;
    var l, f := n.nodes[v], n.nodes[w];
    LeadingReached(n, g, v, w);
    var a, h1 := RoundKeeps(n, g, v, w);
    OnwardInv(n, g, a, h1);
    SnapshotRound(l, f);
    SnapshotMatches(a, h1, v, w);
    m, h := AcceptedConverges(a, h1, v, w);
    TwoRounds(l, f);
    SameLeaderTrans(l, a.nodes[v], m.nodes[v]);
  }

  lemma TwoRounds(l: Node, f: Node)
    ensures Rounds(l, f, 1) == Round(l, f)
    ensures Rounds(l, f, 2) == Round(Round(l, f).0, Round(l, f).1)
  {
    hide Round;
    var (m, e) := Round(l, f);
    assert Rounds(m, e, 1) == Rounds(Round(m, e).0, Round(m, e).1, 0);
  }

  lemma SameLeaderTrans(l: Node, m: Node, k: Node)
    requires SameLeader(l, m) && SameLeader(m, k)
    ensures SameLeader(l, k)
  {
  }

  /** Catch-up terminates: each rejection lowers the next index, and a snapshot is followed by success. */
  lemma {:induction false} Converges(n: Net, g: Ledger, v: NodeId, w: NodeId) returns (k: nat, m: Net, h: Ledger)
    requires Inv(n, g) && Pair(n, v, w) && n.nodes[v].role == Leader && n.nodes[w].term <= n.nodes[v].term
    requires SafeToSend(n.nodes[v], n.nodes[w])
    ensures k <= NextFor(n.nodes[v], w) + 1
    ensures CaughtUp(m, h, n.nodes[v], v, w) && (m.nodes[v], m.nodes[w]) == Rounds(n.nodes[v], n.nodes[w], k)
    decreases NextFor(n.nodes[v], w)
  {
    hide Inv;
    hide Round;
    hide SafeToSend;
    hide Rejects;
    hide Handle;
    hide ReplicateTo;
    hide KnownCaughtUp;
    hide Onward;
    var l, f := n.nodes[v], n.nodes[w];
    LeadingReached(n, g, v, w);
    TwoRounds(l, f);
    if NextFor(l, w) <= l.baseIndex {
      m, h := SnapshotConverges(n, g, v, w);
      k := 2;
    } else if !Rejects(l, f) {
      m, h := AcceptedConverges(n, g, v, w);
      k := 1;
    } else {
      RejectedRound(l, f);
      var a, h1 := RoundKeeps(n, g, v, w);
      OnwardInv(n, g, a, h1);
      var j;
      j, m, h := Converges(a, h1, v, w);
      k := j + 1;
      SameLeaderTrans(l, a.nodes[v], m.nodes[v]);
    }
  }

  /** What a follower has acknowledged in the leader's own term it still holds. */
  lemma AckedAgrees(n: Net, g: Ledger, v: NodeId, w: NodeId)
    requires Inv(n, g) && Pair(n, v, w) && n.nodes[v].role == Leader && n.nodes[w].term == n.nodes[v].term
    requires AckedUpTo(g, w, n.nodes[v].term, n.nodes[v].LastIndex())
    ensures Shape(g) && v in g.ids && w in g.ids && Agree(g.log[w], g.log[v], |g.log[v]|)
  {
    hide NodeOk;
    hide FlightOk;
    var t, k := n.nodes[v].term, n.nodes[v].LastIndex();
    LeaderRecorded(n, g, v);
    LastInLedger(n, g, v);
    NodeFacts(g, w, n.nodes[w], n.stores[w]);
    assert KeptInLog(g, w, t, k);
  }

  // --------------------------------------------------------- after a snapshot is installed

  /** Appending to an empty log just after the base stores exactly what is sent. */
  lemma {:induction false} StoreOnto(n: Node, entries: Log)
    requires n.log == []
    ensures StoreEntries(n, n.baseIndex, entries) == n.(log := entries)
  {
    if entries != [] {
      StoreOnto(n, entries[..|entries| - 1]);
      assert entries == entries[..|entries| - 1] + [entries[|entries| - 1]];
    }
  }

  /** The leader's snapshot is ahead of the follower and due. */
  ghost predicate SnapshotDue(l: Node, f: Node) {
    Leading(l, f) && NextFor(l, f.id) <= l.baseIndex && l.baseIndex > f.commit
  }

  lemma InstalledFirst(l: Node, f: Node)
    requires SnapshotDue(l, f)
    ensures var (m, e) := Round(l, f);
            && e.log == [] && e.baseIndex == l.baseIndex && e.id == f.id && e.term == l.term && Leading(m, e)
            && m.baseIndex == l.baseIndex && NextFor(m, e.id) == l.baseIndex + 1 && m.log == l.log
            && SameLeader(l, m)
  {
  }

  lemma StoredSecond(l: Node, f: Node)
    requires Leading(l, f) && f.log == [] && f.baseIndex == l.baseIndex && NextFor(l, f.id) == l.baseIndex + 1
    ensures ReplicateTo(l, f.id).Some?
    ensures var e := Handle(f, ReplicateTo(l, f.id).value.msg).0; e.log == l.log && e.baseIndex == l.baseIndex
    ensures !Rejects(l, f)
  {
    hide StoreEntries;
    StoreOnto(Following(f, l.term, l.id), l.log);
    assert l.log[0..] == l.log;
  }

  /** A follower that installs the leader's snapshot, whatever it throws away by that, holds exactly the
      leader's log after one more round. */
  lemma InstalledRounds(l: Node, f: Node)
    requires SnapshotDue(l, f)
    ensures var (m, e) := Rounds(l, f, 2);
            && KnownCaughtUp(m, f.id) && SameLeader(l, m)
            && e.baseIndex == m.baseIndex && e.log == m.log
  {
    hide Rejects;
    hide Handle;
    hide HandleReply;
    hide ReplicateTo;
    hide Leading;
    hide SameLeader;
    hide KnownCaughtUp;
    hide NextFor;
    var (m, e) := Round(l, f);
    InstalledFirst(l, f);
    StoredSecond(m, e);
    AcceptedRound(m, e);
    TwoRounds(l, f);
    SameLeaderTrans(l, m, Round(m, e).0);
    SameLeaderLog(m, Round(m, e).0);
  }

  lemma SameLeaderLog(l: Node, m: Node)
    requires SameLeader(l, m)
    ensures m.log == l.log && m.baseIndex == l.baseIndex
  {
  }

  lemma UnsafeIsDue(l: Node, f: Node)
    requires Leading(l, f) && !SafeToSend(l, f)
    ensures SnapshotDue(l, f)
  {
  }

  // ------------------------------------------------------------------------- main theorem

  /** The two nodes agree on every index up to the leader's last. */
  ghost predicate AgreeThroughout(m: Node, e: Node) {
    && m.LastIndex() <= e.LastIndex()
    && forall i :: HasEntry(m, i) && HasEntry(e, i) ==> EntryAt(m, i) == EntryAt(e, i)
  }

  /** In every reachable state, exchanging messages between a leader and a follower of no higher term
      ends, after at most one round more than the follower's next index, with the leader knowing the
      follower to be caught up and the follower agreeing with it on every index up to its last. */
  lemma CatchUpInRuns(nets: seq<Net>, steps: seq<Step>, v: NodeId, w: NodeId) returns (k: nat)
    requires Run(nets, steps)
    requires var n := nets[|nets| - 1];
             && v in n.nodes && w in n.nodes && v != w
             && n.nodes[v].role == Leader && n.nodes[w].term <= n.nodes[v].term
    ensures var l, f := nets[|nets| - 1].nodes[v], nets[|nets| - 1].nodes[w];
            var (m, e) := Rounds(l, f, k);
            k <= NextFor(l, w) + 1 && KnownCaughtUp(m, w) && SameLeader(l, m) && AgreeThroughout(m, e)
  {
    hide Run;
    hide Inv;
    hide Rounds;
    hide SafeToSend;
    hide SameLeader;
    hide KnownCaughtUp;
    var ledgers := RunRecorded(nets, steps);
    var last := |nets| - 1;
    KeysAgree(nets[last], ledgers[last]);
    LeadingReached(nets[last], ledgers[last], v, w);
    var l, f := nets[last].nodes[v], nets[last].nodes[w];
    if SafeToSend(l, f) {
      k := SafeCatchUp(nets[last], ledgers[last], v, w);
    } else {
      k := 2;
      UnsafeIsDue(l, f);
      InstalledRounds(l, f);
    }
  }

  lemma SafeCatchUp(n: Net, g: Ledger, v: NodeId, w: NodeId) returns (k: nat)
    requires Inv(n, g) && Pair(n, v, w) && n.nodes[v].role == Leader && n.nodes[w].term <= n.nodes[v].term
    requires SafeToSend(n.nodes[v], n.nodes[w])
    ensures var (m, e) := Rounds(n.nodes[v], n.nodes[w], k);
            && k <= NextFor(n.nodes[v], w) + 1 && KnownCaughtUp(m, w) && SameLeader(n.nodes[v], m)
            && AgreeThroughout(m, e)
  {
    hide Inv;
    hide Rounds;
    hide SafeToSend;
    var m, h;
    k, m, h := Converges(n, g, v, w);
    AckedAgrees(m, h, v, w);
    LastInLedger(m, h, v);
    LastInLedger(m, h, w);
    forall i | HasEntry(m.nodes[v], i) && HasEntry(m.nodes[w], i)
      ensures EntryAt(m.nodes[v], i) == EntryAt(m.nodes[w], i)
    {
      EntryInLedger(m, h, v, i);
      EntryInLedger(m, h, w, i);
    }
  }

  lemma KeysAgree(n: Net, g: Ledger)
    requires Inv(n, g)
    ensures n.nodes.Keys == n.stores.Keys
  {
  }
}
