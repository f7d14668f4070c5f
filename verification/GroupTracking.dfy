/** What a leader of a replica group knows about its followers, and why its snapshots never throw a
    matching suffix away: between calls, a follower's next index is beyond all it shares with the leader,
    or its commit index covers that; while messages are delivered, the queue mends what falls short. */
module GroupTracking {
  import opened RaftTypes
  import opened RaftNode
  import opened RaftLedger
  import opened RaftLink
  import opened RaftSteps
  import opened RaftNetwork
  import opened RaftSafety
  import opened GroupSpec
  import opened GroupQueue

  // ------------------------------------------------------------------- the shared part

  /** How many first entries two logs share. */
  ghost function Shared(a: Log, b: Log): (k: nat)
    ensures k <= |a| && k <= |b|
  {
    if a == [] || b == [] || a[0] != b[0] then 0 else 1 + Shared(a[1..], b[1..])
  }

  lemma {:induction false} SharedAgrees(a: Log, b: Log, n: nat)
    ensures Agree(a, b, n) <==> n <= Shared(a, b)
    decreases |a|
  {
    if n > 0 && a != [] && b != [] {
      SharedAgrees(a[1..], b[1..], n - 1);
      if Agree(a, b, n) {
        assert forall i :: 0 <= i < n - 1 ==> a[1..][i] == b[1..][i];
      }
      if Agree(a[1..], b[1..], n - 1) && a[0] == b[0] {
        forall i | 0 <= i < n
          ensures a[i] == b[i]
        {
          assert i > 0 ==> a[i] == a[1..][i - 1] && b[i] == b[1..][i - 1];
        }
      }
    }
  }

  /** How much of node `f`'s log is in the leader log of term `t`. */
  ghost function Depth(g: Ledger, f: NodeId, t: nat): nat {
    if f in g.log && t in g.tlog then Shared(g.log[f], g.tlog[t]) else 0
  }

  /** Growing the leader log moves the end of the shared part only if that was the end of the log. */
  lemma SharedLonger(a: Log, b: Log, c: Log)
    requires Agree(b, c, |b|)
    ensures Shared(a, b) <= Shared(a, c)
    ensures Shared(a, b) < |b| ==> Shared(a, c) == Shared(a, b)
  {
    var d := Shared(a, b);
    SharedAgrees(a, b, d);
    SharedAgrees(a, b, d + 1);
    SharedAgrees(a, c, d);
    SharedAgrees(a, c, d + 1);
    assert d < |b| && d < |a| ==> b[d] == c[d];
  }

  lemma DepthGrows(g: Ledger, h: Ledger, f: NodeId, t: nat)
    requires Grows(g, h) && f in g.log && f in h.log && h.log[f] == g.log[f] && t in g.tlog
    ensures Depth(g, f, t) <= Depth(h, f, t) && Depth(h, f, t) <= |h.tlog[t]|
    ensures Depth(g, f, t) < |g.tlog[t]| ==> Depth(h, f, t) == Depth(g, f, t)
  {
    hide Shape;
    assert Agree(g.tlog[t], h.tlog[t], |g.tlog[t]|);
    SharedLonger(g.log[f], g.tlog[t], h.tlog[t]);
  }

  /** What a node has committed it shares with every leader of its term or later. */
  lemma CommitShared(g: Ledger, f: NodeId, n: Node, t: nat)
    requires Sound(g) && NodeLog(g, f, n) && NodeCommit(g, f, n) && n.term <= t && t in g.tlog
    ensures n.commit <= Depth(g, f, t)
  {
    hide Sound;
    hide CommittedPrefix;
    hide PeersOf;
    CommittedInLeader(g, g.log[f], n.commit, n.term, t);
    SharedAgrees(g.log[f], g.tlog[t], n.commit);
  }

  /** How long the log was with which the leader of term `t` was elected. */
  ghost function ElectedLength(g: Ledger, t: nat): nat {
    if t in g.elected then |g.elected[t].log| else 0
  }

  /** A node that has not seen term `t` shares at most the log its leader was elected with. */
  lemma EarlierShares(g: Ledger, f: NodeId, t: nat)
    requires Sound(g) && f in g.ids && t in g.tlog && g.term[f] < t
    ensures Depth(g, f, t) <= ElectedLength(g, t) <= |g.tlog[t]|
  {
    assert GoodTermLog(g, t) && GoodNode(g, f);
    var k := ElectedLength(g, t);
    SharedAgrees(g.log[f], g.tlog[t], k + 1);
    assert k < |g.tlog[t]| ==> g.tlog[t][k].term == t;
    assert k < |g.log[f]| ==> g.log[f][k].term < t;
  }

  // ------------------------------------------------------------- how a follower hears

  /** Nothing the tracking depends on changed. */
  ghost predicate SamePlace(g: Ledger, h: Ledger, f: NodeId, n: Node, m: Node) {
    f in g.log && f in h.log && h.log[f] == g.log[f] && m.commit == n.commit
  }

  /** If the part a node keeps and its base are unchanged, so is its whole log. */
  lemma SameFull(g: Ledger, h: Ledger, f: NodeId, n: Node, m: Node)
    requires NodeLog(g, f, n) && NodeLog(h, f, m) && m.log == n.log && m.baseIndex == n.baseIndex
    requires Agree(g.log[f], h.log[f], n.commit)
    ensures f in g.log && f in h.log && h.log[f] == g.log[f]
  {
    assert |h.log[f]| == |g.log[f]|;
    forall i | 0 <= i < |g.log[f]|
      ensures g.log[f][i] == h.log[f][i]
    {
      if i >= n.baseIndex {
        assert n.log[i - n.baseIndex] == g.log[f][i] && m.log[i - n.baseIndex] == h.log[f][i];
      }
    }
  }

  /** What holds around the delivery of `e` to a node that goes from `n` to `m`. */
  ghost predicate Hears(g: Ledger, h: Ledger, e: Envelope<RaftMsg>, n: Node, m: Node, reply: RaftReply) {
    && Sound(g) && Sound(h) && Local(g, h, e.to) && RequestOk(g, e) && ReplyOk(h, Envelope(e.to, e.from, reply))
    && NodeLog(g, e.to, n) && NodeCommit(g, e.to, n) && NodeLog(h, e.to, m) && NodeCommit(h, e.to, m)
    && Agree(g.log[e.to], h.log[e.to], n.commit) && n.term <= m.term && n.commit <= m.commit
    && m == Handle(n, e.msg).0 && reply == Handle(n, e.msg).1
  }

  lemma StaleHears(g: Ledger, h: Ledger, e: Envelope<RaftMsg>, n: Node, m: Node, reply: RaftReply)
    requires Hears(g, h, e, n, m, reply) && e.msg.term < n.term
    ensures m == n && SamePlace(g, h, e.to, n, m) && reply.term == n.term
  {
    hide Sound;
    hide Local;
    hide RequestOk;
    hide ReplyOk;
    hide NodeCommit;
    hide PeersOf;
    SameFull(g, h, e.to, n, m);
  }

  lemma VoteHears(g: Ledger, h: Ledger, e: Envelope<RaftMsg>, n: Node, m: Node, reply: RaftReply)
    requires Hears(g, h, e, n, m, reply) && n.term <= e.msg.term && e.msg.RequestVote?
    ensures SamePlace(g, h, e.to, n, m) && m.term == reply.term == e.msg.term && reply.VoteReply?
  {
    hide Sound;
    hide Local;
    hide RequestOk;
    hide ReplyOk;
    hide NodeCommit;
    hide PeersOf;
    hide LogOk;
    SameFull(g, h, e.to, n, m);
  }

  /** The consistency check of an append, and the hint of its rejection. */
  predicate Anchored(n: Node, prev: nat, prevTerm: nat) {
    prev <= n.LastIndex() && !(prev > n.baseIndex && n.TermAt(prev) != prevTerm)
  }

  lemma AnchoredIsShared(g: Ledger, f: NodeId, n: Node, t: nat, prev: nat)
    requires Sound(g) && NodeLog(g, f, n) && NodeCommit(g, f, n) && n.term <= t && t in g.tlog && prev <= |g.tlog[t]|
    ensures Anchored(n, prev, TermAtIndex(g.tlog[t], prev)) <==> prev <= Depth(g, f, t)
    ensures Depth(g, f, t) <= n.LastIndex()
  {
    hide Sound;
    hide CommittedPrefix;
    hide PeersOf;
    CommitShared(g, f, n, t);
    SharedAgrees(g.log[f], g.tlog[t], prev);
    if n.baseIndex < prev <= n.LastIndex() {
      TermAtMeansLog(g, f, n, prev);
      if n.TermAt(prev) == TermAtIndex(g.tlog[t], prev) {
        SameTermAgree(g, f, t, prev - 1);
      }
    }
  }

  lemma AppendHandled(n: Node, msg: RaftMsg)
    requires msg.AppendEntries? && n.term <= msg.term
    ensures var r := Handle(n, msg);
            && r.0.term == r.1.term == msg.term && r.1.AppendReply?
            && (Anchored(n, msg.prevLogIndex, msg.prevLogTerm) ==>
                  && r.1.success && r.1.matchIndex == msg.prevLogIndex + |msg.entries|
                  && (msg.leaderCommit <= r.0.LastIndex() ==> msg.leaderCommit <= r.0.commit))
            && (!Anchored(n, msg.prevLogIndex, msg.prevLogTerm) ==>
                  && !r.1.success && r.0.log == n.log && r.0.baseIndex == n.baseIndex && r.0.commit == n.commit
                  && r.1.matchIndex == if msg.prevLogIndex > n.LastIndex() then n.LastIndex() else msg.prevLogIndex - 1)
  {
    hide StoreEntries;
    StoreFields(Following(n, msg.term, msg.leaderId), msg.prevLogIndex, msg.entries);
  }

  /** What a node has acknowledged in its present term it shares with that term's leader. */
  lemma AckedShares(h: Ledger, f: NodeId, t: nat, k: nat)
    requires Sound(h) && f in h.ids && (f, t) in h.acks && k <= h.acks[(f, t)] && h.term[f] == t
    ensures t in h.tlog && k <= Depth(h, f, t)
  {
    assert GoodAck(h, f, t) && KeptInLog(h, f, t, k);
    SharedAgrees(h.log[f], h.tlog[t], k);
  }

  lemma AppendHears(g: Ledger, h: Ledger, e: Envelope<RaftMsg>, n: Node, m: Node, reply: RaftReply)
    requires Hears(g, h, e, n, m, reply) && n.term <= e.msg.term && e.msg.AppendEntries?
    ensures m.term == reply.term == e.msg.term && reply.AppendReply?
    ensures e.msg.prevLogIndex <= Depth(g, e.to, e.msg.term) ==>
              && reply.success && reply.matchIndex == e.msg.prevLogIndex + |e.msg.entries| <= Depth(h, e.to, e.msg.term)
              && e.msg.leaderCommit <= m.commit
    ensures e.msg.prevLogIndex > Depth(g, e.to, e.msg.term) ==>
              !reply.success && SamePlace(g, h, e.to, n, m) && Depth(g, e.to, e.msg.term) <= reply.matchIndex
  {
    hide Sound;
    hide Local;
    hide NodeCommit;
    hide PeersOf;
    hide Handle;
    hide Anchored;
    hide CommittedPrefix;
    AppendHandled(n, e.msg);
    AnchoredIsShared(g, e.to, n, e.msg.term, e.msg.prevLogIndex);
    if e.msg.prevLogIndex <= Depth(g, e.to, e.msg.term) {
      AckedShares(h, e.to, e.msg.term, reply.matchIndex);
    } else {
      SameFull(g, h, e.to, n, m);
    }
  }

  lemma SnapshotHears(g: Ledger, h: Ledger, e: Envelope<RaftMsg>, n: Node, m: Node, reply: RaftReply)
    requires Hears(g, h, e, n, m, reply) && n.term <= e.msg.term && e.msg.InstallSnapshot?
    ensures m.term == reply.term == e.msg.term && reply.SnapshotReply? && e.msg.lastIncludedIndex <= m.commit
  {
    hide Sound;
    hide Local;
    hide RequestOk;
    hide ReplyOk;
    hide NodeCommit;
    hide PeersOf;
  }

  /** Hearing a message never throws a matching suffix away when the snapshot is of more than the shared
      part or of no more than the node has committed. */
  lemma HarmlessSnapshot(g: Ledger, e: Envelope<RaftMsg>, n: Node)
    requires Sound(g) && RequestOk(g, e) && NodeLog(g, e.to, n)
    requires e.msg.InstallSnapshot? && e.msg.term >= n.term ==>
      Depth(g, e.to, e.msg.term) < e.msg.lastIncludedIndex || e.msg.lastIncludedIndex <= n.commit
    ensures !DiscardsMatch(n, e.msg)
  {
    hide Sound;
    hide CommittedPrefix;
    hide PeersOf;
    hide Fold;
    if DiscardsMatch(n, e.msg) {
      SharedIsTerm(g, e, n);
      SharedAgrees(g.log[e.to], g.tlog[e.msg.term], e.msg.lastIncludedIndex);
    }
  }


  /** Every snapshot in the queue is within the recorded log of its term. */
  ghost predicate SnapsWithin(g: Ledger, q: seq<Mail>, t: nat) {
    forall m :: m in q && m.out.msg.InstallSnapshot? ==> t in g.tlog && m.out.msg.lastIncludedIndex <= |g.tlog[t]|
  }

  /** A follower whose log is unchanged stays as safe from the snapshots in the queue as it was. */
  lemma SnapsKeptSafe(g: Ledger, h: Ledger, f: NodeId, t: nat, q: seq<Mail>, c: nat)
    requires Grows(g, h) && f in g.log && f in h.log && h.log[f] == g.log[f] && SnapsWithin(g, q, t)
    requires SnapsSafe(q, f, Depth(g, f, t), c)
    ensures SnapsSafe(q, f, Depth(h, f, t), c)
  {
    hide Grows;
    hide Depth;
    hide SnapsSafe;
    if t in g.tlog {
      DepthGrows(g, h, f, t);
      SnapsDeeper(q, f, Depth(g, f, t), c, Depth(h, f, t));
    } else {
      CommittedSnaps(q, f, Depth(h, f, t), c);
    }
  }

  /** No snapshot behind an append or snapshot goes beyond what that tells its receiver to commit. */
  lemma BehindHead(x: Node, v: NodeId, t: nat, q: seq<Mail>)
    requires q != [] && Letters(x, v, t, q)
    ensures forall m :: m in q[1..] && m.out.msg.InstallSnapshot? ==>
              && (q[0].out.msg.AppendEntries? ==> m.out.msg.lastIncludedIndex <= q[0].out.msg.leaderCommit)
              && (q[0].out.msg.InstallSnapshot? ==> m.out.msg.lastIncludedIndex <= q[0].out.msg.lastIncludedIndex)
  {
    assert q[0] in q && Letter(x, v, t, q[0]);
    forall m | m in q[1..]
      ensures Letter(x, v, t, m)
    {
      assert m in q;
    }
  }

  lemma HearsGrows(g: Ledger, h: Ledger, e: Envelope<RaftMsg>, n: Node, m: Node, reply: RaftReply)
    requires Hears(g, h, e, n, m, reply)
    ensures Grows(g, h) && e.to in g.log && e.to in h.log && n.term <= m.term && n.commit <= m.commit
  {
    hide Sound;
  }

  /** Whatever a follower hears from the leader of its term or a later one leaves no harmful snapshot
      behind. */
  lemma HeardSnaps(g: Ledger, h: Ledger, e: Envelope<RaftMsg>, n: Node, m: Node, reply: RaftReply, x: Node,
                   q: seq<Mail>)
    requires Hears(g, h, e, n, m, reply) && n.term <= e.msg.term
    requires q != [] && q[0] == Mail(e.from, Outgoing(e.to, e.msg)) && Letters(x, e.from, e.msg.term, q)
    requires SnapsWithin(g, q[1..], e.msg.term) && SnapsSafe(q, e.to, Depth(g, e.to, e.msg.term), n.commit)
    ensures SnapsSafe(q[1..], e.to, Depth(h, e.to, e.msg.term), m.commit)
  {
    hide Hears;
    hide SnapsSafe;
    hide SnapsWithin;
    hide Depth;
    hide Grows;
    hide Letter;
    hide Letters;
    HearsGrows(g, h, e, n, m, reply);
    BehindHead(x, e.from, e.msg.term, q);
    match e.msg
    case RequestVote(_, _, _, _) =>
      VoteHears(g, h, e, n, m, reply);
      PopSnaps(q, e.to, Depth(g, e.to, e.msg.term), n.commit);
      SnapsKeptSafe(g, h, e.to, e.msg.term, q[1..], m.commit);
    case AppendEntries(_, _, prev, _, commit, _) =>
      AppendHears(g, h, e, n, m, reply);
      if prev <= Depth(g, e.to, e.msg.term) {
        CommittedSnaps(q[1..], e.to, Depth(h, e.to, e.msg.term), m.commit);
      } else {
        PopSnaps(q, e.to, Depth(g, e.to, e.msg.term), n.commit);
        SnapsKeptSafe(g, h, e.to, e.msg.term, q[1..], m.commit);
      }
    case InstallSnapshot(_, _, _, _, _) =>
      SnapshotHears(g, h, e, n, m, reply);
      CommittedSnaps(q[1..], e.to, Depth(h, e.to, e.msg.term), m.commit);
  }

  /** And what the leader takes from the reply fits. */
  lemma HeardFits(g: Ledger, h: Ledger, e: Envelope<RaftMsg>, n: Node, m: Node, reply: RaftReply, x: Node,
                  q: seq<Mail>)
    requires Hears(g, h, e, n, m, reply) && n.term <= e.msg.term && e.to in x.nextIndex && x.role == Leader
    requires x.term == e.msg.term && e.msg.term in g.tlog && e.msg.term in h.tlog
    requires g.tlog[e.msg.term] == h.tlog[e.msg.term]
    requires q != [] && q[0] == Mail(e.from, Outgoing(e.to, e.msg)) && Letters(x, e.from, e.msg.term, q)
    requires Pending(q, e.to, Depth(g, e.to, e.msg.term), n.commit, x.nextIndex[e.to])
    ensures ReplyFits(x, q[1..], e.to, Depth(h, e.to, e.msg.term), m.commit, reply) && Timely(x, reply)
  {
    hide Hears;
    hide Grows;
    hide Pending;
    hide MendQueued;
    HearsGrows(g, h, e, n, m, reply);
    var d := Depth(g, e.to, e.msg.term);
    assert q[0] in q && Letter(x, e.from, e.msg.term, q[0]);
    match e.msg
    case RequestVote(_, _, _, _) =>
      VoteHears(g, h, e, n, m, reply);
      PopPending(q, e.to, d, n.commit, x.nextIndex[e.to]);
    case AppendEntries(_, _, prev, _, _, _) =>
      AppendHears(g, h, e, n, m, reply);
      if prev > d {
        assert !Reaches(q[0], e.to, d);
        MissedHead(q, e.to, d, n.commit, x.nextIndex[e.to]);
      }
    case InstallSnapshot(_, _, _, _, _) => SnapshotHears(g, h, e, n, m, reply);
  }

  /** A message that misses the shared part was not the last resort. */
  lemma MissedHead(q: seq<Mail>, f: NodeId, d: nat, c: nat, next: nat)
    requires q != [] && q[0].out.to == f && q[0].out.msg.AppendEntries? && !Reaches(q[0], f, d)
    requires Pending(q, f, d, c, next)
    ensures d <= c || d + 1 < next || MendQueued(q[1..], f, d)
  {
    if MendQueued(q, f, d) {
      var i :| 0 <= i < |q| && Mends(q[i], f, d);
      assert q[1..][i - 1] == q[i];
    }
  }

  // ------------------------------------------------------------- what a leader knows

  /** The leader's next index for a follower is beyond the log it was elected with, if the follower has
      not seen its term. */
  ghost predicate Near(g: Ledger, x: Node, f: NodeId, n: Node) {
    f in x.nextIndex && (n.term < x.term ==> ElectedLength(g, x.term) < x.nextIndex[f])
  }

  /** The next index is beyond what the follower shares with the leader, or its commit index is as far. */
  ghost predicate Tracked(g: Ledger, x: Node, f: NodeId, n: Node) {
    n.term <= x.term ==>
      && Near(g, x, f, n)
      && (Depth(g, f, x.term) <= n.commit || Depth(g, f, x.term) < x.nextIndex[f])
  }

  /** A step of another node `w` on behalf of `v` keeps what leader `u` knows of it: only leaders of its
      own term change a node's log. */
  lemma TrackedStep(g: Ledger, h: Ledger, v: NodeId, w: NodeId, u: NodeId, x: Node, n: Node, m: Node)
    requires Local(g, h, w) && Tracked(g, x, w, n) && w != u && v != u
    requires x.term in g.elected && g.elected[x.term].leader == u
    requires NodeLog(g, w, n) && NodeLog(h, w, m) && n.term <= m.term && n.commit <= m.commit
    requires h.log[w] == g.log[w] || (m.term in h.elected && h.elected[m.term].leader == v)
    ensures Tracked(h, x, w, m)
  {
    hide Sound;
    hide PeersOf;
    LocalFacts(g, h, w);
    assert h.elected[x.term] == g.elected[x.term] && h.tlog[x.term] == g.tlog[x.term];
    if m.term < x.term {
      EarlierShares(h, w, x.term);
    } else if n.term < m.term == x.term {
      EarlierShares(g, w, x.term);
    }
  }

  /** A step of `w` does not touch what leader `u` knows of a third node `f`. */
  lemma TrackedAside(g: Ledger, h: Ledger, w: NodeId, u: NodeId, x: Node, f: NodeId, n: Node)
    requires Local(g, h, w) && Tracked(g, x, f, n) && w != f && f in g.ids
    requires x.term in g.elected && x.term in h.tlog && h.tlog[x.term] == g.tlog[x.term]
    ensures Tracked(h, x, f, n)
  {
    hide Sound;
    LocalFacts(g, h, w);
    LocalOther(g, h, w, f);
  }
}
