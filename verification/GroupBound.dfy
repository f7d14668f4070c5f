/** The driver's bound on deliveries is out of reach for groups of moderate size: every exchange lowers a
    measure of what the queue can still cause, so a loop that starts below the bound empties its queue. */
module GroupBound {
  import opened RaftTypes
  import opened RaftNode
  import opened RaftLedger
  import opened RaftLink
  import opened RaftSteps
  import opened RaftNetwork
  import opened GroupSpec
  import opened GroupRuns
  import opened GroupQueue
  import opened GroupTracking
  import opened GroupHarmless

  // ------------------------------------------------------------------------ the measure

  /** How many deliveries a message can cause by itself: an append that will be rejected is retried ever
      further back, down to the shared part or a snapshot, and a snapshot is followed by one append. */
  ghost function Weight(x: Node, g: Ledger, t: nat, m: Mail): (w: nat)
    ensures w >= 1
  {
    if x.role != Leader then 1
    else
      match m.out.msg
      case RequestVote(_, _, _, _) => 1
      case InstallSnapshot(_, _, _, _, _) => 2
      case AppendEntries(_, _, prev, _, _, _) =>
        if prev <= Depth(g, m.out.to, t) || prev < x.baseIndex then 1 else 3 + prev - x.baseIndex
  }

  ghost function Total(x: Node, g: Ledger, t: nat, q: seq<Mail>): (n: nat)
    ensures n >= |q|
  {
    if q == [] then 0 else Weight(x, g, t, q[0]) + Total(x, g, t, q[1..])
  }

  lemma {:induction false} TotalSplit(x: Node, g: Ledger, t: nat, a: seq<Mail>, b: seq<Mail>)
    ensures Total(x, g, t, a + b) == Total(x, g, t, a) + Total(x, g, t, b)
  {
    hide Weight;
    if a == [] {
      assert a + b == b;
    } else {
      TotalSplit(x, g, t, a[1..], b);
      assert (a + b)[1..] == a[1..] + b;
    }
  }

  ghost predicate Lighter(x: Node, g: Ledger, y: Node, h: Ledger, t: nat, m: Mail) {
    Weight(y, h, t, m) <= Weight(x, g, t, m)
  }

  lemma {:induction false} TotalFalls(x: Node, g: Ledger, y: Node, h: Ledger, t: nat, q: seq<Mail>)
    requires forall m :: m in q ==> Lighter(x, g, y, h, t, m)
    ensures Total(y, h, t, q) <= Total(x, g, t, q)
  {
    hide Weight;
    if q != [] {
      assert q[0] in q && Lighter(x, g, y, h, t, q[0]);
      forall m | m in q[1..]
        ensures Lighter(x, g, y, h, t, m)
      {
        assert m in q;
      }
      TotalFalls(x, g, y, h, t, q[1..]);
    }
  }

  lemma {:induction false} TotalAtMost(x: Node, g: Ledger, t: nat, q: seq<Mail>, w: nat)
    requires forall m :: m in q ==> Weight(x, g, t, m) <= w
    ensures Total(x, g, t, q) <= |q| * w
  {
    hide Weight;
    if q != [] {
      assert q[0] in q;
      forall m | m in q[1..]
        ensures Weight(x, g, t, m) <= w
      {
        assert m in q;
      }
      TotalAtMost(x, g, t, q[1..], w);
    }
  }

  lemma {:induction false} TotalIdle(x: Node, g: Ledger, t: nat, q: seq<Mail>)
    requires x.role != Leader
    ensures Total(x, g, t, q) == |q|
  {
    if q != [] {
      TotalIdle(x, g, t, q[1..]);
    }
  }

  /** No letter weighs more than a retry from the end of the log. */
  lemma LetterWeight(x: Node, g: Ledger, v: NodeId, t: nat, m: Mail)
    requires Letter(x, v, t, m)
    ensures Weight(x, g, t, m) <= 3 + |x.log|
  {
  }

  /** The rounds of messages still to come: one for each entry not yet committed, and one more for a
      candidate that wins. */
  ghost function Reserve(x: Node): nat {
    if x.commit > x.LastIndex() then 0
    else if x.role == Leader then Product(x.LastIndex() - x.commit, Product(|x.peers|, 3 + |x.log|))
    else if x.role == Candidate then Product(x.LastIndex() + 2 - x.commit, Product(|x.peers|, 4 + |x.log|))
    else 0
  }

  function Product(a: nat, b: nat): nat { a * b }

  ghost function Measure(x: Node, g: Ledger, t: nat, q: seq<Mail>): nat {
    Total(x, g, t, q) + Reserve(x)
  }

  lemma Times(a: nat, b: nat, c: nat)
    requires a < b
    ensures a * c + c <= b * c
  {
    assert b * c == a * c + (b - a) * c;
    assert (b - a) * c == (b - a - 1) * c + c;
  }

  lemma TimesMore(a: nat, b: nat, c: nat)
    requires a <= b
    ensures a * c <= b * c && c * a <= c * b
  {
  }

  // ------------------------------------------------------- retries go ever further back

  /** An append that will be rejected was sent when the next index was no lower than now. */
  ghost predicate Late(x: Node, g: Ledger, t: nat, m: Mail) {
    m.out.msg.AppendEntries? && m.out.msg.prevLogIndex > Depth(g, m.out.to, t) ==>
      m.out.to in x.nextIndex && x.nextIndex[m.out.to] <= m.out.msg.prevLogIndex + 1
  }

  ghost predicate AllLate(x: Node, g: Ledger, t: nat, q: seq<Mail>) {
    x.role == Leader ==> forall m :: m in q ==> Late(x, g, t, m)
  }

  lemma LateSent(x: Node, v: NodeId, g: Ledger, t: nat, p: NodeId)
    requires Indexes(x, v, [p])
    ensures ReplicateTo(x, p).Some? && Late(x, g, t, Mail(v, ReplicateTo(x, p).value))
  {
    assert p in [p];
  }

  lemma {:induction false} BroadcastLate(x: Node, v: NodeId, g: Ledger, t: nat, peers: seq<NodeId>)
    requires Indexes(x, v, peers)
    ensures AllLate(x, g, t, Addressed(v, ReplicateToAll(x, peers)))
    ensures |ReplicateToAll(x, peers)| == |peers|
  {
    hide Indexes;
    hide ReplicateTo;
    hide Late;
    if peers != [] {
      IndexesPart(x, v, peers);
      BroadcastLate(x, v, g, t, peers[..|peers| - 1]);
      var p := peers[|peers| - 1];
      LateSent(x, v, g, t, p);
      BroadcastUnrolled(x, v, [], peers);
      var before := Addressed(v, ReplicateToAll(x, peers[..|peers| - 1]));
      assert [] + Addressed(v, ReplicateToAll(x, peers)) == Addressed(v, ReplicateToAll(x, peers));
      assert [] + before == before;
      assert Addressed(v, ReplicateToAll(x, peers)) == before + [Mail(v, ReplicateTo(x, p).value)];
    }
  }

  // ------------------------------------------------------------ a sender that does not lead

  lemma QuietCost(x: Node, l: Ledger, y: Node, k: Ledger, t: nat, q: seq<Mail>)
    requires q != [] && y.role != Leader && y.log == x.log && y.baseIndex == x.baseIndex && y.commit == x.commit
    requires y.peers == x.peers && (y.role == Candidate ==> x.role == Candidate)
    ensures Measure(y, k, t, q[1..]) < Measure(x, l, t, q)
  {
    TotalIdle(y, k, t, q[1..]);
  }

  lemma CrownedShape(c: Node)
    ensures var y := BecomeLeader(c).0;
            && y.peers == c.peers && y.baseIndex == c.baseIndex && y.commit == c.commit && y.role == Leader
            && |c.log| <= |y.log| <= |c.log| + 1
    ensures BecomeLeader(c).1 == ReplicateToAll(Crowned(c), Crowned(c).peers) && Crowned(c).peers == c.peers
    ensures BecomeLeader(c).0 == Crowned(c).(timers := BecomeLeader(c).0.timers)
  {
    hide ReplicateToAll;
  }

  /** A candidate has set aside the deliveries it causes by winning. */
  lemma CrownCost(x: Node, l: Ledger, c: Node, y: Node, k: Ledger, v: NodeId, t: nat, q: seq<Mail>,
                  outs: seq<Outgoing>)
    requires q != [] && x.role == Candidate && c == x.(votesGranted := c.votesGranted) && (y, outs) == BecomeLeader(c)
    requires Letters(y, v, t, q[1..] + Addressed(v, outs)) && Letters(x, v, t, q) && |outs| == |x.peers|
    requires x.commit <= x.LastIndex()
    ensures Measure(y, k, t, q[1..] + Addressed(v, outs)) < Measure(x, l, t, q)
  {
    hide BecomeLeader;
    hide Letter;
    CrownedShape(c);
    var r, ms := q[1..], Addressed(v, outs);
    TotalSplit(y, k, t, r, ms);
    forall m | m in r
      ensures Lighter(x, l, y, k, t, m)
    {
      assert m in q;
      BallotWeight(x, v, t, m, y, k);
    }
    TotalFalls(x, l, y, k, t, r);
    forall m | m in ms
      ensures Weight(y, k, t, m) <= 4 + |x.log|
    {
      assert m in r + ms;
      LetterWeight(y, k, v, t, m);
    }
    TotalAtMost(y, k, t, ms, 4 + |x.log|);
    CrownReserve(x, y);
  }

  lemma BallotWeight(x: Node, v: NodeId, t: nat, m: Mail, y: Node, k: Ledger)
    requires x.role == Candidate && Letter(x, v, t, m)
    ensures Weight(y, k, t, m) == 1
  {
  }

  lemma CrownReserve(x: Node, y: Node)
    requires x.role == Candidate && y.role == Leader && x.commit <= x.LastIndex() && y.peers == x.peers
    requires y.baseIndex == x.baseIndex && y.commit == x.commit && |x.log| <= |y.log| <= |x.log| + 1
    ensures |x.peers| * (4 + |x.log|) + Reserve(y) <= Reserve(x)
  {
    var c := |x.peers| * (4 + |x.log|);
    var gap := x.LastIndex() + 1 - x.commit;
    TimesMore(3 + |y.log|, 4 + |x.log|, |x.peers|);
    TimesMore(y.LastIndex() - y.commit, gap, |x.peers| * (3 + |y.log|));
    TimesMore(|x.peers| * (3 + |y.log|), c, gap);
    Times(gap, gap + 1, c);
  }

  // -------------------------------------------------------------- a leader that goes on

  /** What the leader knows about the head of its queue when the reply to it arrives: how far it reached,
      and how much it weighed. */
  ghost predicate Weighed(x: Node, f: NodeId, reply: RaftReply, d: nat, w: nat) {
    f in x.nextIndex && w >= 1 &&
    match reply
    case VoteReply(_, _) => true
    case AppendReply(_, success, _) =>
      success || exists prev: nat :: MissedAt(x, f, d, w, prev)
    case SnapshotReply(_) => x.baseIndex <= d && w == 2
  }

  /** An append anchored at `prev`, beyond the shared part, weighed `w`. */
  ghost predicate MissedAt(x: Node, f: NodeId, d: nat, w: nat, prev: nat) {
    f in x.nextIndex && prev >= 1 && prev >= x.baseIndex && x.nextIndex[f] <= prev + 1 && w == 3 + prev - x.baseIndex
  }

  lemma OneMessage(y: Node, k: Ledger, v: NodeId, t: nat, f: NodeId)
    requires ReplicateTo(y, f).Some?
    ensures var ms := Addressed(v, Single(ReplicateTo(y, f)));
            ms == [Mail(v, ReplicateTo(y, f).value)]
            && Total(y, k, t, ms) == Weight(y, k, t, Mail(v, ReplicateTo(y, f).value))
  {
    hide ReplicateTo;
    hide Weight;
    var m := Mail(v, ReplicateTo(y, f).value);
    assert Addressed(v, Single(ReplicateTo(y, f))) == [m];
    assert [m][1..] == [];
    assert Total(y, k, t, [m]) == Weight(y, k, t, m) + Total(y, k, t, []);
  }

  /** What is set aside does not depend on what is known of the peers. */
  lemma ReserveSame(x: Node, y: Node)
    requires y.role == x.role && y.log == x.log && y.baseIndex == x.baseIndex && y.commit == x.commit
    requires y.peers == x.peers
    ensures Reserve(y) == Reserve(x)
  {
    hide Product;
  }

  /** A retry goes further back than the append it follows. */
  lemma RetryCost(x: Node, v: NodeId, f: NodeId, hint: nat, k: Ledger, t: nat, w: nat)
    requires Indexes(x, v, x.peers) && f in x.peers
    requires exists prev: nat :: MissedAt(x, f, Depth(k, f, t), w, prev)
    ensures var y := BackedUp(x, f, hint); var ms := Addressed(v, Single(ReplicateTo(y, f)));
            Total(y, k, t, ms) + Reserve(y) < w + Reserve(x) && AllLate(y, k, t, ms)
            && 1 <= y.nextIndex[f] <= x.nextIndex[f]
  {
    hide Reserve;
    hide Depth;
    var prev :| MissedAt(x, f, Depth(k, f, t), w, prev);
    var y := BackedUp(x, f, hint);
    BackedUpMoves(x, f, hint, v, 0);
    LateSent(y, v, k, t, f);
    OneMessage(y, k, v, t, f);
    BackedUpLower(x, f, hint);
    ReserveSame(x, y);
  }

  lemma BackedUpLower(x: Node, f: NodeId, hint: nat)
    requires f in x.nextIndex && x.nextIndex[f] >= 1
    ensures var y := BackedUp(x, f, hint);
            && f in y.nextIndex && y.nextIndex[f] <= x.nextIndex[f]
            && (x.nextIndex[f] > 1 ==> y.nextIndex[f] < x.nextIndex[f]) && y.nextIndex[f] >= 1
  {
  }

  /** After a snapshot the leader sends what follows it, and that is accepted. */
  lemma FollowCost(x: Node, v: NodeId, f: NodeId, k: Ledger, t: nat)
    requires Indexes(x, v, x.peers) && f in x.peers && x.baseIndex <= Depth(k, f, t)
    ensures var y := x.(matchIndex := x.matchIndex[f := x.baseIndex], nextIndex := x.nextIndex[f := x.baseIndex + 1]);
            var ms := Addressed(v, Single(ReplicateTo(y, f)));
            Total(y, k, t, ms) + Reserve(y) < 2 + Reserve(x) && AllLate(y, k, t, ms)
  {
    hide Reserve;
    hide Depth;
    Moved(x, f, x.baseIndex + 1, x.matchIndex[f := x.baseIndex], v);
    var y := x.(matchIndex := x.matchIndex[f := x.baseIndex], nextIndex := x.nextIndex[f := x.baseIndex + 1]);
    LateSent(y, v, k, t, f);
    OneMessage(y, k, v, t, f);
    ReserveSame(x, y);
  }

  /** Committing further pays for a round of messages. */
  lemma AcknowledgedCost(x: Node, v: NodeId, f: NodeId, k: Ledger, t: nat)
    requires x.role == Leader && x.term == t && Indexes(x, v, x.peers) && f in x.peers
    ensures var r := Acknowledged(x, f, x.LastIndex()); var ms := Addressed(v, r.1);
            Total(r.0, k, t, ms) + Reserve(r.0) <= Reserve(x) && AllLate(r.0, k, t, ms)
  {
    hide ReplicateToAll;
    hide HighestCommittable;
    hide Weight;
    hide Letter;
    var last := x.LastIndex();
    Moved(x, f, last + 1, x.matchIndex[f := last], v);
    var m := x.(matchIndex := x.matchIndex[f := last], nextIndex := x.nextIndex[f := last + 1]);
    HighestRange(m, m.LastIndex());
    var a := AdvanceCommit(m);
    var b := Replicate(a).0;
    if a.commit > m.commit {
      BroadcastLate(a, v, k, t, a.peers);
      BroadcastLetters(a, v, [], a.peers);
      var ms := Addressed(v, ReplicateToAll(a, a.peers));
      assert [] + ms == ms;
      LettersFor(a, b, v, t, ms);
      forall n | n in ms
        ensures Weight(b, k, t, n) <= 3 + |x.log|
      {
        LetterWeight(b, k, v, t, n);
      }
      TotalAtMost(b, k, t, ms, 3 + |x.log|);
      Times(last - a.commit, last - x.commit, |x.peers| * (3 + |x.log|));
      TimesMore(last - a.commit + 1, last - x.commit, |x.peers| * (3 + |x.log|));
      LateTimers(a, b, k, t, ms);
    }
  }

  lemma LateTimers(a: Node, b: Node, k: Ledger, t: nat, q: seq<Mail>)
    requires AllLate(a, k, t, q) && b == a.(timers := b.timers)
    ensures AllLate(b, k, t, q)
  {
    if b.role == Leader {
      forall m | m in q
        ensures Late(b, k, t, m)
      {
        assert Late(a, k, t, m);
      }
    }
  }

  /** Whatever reply of its own term a leader takes, what it sends weighs less than what was answered. */
  lemma AnswerCost(x: Node, v: NodeId, f: NodeId, reply: RaftReply, k: Ledger, t: nat, w: nat)
    requires x.role == Leader && x.term == t && Indexes(x, v, x.peers) && f in x.peers && Timely(x, reply)
    requires Weighed(x, f, reply, Depth(k, f, t), w)
    ensures var r := HandleReply(x, f, reply); var ms := Addressed(v, r.1);
            Total(r.0, k, t, ms) + Reserve(r.0) < w + Reserve(x) && AllLate(r.0, k, t, ms)
  {
    hide Acknowledged;
    hide BackedUp;
    hide ReplicateTo;
    hide Weight;
    hide Late;
    hide Reserve;
    match reply
    case VoteReply(_, _) =>
    case AppendReply(_, success, index) =>
      if success {
        AcknowledgedCost(x, v, f, k, t);
      } else {
        RetryCost(x, v, f, index, k, t, w);
      }
    case SnapshotReply(_) => FollowCost(x, v, f, k, t);
  }

  // ------------------------------------------------------------------- one exchange

  /** A snapshot the follower does not need leaves its log alone. */
  lemma SnapshotIdle(l: Ledger, a: Ledger, e: Envelope<RaftMsg>, n: Node, m: Node, reply: RaftReply)
    requires Hears(l, a, e, n, m, reply) && e.msg.InstallSnapshot? && e.msg.lastIncludedIndex <= n.commit
    ensures e.to in l.log && e.to in a.log && a.log[e.to] == l.log[e.to]
  {
    hide Sound;
    hide Local;
    hide RequestOk;
    hide ReplyOk;
    hide NodeCommit;
    SameFull(l, a, e.to, n, m);
  }

  lemma SnapshotShared(l: Ledger, a: Ledger, e: Envelope<RaftMsg>, n: Node, m: Node, reply: RaftReply)
    requires Hears(l, a, e, n, m, reply) && n.term <= e.msg.term && e.msg.InstallSnapshot? && e.msg.term in a.tlog
    ensures e.msg.lastIncludedIndex <= Depth(a, e.to, e.msg.term)
  {
    hide Local;
    hide RequestOk;
    hide ReplyOk;
    hide Handle;
    hide NodeLog;
    hide NodeCommit;
    hide Sound;
    SnapshotHears(l, a, e, n, m, reply);
    CommitShared(a, e.to, m, e.msg.term);
  }

  /** A follower of a leader that goes on shares no less with it afterwards, and the head of the queue
      weighed what the reply to it says. */
  lemma HeadWeighed(l: Ledger, a: Ledger, e: Envelope<RaftMsg>, n: Node, m: Node, reply: RaftReply, x: Node,
                    q: seq<Mail>)
    requires Hears(l, a, e, n, m, reply) && n.term <= e.msg.term == x.term && x.role == Leader && e.to in x.nextIndex
    requires e.msg.term in l.tlog && e.msg.term in a.tlog && a.tlog[e.msg.term] == l.tlog[e.msg.term]
    requires |l.tlog[e.msg.term]| == x.LastIndex() && e.to in l.log && e.to in a.log
    requires q != [] && q[0] == Mail(e.from, Outgoing(e.to, e.msg)) && Letters(x, e.from, e.msg.term, q)
    requires AllLate(x, l, e.msg.term, q) && SnapsSafe(q, e.to, Depth(l, e.to, e.msg.term), n.commit)
    requires Timely(x, reply)
    ensures Weighed(x, e.to, reply, Depth(a, e.to, e.msg.term), Weight(x, l, e.msg.term, q[0]))
    ensures Depth(l, e.to, e.msg.term) <= Depth(a, e.to, e.msg.term)
  {
    hide Hears;
    hide SnapsSafe;
    var t, f := e.msg.term, e.to;
    assert q[0] in q && Letter(x, e.from, t, q[0]) && Late(x, l, t, q[0]);
    match e.msg
    case RequestVote(_, _, _, _) =>
      VoteHears(l, a, e, n, m, reply);
      SameDepth(l, a, f, t);
    case AppendEntries(_, _, prev, _, _, _) =>
      AppendHears(l, a, e, n, m, reply);
      if prev > Depth(l, f, t) {
        SameDepth(l, a, f, t);
        assert MissedAt(x, f, Depth(a, f, t), Weight(x, l, t, q[0]), prev);
      }
    case InstallSnapshot(_, _, index, _, _) =>
      SnapshotHears(l, a, e, n, m, reply);
      SnapshotShared(l, a, e, n, m, reply);
      FirstSnap(q, f, Depth(l, f, t), n.commit);
      if index <= n.commit {
        SnapshotIdle(l, a, e, n, m, reply);
        SameDepth(l, a, f, t);
      }
  }

  /** What is left of the queue weighs no more, and was sent no later, than before the leader took the
      reply. */
  lemma RestLighter(x: Node, l: Ledger, y: Node, k: Ledger, v: NodeId, t: nat, m: Mail, f: NodeId, reply: RaftReply)
    requires x.role == Leader && Letter(x, v, t, m) && Late(x, l, t, m) && Indexes(x, v, x.peers) && f in x.peers
    requires y == HandleReply(x, f, reply).0 && Timely(x, reply) && StillLeading(x, y, f)
    requires Depth(l, m.out.to, t) <= Depth(k, m.out.to, t)
    requires m.out.to == f && reply.AppendReply? && reply.success ==> x.LastIndex() <= Depth(k, f, t)
    ensures Lighter(x, l, y, k, t, m) && Late(y, k, t, m)
  {
    hide Acknowledged;
    hide ReplicateTo;
    hide Depth;
    if m.out.to == f && reply.AppendReply? && !reply.success {
      BackedUpLower(x, f, reply.matchIndex);
    }
  }

  lemma AllLateTail(x: Node, l: Ledger, t: nat, q: seq<Mail>)
    requires q != [] && AllLate(x, l, t, q)
    ensures AllLate(x, l, t, q[1..])
  {
    hide Late;
    forall m | m in q[1..] && x.role == Leader
      ensures Late(x, l, t, m)
    {
      assert m in q;
    }
  }

  lemma LateJoined(y: Node, k: Ledger, t: nat, a: seq<Mail>, b: seq<Mail>)
    requires AllLate(y, k, t, a) && AllLate(y, k, t, b)
    ensures AllLate(y, k, t, a + b)
  {
    hide Late;
  }

  /** The state of the sender and its queue can cause fewer deliveries than before. */
  ghost predicate Cheaper(x: Node, l: Ledger, q: seq<Mail>, y: Node, k: Ledger, r: seq<Mail>, t: nat) {
    Measure(y, k, t, r) < Measure(x, l, t, q) && AllLate(y, k, t, r)
  }

  /** The same for a leader, from what is known of the head and of the rest. */
  lemma LeaderCheaper(x: Node, l: Ledger, q: seq<Mail>, y: Node, k: Ledger, v: NodeId, t: nat, f: NodeId,
                      reply: RaftReply, outs: seq<Outgoing>)
    requires q != [] && x.role == Leader && x.term == t && Indexes(x, v, x.peers) && f in x.peers && Timely(x, reply)
    requires (y, outs) == HandleReply(x, f, reply) && StillLeading(x, y, f)
    requires Letters(x, v, t, q) && AllLate(x, l, t, q)
    requires Weighed(x, f, reply, Depth(k, f, t), Weight(x, l, t, q[0]))
    requires reply.AppendReply? && reply.success ==> x.LastIndex() <= Depth(k, f, t)
    requires forall m :: m in q[1..] ==> Depth(l, m.out.to, t) <= Depth(k, m.out.to, t)
    ensures Cheaper(x, l, q, y, k, q[1..] + Addressed(v, outs), t)
  {
    hide HandleReply;
    hide Weight;
    hide Late;
    hide Letter;
    hide Reserve;
    hide Weighed;
    hide Indexes;
    var r, ms := q[1..], Addressed(v, outs);
    AnswerCost(x, v, f, reply, k, t, Weight(x, l, t, q[0]));
    AllLateTail(x, l, t, q);
    forall m | m in r
      ensures Lighter(x, l, y, k, t, m) && Late(y, k, t, m)
    {
      assert m in q;
      RestLighter(x, l, y, k, v, t, m, f, reply);
    }
    TotalFalls(x, l, y, k, t, r);
    TotalSplit(y, k, t, r, ms);
    LateJoined(y, k, t, r, ms);
  }

  /** Every exchange lowers the measure, whatever becomes of the sender. */
  lemma ExchangeCheaper(g: Group, l: Ledger, v: NodeId, t: nat, q: seq<Mail>, a: Ledger, k: Ledger, y: Node,
                        outs: seq<Outgoing>)
    requires q != [] && Answering(g, q[0], y, outs) && v in g.nodes && MailOk(g, q)
    requires AllLate(g.nodes[v], l, t, q) && Letters(y, v, t, q[1..] + Addressed(v, outs))
    requires Handing(g, l, v, t, q, a, k)
    ensures Cheaper(g.nodes[v], l, q, y, k, q[1..] + Addressed(v, outs), t)
  {
    hide Inv;
    hide Local;
    hide Onward;
    hide WellFormed;
    hide OthersTrack;
    hide PeersOk;
    hide Handle;
    hide HandleReply;
    hide BecomeLeader;
    hide Hears;
    hide Letters;
    hide AllLate;
    hide Measure;
    var x, f, reply := g.nodes[v], q[0].out.to, Replied(g, q[0]);
    if x.role == Leader && reply.term <= x.term {
      LeaderExchangeCheaper(g, l, v, t, q, a, k, y, outs);
    } else {
      AnswerOther(x, f, reply);
      InvFewer(Flight(g, q), Flight(g, []), l);
      SenderBounds(g, l, v);
      if y.role == Leader {
        CrownExchangeCheaper(x, l, x.(votesGranted := x.votesGranted + {f}), y, k, v, t, q, outs);
      } else {
        NothingMore(v, q[1..]);
        QuietCost(x, l, y, k, t, q);
        NotLate(y, k, t, q[1..]);
      }
    }
  }

  lemma NotLate(y: Node, k: Ledger, t: nat, q: seq<Mail>)
    requires y.role != Leader
    ensures AllLate(y, k, t, q)
  {
  }

  lemma SenderBounds(g: Group, l: Ledger, v: NodeId)
    requires Inv(Flight(g, []), l) && v in g.nodes
    ensures g.nodes[v].baseIndex <= g.nodes[v].commit <= g.nodes[v].LastIndex() && v !in g.nodes[v].peers
  {
    hide Inv;
    hide NodeCommit;
    hide Sound;
    NodeLogOf(g, l, v);
    PeersListed(g, l, v);
  }

  lemma CrownExchangeCheaper(x: Node, l: Ledger, c: Node, y: Node, k: Ledger, v: NodeId, t: nat, q: seq<Mail>,
                             outs: seq<Outgoing>)
    requires q != [] && x.role == Candidate && c == x.(votesGranted := c.votesGranted) && (y, outs) == BecomeLeader(c)
    requires Letters(y, v, t, q[1..] + Addressed(v, outs)) && Letters(x, v, t, q)
    requires x.baseIndex <= x.commit <= x.LastIndex() && v !in x.peers
    ensures Cheaper(x, l, q, y, k, q[1..] + Addressed(v, outs), t)
  {
    hide BecomeLeader;
    hide Letters;
    hide Late;
    hide Measure;
    hide ReplicateToAll;
    CrownedShape(c);
    var z := Crowned(c);
    assert Indexes(z, v, z.peers);
    BroadcastLate(z, v, k, t, z.peers);
    LateTimers(z, y, k, t, Addressed(v, outs));
    CrownCost(x, l, c, y, k, v, t, q, outs);
    BallotsLate(x, v, y, k, t, q);
    LateJoined(y, k, t, q[1..], Addressed(v, outs));
  }

  lemma BallotsLate(x: Node, v: NodeId, y: Node, k: Ledger, t: nat, q: seq<Mail>)
    requires q != [] && x.role == Candidate && Letters(x, v, t, q)
    ensures AllLate(y, k, t, q[1..])
  {
    forall m | m in q[1..]
      ensures Late(y, k, t, m)
    {
      assert m in q && Letter(x, v, t, m);
    }
  }

  lemma LeaderExchangeCheaper(g: Group, l: Ledger, v: NodeId, t: nat, q: seq<Mail>, a: Ledger, k: Ledger, y: Node,
                              outs: seq<Outgoing>)
    requires q != [] && Answering(g, q[0], y, outs) && v in g.nodes && MailOk(g, q)
    requires g.nodes[v].role == Leader && Replied(g, q[0]).term <= g.nodes[v].term && AllLate(g.nodes[v], l, t, q)
    requires Handing(g, l, v, t, q, a, k)
    ensures Cheaper(g.nodes[v], l, q, y, k, q[1..] + Addressed(v, outs), t)
  {
    hide Inv;
    hide Local;
    hide Onward;
    hide WellFormed;
    hide OthersTrack;
    hide Handle;
    hide HandleReply;
    hide Hears;
    hide Letters;
    hide Indexes;
    hide Timely;
    hide Weighed;
    hide AllLate;
    hide Depth;
    hide SnapsSafe;
    hide Pending;
    hide Near;
    hide Cheaper;
    var x, f, reply := g.nodes[v], q[0].out.to, Replied(g, q[0]);
    InvFewer(Flight(g, q), Flight(g, []), l);
    LeaderIndexes(g, l, v);
    ReplyTimely(g, l, v, t, q, a, k, f, x, reply);
    LettersTail(x, v, t, q);
    LeaderAnswers(x, v, f, reply, q[1..]);
    SameTermLog(g, l, v, t, q, a, k, y, outs);
    BystanderLog(g, l, v, t, q, a, k, f);
    SameDepth(a, k, f, t);
    var e := Envelope(v, f, q[0].out.msg);
    HeardTerm(l, a, e, g.nodes[f], Heard(g, q[0]).nodes[f], reply);
    TimelyTerm(x, reply);
    assert PeerOk(x, l, t, q, f, g.nodes[f], f in g.down);
    NearIndex(l, x, f, g.nodes[f]);
    HeadWeighed(l, a, e, g.nodes[f], Heard(g, q[0]).nodes[f], reply, x, q);
    AckReaches(l, a, e, g.nodes[f], Heard(g, q[0]).nodes[f], reply, x);
    forall m | m in q[1..]
      ensures Depth(l, m.out.to, t) <= Depth(k, m.out.to, t)
    {
      RestDeeper(g, l, v, t, q, a, k, m, l.tlog[t]);
    }
    LeaderCheaper(x, l, q, y, k, v, t, f, reply, outs);
  }

  lemma TimelyTerm(x: Node, reply: RaftReply)
    requires Timely(x, reply)
    ensures reply.term == x.term
    ensures reply.AppendReply? && reply.success ==> reply.matchIndex == x.LastIndex()
  {
  }

  lemma AckReaches(l: Ledger, a: Ledger, e: Envelope<RaftMsg>, n: Node, m: Node, reply: RaftReply, x: Node)
    requires Hears(l, a, e, n, m, reply) && n.term <= e.msg.term
    requires reply.AppendReply? && reply.success ==> reply.matchIndex == x.LastIndex()
    ensures reply.AppendReply? && reply.success ==> x.LastIndex() <= Depth(a, e.to, e.msg.term)
  {
    hide Hears;
    hide Depth;
    match e.msg
    case RequestVote(_, _, _, _) => VoteHears(l, a, e, n, m, reply);
    case AppendEntries(_, _, _, _, _, _) => AppendHears(l, a, e, n, m, reply);
    case InstallSnapshot(_, _, _, _, _) => SnapshotHears(l, a, e, n, m, reply);
  }

  lemma RestDeeper(g: Group, l: Ledger, v: NodeId, t: nat, q: seq<Mail>, a: Ledger, k: Ledger, m: Mail, log: Log)
    requires q != [] && m in q[1..] && MailOk(g, q) && v in g.nodes
    requires t in l.tlog && t in k.tlog && l.tlog[t] == k.tlog[t] == log
    requires Depth(l, q[0].out.to, t) <= Depth(k, q[0].out.to, t)
    requires Handing(g, l, v, t, q, a, k)
    ensures Depth(l, m.out.to, t) <= Depth(k, m.out.to, t)
  {
    hide Inv;
    hide Local;
    hide Onward;
    hide WellFormed;
    hide OthersTrack;
    hide PeersOk;
    hide Handle;
    hide HandleReply;
    hide Hears;
    hide Depth;
    assert m in q && Letter(g.nodes[v], v, t, m);
    if m.out.to != q[0].out.to {
      BystanderLog(g, l, v, t, q, a, k, m.out.to);
      SameDepth(l, k, m.out.to, t);
    }
  }

  // ----------------------------------------------------------------------- the whole loop

  lemma MeasureTail(x: Node, l: Ledger, t: nat, q: seq<Mail>)
    requires q != []
    ensures Measure(x, l, t, q[1..]) < Measure(x, l, t, q)
  {
    hide Weight;
    hide Reserve;
  }

  lemma {:induction false} MeasureEnds(g: Group, l: Ledger, v: NodeId, t: nat, q: seq<Mail>, left: nat)
    requires v in g.nodes && AllLate(g.nodes[v], l, t, q) && Measure(g.nodes[v], l, t, q) <= left
    requires WellFormed(g) && MailOk(g, q) && Mid(g, l, v, t, q)
    ensures Ends(g, q, left)
    decreases left
  {
    hide Mid;
    hide Exchange;
    hide WellFormed;
    hide Weight;
    hide Reserve;
    hide AllLate;
    hide Onward;
    hide Handing;
    if q != [] {
      MidSender(g, l, v, t, q);
      if q[0].out.to in g.down {
        DroppedKeeps(g, l, v, t, q);
        MeasureTail(g.nodes[v], l, t, q);
        AllLateTail(g.nodes[v], l, t, q);
        assert q[1..] + [] == q[1..];
        MeasureEnds(g, l, v, t, q[1..], left - 1);
      } else {
        HandedEnds(g, l, v, t, q, left);
      }
    }
  }

  lemma MidSender(g: Group, l: Ledger, v: NodeId, t: nat, q: seq<Mail>)
    requires Mid(g, l, v, t, q) && q != []
    ensures q[0].from == v && q[0].out.to != v && q[0].out.msg.term == t && v in g.nodes && v !in g.down
  {
    hide Inv;
    hide WellFormed;
    HeadFromSender(g, v, t, q);
  }

  lemma HandedEnds(g: Group, l: Ledger, v: NodeId, t: nat, q: seq<Mail>, left: nat)
    requires q != [] && v in g.nodes && AllLate(g.nodes[v], l, t, q) && Measure(g.nodes[v], l, t, q) <= left
    requires WellFormed(g) && MailOk(g, q) && q[0].out.to !in g.down
    requires q[0].from == v && q[0].out.to != v && q[0].out.msg.term == t && v !in g.down
    requires Mid(g, l, v, t, q)
    ensures Ends(g, q, left)
    decreases left, 0
  {
    hide Mid;
    hide Exchange;
    hide WellFormed;
    hide Weight;
    hide Reserve;
    hide AllLate;
    hide Onward;
    hide Handing;
    hide Handle;
    hide HandleReply;
    var a, k, y, outs := HandedKeeps(g, l, v, t, q);
    MidLetters(Taken(g, q[0]).0, k, v, t, q[1..] + Taken(g, q[0]).1);
    ExchangeCheaper(g, l, v, t, q, a, k, y, outs);
    MeasureEnds(Taken(g, q[0]).0, k, v, t, q[1..] + Taken(g, q[0]).1, left - 1);
  }

  lemma MidLetters(g: Group, l: Ledger, v: NodeId, t: nat, q: seq<Mail>)
    requires Mid(g, l, v, t, q)
    ensures v in g.nodes && Letters(g.nodes[v], v, t, q) && WellFormed(g) && MailOk(g, q)
  {
    hide Inv;
    hide WellFormed;
    FlightMail(g, l, q);
  }

  // ------------------------------------------------------------------ how a loop may start

  /** A loop starts with at most one message to each peer, sent just now. */
  ghost predicate Starts(x: Node, l: Ledger, v: NodeId, t: nat, outs: seq<Outgoing>) {
    && AllLate(x, l, t, Addressed(v, outs)) && |outs| <= |x.peers|
    && (x.role == Follower ==> outs == [])
  }

  lemma StartMeasure(x: Node, l: Ledger, v: NodeId, t: nat, outs: seq<Outgoing>)
    requires Starts(x, l, v, t, outs) && Letters(x, v, t, Addressed(v, outs)) && outs != []
    requires x.commit <= x.LastIndex()
    ensures Measure(x, l, t, Addressed(v, outs)) <= Load(x)
  {
    hide Weight;
    hide Letter;
    var ms, r := Addressed(v, outs), |x.peers|;
    var gap := x.LastIndex() - x.commit;
    TimesMore(3 + |x.log|, 4 + |x.log|, r);
    TimesMore(1, 4 + |x.log|, r);
    if x.role == Leader {
      forall m | m in ms
        ensures Weight(x, l, t, m) <= 3 + |x.log|
      {
        LetterWeight(x, l, v, t, m);
      }
      TotalAtMost(x, l, t, ms, 3 + |x.log|);
      TimesMore(|ms|, r, 3 + |x.log|);
      Times(gap, gap + 1, r * (3 + |x.log|));
      TimesMore(r * (3 + |x.log|), r * (4 + |x.log|), gap + 1);
      TimesMore(gap + 1, gap + 3, r * (4 + |x.log|));
    } else {
      TotalIdle(x, l, t, ms);
      Times(gap + 2, gap + 3, r * (4 + |x.log|));
    }
  }

  /** A loop that starts with little enough to deliver is not cut off. */
  lemma LightEnds(g: Group, l: Ledger, v: NodeId, t: nat, outs: seq<Outgoing>)
    requires v in g.nodes && WellFormed(g) && MailOk(g, Addressed(v, outs))
    requires Starts(g.nodes[v], l, v, t, outs) && Light(Delivery(g, Addressed(v, outs)))
    requires Mid(g, l, v, t, Addressed(v, outs))
    ensures Complete(Delivery(g, Addressed(v, outs)))
  {
    hide Mid;
    hide WellFormed;
    hide Load;
    hide Measure;
    if outs == [] {
      assert Addressed(v, outs) == [];
    } else {
      MidLetters(g, l, v, t, Addressed(v, outs));
      MidBounds(g, l, v, t, Addressed(v, outs));
      StartMeasure(g.nodes[v], l, v, t, outs);
      assert Addressed(v, outs)[0].from == v;
      MeasureEnds(g, l, v, t, Addressed(v, outs), MAX_DELIVERIES);
    }
  }

  lemma MidBounds(g: Group, l: Ledger, v: NodeId, t: nat, q: seq<Mail>)
    requires v in g.nodes && Mid(g, l, v, t, q)
    ensures g.nodes[v].commit <= g.nodes[v].LastIndex()
  {
    hide Inv;
    hide WellFormed;
    InvFewer(Flight(g, q), Flight(g, []), l);
    SenderBounds(g, l, v);
  }

  /** What a leader sends on its own account: nothing, or a message to each peer. */
  ghost predicate RoundOf(x: Node, y: Node, z: Node, outs: seq<Outgoing>) {
    && y == x.(timers := y.timers) && z == x.(timers := z.timers)
    && (outs == [] || outs == ReplicateToAll(z, z.peers))
  }

  lemma RoundStarts(x: Node, y: Node, z: Node, v: NodeId, l: Ledger, outs: seq<Outgoing>)
    requires RoundOf(x, y, z, outs) && x.role == Leader && Indexes(x, v, x.peers)
    ensures Starts(y, l, v, y.term, outs)
  {
    hide ReplicateToAll;
    BroadcastLate(z, v, l, y.term, z.peers);
    LateTimers(z, y, l, y.term, Addressed(v, ReplicateToAll(z, z.peers)));
    assert Addressed(v, []) == [];
  }
}
