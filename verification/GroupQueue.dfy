/** The driver's queue while one leader's messages are delivered, seen from one follower: whatever falls
    short of what the two logs share is mended by a message already in the queue, ahead of any snapshot. */
module GroupQueue {
  import opened RaftTypes
  import opened RaftNode
  import opened RaftSteps
  import opened GroupSpec

  // ------------------------------------------------------------------------- the queue

  /** An append to `f` anchored within the shared part. */
  ghost predicate Reaches(m: Mail, f: NodeId, d: nat) {
    m.out.to == f && m.out.msg.AppendEntries? && m.out.msg.prevLogIndex <= d
  }

  /** The same, or a snapshot of more than the shared part. */
  ghost predicate Mends(m: Mail, f: NodeId, d: nat) {
    Reaches(m, f, d) || (m.out.to == f && m.out.msg.InstallSnapshot? && d < m.out.msg.lastIncludedIndex)
  }

  ghost predicate MendQueued(q: seq<Mail>, f: NodeId, d: nat) {
    exists i :: 0 <= i < |q| && Mends(q[i], f, d)
  }

  ghost predicate AllReach(q: seq<Mail>, f: NodeId, d: nat) {
    forall i :: 0 <= i < |q| && q[i].out.to == f && q[i].out.msg.AppendEntries? ==> Reaches(q[i], f, d)
  }

  /** `f` shares `d` entries with the leader and has committed `c`; the leader's next index for it is
      `next`. Either that is far enough, or something in the queue will mend it. */
  ghost predicate Pending(q: seq<Mail>, f: NodeId, d: nat, c: nat, next: nat) {
    d <= c || d + 1 < next || MendQueued(q, f, d) || (d < next && AllReach(q, f, d))
  }

  ghost predicate ReachedBefore(q: seq<Mail>, f: NodeId, d: nat, i: nat) {
    exists j :: 0 <= j < i && j < |q| && Reaches(q[j], f, d)
  }

  /** The message at `i`, if a snapshot for `f`, cannot cut into the shared part when it arrives. */
  ghost predicate SnapAt(q: seq<Mail>, f: NodeId, d: nat, c: nat, i: nat)
    requires i < |q|
  {
    q[i].out.to == f && q[i].out.msg.InstallSnapshot? ==>
      d < q[i].out.msg.lastIncludedIndex || q[i].out.msg.lastIncludedIndex <= c || ReachedBefore(q, f, d, i)
  }

  ghost predicate SnapsSafe(q: seq<Mail>, f: NodeId, d: nat, c: nat) {
    forall i: nat {:trigger SnapAt(q, f, d, c, i)} :: i < |q| ==> SnapAt(q, f, d, c, i)
  }

  lemma PopPending(q: seq<Mail>, f: NodeId, d: nat, c: nat, next: nat)
    requires q != [] && Pending(q, f, d, c, next) && !Mends(q[0], f, d)
    ensures Pending(q[1..], f, d, c, next)
  {
    if MendQueued(q, f, d) {
      var i :| 0 <= i < |q| && Mends(q[i], f, d);
      assert q[1..][i - 1] == q[i];
    }
  }

  lemma PopSnaps(q: seq<Mail>, f: NodeId, d: nat, c: nat)
    requires q != [] && SnapsSafe(q, f, d, c) && !Reaches(q[0], f, d)
    ensures SnapsSafe(q[1..], f, d, c)
  {
    var r := q[1..];
    forall i: nat | i < |r|
      ensures SnapAt(r, f, d, c, i)
    {
      assert SnapAt(q, f, d, c, i + 1);
      if ReachedBefore(q, f, d, i + 1) {
        var j :| 0 <= j < i + 1 && Reaches(q[j], f, d);
        assert r[j - 1] == q[j];
      }
    }
  }

  /** Snapshots no longer than the commit index are harmless. */
  lemma CommittedSnaps(q: seq<Mail>, f: NodeId, d: nat, c: nat)
    requires forall m :: m in q && m.out.msg.InstallSnapshot? ==> m.out.msg.lastIncludedIndex <= c
    ensures SnapsSafe(q, f, d, c)
  {
    forall i: nat | i < |q|
      ensures SnapAt(q, f, d, c, i)
    {
      assert q[i] in q;
    }
  }

  /** The shared part may grow. */
  lemma SnapsDeeper(q: seq<Mail>, f: NodeId, d: nat, c: nat, e: nat)
    requires SnapsSafe(q, f, d, c) && d <= e
    requires forall m :: m in q && m.out.msg.InstallSnapshot? && d < m.out.msg.lastIncludedIndex ==> d == e
    ensures SnapsSafe(q, f, e, c)
  {
    forall i: nat | i < |q|
      ensures SnapAt(q, f, e, c, i)
    {
      assert q[i] in q;
      assert SnapAt(q, f, d, c, i);
      if ReachedBefore(q, f, d, i) {
        var j :| 0 <= j < i && Reaches(q[j], f, d);
        assert Reaches(q[j], f, e);
      }
    }
  }

  lemma SnapsKept(q: seq<Mail>, m: Mail, f: NodeId, d: nat, c: nat)
    requires SnapsSafe(q, f, d, c)
    requires m.out.to == f && m.out.msg.InstallSnapshot? ==>
      || d < m.out.msg.lastIncludedIndex || m.out.msg.lastIncludedIndex <= c
      || exists i :: 0 <= i < |q| && Reaches(q[i], f, d)
    ensures SnapsSafe(q + [m], f, d, c)
  {
    var r := q + [m];
    forall i: nat | i < |r|
      ensures SnapAt(r, f, d, c, i)
    {
      if i < |q| {
        assert SnapAt(q, f, d, c, i);
        if ReachedBefore(q, f, d, i) {
          var j :| 0 <= j < i && Reaches(q[j], f, d);
          assert Reaches(r[j], f, d);
        }
      } else if exists j :: 0 <= j < |q| && Reaches(q[j], f, d) {
        var j :| 0 <= j < |q| && Reaches(q[j], f, d);
        assert Reaches(r[j], f, d);
      }
    }
  }

  lemma MendKept(q: seq<Mail>, m: Mail, f: NodeId, d: nat)
    ensures MendQueued(q, f, d) || Mends(m, f, d) ==> MendQueued(q + [m], f, d)
  {
    if MendQueued(q, f, d) {
      var i :| 0 <= i < |q| && Mends(q[i], f, d);
      assert Mends((q + [m])[i], f, d);
    } else if Mends(m, f, d) {
      assert Mends((q + [m])[|q|], f, d);
    }
  }

  // ----------------------------------------------------------------- what a leader sends

  /** The next index or the queue is such that whatever is sent next leaves nothing to mend. */
  ghost predicate Ahead(q: seq<Mail>, f: NodeId, d: nat, c: nat, next: nat, base: nat) {
    d <= c || d < next || base < next || MendQueued(q, f, d)
  }

  ghost predicate SentFor(m: Mail, f: NodeId, next: nat, base: nat) {
    && m.out.to == f
    && if next <= base then m.out.msg.InstallSnapshot? && m.out.msg.lastIncludedIndex == base
       else m.out.msg.AppendEntries? && m.out.msg.prevLogIndex + 1 == next
  }

  ghost predicate SnapsOf(q: seq<Mail>, base: nat) {
    forall m :: m in q && m.out.msg.InstallSnapshot? ==> m.out.msg.lastIncludedIndex == base
  }

  lemma SendOwn(q: seq<Mail>, m: Mail, f: NodeId, d: nat, c: nat, next: nat, base: nat)
    requires SentFor(m, f, next, base) && Ahead(q, f, d, c, next, base) && SnapsSafe(q, f, d, c) && SnapsOf(q, base)
    ensures Pending(q + [m], f, d, c, next) && SnapsSafe(q + [m], f, d, c)
  {
    MendKept(q, m, f, d);
    if MendQueued(q, f, d) && next <= base && base <= d {
      var i :| 0 <= i < |q| && Mends(q[i], f, d);
      assert q[i] in q;
      assert Reaches(q[i], f, d);
    }
    SnapsKept(q, m, f, d, c);
  }

  lemma SendOther(q: seq<Mail>, m: Mail, f: NodeId, d: nat, c: nat, next: nat)
    requires m.out.to != f && SnapsSafe(q, f, d, c)
    ensures SnapsSafe(q + [m], f, d, c)
    ensures Pending(q, f, d, c, next) ==> Pending(q + [m], f, d, c, next)
  {
    MendKept(q, m, f, d);
    SnapsKept(q, m, f, d, c);
  }

  /** Every letter in the queue is the node's own, of term `t`, about its present log and base. */
  ghost predicate Letter(x: Node, v: NodeId, t: nat, m: Mail) {
    && m.from == v && m.out.to != v && m.out.msg.term == t
    && (x.role == Candidate ==> m.out.msg.RequestVote?)
    && match m.out.msg
       case RequestVote(_, _, _, _) => true
       case AppendEntries(_, _, prev, _, commit, entries) =>
         x.baseIndex <= commit && x.baseIndex <= prev && (x.role == Leader ==> prev + |entries| == x.LastIndex())
       case InstallSnapshot(_, _, index, _, _) => index == x.baseIndex
  }

  ghost predicate Letters(x: Node, v: NodeId, t: nat, q: seq<Mail>) {
    forall m :: m in q ==> Letter(x, v, t, m)
  }

  /** A leader with an entry for each of `peers`, none beyond its log. */
  ghost predicate Indexes(x: Node, v: NodeId, peers: seq<NodeId>) {
    && x.role == Leader && x.baseIndex <= x.commit <= x.LastIndex()
    && forall p :: p in peers ==> p != v && p in x.nextIndex && 1 <= x.nextIndex[p] <= x.LastIndex() + 1
  }

  lemma LetterSent(x: Node, v: NodeId, p: NodeId)
    requires Indexes(x, v, [p])
    ensures ReplicateTo(x, p).Some?
    ensures var m := Mail(v, ReplicateTo(x, p).value);
            Letter(x, v, x.term, m) && SentFor(m, p, x.nextIndex[p], x.baseIndex)
  {
    assert p in [p];
  }

  /** What must hold of peer `f` before and after every sending. */
  ghost predicate Lined(x: Node, q: seq<Mail>, f: NodeId, d: nat, c: nat) {
    f in x.nextIndex && Pending(q, f, d, c, x.nextIndex[f]) && SnapsSafe(q, f, d, c)
  }

  lemma LettersSnaps(x: Node, v: NodeId, t: nat, q: seq<Mail>)
    requires Letters(x, v, t, q)
    ensures SnapsOf(q, x.baseIndex)
  {
  }

  /** One message to `p` keeps or makes every peer lined up. */
  lemma SendKeeps(x: Node, v: NodeId, q: seq<Mail>, p: NodeId, f: NodeId, d: nat, c: nat)
    requires Indexes(x, v, [p]) && Letters(x, v, x.term, q) && f in x.nextIndex && SnapsSafe(q, f, d, c)
    requires if f == p then Ahead(q, f, d, c, x.nextIndex[f], x.baseIndex) else Pending(q, f, d, c, x.nextIndex[f])
    ensures ReplicateTo(x, p).Some?
    ensures Lined(x, q + [Mail(v, ReplicateTo(x, p).value)], f, d, c)
  {
    hide Pending;
    hide SnapsSafe;
    hide Letter;
    LetterSent(x, v, p);
    LettersSnaps(x, v, x.term, q);
    var m := Mail(v, ReplicateTo(x, p).value);
    if f == p {
      SendOwn(q, m, f, d, c, x.nextIndex[f], x.baseIndex);
    } else {
      SentElsewhere(m, p, x.nextIndex[p], x.baseIndex);
      SendOther(q, m, f, d, c, x.nextIndex[f]);
    }
  }

  lemma SentElsewhere(m: Mail, p: NodeId, next: nat, base: nat)
    requires SentFor(m, p, next, base)
    ensures m.out.to == p
  {
  }

  lemma PendingIsAhead(q: seq<Mail>, f: NodeId, d: nat, c: nat, next: nat, base: nat)
    requires Pending(q, f, d, c, next)
    ensures Ahead(q, f, d, c, next, base)
  {
  }

  lemma LetterAdded(x: Node, v: NodeId, q: seq<Mail>, p: NodeId)
    requires Indexes(x, v, [p]) && Letters(x, v, x.term, q)
    ensures ReplicateTo(x, p).Some? && Letters(x, v, x.term, q + [Mail(v, ReplicateTo(x, p).value)])
  {
    hide Letter;
    LetterSent(x, v, p);
  }

  lemma AddressedMore(v: NodeId, q: seq<Mail>, outs: seq<Outgoing>, o: Outgoing)
    ensures q + Addressed(v, outs + [o]) == (q + Addressed(v, outs)) + [Mail(v, o)]
  {
  }

  lemma BroadcastUnrolled(x: Node, v: NodeId, q: seq<Mail>, peers: seq<NodeId>)
    requires peers != [] && ReplicateTo(x, peers[|peers| - 1]).Some?
    ensures q + Addressed(v, ReplicateToAll(x, peers))
            == (q + Addressed(v, ReplicateToAll(x, peers[..|peers| - 1])))
                + [Mail(v, ReplicateTo(x, peers[|peers| - 1]).value)]
  {
    hide ReplicateTo;
    AddressedMore(v, q, ReplicateToAll(x, peers[..|peers| - 1]), ReplicateTo(x, peers[|peers| - 1]).value);
  }

  lemma IndexesPart(x: Node, v: NodeId, peers: seq<NodeId>)
    requires peers != [] && Indexes(x, v, peers)
    ensures Indexes(x, v, peers[..|peers| - 1]) && Indexes(x, v, [peers[|peers| - 1]])
  {
    var front, last := peers[..|peers| - 1], [peers[|peers| - 1]];
    assert forall p :: p in front ==> p in peers;
    assert forall p :: p in last ==> p in peers;
  }

  lemma {:induction false} BroadcastLetters(x: Node, v: NodeId, q: seq<Mail>, peers: seq<NodeId>)
    requires Indexes(x, v, peers) && Letters(x, v, x.term, q)
    ensures Letters(x, v, x.term, q + Addressed(v, ReplicateToAll(x, peers)))
  {
    hide Letters;
    hide Indexes;
    hide ReplicateTo;
    if peers == [] {
      assert q + Addressed(v, ReplicateToAll(x, peers)) == q;
    } else {
      IndexesPart(x, v, peers);
      BroadcastLetters(x, v, q, peers[..|peers| - 1]);
      LetterAdded(x, v, q + Addressed(v, ReplicateToAll(x, peers[..|peers| - 1])), peers[|peers| - 1]);
      BroadcastUnrolled(x, v, q, peers);
    }
  }

  /** A round of messages to any of the peers keeps every peer lined up. */
  lemma {:induction false} BroadcastKeeps(x: Node, v: NodeId, q: seq<Mail>, peers: seq<NodeId>, f: NodeId, d: nat,
      c: nat)
    requires Indexes(x, v, peers) && Letters(x, v, x.term, q) && Lined(x, q, f, d, c)
    ensures Lined(x, q + Addressed(v, ReplicateToAll(x, peers)), f, d, c)
  {
    hide Letters;
    hide Indexes;
    hide ReplicateTo;
    hide Pending;
    hide SnapsSafe;
    hide Ahead;
    if peers == [] {
      assert q + Addressed(v, ReplicateToAll(x, peers)) == q;
    } else {
      var p := peers[|peers| - 1];
      var r := q + Addressed(v, ReplicateToAll(x, peers[..|peers| - 1]));
      IndexesPart(x, v, peers);
      BroadcastLetters(x, v, q, peers[..|peers| - 1]);
      BroadcastKeeps(x, v, q, peers[..|peers| - 1], f, d, c);
      PendingIsAhead(r, f, d, c, x.nextIndex[f], x.baseIndex);
      SendKeeps(x, v, r, p, f, d, c);
      BroadcastUnrolled(x, v, q, peers);
    }
  }

  // ------------------------------------------------------------ how a leader takes a reply

  /** What the reply says about `f`, given what `f` now shares and has committed. */
  ghost predicate ReplyFits(x: Node, q: seq<Mail>, f: NodeId, d: nat, c: nat, reply: RaftReply) {
    f in x.nextIndex &&
    match reply
    case VoteReply(_, _) => Pending(q, f, d, c, x.nextIndex[f])
    case AppendReply(_, success, index) =>
      if success then index == x.LastIndex() <= d
      else d <= index && (d <= c || d + 1 < x.nextIndex[f] || MendQueued(q, f, d))
    case SnapshotReply(_) => true
  }

  /** The leader's log is untouched and only its index for `f` changes. */
  ghost predicate StillLeading(x: Node, y: Node, f: NodeId) {
    && y.role == Leader && y.term == x.term && y.id == x.id && y.peers == x.peers && y.log == x.log
    && y.baseIndex == x.baseIndex && x.commit <= y.commit <= y.LastIndex()
    && forall p :: p in x.nextIndex && p != f ==> p in y.nextIndex && y.nextIndex[p] == x.nextIndex[p]
  }

  lemma LettersFor(x: Node, y: Node, v: NodeId, t: nat, q: seq<Mail>)
    requires Letters(x, v, t, q) && y.baseIndex == x.baseIndex
    requires y.role == Leader ==> x.role == Candidate || (x.role == Leader && y.LastIndex() == x.LastIndex())
    requires y.role == Candidate ==> x.role == Candidate
    ensures Letters(y, v, t, q)
  {
    forall m | m in q
      ensures Letter(y, v, t, m)
    {
      assert Letter(x, v, t, m);
    }
  }

  /** After the peer's index moved, nothing else is known to be sent yet. */
  lemma Moved(x: Node, f: NodeId, next: nat, matched: map<NodeId, nat>, v: NodeId)
    requires Indexes(x, v, x.peers) && f in x.peers && 1 <= next <= x.LastIndex() + 1
    ensures var y := x.(nextIndex := x.nextIndex[f := next], matchIndex := matched);
            Indexes(y, v, y.peers) && Indexes(y, v, [f]) && StillLeading(x, y, f) && y.nextIndex[f] == next
  {
  }

  lemma BackedUpMoves(x: Node, f: NodeId, hint: nat, v: NodeId, d: nat)
    requires Indexes(x, v, x.peers) && f in x.peers
    ensures var y := BackedUp(x, f, hint);
            && Indexes(y, v, y.peers) && Indexes(y, v, [f]) && StillLeading(x, y, f)
            && (d <= hint && d + 1 < x.nextIndex[f] ==> d < y.nextIndex[f])
  {
  }

  /** A single follow-up message to `f`. */
  lemma FollowUp(y: Node, v: NodeId, q: seq<Mail>, f: NodeId, p: NodeId, d: nat, c: nat)
    requires Indexes(y, v, [f]) && Letters(y, v, y.term, q) && p in y.nextIndex && SnapsSafe(q, p, d, c)
    requires if p == f then Ahead(q, p, d, c, y.nextIndex[p], y.baseIndex) else Pending(q, p, d, c, y.nextIndex[p])
    ensures Lined(y, q + Addressed(v, Single(ReplicateTo(y, f))), p, d, c)
    ensures Letters(y, v, y.term, q + Addressed(v, Single(ReplicateTo(y, f))))
  {
    hide Letters;
    hide Lined;
    hide Indexes;
    hide ReplicateTo;
    SendKeeps(y, v, q, f, p, d, c);
    LetterAdded(y, v, q, f);
    assert Addressed(v, Single(ReplicateTo(y, f))) == [Mail(v, ReplicateTo(y, f).value)];
  }

  /** A broadcast from a leader whose peers are all lined up, or none. */
  lemma NothingMore(v: NodeId, q: seq<Mail>)
    ensures q + Addressed(v, []) == q
  {
  }

  lemma AllReached(x: Node, v: NodeId, t: nat, q: seq<Mail>, f: NodeId, d: nat)
    requires Letters(x, v, t, q) && x.role == Leader && x.LastIndex() <= d
    ensures AllReach(q, f, d)
  {
    forall i | 0 <= i < |q| && q[i].out.to == f && q[i].out.msg.AppendEntries?
      ensures Reaches(q[i], f, d)
    {
      assert Letter(x, v, t, q[i]);
    }
  }

  ghost predicate Answerable(x: Node, v: NodeId, f: NodeId, q: seq<Mail>) {
    x.role == Leader && Indexes(x, v, x.peers) && f in x.peers && Letters(x, v, x.term, q)
  }

  /** The reply is of the leader's own term, and an acknowledgement is of its whole log. */
  ghost predicate Timely(x: Node, reply: RaftReply) {
    reply.term == x.term && (reply.AppendReply? && reply.success ==> reply.matchIndex == x.LastIndex())
  }

  lemma AcknowledgedLines(x: Node, v: NodeId, f: NodeId, q: seq<Mail>, p: NodeId, d: nat, c: nat)
    requires Answerable(x, v, f, q) && p in x.nextIndex && SnapsSafe(q, p, d, c)
    requires if p == f then x.LastIndex() <= d else Pending(q, p, d, c, x.nextIndex[p])
    requires d <= x.LastIndex()
    ensures var r := Acknowledged(x, f, x.LastIndex());
            && Indexes(r.0, v, r.0.peers) && StillLeading(x, r.0, f)
            && Letters(r.0, v, r.0.term, q + Addressed(v, r.1)) && Lined(r.0, q + Addressed(v, r.1), p, d, c)
  {
    hide ReplicateToAll;
    hide HighestCommittable;
    hide Letters;
    hide SnapsSafe;
    hide AllReach;
    var k := x.LastIndex();
    Moved(x, f, k + 1, x.matchIndex[f := k], v);
    var m := x.(matchIndex := x.matchIndex[f := k], nextIndex := x.nextIndex[f := k + 1]);
    HighestRange(m, m.LastIndex());
    var a := AdvanceCommit(m);
    var b := Replicate(a).0;
    LettersFor(x, a, v, x.term, q);
    AllReached(x, v, x.term, q, p, k);
    NothingMore(v, q);
    assert Lined(a, q, p, d, c);
    BroadcastKeeps(a, v, q, a.peers, p, d, c);
    BroadcastLetters(a, v, q, a.peers);
    LettersFor(a, b, v, x.term, q + Addressed(v, ReplicateToAll(a, a.peers)));
  }

  /** Taking a reply of its own term, a leader keeps every peer lined up. */
  lemma AnswerLines(x: Node, v: NodeId, f: NodeId, reply: RaftReply, q: seq<Mail>, p: NodeId, d: nat, c: nat)
    requires Answerable(x, v, f, q) && Timely(x, reply) && p in x.nextIndex && SnapsSafe(q, p, d, c)
        && d <= x.LastIndex()
    requires if p == f then ReplyFits(x, q, f, d, c, reply) else Pending(q, p, d, c, x.nextIndex[p])
    ensures var r := HandleReply(x, f, reply);
            && Indexes(r.0, v, r.0.peers) && StillLeading(x, r.0, f)
            && Letters(r.0, v, r.0.term, q + Addressed(v, r.1)) && Lined(r.0, q + Addressed(v, r.1), p, d, c)
  {
    hide Letters;
    hide SnapsSafe;
    hide Pending;
    hide MendQueued;
    hide Acknowledged;
    hide BackedUp;
    hide ReplicateTo;
    match reply
    case VoteReply(_, _) => NothingMore(v, q);
    case AppendReply(_, success, index) =>
      if success {
        AcknowledgedLines(x, v, f, q, p, d, c);
      } else {
        BackedUpMoves(x, f, index, v, d);
        var y := BackedUp(x, f, index);
        LettersFor(x, y, v, x.term, q);
        FollowUp(y, v, q, f, p, d, c);
      }
    case SnapshotReply(_) =>
      Moved(x, f, x.baseIndex + 1, x.matchIndex[f := x.baseIndex], v);
      var y := x.(matchIndex := x.matchIndex[f := x.baseIndex], nextIndex := x.nextIndex[f := x.baseIndex + 1]);
      LettersFor(x, y, v, x.term, q);
      FollowUp(y, v, q, f, p, d, c);
  }

  /** A new leader starts with every peer lined up, and its first round keeps them so. */
  lemma CrownLines(x: Node, v: NodeId, q: seq<Mail>, p: NodeId, d: nat, c: nat)
    requires x.role == Candidate && Letters(x, v, x.term, q) && x.baseIndex <= x.commit <= x.LastIndex()
    requires p in x.peers && v !in x.peers && d < Crowned(x).LastIndex() + 1
    ensures var r := BecomeLeader(x);
            && Indexes(r.0, v, r.0.peers) && r.0.baseIndex == x.baseIndex && r.0.term == x.term
            && p in r.0.nextIndex && r.0.nextIndex[p] == r.0.LastIndex() + 1
            && Letters(r.0, v, r.0.term, q + Addressed(v, r.1)) && Lined(r.0, q + Addressed(v, r.1), p, d, c)
  {
    hide ReplicateToAll;
    hide Letters;
    var y := Crowned(x);
    var z := Replicate(y).0;
    LettersFor(x, y, v, x.term, q);
    OnlyBallots(x, v, q, p, d, c);
    assert Lined(y, q, p, d, c);
    BroadcastKeeps(y, v, q, y.peers, p, d, c);
    BroadcastLetters(y, v, q, y.peers);
    LettersFor(y, z, v, x.term, q + Addressed(v, ReplicateToAll(y, y.peers)));
  }

  lemma OnlyBallots(x: Node, v: NodeId, q: seq<Mail>, p: NodeId, d: nat, c: nat)
    requires x.role == Candidate && Letters(x, v, x.term, q)
    ensures AllReach(q, p, d) && SnapsSafe(q, p, d, c)
  {
    assert forall i :: 0 <= i < |q| ==> Letter(x, v, x.term, q[i]);
  }
}
