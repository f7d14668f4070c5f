/** How one node's state, the messages in flight and the ledger fit together. A node keeps only
    the part of its complete log above its snapshot base; the ledger holds the complete log. */
module RaftLink {
  import opened RaftTypes
  import opened RaftNode
  import opened RaftLedger
  import opened RaftActions

  datatype Envelope<+M> = Envelope(from: NodeId, to: NodeId, msg: M)

  // ------------------------------------------------------------------------- nodes

  ghost predicate PeersOf(ids: set<NodeId>, v: NodeId, peers: seq<NodeId>) {
    v in ids && Distinct(peers) && (forall p :: p in peers <==> p in ids && p != v) && |peers| + 1 == |ids|
  }

  ghost predicate NodeLog(g: Ledger, v: NodeId, n: Node) {
    && Shape(g) && PeersOf(g.ids, v, n.peers) && n.id == v
    && n.term == g.term[v]
    && n.baseIndex <= |g.log[v]| && n.log == g.log[v][n.baseIndex..]
    && n.baseTerm == TermAtIndex(g.log[v], n.baseIndex)
    && n.baseIndex <= n.applied <= n.commit <= |g.log[v]|
  }

  /** The commit index, the applied index and the snapshot base are all points some leader committed. */
  ghost predicate NodeCommit(g: Ledger, v: NodeId, n: Node) {
    && v in g.log && CommittedPrefix(g, g.log[v], n.commit, n.term)
    && CommittedPrefix(g, g.log[v], n.applied, n.term) && CommittedPrefix(g, g.log[v], n.baseIndex, n.term)
  }

  ghost predicate NodeVote(g: Ledger, v: NodeId, n: Node) {
    match n.votedFor
    case None => (v, n.term) !in g.votes
    case Some(c) => (v, n.term) in g.votes && g.votes[(v, n.term)].cand == c
  }

  ghost predicate NodeCandidate(g: Ledger, v: NodeId, n: Node) {
    n.role == Candidate ==>
      && v in g.log
      && (v, n.term) in g.votes && g.votes[(v, n.term)] == Vote(v, g.log[v])
      && (n.term in g.elected ==> g.elected[n.term].leader != v)
      && forall p :: p in n.votesGranted ==> (p, n.term) in g.votes && g.votes[(p, n.term)].cand == v
  }

  ghost predicate Matched(g: Ledger, n: Node, p: NodeId, m: nat) {
    m <= n.commit || ((p, n.term) in g.acks && m <= g.acks[(p, n.term)])
  }

  ghost predicate NodeLeader(g: Ledger, v: NodeId, n: Node) {
    n.role == Leader ==>
      && Leads(g, v) && n.term == g.term[v]
      && (v, n.term) in g.acks && g.acks[(v, n.term)] == |g.tlog[n.term]|
      && (forall p :: p in n.peers ==> p in n.nextIndex)
      && (forall p :: p in n.nextIndex ==> 1 <= n.nextIndex[p] <= n.LastIndex() + 1)
      && (forall p :: p in n.matchIndex ==> Matched(g, n, p, n.matchIndex[p]))
  }

  /** The snapshot and the store are folds of the complete log. */
  ghost predicate NodeStore(g: Ledger, v: NodeId, n: Node, store: set<Triple>) {
    && v in g.log && n.baseIndex <= |g.log[v]| && n.applied <= |g.log[v]|
    && TripleSet(n.snapshot) == Fold(g.log[v][..n.baseIndex])
    && (match n.pendingReset
        case None => store
        case Some(ts) => TripleSet(ts)) == Fold(g.log[v][..n.applied])
  }

  /** What a node holds. */
  ghost predicate Core(g: Ledger, v: NodeId, n: Node, store: set<Triple>) {
    NodeLog(g, v, n) && NodeCommit(g, v, n) && NodeStore(g, v, n, store)
  }

  /** What a node's role and vote promise. */
  ghost predicate Duty(g: Ledger, v: NodeId, n: Node) {
    NodeVote(g, v, n) && NodeCandidate(g, v, n) && NodeLeader(g, v, n)
  }

  ghost predicate NodeOk(g: Ledger, v: NodeId, n: Node, store: set<Triple>) {
    Core(g, v, n, store) && Duty(g, v, n)
  }

  // ---------------------------------------------------------------------- messages

  ghost predicate RequestOk(g: Ledger, e: Envelope<RaftMsg>) {
    && Shape(g) && e.from in g.ids && e.to in g.ids && e.from != e.to && e.msg.term <= g.term[e.from]
    && match e.msg
       case RequestVote(t, c, lastIndex, lastTerm) =>
         && c == e.from && (c, t) in g.votes && g.votes[(c, t)].cand == c
         && lastIndex == |g.votes[(c, t)].log| && lastTerm == LastTerm(g.votes[(c, t)].log)
       case AppendEntries(t, l, prev, prevTerm, commit, entries) =>
         && l == e.from && t in g.elected && g.elected[t].leader == l
         && prev + |entries| <= |g.tlog[t]| && entries == g.tlog[t][prev..prev + |entries|]
         && prevTerm == TermAtIndex(g.tlog[t], prev)
         && commit <= prev + |entries| && CommittedPrefix(g, g.tlog[t], commit, t)
       case InstallSnapshot(t, l, b, bt, ts) =>
         && l == e.from && t in g.elected && g.elected[t].leader == l
         && b <= |g.tlog[t]| && bt == TermAtIndex(g.tlog[t], b)
         && TripleSet(ts) == Fold(g.tlog[t][..b])
         && CommittedPrefix(g, g.tlog[t], b, t)
  }

  ghost predicate ReplyOk(g: Ledger, e: Envelope<RaftReply>) {
    && Shape(g) && e.from in g.ids && e.to in g.ids && e.from != e.to && e.msg.term <= g.term[e.from]
    && match e.msg
       case VoteReply(t, granted) => granted ==> (e.from, t) in g.votes && g.votes[(e.from, t)].cand == e.to
       case AppendReply(t, success, m) => success ==> (e.from, t) in g.acks && m <= g.acks[(e.from, t)]
       case SnapshotReply(t) => true
  }

  // ------------------------------------------------------------------------ frames

  /** The ledger grew by something node `v` did. */
  ghost predicate Local(g: Ledger, h: Ledger, v: NodeId) {
    && Sound(g) && Sound(h) && Grows(g, h) && v in g.ids
    && (forall w :: w in g.ids && w != v ==> h.term[w] == g.term[w] && h.log[w] == g.log[w])
    && (forall w, t :: (w, t) in h.votes && (w, t) !in g.votes ==> w == v)
    && (forall t :: t in h.elected && t !in g.elected ==> h.elected[t].leader == v)
    && (forall w, t :: (w, t) in h.acks && w != v ==> (w, t) in g.acks && h.acks[(w, t)] == g.acks[(w, t)])
    && (forall t :: t in g.elected && g.elected[t].leader != v ==> h.tlog[t] == g.tlog[t])
  }

  lemma LocalRefl(g: Ledger, v: NodeId)
    requires Sound(g) && v in g.ids
    ensures Local(g, g, v)
  {
  }

  lemma LocalTrans(g: Ledger, h: Ledger, k: Ledger, v: NodeId)
    requires Local(g, h, v) && Local(h, k, v)
    ensures Local(g, k, v)
  {
    hide Sound;
    GrowsTransitive(g, h, k);
    LocalElections(g, h, k, v);
    LocalAcks(g, h, k, v);
  }

  lemma LocalElections(g: Ledger, h: Ledger, k: Ledger, v: NodeId)
    requires Local(g, h, v) && Local(h, k, v)
    ensures forall t :: t in k.elected && t !in g.elected ==> k.elected[t].leader == v
    ensures forall t :: t in g.elected && g.elected[t].leader != v ==> k.tlog[t] == g.tlog[t]
  {
    hide Sound;
    forall t | t in k.elected && t !in g.elected
      ensures k.elected[t].leader == v
    {
      if t in h.elected {
        assert k.elected[t] == h.elected[t];
      }
    }
    forall t | t in g.elected && g.elected[t].leader != v
      ensures k.tlog[t] == g.tlog[t]
    {
      assert h.elected[t] == g.elected[t];
    }
  }

  lemma LocalAcks(g: Ledger, h: Ledger, k: Ledger, v: NodeId)
    requires Local(g, h, v) && Local(h, k, v)
    ensures forall w, t :: (w, t) in k.acks && w != v ==> (w, t) in g.acks && k.acks[(w, t)] == g.acks[(w, t)]
    ensures forall w, t :: (w, t) in k.votes && (w, t) !in g.votes ==> w == v
  {
    hide Sound;
    forall w, t | (w, t) in k.acks && w != v
      ensures (w, t) in g.acks && k.acks[(w, t)] == g.acks[(w, t)]
    {
      assert (w, t) in h.acks;
    }
    forall w, t | (w, t) in k.votes && (w, t) !in g.votes
      ensures w == v
    {
      assert (w, t) in h.votes || (w, t) !in h.votes;
    }
  }

  // Each action of the protocol is local to the node that takes it.

  lemma BumpLocal(g: Ledger, v: NodeId, t: nat)
    requires Sound(g) && Shape(g) && v in g.ids && g.term[v] < t
    ensures Local(g, Bump(g, v, t), v)
  {
    hide Sound;
    BumpKeeps(g, v, t);
  }

  lemma StandLocal(g: Ledger, v: NodeId)
    requires Sound(g) && Shape(g) && v in g.ids
    ensures Local(g, Stand(g, v), v)
  {
    hide Sound;
    StandKeeps(g, v);
  }

  lemma VoteLocal(g: Ledger, v: NodeId, c: NodeId)
    requires Sound(g) && MayVote(g, v, c)
    ensures Local(g, CastVote(g, v, c), v)
  {
    hide Sound;
    NewVoteKeeps(g, v, c);
  }

  lemma WinLocal(g: Ledger, v: NodeId, q: set<NodeId>)
    requires Sound(g) && MayWin(g, v, q)
    ensures Local(g, Win(g, v, q), v)
  {
    hide Sound;
    WinKeeps(g, v, q);
  }

  lemma AppendLocal(g: Ledger, v: NodeId, e: LogEntry)
    requires Sound(g) && Leads(g, v) && e.term == g.term[v]
    ensures Local(g, Append(g, v, e), v)
  {
    hide Sound;
    AppendKeeps(g, v, e);
  }

  lemma AcceptLocal(g: Ledger, v: NodeId, k: nat)
    requires Sound(g) && MayAccept(g, v, k)
    ensures Local(g, Accept(g, v, k), v)
  {
    hide Sound;
    AcceptKeeps(g, v, k);
  }

  lemma InstallLocal(g: Ledger, v: NodeId, b: nat)
    requires Sound(g) && MayInstall(g, v, b)
    ensures Local(g, Install(g, v, b), v)
  {
    hide Sound;
    InstallKeeps(g, v, b);
  }

  // Nodes and messages untouched by a local change still fit.

  lemma CoreFrame(g: Ledger, h: Ledger, v: NodeId, w: NodeId, n: Node, store: set<Triple>)
    requires Local(g, h, v) && w != v && Core(g, w, n, store)
    ensures Core(h, w, n, store)
  {
    hide Sound;
    hide CommittedPrefix;
    hide Fold;
    CommittedPrefixGrows(g, h, g.log[w], n.commit, n.term, h.log[w], n.term);
    CommittedPrefixGrows(g, h, g.log[w], n.applied, n.term, h.log[w], n.term);
    CommittedPrefixGrows(g, h, g.log[w], n.baseIndex, n.term, h.log[w], n.term);
  }

  lemma DutyFrame(g: Ledger, h: Ledger, v: NodeId, w: NodeId, n: Node)
    requires Local(g, h, v) && w != v && w in g.ids && Duty(g, w, n)
    ensures Duty(h, w, n)
  {
    hide Sound;
    hide NodeLeader;
    LeaderFrame(g, h, v, w, n);
    assert (w, n.term) in h.votes ==> (w, n.term) in g.votes;
  }

  lemma LeaderFrame(g: Ledger, h: Ledger, v: NodeId, w: NodeId, n: Node)
    requires Local(g, h, v) && w != v && NodeLeader(g, w, n)
    ensures NodeLeader(h, w, n)
  {
    hide Sound;
    if n.role == Leader {
      assert n.term in g.elected && h.elected[n.term] == g.elected[n.term];
      forall p | p in n.matchIndex
        ensures Matched(h, n, p, n.matchIndex[p])
      {
        assert Matched(g, n, p, n.matchIndex[p]);
      }
    }
  }

  lemma NodeFrame(g: Ledger, h: Ledger, v: NodeId, w: NodeId, n: Node, store: set<Triple>)
    requires Local(g, h, v) && w != v && w in g.ids && NodeOk(g, w, n, store)
    ensures NodeOk(h, w, n, store)
  {
    hide Local;
    hide Core;
    hide Duty;
    CoreFrame(g, h, v, w, n, store);
    DutyFrame(g, h, v, w, n);
  }

  lemma RequestFrame(g: Ledger, h: Ledger, e: Envelope<RaftMsg>)
    requires Grows(g, h) && RequestOk(g, e)
    ensures RequestOk(h, e)
  {
    hide CommittedPrefix;
    hide Fold;
    match e.msg
    case RequestVote(t, c, lastIndex, lastTerm) =>
    case AppendEntries(t, l, prev, prevTerm, commit, entries) =>
      assert Agree(g.tlog[t], h.tlog[t], |g.tlog[t]|);
      CommittedPrefixGrows(g, h, g.tlog[t], commit, t, h.tlog[t], t);
    case InstallSnapshot(t, l, b, bt, ts) =>
      assert Agree(g.tlog[t], h.tlog[t], |g.tlog[t]|);
      assert g.tlog[t][..b] == h.tlog[t][..b];
      CommittedPrefixGrows(g, h, g.tlog[t], b, t, h.tlog[t], t);
  }

  lemma ReplyFrame(g: Ledger, h: Ledger, e: Envelope<RaftReply>)
    requires Grows(g, h) && ReplyOk(g, e)
    ensures ReplyOk(h, e)
  {
    match e.msg
    case VoteReply(t, granted) =>
    case AppendReply(t, success, m) =>
      assert success ==> (e.from, t) in h.acks;
    case SnapshotReply(t) =>
  }

  // ------------------------------------------- the facts about a node's own log

  lemma TermAtMeansLog(g: Ledger, v: NodeId, n: Node, k: nat)
    requires NodeLog(g, v, n) && n.baseIndex <= k <= n.LastIndex()
    ensures n.TermAt(k) == TermAtIndex(g.log[v], k)
    ensures n.LastIndex() == |g.log[v]| && n.LastLogTerm() == LastTerm(g.log[v])
  {
  }

  /** What a node counts as committed is in the log of every leader of its term or later. */
  lemma CommittedInLeader(g: Ledger, l: Log, c: nat, s: nat, t: nat)
    requires Sound(g) && CommittedPrefix(g, l, c, s) && s <= t && t in g.tlog && c <= |l|
    ensures Agree(l, g.tlog[t], c)
  {
    if c != 0 {
      var u :| CommittedBy(g, l, c, s, u);
      CommittedStays(g, u, c, t);
    }
  }

  lemma LeaderOwnsLog(g: Ledger, v: NodeId)
    requires Sound(g) && Leads(g, v)
    ensures g.log[v] == g.tlog[g.term[v]]
  {
    assert GoodElection(g, g.term[v]);
  }

  lemma NotYetWon(g: Ledger, v: NodeId, t: nat)
    requires Sound(g) && v in g.ids && g.term[v] < t
    ensures (v, t) !in g.votes && (t in g.elected ==> g.elected[t].leader != v)
  {
    VotesInPast(g, v);
    if t in g.elected {
      assert GoodElection(g, t);
    }
  }

  lemma NodeFacts(g: Ledger, v: NodeId, n: Node, store: set<Triple>)
    requires NodeOk(g, v, n, store)
    ensures Shape(g) && v in g.ids && n.id == v && n.term == g.term[v]
    ensures n.baseIndex <= n.applied <= n.commit <= |g.log[v]| == n.LastIndex()
    ensures n.LastLogTerm() == LastTerm(g.log[v])
    ensures forall p :: p in n.peers ==> p in g.ids && p != v
  {
    hide Duty;
    hide NodeCommit;
    hide NodeStore;
  }

  lemma LocalFacts(g: Ledger, h: Ledger, v: NodeId)
    requires Local(g, h, v)
    ensures Sound(g) && Sound(h) && Grows(g, h) && Shape(g) && Shape(h) && v in g.ids && g.ids == h.ids
  {
    hide Sound;
  }

  /** A step that changes neither what is committed nor what is applied keeps both. */
  lemma CoreKept(g: Ledger, h: Ledger, v: NodeId, n: Node, m: Node, store: set<Triple>)
    requires Core(g, v, n, store) && Grows(g, h) && NodeLog(h, v, m)
    requires m.commit == n.commit && m.applied == n.applied && m.baseIndex == n.baseIndex
    requires m.snapshot == n.snapshot && m.pendingReset == n.pendingReset && n.term <= m.term
    requires Agree(g.log[v], h.log[v], n.commit)
    ensures Core(h, v, m, store)
  {
    hide CommittedPrefix;
    hide Fold;
    CommittedPrefixGrows(g, h, g.log[v], n.commit, n.term, h.log[v], m.term);
    CommittedPrefixGrows(g, h, g.log[v], n.applied, n.term, h.log[v], m.term);
    CommittedPrefixGrows(g, h, g.log[v], n.baseIndex, n.term, h.log[v], m.term);
    assert h.log[v][..n.baseIndex] == g.log[v][..n.baseIndex];
    assert h.log[v][..n.applied] == g.log[v][..n.applied];
  }
}
