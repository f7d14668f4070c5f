/** One node's state machine on values: every step of the replication protocol as a function
    from a node's state to its next state and the messages it emits. The class in
    RaftState.dfy updates the same fields in place and is proved equal to these functions. */
module RaftNode {
  import opened Wrappers
  import opened RaftTypes

  /** Logical timers. Randomised timeouts draw from `draws`, an arbitrary stream. */
  datatype TimersRaw = TimersRaw(
    electionElapsed: nat, heartbeatElapsed: nat, electionTimeout: nat,
    cfgMin: nat, cfgMax: nat, cfgHeartbeat: nat,
    draws: nat -> nat, drawn: nat)

  type Timers = t: TimersRaw | t.cfgMin <= t.cfgMax witness TimersRaw(0, 0, 0, 0, 0, 1, x => 0, 0)

  function ResetElection(t: Timers): (r: Timers)
    ensures r.cfgMin <= r.electionTimeout <= r.cfgMax && r.electionElapsed == 0
    ensures r.cfgMin == t.cfgMin && r.cfgMax == t.cfgMax
  {
    var span := t.cfgMax - t.cfgMin + 1;
    t.(electionTimeout := t.cfgMin + t.draws(t.drawn) % span, electionElapsed := 0, drawn := t.drawn + 1)
  }

  datatype Node = Node(
    id: NodeId, peers: seq<NodeId>,
    role: Role, term: nat, votedFor: Option<NodeId>, leaderId: Option<NodeId>,
    log: Log, baseIndex: nat, baseTerm: nat, snapshot: seq<Triple>,
    commit: nat, applied: nat,
    votesGranted: set<NodeId>, nextIndex: map<NodeId, nat>, matchIndex: map<NodeId, nat>,
    timers: Timers, pendingReset: Option<seq<Triple>>)
  {
    function MajoritySize(): nat { (|peers| + 1) / 2 + 1 }

    function LastIndex(): nat { baseIndex + |log| }

    function LastLogTerm(): nat { if log == [] then baseTerm else log[|log| - 1].term }

    function TermAt(index: nat): nat {
      if index == 0 then 0
      else if index <= baseIndex then baseTerm
      else if index - baseIndex - 1 < |log| then log[index - baseIndex - 1].term
      else baseTerm
    }

    function OpAt(index: nat): Option<LogOp> {
      if index <= baseIndex || index - baseIndex - 1 >= |log| then None
      else Some(log[index - baseIndex - 1].op)
    }
  }

  /** A fresh node of the cluster `{id} + peers`. */
  function Fresh(id: NodeId, peers: seq<NodeId>, timers: Timers): Node {
    Node(id, peers, Follower, 0, None, None, [], 0, 0, [], 0, 0, {}, map[], map[], ResetElection(timers), None)
  }

  function WithElectionReset(n: Node): Node {
    n.(timers := ResetElection(n.timers))
  }

  /** A newer term makes the node a follower without a vote. */
  function ObserveTerm(n: Node, term: nat): Node {
    if term > n.term then n.(term := term, votedFor := None, role := Follower, leaderId := None, votesGranted := {})
    else n
  }

  // ---------------------------------------------------------------------- emitting

  function ReplicateTo(n: Node, peer: NodeId): Option<Outgoing> {
    if n.role != Leader then None else
    var next := if peer in n.nextIndex then n.nextIndex[peer] else n.LastIndex() + 1;
    if next <= n.baseIndex then
      Some(Outgoing(peer, InstallSnapshot(n.term, n.id, n.baseIndex, n.baseTerm, n.snapshot)))
    else
      var start := next - n.baseIndex - 1;
      var entries := n.log[if start <= |n.log| then start else |n.log|..];
      Some(Outgoing(peer, AppendEntries(n.term, n.id, next - 1, n.TermAt(next - 1), n.commit, entries)))
  }

  function ReplicateToAll(n: Node, peers: seq<NodeId>): seq<Outgoing> {
    if peers == [] then [] else
    var rest := ReplicateToAll(n, peers[..|peers| - 1]);
    match ReplicateTo(n, peers[|peers| - 1])
    case None => rest
    case Some(o) => rest + [o]
  }

  function Replicate(n: Node): (Node, seq<Outgoing>) {
    (n.(timers := n.timers.(heartbeatElapsed := 0)), ReplicateToAll(n, n.peers))
  }

  /** One message as a sequence of zero or one. */
  function Single(o: Option<Outgoing>): seq<Outgoing> {
    if o.None? then [] else [o.value]
  }

  // --------------------------------------------------------------------- elections

  function Tick(n: Node): (Node, seq<Outgoing>) {
    if n.role == Leader then
      var m := n.(timers := n.timers.(heartbeatElapsed := n.timers.heartbeatElapsed + 1));
      if m.timers.heartbeatElapsed >= m.timers.cfgHeartbeat then Replicate(m) else (m, [])
    else
      var m := n.(timers := n.timers.(electionElapsed := n.timers.electionElapsed + 1));
      if m.timers.electionElapsed >= m.timers.electionTimeout then StartElection(m) else (m, [])
  }

  /** The state of a node that has just voted for itself in a new term. */
  function Stood(n: Node): Node {
    WithElectionReset(n.(term := n.term + 1, role := Candidate, votedFor := Some(n.id),
                         votesGranted := {n.id}, leaderId := None))
  }

  function VoteRequests(n: Node, peers: seq<NodeId>): seq<Outgoing> {
    seq(|peers|, i requires 0 <= i < |peers| =>
      Outgoing(peers[i], RequestVote(n.term, n.id, n.LastIndex(), n.LastLogTerm())))
  }

  function StartElection(n: Node): (Node, seq<Outgoing>) {
    var m := Stood(n);
    if |m.votesGranted| >= m.MajoritySize() then BecomeLeader(m)
    else (m, VoteRequests(m, m.peers))
  }

  /** The leader's state before it sends anything: an uncommitted tail is sealed by a no-op. */
  function Crowned(n: Node): Node {
    var l := if n.LastIndex() > n.commit then n.log + [LogEntry(n.term, Noop)] else n.log;
    var m := n.(role := Leader, leaderId := Some(n.id), log := l);
    m.(nextIndex := map p | p in m.peers :: m.LastIndex() + 1,
       matchIndex := map p | p in m.peers :: 0,
       timers := m.timers.(heartbeatElapsed := 0))
  }

  function BecomeLeader(n: Node): (Node, seq<Outgoing>) {
    Replicate(Crowned(n))
  }

  // ---------------------------------------------------------------------- handlers

  function Handle(n: Node, msg: RaftMsg): (Node, RaftReply) {
    match msg
    case RequestVote(term, cand, lastIndex, lastTerm) => HandleRequestVote(n, term, cand, lastIndex, lastTerm)
    case AppendEntries(term, leader, prev, prevTerm, commit, entries) =>
      HandleAppendEntries(n, term, leader, prev, prevTerm, commit, entries)
    case InstallSnapshot(term, leader, index, lastTerm, triples) =>
      HandleInstallSnapshot(n, term, leader, index, lastTerm, triples)
  }

  predicate LogOk(n: Node, lastIndex: nat, lastTerm: nat) {
    lastTerm > n.LastLogTerm() || (lastTerm == n.LastLogTerm() && lastIndex >= n.LastIndex())
  }

  function HandleRequestVote(n: Node, term: nat, cand: NodeId, lastIndex: nat, lastTerm: nat): (Node, RaftReply) {
    if term < n.term then (n, VoteReply(n.term, false)) else
    var m := ObserveTerm(n, term);
    var canVote := m.votedFor.None? || m.votedFor == Some(cand);
    if canVote && LogOk(m, lastIndex, lastTerm) then
      (WithElectionReset(m.(votedFor := Some(cand), role := Follower)), VoteReply(m.term, true))
    else (m, VoteReply(m.term, false))
  }

  /** Store one replicated entry at its index, cutting a conflicting suffix. */
  function StoreEntry(n: Node, index: nat, entry: LogEntry): Node {
    if index <= n.baseIndex then n
    else if index <= n.LastIndex() then
      if n.TermAt(index) != entry.term then n.(log := n.log[..index - n.baseIndex - 1] + [entry]) else n
    else n.(log := n.log + [entry])
  }

  function StoreEntries(n: Node, prev: nat, entries: Log): Node {
    if entries == [] then n
    else StoreEntry(StoreEntries(n, prev, entries[..|entries| - 1]), prev + |entries|, entries[|entries| - 1])
  }

  /** The state of a node that recognises `leader` as the leader of `term`. */
  function Following(n: Node, term: nat, leader: NodeId): Node {
    WithElectionReset(ObserveTerm(n, term).(role := Follower, leaderId := Some(leader)))
  }

  function HandleAppendEntries(n: Node, term: nat, leader: NodeId, prev: nat, prevTerm: nat, leaderCommit: nat,
                               entries: Log): (Node, RaftReply) {
    if term < n.term then (n, AppendReply(n.term, false, 0)) else
    var m := Following(n, term, leader);
    if prev > m.LastIndex() then (m, AppendReply(m.term, false, m.LastIndex()))
    else if prev > m.baseIndex && m.TermAt(prev) != prevTerm then (m, AppendReply(m.term, false, prev - 1))
    else
      var s := StoreEntries(m, prev, entries);
      var c := if leaderCommit > s.commit
               then (if leaderCommit <= s.LastIndex() then leaderCommit else s.LastIndex())
               else s.commit;
      (s.(commit := c), AppendReply(s.term, true, prev + |entries|))
  }

  function HandleInstallSnapshot(n: Node, term: nat, leader: NodeId, index: nat, lastTerm: nat,
                                 triples: seq<Triple>): (Node, RaftReply) {
    if term < n.term then (n, SnapshotReply(n.term)) else
    var m := Following(n, term, leader);
    if index > m.commit then
      (m.(baseIndex := index, baseTerm := lastTerm, log := [], snapshot := triples,
          pendingReset := Some(triples), commit := index, applied := index), SnapshotReply(m.term))
    else (m, SnapshotReply(m.term))
  }

  // ----------------------------------------------------------------------- replies

  function HandleReply(n: Node, from: NodeId, reply: RaftReply): (Node, seq<Outgoing>) {
    if reply.term > n.term then (ObserveTerm(n, reply.term), []) else
    match reply
    case VoteReply(term, granted) =>
      if n.role != Candidate || term < n.term || !granted then (n, [])
      else
        var m := n.(votesGranted := n.votesGranted + {from});
        if |m.votesGranted| >= m.MajoritySize() then BecomeLeader(m) else (m, [])
    case AppendReply(term, success, matched) =>
      if n.role != Leader || term < n.term then (n, [])
      else if success then Acknowledged(n, from, matched)
      else
        var m := BackedUp(n, from, matched);
        (m, Single(ReplicateTo(m, from)))
    case SnapshotReply(term) =>
      if n.role != Leader then (n, [])
      else
        var m := n.(matchIndex := n.matchIndex[from := n.baseIndex], nextIndex := n.nextIndex[from := n.baseIndex + 1]);
        (m, Single(ReplicateTo(m, from)))
  }

  /** A rejected peer is retried from further back. */
  function BackedUp(n: Node, from: NodeId, hint: nat): Node {
    var cur := if from in n.nextIndex then n.nextIndex[from] else 1;
    var back := if cur == 0 then 0 else cur - 1;
    var low := if hint + 1 <= back then hint + 1 else back;
    n.(nextIndex := n.nextIndex[from := if low >= 1 then low else 1])
  }

  function Acknowledged(n: Node, from: NodeId, matched: nat): (Node, seq<Outgoing>) {
    var m := n.(matchIndex := n.matchIndex[from := matched], nextIndex := n.nextIndex[from := matched + 1]);
    var a := AdvanceCommit(m);
    if matched + 1 <= a.LastIndex() then (a, Single(ReplicateTo(a, from)))
    else if a.commit > m.commit then Replicate(a)
    else (a, [])
  }

  /** How many of `peers` have acknowledged index `k`. */
  function CountMatched(peers: seq<NodeId>, matched: map<NodeId, nat>, k: nat): nat {
    if peers == [] then 0
    else
      var p := peers[|peers| - 1];
      CountMatched(peers[..|peers| - 1], matched, k) + if (if p in matched then matched[p] else 0) >= k then 1 else 0
  }

  predicate Committable(n: Node, k: nat) {
    n.TermAt(k) == n.term && 1 + CountMatched(n.peers, n.matchIndex, k) >= n.MajoritySize()
  }

  /** The highest committable index up to `k` above the commit index, or the commit index. */
  function HighestCommittable(n: Node, k: nat): nat {
    if k <= n.commit then n.commit
    else if Committable(n, k) then k
    else HighestCommittable(n, k - 1)
  }

  function AdvanceCommit(n: Node): Node {
    n.(commit := HighestCommittable(n, n.LastIndex()))
  }

  // --------------------------------------------------- clients, applying, compaction

  function Propose(n: Node, op: LogOp): (Node, Option<nat>) {
    if n.role != Leader then (n, None) else
    var m := n.(log := n.log + [LogEntry(n.term, op)]);
    var a := if m.peers == [] then AdvanceCommit(m) else m;
    (a, Some(m.LastIndex()))
  }

  function ReplicateNow(n: Node): (Node, seq<Outgoing>) {
    if n.role == Leader then Replicate(n) else (n, [])
  }

  /** The actions for the committed entries after index `k`. */
  function ActionsAfter(n: Node, k: nat): seq<StoreAction>
    decreases n.commit - k
  {
    if k >= n.commit then []
    else
      var rest := ActionsAfter(n, k + 1);
      match n.OpAt(k + 1)
      case None => rest
      case Some(op) => [Apply(op)] + rest
  }

  function DrainApply(n: Node): (Node, seq<StoreAction>) {
    var reset := if n.pendingReset.None? then [] else [Reset(n.pendingReset.value)];
    (n.(pendingReset := None, applied := if n.applied < n.commit then n.commit else n.applied),
     reset + ActionsAfter(n, n.applied))
  }

  function Compact(n: Node, upTo: nat, triples: seq<Triple>): Node {
    if upTo <= n.baseIndex || upTo > n.commit then n
    else
      var drop := if upTo - n.baseIndex <= |n.log| then upTo - n.baseIndex else |n.log|;
      n.(log := n.log[drop..], baseIndex := upTo, baseTerm := n.TermAt(upTo), snapshot := triples)
  }

  function NoteRevived(n: Node): Node {
    WithElectionReset(n.(role := if n.role == Leader then Follower else n.role))
  }

  /** The store after carrying out drained actions in order. */
  function Perform(store: set<Triple>, actions: seq<StoreAction>): set<Triple>
    decreases |actions|
  {
    if actions == [] then store
    else
      match actions[0]
      case Apply(op) => Perform(ApplyOp(store, op), actions[1..])
      case Reset(ts) => Perform(TripleSet(ts), actions[1..])
  }
}
