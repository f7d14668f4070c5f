/** The replication state machine of one node as the object the driver holds: its fields are
    updated in place by ticks, requests, replies and client calls. Each method is proved to do to
    the fields exactly what the function of the same name in `RaftNode` does to the state. */
module RaftState {
  import opened Wrappers
  import opened RaftTypes
  import opened RaftNode

  class RaftState {
    const id: NodeId
    const peers: seq<NodeId>

    var role: Role
    var currentTerm: nat
    var votedFor: Option<NodeId>
    var leaderId: Option<NodeId>

    var log: Log
    var baseIndex: nat
    var baseTerm: nat
    var snapshot: seq<Triple>

    var commitIndex: nat
    var lastApplied: nat

    var votesGranted: set<NodeId>
    var nextIndex: map<NodeId, nat>
    var matchIndex: map<NodeId, nat>

    var timers: Timers
    var pendingReset: Option<seq<Triple>>

    function View(): Node
      reads this
    {
      Node(id, peers, role, currentTerm, votedFor, leaderId, log, baseIndex, baseTerm, snapshot,
           commitIndex, lastApplied, votesGranted, nextIndex, matchIndex, timers, pendingReset)
    }

    constructor (id: NodeId, peers: seq<NodeId>, timers: Timers)
      ensures View() == Fresh(id, peers, timers)
    {
      this.id, this.peers := id, peers;
      role, currentTerm, votedFor, leaderId := Follower, 0, None, None;
      log, baseIndex, baseTerm, snapshot := [], 0, 0, [];
      commitIndex, lastApplied := 0, 0;
      votesGranted, nextIndex, matchIndex := {}, map[], map[];
      this.timers, pendingReset := ResetElection(timers), None;
    }

    function LastLogIndex(): (r: nat)
      reads this
      ensures r == View().LastIndex()
    {
      baseIndex + |log|
    }

    function LastLogTerm(): (r: nat)
      reads this
      ensures r == View().LastLogTerm()
    {
      if log == [] then baseTerm else log[|log| - 1].term
    }

    function TermAt(index: nat): (r: nat)
      reads this
      ensures r == View().TermAt(index)
    {
      if index == 0 then 0
      else if index <= baseIndex then baseTerm
      else if index - baseIndex - 1 < |log| then log[index - baseIndex - 1].term
      else baseTerm
    }

    function MajoritySize(): nat {
      (|peers| + 1) / 2 + 1
    }

    method ResetElectionTimeout()
      modifies this
      ensures View() == WithElectionReset(old(View()))
    {
      timers := ResetElection(timers);
    }

    method ObserveTerm(term: nat)
      modifies this
      ensures View() == RaftNode.ObserveTerm(old(View()), term)
    {
      if term > currentTerm {
        currentTerm := term;
        votedFor := None;
        role := Follower;
        leaderId := None;
        votesGranted := {};
      }
    }

    // --------------------------------------------------------------------- emitting

    method ReplicateTo(peer: NodeId) returns (out: Option<Outgoing>)
      ensures out == RaftNode.ReplicateTo(View(), peer)
    {
      if role != Leader {
        return None;
      }
      var next := if peer in nextIndex then nextIndex[peer] else LastLogIndex() + 1;
      if next <= baseIndex {
        return Some(Outgoing(peer, InstallSnapshot(currentTerm, id, baseIndex, baseTerm, snapshot)));
      }
      var prevLogIndex := next - 1;
      var start := next - baseIndex - 1;
      var entries := log[if start <= |log| then start else |log|..];
      out := Some(Outgoing(peer, AppendEntries(currentTerm, id, prevLogIndex, TermAt(prevLogIndex), commitIndex,
          entries)));
    }

    method Replicate() returns (outs: seq<Outgoing>)
      modifies this
      ensures (View(), outs) == RaftNode.Replicate(old(View()))
    {
      outs := [];
      for i := 0 to |peers|
        invariant View() == old(View())
        invariant outs == ReplicateToAll(View(), peers[..i])
      {
        assert peers[..i + 1][..i] == peers[..i];
        var o := ReplicateTo(peers[i]);
        if o.Some? {
          outs := outs + [o.value];
        }
      }
      assert peers[..|peers|] == peers;
      timers := timers.(heartbeatElapsed := 0);
    }

    method ReplicateNow() returns (outs: seq<Outgoing>)
      modifies this
      ensures (View(), outs) == RaftNode.ReplicateNow(old(View()))
    {
      if role == Leader {
        outs := Replicate();
      } else {
        outs := [];
      }
    }

    // -------------------------------------------------------------------- elections

    method Tick() returns (outs: seq<Outgoing>)
      modifies this
      ensures (View(), outs) == RaftNode.Tick(old(View()))
    {
      outs := [];
      if role == Leader {
        timers := timers.(heartbeatElapsed := timers.heartbeatElapsed + 1);
        if timers.heartbeatElapsed >= timers.cfgHeartbeat {
          outs := Replicate();
        }
      } else {
        timers := timers.(electionElapsed := timers.electionElapsed + 1);
        if timers.electionElapsed >= timers.electionTimeout {
          outs := StartElection();
        }
      }
    }

    method StartElection() returns (outs: seq<Outgoing>)
      modifies this
      ensures (View(), outs) == RaftNode.StartElection(old(View()))
    {
      Stand();
      if |votesGranted| >= MajoritySize() {
        outs := BecomeLeader();
      } else {
        outs := SolicitVotes();
      }
    }

    /** Vote for oneself in a new term. */
    method Stand()
      modifies this
      ensures View() == Stood(old(View()))
    {
      currentTerm := currentTerm + 1;
      role := Candidate;
      votedFor := Some(id);
      votesGranted := {id};
      leaderId := None;
      ResetElectionTimeout();
    }

    method SolicitVotes() returns (outs: seq<Outgoing>)
      ensures outs == VoteRequests(View(), peers)
    {
      var msg := RequestVote(currentTerm, id, LastLogIndex(), LastLogTerm());
      outs := [];
      for i := 0 to |peers|
        invariant |outs| == i && forall j :: 0 <= j < i ==> outs[j] == Outgoing(peers[j], msg)
      {
        outs := outs + [Outgoing(peers[i], msg)];
      }
    }

    method BecomeLeader() returns (outs: seq<Outgoing>)
      modifies this
      ensures (View(), outs) == RaftNode.BecomeLeader(old(View()))
    {
      TakeOffice();
      ResetProgress(LastLogIndex() + 1);
      RestartHeartbeat();
      assert View() == Crowned(old(View()));
      outs := Replicate();
    }

    /** Claim leadership, sealing an uncommitted tail with a no-op of the new term. */
    method TakeOffice()
      modifies this
      ensures View() == old(View()).(
        role := Leader, leaderId := Some(id),
        log := if old(View()).LastIndex() > old(commitIndex) then old(log) + [LogEntry(old(currentTerm), Noop)]
            else old(log))
    {
      role, leaderId := Leader, Some(id);
      if LastLogIndex() > commitIndex {
        log := log + [LogEntry(currentTerm, Noop)];
      }
    }

    method RestartHeartbeat()
      modifies this
      ensures View() == old(View()).(timers := old(timers).(heartbeatElapsed := 0))
    {
      timers := timers.(heartbeatElapsed := 0);
    }

    /** Forget what peers had acknowledged; every peer is next sent index `nli`. */
    method ResetProgress(nli: nat)
      modifies this
      ensures View() == old(View()).(nextIndex := map p | p in peers :: nli, matchIndex := map p | p in peers :: 0)
    {
      var next: map<NodeId, nat>, matched: map<NodeId, nat> := map[], map[];
      for i := 0 to |peers|
        invariant forall p :: p in next <==> p in peers[..i]
        invariant forall p :: p in matched <==> p in peers[..i]
        invariant forall p :: p in next ==> next[p] == nli
        invariant forall p :: p in matched ==> matched[p] == 0
      {
        next := next[peers[i] := nli];
        matched := matched[peers[i] := 0];
      }
      nextIndex, matchIndex := next, matched;
    }

    // --------------------------------------------------------------------- requests

    method Handle(msg: RaftMsg) returns (reply: RaftReply)
      modifies this
      ensures (View(), reply) == RaftNode.Handle(old(View()), msg)
    {
      match msg
      case RequestVote(term, cand, lastIndex, lastTerm) =>
        reply := HandleRequestVote(term, cand, lastIndex, lastTerm);
      case AppendEntries(term, leader, prev, prevTerm, commit, entries) =>
        reply := HandleAppendEntries(term, leader, prev, prevTerm, commit, entries);
      case InstallSnapshot(term, leader, index, lastTerm, triples) =>
        reply := HandleInstallSnapshot(term, leader, index, lastTerm, triples);
    }

    method HandleRequestVote(term: nat, cand: NodeId, lastIndex: nat, lastTerm: nat) returns (reply: RaftReply)
      modifies this
      ensures (View(), reply) == RaftNode.HandleRequestVote(old(View()), term, cand, lastIndex, lastTerm)
    {
      if term < currentTerm {
        return VoteReply(currentTerm, false);
      }
      ObserveTerm(term);
      var logOk := lastTerm > LastLogTerm() || (lastTerm == LastLogTerm() && lastIndex >= LastLogIndex());
      var canVote := votedFor.None? || votedFor == Some(cand);
      var granted := canVote && logOk;
      if granted {
        votedFor := Some(cand);
        role := Follower;
        ResetElectionTimeout();
      }
      reply := VoteReply(currentTerm, granted);
    }

    method HandleAppendEntries(term: nat, leader: NodeId, prev: nat, prevTerm: nat, leaderCommit: nat, entries: Log)
      returns (reply: RaftReply)
      modifies this
      ensures (View(), reply) == RaftNode.HandleAppendEntries(old(View()), term, leader, prev, prevTerm,
          leaderCommit, entries)
    {
      if term < currentTerm {
        return AppendReply(currentTerm, false, 0);
      }
      Follow(term, leader);
      if prev > LastLogIndex() {
        return AppendReply(currentTerm, false, LastLogIndex());
      }
      if prev > baseIndex && TermAt(prev) != prevTerm {
        return AppendReply(currentTerm, false, prev - 1);
      }
      StoreAll(prev, entries);
      if leaderCommit > commitIndex {
        commitIndex := if leaderCommit <= LastLogIndex() then leaderCommit else LastLogIndex();
      }
      reply := AppendReply(currentTerm, true, prev + |entries|);
    }

    /** Recognise `leader` as the leader of `term`. */
    method Follow(term: nat, leader: NodeId)
      modifies this
      ensures View() == Following(old(View()), term, leader)
    {
      ObserveTerm(term);
      role := Follower;
      leaderId := Some(leader);
      ResetElectionTimeout();
    }

    /** Append received entries after index `prev`, overwriting a conflicting suffix. */
    method StoreAll(prev: nat, entries: Log)
      modifies this
      ensures View() == StoreEntries(old(View()), prev, entries)
    {
      for i := 0 to |entries|
        invariant View() == StoreEntries(old(View()), prev, entries[..i])
      {
        assert entries[..i + 1][..i] == entries[..i];
        var entry := entries[i];
        var index := prev + 1 + i;
        if index <= baseIndex {
          continue;
        }
        if index <= LastLogIndex() {
          if TermAt(index) != entry.term {
            log := log[..index - baseIndex - 1];
            log := log + [entry];
          }
        } else {
          log := log + [entry];
        }
      }
      assert entries[..|entries|] == entries;
    }

    method HandleInstallSnapshot(term: nat, leader: NodeId, index: nat, lastTerm: nat, triples: seq<Triple>)
      returns (reply: RaftReply)
      modifies this
      ensures (View(), reply) == RaftNode.HandleInstallSnapshot(old(View()), term, leader, index, lastTerm, triples)
    {
      if term < currentTerm {
        return SnapshotReply(currentTerm);
      }
      Follow(term, leader);
      if index > commitIndex {
        Install(index, lastTerm, triples);
      }
      reply := SnapshotReply(currentTerm);
    }

    /** Replace the log and everything applied by a snapshot. */
    method Install(index: nat, lastTerm: nat, triples: seq<Triple>)
      modifies this
      ensures View() == old(View()).(baseIndex := index, baseTerm := lastTerm, log := [], snapshot := triples,
                                     pendingReset := Some(triples), commit := index, applied := index)
    {
      baseIndex, baseTerm, log := index, lastTerm, [];
      snapshot, pendingReset := triples, Some(triples);
      commitIndex, lastApplied := index, index;
    }

    // ---------------------------------------------------------------------- replies

    method HandleReply(from: NodeId, reply: RaftReply) returns (outs: seq<Outgoing>)
      modifies this
      ensures (View(), outs) == RaftNode.HandleReply(old(View()), from, reply)
    {
      outs := [];
      if reply.term > currentTerm {
        ObserveTerm(reply.term);
        return;
      }
      match reply
      case VoteReply(term, granted) =>
        if role != Candidate || term < currentTerm {
          return;
        }
        if granted {
          votesGranted := votesGranted + {from};
          if |votesGranted| >= MajoritySize() {
            outs := BecomeLeader();
          }
        }
      case AppendReply(term, success, matched) =>
        if role != Leader || term < currentTerm {
          return;
        }
        if success {
          outs := HandleAck(from, matched);
        } else {
          var cur := if from in nextIndex then nextIndex[from] else 1;
          var back := if cur == 0 then 0 else cur - 1;
          var low := if matched + 1 <= back then matched + 1 else back;
          nextIndex := nextIndex[from := if low >= 1 then low else 1];
          var o := ReplicateTo(from);
          outs := Single(o);
        }
      case SnapshotReply(_) =>
        if role != Leader {
          return;
        }
        matchIndex := matchIndex[from := baseIndex];
        nextIndex := nextIndex[from := baseIndex + 1];
        var o := ReplicateTo(from);
        outs := Single(o);
    }

    method HandleAck(from: NodeId, matched: nat) returns (outs: seq<Outgoing>)
      modifies this
      ensures (View(), outs) == Acknowledged(old(View()), from, matched)
    {
      matchIndex := matchIndex[from := matched];
      nextIndex := nextIndex[from := matched + 1];
      var advanced := AdvanceCommit();
      var next := nextIndex[from];
      outs := [];
      if next <= LastLogIndex() {
        var o := ReplicateTo(from);
        outs := Single(o);
      } else if advanced {
        outs := Replicate();
      }
    }

    /** Scan down from the last entry for one of this term that a majority has stored. */
    method AdvanceCommit() returns (advanced: bool)
      modifies this
      ensures View() == RaftNode.AdvanceCommit(old(View()))
      ensures advanced <==> old(commitIndex) < commitIndex
    {
      var before := commitIndex;
      var n := LastLogIndex();
      while n > commitIndex
        invariant n >= 0 && View() == old(View())
        invariant HighestCommittable(View(), LastLogIndex()) == HighestCommittable(View(), n)
      {
        if TermAt(n) == currentTerm {
          var count := 1;
          for i := 0 to |peers|
            invariant count == 1 + CountMatched(peers[..i], matchIndex, n)
          {
            assert peers[..i + 1][..i] == peers[..i];
            if (if peers[i] in matchIndex then matchIndex[peers[i]] else 0) >= n {
              count := count + 1;
            }
          }
          assert peers[..|peers|] == peers;
          if count >= MajoritySize() {
            commitIndex := n;
            break;
          }
        }
        n := n - 1;
      }
      advanced := commitIndex > before;
    }

    // ------------------------------------------------ clients, applying, compaction

    method Propose(op: LogOp) returns (index: Option<nat>)
      modifies this
      ensures (View(), index) == RaftNode.Propose(old(View()), op)
    {
      if role != Leader {
        return None;
      }
      log := log + [LogEntry(currentTerm, op)];
      index := Some(LastLogIndex());
      if peers == [] {
        var _ := AdvanceCommit();
      }
    }

    method DrainApply() returns (actions: seq<StoreAction>)
      modifies this
      ensures (View(), actions) == RaftNode.DrainApply(old(View()))
    {
      var reset := [];
      if pendingReset.Some? {
        reset := [Reset(pendingReset.value)];
        pendingReset := None;
      }
      ghost var v := View();
      var applied := ApplyCommitted();
      actions := reset + applied;
      SameActions(v, old(View()), v.applied);
    }

    /** Hand out every committed entry not yet applied, in order. */
    method ApplyCommitted() returns (actions: seq<StoreAction>)
      modifies this
      ensures View() == old(View()).(applied := if old(lastApplied) < old(commitIndex) then old(commitIndex)
          else old(lastApplied))
      ensures actions == ActionsAfter(old(View()), old(lastApplied))
    {
      hide ActionsAfter;
      actions := [];
      ghost var v := View();
      while lastApplied < commitIndex
        invariant View() == v.(applied := lastApplied)
        invariant v.applied <= lastApplied && (lastApplied <= commitIndex || v.applied == lastApplied)
        invariant actions + ActionsAfter(v, lastApplied) == ActionsAfter(v, v.applied)
      {
        NextAction(v, lastApplied);
        lastApplied := lastApplied + 1;
        if lastApplied > baseIndex && lastApplied - baseIndex - 1 < |log| {
          actions := actions + [Apply(log[lastApplied - baseIndex - 1].op)];
        }
      }
      NoActions(v, lastApplied);
    }

    method Compact(upTo: nat, triples: seq<Triple>)
      modifies this
      ensures View() == RaftNode.Compact(old(View()), upTo, triples)
    {
      if upTo <= baseIndex || upTo > commitIndex {
        return;
      }
      var newBaseTerm := TermAt(upTo);
      var drop := if upTo - baseIndex <= |log| then upTo - baseIndex else |log|;
      log := log[drop..];
      baseIndex := upTo;
      baseTerm := newBaseTerm;
      snapshot := triples;
    }

    method NoteRevived()
      modifies this
      ensures View() == RaftNode.NoteRevived(old(View()))
    {
      if role == Leader {
        role := Follower;
      }
      ResetElectionTimeout();
    }
  }

  lemma NextAction(n: Node, k: nat)
    requires k < n.commit
    ensures ActionsAfter(n, k) == (if n.OpAt(k + 1).Some? then [Apply(n.OpAt(k + 1).value)] else [])
        + ActionsAfter(n, k + 1)
  {
  }

  lemma NoActions(n: Node, k: nat)
    requires k >= n.commit
    ensures ActionsAfter(n, k) == []
  {
  }

  /** What remains to be applied depends only on the log and the commit index. */
  lemma SameActions(n: Node, m: Node, k: nat)
    requires m.log == n.log && m.baseIndex == n.baseIndex && m.commit == n.commit
    ensures ActionsAfter(n, k) == ActionsAfter(m, k)
    decreases n.commit - k
  {
    if k < n.commit {
      SameActions(n, m, k + 1);
    }
  }
}
