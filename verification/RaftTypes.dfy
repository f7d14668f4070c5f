/** Values shared by the replication protocol: log commands, log entries and the
    protocol's request and reply messages. */
module RaftTypes {

  type NodeId = nat

  predicate Distinct(s: seq<NodeId>) {
    forall i, j :: 0 <= i < j < |s| ==> s[i] != s[j]
  }

  datatype Triple = Triple(sub: nat, pred: nat, obj: nat)

  type Octet = b: int | 0 <= b < 256

  /** Text as its UTF-8 bytes. */
  type Text = seq<Octet>

  /** A replicated log command. A node address is the text it prints as. */
  datatype LogOp =
    | Insert(triple: Triple)
    | Delete(triple: Triple)
    | AddNode(id: NodeId, addr: Text)
    | RemoveNode(id: NodeId)
    | Noop

  datatype LogEntry = LogEntry(term: nat, op: LogOp)

  type Log = seq<LogEntry>

  datatype Role = Follower | Candidate | Leader

  datatype RaftMsg =
    | RequestVote(term: nat, candidateId: NodeId, lastLogIndex: nat, lastLogTerm: nat)
    | AppendEntries(term: nat, leaderId: NodeId, prevLogIndex: nat, prevLogTerm: nat,
                    leaderCommit: nat, entries: Log)
    | InstallSnapshot(term: nat, leaderId: NodeId, lastIncludedIndex: nat,
                      lastIncludedTerm: nat, triples: seq<Triple>)

  datatype RaftReply =
    | VoteReply(term: nat, granted: bool)
    | AppendReply(term: nat, success: bool, matchIndex: nat)
    | SnapshotReply(term: nat)

  /** A message together with the peer it is addressed to. */
  datatype Outgoing = Outgoing(to: NodeId, msg: RaftMsg)

  /** A mutation handed to the owner of the store. */
  datatype StoreAction = Apply(op: LogOp) | Reset(triples: seq<Triple>)

  /** The triples a store holds after applying one committed command. */
  function ApplyOp(store: set<Triple>, op: LogOp): set<Triple> {
    match op
    case Insert(t) => store + {t}
    case Delete(t) => store - {t}
    case _ => store
  }

  /** The store reached from the empty one by applying a log in order. */
  function Fold(log: Log): set<Triple> {
    if log == [] then {} else ApplyOp(Fold(log[..|log| - 1]), log[|log| - 1].op)
  }

  function TripleSet(ts: seq<Triple>): set<Triple> {
    set t | t in ts
  }

  /** The term at a 1-based position of a full log; 0 before the first entry. */
  function TermAtIndex(log: Log, index: nat): nat
    requires index <= |log|
  {
    if index == 0 then 0 else log[index - 1].term
  }

  function LastTerm(log: Log): nat {
    TermAtIndex(log, |log|)
  }
}
