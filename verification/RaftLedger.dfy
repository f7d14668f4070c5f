/** The protocol behind the code, over complete logs.

    A `Ledger` records, next to each node's term and complete log, what has happened so
    far: who won each term with which log (`elected`), how far each term's leader log has
    grown (`tlog`), every vote with the voter's log at that moment (`votes`), and how much
    of each term's log every node has stored (`acks`). The seven actions below are the only
    ways a ledger changes; the invariant `Sound` is kept by all of them and implies the
    global safety theorems. */
module RaftLedger {
  import opened RaftTypes

  datatype Vote = Vote(cand: NodeId, log: Log)
  datatype Election = Election(leader: NodeId, voters: set<NodeId>, log: Log)

  datatype Ledger = Ledger(
    ids: set<NodeId>,
    term: map<NodeId, nat>,
    log: map<NodeId, Log>,
    elected: map<nat, Election>,
    tlog: map<nat, Log>,
    votes: map<(NodeId, nat), Vote>,
    acks: map<(NodeId, nat), nat>)

  // ------------------------------------------------------------------ vocabulary

  ghost predicate Agree(a: Log, b: Log, n: nat) {
    n <= |a| && n <= |b| && forall i :: 0 <= i < n ==> a[i] == b[i]
  }

  /** The election restriction: `a` is at least as up to date as `b`. */
  predicate UpToDate(a: Log, b: Log) {
    LastTerm(a) > LastTerm(b) || (LastTerm(a) == LastTerm(b) && |a| >= |b|)
  }

  ghost predicate Majority(q: set<NodeId>, ids: set<NodeId>) {
    q <= ids && 2 * |q| > |ids|
  }

  ghost predicate Monotone(l: Log) {
    forall i, j :: 0 <= i <= j < |l| ==> l[i].term <= l[j].term
  }

  ghost predicate TermsUpTo(l: Log, t: nat) {
    forall i :: 0 <= i < |l| ==> l[i].term <= t
  }

  /** The prefix of `l` ending at position `i` is a prefix of the leader log of that entry's
      term. */
  ghost predicate BackedAt(tlog: map<nat, Log>, l: Log, i: nat)
    requires i < |l|
  {
    l[i].term in tlog && Agree(l, tlog[l[i].term], i + 1)
  }

  ghost predicate Backed(tlog: map<nat, Log>, l: Log) {
    forall i {:trigger BackedAt(tlog, l, i)} :: 0 <= i < |l| ==> BackedAt(tlog, l, i)
  }

  ghost predicate GoodLog(g: Ledger, l: Log, t: nat) {
    Backed(g.tlog, l) && Monotone(l) && TermsUpTo(l, t)
  }

  /** The winner of term `w` was elected with the first `n` entries of term `t`'s log. */
  ghost predicate Holds(g: Ledger, w: nat, t: nat, n: nat) {
    w in g.elected && t in g.tlog && Agree(g.elected[w].log, g.tlog[t], n)
  }

  ghost predicate AllHold(g: Ledger, t: nat, n: nat, bound: nat) {
    forall w {:trigger Holds(g, w, t, n)} :: w in g.elected && t < w <= bound ==> Holds(g, w, t, n)
  }

  /** Log matching: two logs with the same term at an index agree up to that index. */
  lemma LogMatching(g: Ledger, a: Log, b: Log, i: nat)
    requires Backed(g.tlog, a) && Backed(g.tlog, b)
    requires i < |a| && i < |b| && a[i].term == b[i].term
    ensures Agree(a, b, i + 1)
  {
    assert BackedAt(g.tlog, a, i) && BackedAt(g.tlog, b, i);
  }

  lemma MajoritiesMeet(q: set<NodeId>, r: set<NodeId>, ids: set<NodeId>) returns (v: NodeId)
    requires Majority(q, ids) && Majority(r, ids)
    ensures v in q && v in r
  {
    Subset(q + r, ids);
    assert |q + r| == |q| + |r| - |q * r|;
    v :| v in q * r;
  }

  lemma Subset(a: set<NodeId>, b: set<NodeId>)
    requires a <= b
    ensures |a| <= |b|
  {
    assert b == a + (b - a);
    assert |b| == |a| + |b - a|;
  }

  // ------------------------------------------------------------------- invariant

  ghost predicate Shape(g: Ledger) {
    && g.term.Keys == g.ids
    && g.log.Keys == g.ids
    && g.tlog.Keys == g.elected.Keys
  }

  ghost predicate GoodNode(g: Ledger, v: NodeId)
    requires Shape(g) && v in g.ids
  {
    GoodLog(g, g.log[v], g.term[v])
  }

  ghost predicate NodeLogs(g: Ledger)
    requires Shape(g)
  {
    forall v {:trigger GoodNode(g, v)} :: v in g.ids ==> GoodNode(g, v)
  }

  /** A term's log is the log its leader was elected with, all of earlier terms, followed by
      entries of that term. */
  ghost predicate GoodTermLog(g: Ledger, t: nat)
    requires Shape(g) && t in g.tlog
  {
    && GoodLog(g, g.tlog[t], t)
    && Agree(g.elected[t].log, g.tlog[t], |g.elected[t].log|)
    && (forall i :: 0 <= i < |g.elected[t].log| ==> g.elected[t].log[i].term < t)
    && (forall i :: |g.elected[t].log| <= i < |g.tlog[t]| ==> g.tlog[t][i].term == t)
  }

  ghost predicate TermLogs(g: Ledger)
    requires Shape(g)
  {
    forall t {:trigger GoodTermLog(g, t)} :: t in g.tlog ==> GoodTermLog(g, t)
  }

  ghost predicate GoodVote(g: Ledger, v: NodeId, t: nat)
    requires Shape(g) && (v, t) in g.votes
  {
    var c := g.votes[(v, t)].cand;
    && v in g.ids && t <= g.term[v]
    && (c, t) in g.votes && g.votes[(c, t)].cand == c
    && UpToDate(g.votes[(c, t)].log, g.votes[(v, t)].log)
    && GoodLog(g, g.votes[(v, t)].log, t)
    && (c == v ==> forall i :: 0 <= i < |g.votes[(v, t)].log| ==> g.votes[(v, t)].log[i].term < t)
  }

  ghost predicate Votes(g: Ledger)
    requires Shape(g)
  {
    forall v, t {:trigger GoodVote(g, v, t)} :: (v, t) in g.votes ==> GoodVote(g, v, t)
  }

  ghost predicate GoodElection(g: Ledger, t: nat)
    requires Shape(g) && t in g.elected
  {
    var c := g.elected[t].leader;
    && c in g.ids && t <= g.term[c]
    && Majority(g.elected[t].voters, g.ids)
    && (forall v :: v in g.elected[t].voters ==> (v, t) in g.votes && g.votes[(v, t)].cand == c)
    && (c, t) in g.votes && g.votes[(c, t)].cand == c && g.votes[(c, t)].log == g.elected[t].log
    && (g.term[c] == t ==> g.log[c] == g.tlog[t])
  }

  ghost predicate Elections(g: Ledger)
    requires Shape(g)
  {
    forall t {:trigger GoodElection(g, t)} :: t in g.elected ==> GoodElection(g, t)
  }

  ghost predicate GoodAck(g: Ledger, v: NodeId, t: nat)
    requires Shape(g) && (v, t) in g.acks
  {
    && v in g.ids && t in g.tlog && t <= g.term[v] && g.acks[(v, t)] <= |g.tlog[t]|
  }

  /** A node that stored a prefix of term `t`'s log still has it, unless a later leader it
      has seen was elected without it. */
  ghost predicate KeptInLog(g: Ledger, v: NodeId, t: nat, n: nat)
    requires Shape(g)
  {
    && v in g.ids && t in g.tlog
    && (AllHold(g, t, n, g.term[v]) ==> Agree(g.log[v], g.tlog[t], n))
  }

  /** The same for the log it voted with in term `u`, as far as that vote counted. */
  ghost predicate KeptInVote(g: Ledger, v: NodeId, t: nat, n: nat, u: nat)
    requires Shape(g) && (v, u) in g.votes && t < u
  {
    && t in g.tlog
    && ((u in g.elected ==> v in g.elected[u].voters) && AllHold(g, t, n, u - 1) ==>
        Agree(g.votes[(v, u)].log, g.tlog[t], n))
  }

  ghost predicate Acks(g: Ledger)
    requires Shape(g)
  {
    forall v, t {:trigger GoodAck(g, v, t)} :: (v, t) in g.acks ==> GoodAck(g, v, t)
  }

  ghost predicate LogsKeep(g: Ledger)
    requires Shape(g)
  {
    forall v, t, n: nat {:trigger KeptInLog(g, v, t, n)} ::
      (v, t) in g.acks && n <= g.acks[(v, t)] ==> KeptInLog(g, v, t, n)
  }

  ghost predicate VotesKeep(g: Ledger)
    requires Shape(g)
  {
    forall v, t, n: nat, u {:trigger KeptInVote(g, v, t, n, u)} ::
      (v, t) in g.acks && n <= g.acks[(v, t)] && t < u && (v, u) in g.votes ==> KeptInVote(g, v, t, n, u)
  }

  ghost predicate Sound(g: Ledger) {
    Shape(g) && NodeLogs(g) && TermLogs(g) && Votes(g) && Elections(g) && Acks(g) && LogsKeep(g) && VotesKeep(g)
  }

  // ---------------------------------------------------- safety from the invariant

  /** The leader of term `t` may count index `n` as committed: the entry is of its own term
      and a majority has stored the log up to it. */
  ghost predicate Committed(g: Ledger, t: nat, n: nat) {
    && t in g.tlog && 1 <= n <= |g.tlog[t]| && g.tlog[t][n - 1].term == t
    && exists q :: Majority(q, g.ids) && Stored(g, q, t, n)
  }

  ghost predicate Stored(g: Ledger, q: set<NodeId>, t: nat, n: nat) {
    forall v :: v in q ==> (v, t) in g.acks && n <= g.acks[(v, t)]
  }

  /** Leader completeness: whoever wins a later term was elected with every entry committed
      in an earlier one. */
  lemma {:induction false} LeaderCompleteness(g: Ledger, t: nat, n: nat, u: nat)
    requires Sound(g) && Committed(g, t, n) && u in g.elected && t < u
    ensures Holds(g, u, t, n)
    decreases u
  {
    forall w | w in g.elected && t < w <= u - 1
      ensures Holds(g, w, t, n)
    {
      LeaderCompleteness(g, t, n, w);
    }
    var q :| Majority(q, g.ids) && Stored(g, q, t, n);
    assert GoodElection(g, u);
    var v := MajoritiesMeet(q, g.elected[u].voters, g.ids);
    assert GoodVote(g, v, u) && GoodVote(g, g.elected[u].leader, u);
    assert KeptInVote(g, v, t, n, u);
    WinnerHasVotersPrefix(g, t, n, u, g.elected[u].log, g.votes[(v, u)].log);
  }

  /** The comparison of last entries, combined with log matching, transfers a committed prefix
      from a voter to the winner. */
  lemma WinnerHasVotersPrefix(g: Ledger, t: nat, n: nat, u: nat, won: Log, voted: Log)
    requires Shape(g) && TermLogs(g)
    requires t < u && t in g.tlog && 1 <= n <= |g.tlog[t]| && g.tlog[t][n - 1].term == t
    requires GoodLog(g, won, u) && GoodLog(g, voted, u) && UpToDate(won, voted)
    requires forall i :: 0 <= i < |won| ==> won[i].term < u
    requires AllHold(g, t, n, u - 1) && Agree(voted, g.tlog[t], n)
    ensures Agree(won, g.tlog[t], n)
  {
    assert voted[n - 1].term == t;
    var x := LastTerm(won);
    assert x >= LastTerm(voted) >= t;
    var last := |won| - 1;
    assert BackedAt(g.tlog, won, last);
    if x == LastTerm(voted) {
      assert BackedAt(g.tlog, voted, |voted| - 1);
    } else {
      assert Holds(g, x, t, n);
      assert GoodTermLog(g, t) && GoodTermLog(g, x);
      assert forall i :: 0 <= i < n ==> g.tlog[x][i] == g.tlog[t][i];
      assert won[last] == g.tlog[x][last];
    }
  }

  /** Entries committed in an earlier term stay in every later term's log. */
  lemma CommittedStays(g: Ledger, t: nat, n: nat, u: nat)
    requires Sound(g) && Committed(g, t, n) && u in g.tlog && t <= u
    ensures Agree(g.tlog[u], g.tlog[t], n)
  {
    if t < u {
      LeaderCompleteness(g, t, n, u);
      assert GoodTermLog(g, u);
    }
  }

  /** The first `c` entries of `l` are what the leader of some term up to `bound` counted as
      committed when it set its commit index to `c`. */
  ghost predicate CommittedPrefix(g: Ledger, l: Log, c: nat, bound: nat) {
    c == 0 || exists t :: CommittedBy(g, l, c, bound, t)
  }

  ghost predicate CommittedBy(g: Ledger, l: Log, c: nat, bound: nat, t: nat) {
    Committed(g, t, c) && t <= bound && Agree(l, g.tlog[t], c)
  }

  /** Two committed prefixes agree on their common part. */
  lemma CommittedPrefixesAgree(g: Ledger, a: Log, c: nat, s: nat, b: Log, d: nat, r: nat)
    requires Sound(g) && CommittedPrefix(g, a, c, s) && CommittedPrefix(g, b, d, r)
    ensures Agree(a, b, if c <= d then c else d)
  {
    if c != 0 && d != 0 {
      var t :| CommittedBy(g, a, c, s, t);
      var u :| CommittedBy(g, b, d, r, u);
      if t <= u {
        CommittedStays(g, t, c, u);
        AgreeThrough(a, g.tlog[t], g.tlog[u], b, c, d);
      } else {
        CommittedStays(g, u, d, t);
        AgreeThrough(b, g.tlog[u], g.tlog[t], a, d, c);
      }
    }
  }

  lemma AgreeThrough(a: Log, x: Log, y: Log, b: Log, c: nat, d: nat)
    requires Agree(a, x, c) && Agree(y, x, c) && Agree(b, y, d)
    ensures Agree(a, b, if c <= d then c else d)
    ensures Agree(b, a, if c <= d then c else d)
  {
  }

  // ------------------------------------------------------------------------ growth

  /** Nothing recorded is ever forgotten. */
  ghost predicate Grows(g: Ledger, h: Ledger) {
    && Shape(g) && Shape(h)
    && g.ids == h.ids
    && (forall v :: v in g.ids ==> g.term[v] <= h.term[v])
    && (forall t :: t in g.elected ==> t in h.elected && h.elected[t] == g.elected[t])
    && (forall t :: t in g.tlog ==> t in h.tlog && Agree(g.tlog[t], h.tlog[t], |g.tlog[t]|))
    && (forall k :: k in g.votes ==> k in h.votes && h.votes[k] == g.votes[k])
    && (forall k :: k in g.acks ==> k in h.acks && g.acks[k] <= h.acks[k])
  }

  lemma GrowsTransitive(g: Ledger, h: Ledger, k: Ledger)
    requires Grows(g, h) && Grows(h, k)
    ensures Grows(g, k)
  {
    forall t | t in g.tlog
      ensures t in k.tlog && Agree(g.tlog[t], k.tlog[t], |g.tlog[t]|)
    {
      assert Agree(g.tlog[t], h.tlog[t], |g.tlog[t]|);
    }
    forall x | x in g.acks
      ensures x in k.acks && g.acks[x] <= k.acks[x]
    {
      assert x in h.acks;
    }
    forall x | x in g.votes
      ensures x in k.votes && k.votes[x] == g.votes[x]
    {
      assert x in h.votes;
    }
  }

  lemma CommittedGrows(g: Ledger, h: Ledger, t: nat, n: nat)
    requires Grows(g, h) && Committed(g, t, n)
    ensures Committed(h, t, n)
  {
    var q :| Majority(q, g.ids) && Stored(g, q, t, n);
    assert Agree(g.tlog[t], h.tlog[t], |g.tlog[t]|);
    forall v | v in q
      ensures (v, t) in h.acks && n <= h.acks[(v, t)]
    {
      assert (v, t) in g.acks;
    }
    assert Stored(h, q, t, n);
  }

  lemma CommittedPrefixGrows(g: Ledger, h: Ledger, l: Log, c: nat, s: nat, m: Log, r: nat)
    requires Grows(g, h) && CommittedPrefix(g, l, c, s) && s <= r
    requires c <= |l| ==> Agree(l, m, c)
    ensures CommittedPrefix(h, m, c, r)
  {
    if c != 0 {
      var t :| CommittedBy(g, l, c, s, t);
      CommittedGrows(g, h, t, c);
      assert Agree(g.tlog[t], h.tlog[t], |g.tlog[t]|);
      assert CommittedBy(h, m, c, r, t);
    }
  }

  lemma BackedGrows(g: Ledger, h: Ledger, l: Log)
    requires Grows(g, h) && Backed(g.tlog, l)
    ensures Backed(h.tlog, l)
  {
    forall i | 0 <= i < |l|
      ensures BackedAt(h.tlog, l, i)
    {
      assert BackedAt(g.tlog, l, i);
      var t := l[i].term;
      assert Agree(g.tlog[t], h.tlog[t], |g.tlog[t]|);
    }
  }

  lemma AllHoldBack(g: Ledger, h: Ledger, t: nat, n: nat, lo: nat, hi: nat)
    requires Grows(g, h) && t in g.tlog && n <= |g.tlog[t]| && lo <= hi
    requires AllHold(h, t, n, hi)
    ensures AllHold(g, t, n, lo)
  {
    assert Agree(g.tlog[t], h.tlog[t], |g.tlog[t]|);
    forall w | w in g.elected && t < w <= lo
      ensures Holds(g, w, t, n)
    {
      assert Holds(h, w, t, n);
    }
  }
}
