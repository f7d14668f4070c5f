/** The actions of the protocol and the proof that each keeps the ledger sound. */
module RaftActions {
  import opened RaftTypes
  import opened RaftLedger

  // Frames: what an action does not touch stays sound as the record grows -------------

  lemma NodeLogsFrame(g: Ledger, h: Ledger)
    requires Grows(g, h) && NodeLogs(g)
    requires forall v {:trigger GoodNode(h, v)} :: v in g.ids ==> h.log[v] == g.log[v] || GoodNode(h, v)
    ensures NodeLogs(h)
  {
    forall v | v in h.ids
      ensures GoodNode(h, v)
    {
      assert GoodNode(g, v);
      BackedGrows(g, h, g.log[v]);
    }
  }

  lemma TermLogsFrame(g: Ledger, h: Ledger)
    requires Grows(g, h) && TermLogs(g)
    requires forall t {:trigger GoodTermLog(h, t)} :: t in h.tlog ==>
      (t in g.tlog && h.tlog[t] == g.tlog[t]) || GoodTermLog(h, t)
    ensures TermLogs(h)
  {
    forall t | t in h.tlog
      ensures GoodTermLog(h, t)
    {
      if t in g.tlog && h.tlog[t] == g.tlog[t] {
        assert GoodTermLog(g, t);
        BackedGrows(g, h, g.tlog[t]);
      }
    }
  }

  lemma VotesFrame(g: Ledger, h: Ledger)
    requires Grows(g, h) && Votes(g)
    requires forall v, t {:trigger GoodVote(h, v, t)} :: (v, t) in h.votes && (v, t) !in g.votes ==> GoodVote(h, v, t)
    ensures Votes(h)
  {
    forall v, t | (v, t) in h.votes
      ensures GoodVote(h, v, t)
    {
      if (v, t) in g.votes {
        assert GoodVote(g, v, t);
        BackedGrows(g, h, g.votes[(v, t)].log);
      }
    }
  }

  lemma ElectionsFrame(g: Ledger, h: Ledger)
    requires Grows(g, h) && Elections(g)
    requires forall t :: t in g.elected && g.elected[t].leader in g.ids && h.term[g.elected[t].leader] == t ==>
      h.log[g.elected[t].leader] == h.tlog[t]
    requires forall t {:trigger GoodElection(h, t)} :: t in h.elected && t !in g.elected ==> GoodElection(h, t)
    ensures Elections(h)
  {
    forall t | t in h.elected
      ensures GoodElection(h, t)
    {
      if t in g.elected {
        assert GoodElection(g, t);
      }
    }
  }

  lemma AcksFrame(g: Ledger, h: Ledger)
    requires Grows(g, h) && Acks(g)
    requires forall v, t {:trigger GoodAck(h, v, t)} :: (v, t) in h.acks ==>
      ((v, t) in g.acks && h.acks[(v, t)] == g.acks[(v, t)]) || GoodAck(h, v, t)
    ensures Acks(h)
  {
    forall v, t | (v, t) in h.acks
      ensures GoodAck(h, v, t)
    {
      if (v, t) in g.acks && h.acks[(v, t)] == g.acks[(v, t)] {
        assert GoodAck(g, v, t);
        assert Agree(g.tlog[t], h.tlog[t], |g.tlog[t]|);
      }
    }
  }

  lemma LogsKeepFrame(g: Ledger, h: Ledger)
    requires Grows(g, h) && Acks(g) && LogsKeep(g)
    requires forall v, t, n: nat {:trigger KeptInLog(h, v, t, n)} :: (v, t) in h.acks && n <= h.acks[(v, t)] ==>
      ((v, t) in g.acks && n <= g.acks[(v, t)] && (v in g.ids ==> h.log[v] == g.log[v])) || KeptInLog(h, v, t, n)
    ensures LogsKeep(h)
  {
    forall v, t, n: nat | (v, t) in h.acks && n <= h.acks[(v, t)]
      ensures KeptInLog(h, v, t, n)
    {
      if (v, t) in g.acks && n <= g.acks[(v, t)] && (v in g.ids ==> h.log[v] == g.log[v]) {
        assert GoodAck(g, v, t);
        KeptInLogFrame(g, h, v, t, n);
      }
    }
  }

  lemma KeptInLogFrame(g: Ledger, h: Ledger, v: NodeId, t: nat, n: nat)
    requires Grows(g, h) && Acks(g) && LogsKeep(g) && (v, t) in g.acks && n <= g.acks[(v, t)]
    requires v in g.log && v in h.log && h.log[v] == g.log[v]
    ensures KeptInLog(h, v, t, n)
  {
    assert GoodAck(g, v, t) && KeptInLog(g, v, t, n);
    assert Agree(g.tlog[t], h.tlog[t], |g.tlog[t]|);
    if AllHold(h, t, n, h.term[v]) {
      AllHoldBack(g, h, t, n, g.term[v], h.term[v]);
    }
  }

  lemma VotesKeepFrame(g: Ledger, h: Ledger)
    requires Grows(g, h) && Acks(g) && VotesKeep(g)
    requires forall v, t, n: nat, u {:trigger KeptInVote(h, v, t, n, u)} ::
      (v, t) in h.acks && n <= h.acks[(v, t)] && t < u && (v, u) in h.votes ==>
      ((v, t) in g.acks && n <= g.acks[(v, t)] && (v, u) in g.votes) || KeptInVote(h, v, t, n, u)
    ensures VotesKeep(h)
  {
    forall v, t, n: nat, u | (v, t) in h.acks && n <= h.acks[(v, t)] && t < u && (v, u) in h.votes
      ensures KeptInVote(h, v, t, n, u)
    {
      if (v, t) in g.acks && n <= g.acks[(v, t)] && (v, u) in g.votes {
        KeptInVoteFrame(g, h, v, t, n, u);
      }
    }
  }

  lemma KeptInVoteFrame(g: Ledger, h: Ledger, v: NodeId, t: nat, n: nat, u: nat)
    requires Grows(g, h) && Acks(g) && VotesKeep(g)
    requires (v, t) in g.acks && n <= g.acks[(v, t)] && t < u && (v, u) in g.votes
    ensures (v, u) in h.votes && KeptInVote(h, v, t, n, u)
  {
    assert GoodAck(g, v, t) && KeptInVote(g, v, t, n, u);
    assert Agree(g.tlog[t], h.tlog[t], |g.tlog[t]|);
    if AllHold(h, t, n, u - 1) {
      AllHoldBack(g, h, t, n, u - 1, u - 1);
    }
  }

  lemma VotesInPast(g: Ledger, v: NodeId)
    requires Shape(g) && Votes(g) && v in g.ids
    ensures forall u :: (v, u) in g.votes ==> u <= g.term[v]
  {
    forall u | (v, u) in g.votes
      ensures u <= g.term[v]
    {
      assert GoodVote(g, v, u);
    }
  }

  // Learning of a newer term ----------------------------------------------------

  ghost function Bump(g: Ledger, v: NodeId, t: nat): Ledger {
    g.(term := g.term[v := t])
  }

  lemma BumpKeeps(g: Ledger, v: NodeId, t: nat)
    requires Sound(g) && v in g.ids && g.term[v] < t
    ensures Sound(Bump(g, v, t)) && Grows(g, Bump(g, v, t))
  {
    var h := Bump(g, v, t);
    assert Grows(g, h);
    NodeLogsFrame(g, h);
    TermLogsFrame(g, h);
    VotesFrame(g, h);
    forall u | u in g.elected
      ensures g.elected[u].leader in g.ids && u <= g.term[g.elected[u].leader]
      ensures g.term[g.elected[u].leader] == u ==> g.log[g.elected[u].leader] == g.tlog[u]
    {
      assert GoodElection(g, u);
    }
    ElectionsFrame(g, h);
    AcksFrame(g, h);
    LogsKeepFrame(g, h);
    VotesKeepFrame(g, h);
  }

  // Standing for election: a new term and a vote for oneself -----------------------

  ghost function Stand(g: Ledger, c: NodeId): Ledger
    requires Shape(g) && c in g.ids
  {
    g.(term := g.term[c := g.term[c] + 1], votes := g.votes[(c, g.term[c] + 1) := Vote(c, g.log[c])])
  }

  lemma StandKeeps(g: Ledger, c: NodeId)
    requires Sound(g) && c in g.ids
    ensures Sound(Stand(g, c)) && Grows(g, Stand(g, c))
  {
    hide Sound;
    hide Grows;
    MayStand(g, c);
    var t := g.term[c] + 1;
    BumpKeeps(g, c, t);
    var b := Bump(g, c, t);
    NewVoteKeeps(b, c, c);
    GrowsTransitive(g, b, Stand(g, c));
  }

  lemma MayStand(g: Ledger, c: NodeId)
    requires Sound(g) && c in g.ids
    ensures g.term.Keys == g.ids && MayVote(Bump(g, c, g.term[c] + 1), c, c)
  {
    VotesInPast(g, c);
    assert GoodNode(g, c);
  }

  // Voting ----------------------------------------------------------------------------

  ghost predicate MayVote(g: Ledger, v: NodeId, c: NodeId) {
    && Shape(g) && v in g.ids
    && (v, g.term[v]) !in g.votes
    && (c != v ==> (c, g.term[v]) in g.votes && g.votes[(c, g.term[v])].cand == c
                   && UpToDate(g.votes[(c, g.term[v])].log, g.log[v]))
    && (c == v ==> forall i :: 0 <= i < |g.log[v]| ==> g.log[v][i].term < g.term[v])
  }

  ghost function CastVote(g: Ledger, v: NodeId, c: NodeId): Ledger
    requires Shape(g) && v in g.ids
  {
    g.(votes := g.votes[(v, g.term[v]) := Vote(c, g.log[v])])
  }

  lemma NewVoteKeeps(g: Ledger, v: NodeId, c: NodeId)
    requires Sound(g) && MayVote(g, v, c)
    ensures Sound(CastVote(g, v, c)) && Grows(g, CastVote(g, v, c))
  {
    var h := CastVote(g, v, c);
    var t := g.term[v];
    assert Grows(g, h);
    NodeLogsFrame(g, h);
    TermLogsFrame(g, h);
    assert GoodNode(g, v);
    assert GoodVote(h, v, t);
    VotesFrame(g, h);
    forall u | u in g.elected
      ensures g.elected[u].leader in g.ids
      ensures g.term[g.elected[u].leader] == u ==> g.log[g.elected[u].leader] == g.tlog[u]
      ensures u == t ==> v !in g.elected[u].voters
    {
      assert GoodElection(g, u);
    }
    ElectionsFrame(g, h);
    AcksFrame(g, h);
    LogsKeepFrame(g, h);
    forall x, u, n: nat, w | (x, u) in h.acks && n <= h.acks[(x, u)] && u < w && (x, w) in h.votes
                             && (x, w) !in g.votes
      ensures KeptInVote(h, x, u, n, w)
    {
      KeptInLogFrame(g, h, v, u, n);
    }
    VotesKeepFrame(g, h);
  }

  // Winning a term -------------------------------------------------------------------

  ghost predicate MayWin(g: Ledger, c: NodeId, q: set<NodeId>) {
    && Shape(g) && c in g.ids && g.term[c] !in g.elected
    && (c, g.term[c]) in g.votes && g.votes[(c, g.term[c])] == Vote(c, g.log[c])
    && Majority(q, g.ids)
    && forall v :: v in q ==> (v, g.term[c]) in g.votes && g.votes[(v, g.term[c])].cand == c
  }

  /** Election safety: a majority of votes in a term excludes any other winner of that term. */
  lemma OneWinnerPerTerm(g: Ledger, c: NodeId, t: nat, q: set<NodeId>)
    requires Sound(g) && Majority(q, g.ids) && t in g.elected
    requires forall v :: v in q ==> (v, t) in g.votes && g.votes[(v, t)].cand == c
    ensures g.elected[t].leader == c
  {
    assert GoodElection(g, t);
    var v := MajoritiesMeet(q, g.elected[t].voters, g.ids);
  }

  ghost function Win(g: Ledger, c: NodeId, q: set<NodeId>): Ledger
    requires Shape(g) && c in g.ids
  {
    var t := g.term[c];
    g.(elected := g.elected[t := Election(c, q, g.log[c])],
       tlog := g.tlog[t := g.log[c]],
       acks := g.acks[(c, t) := |g.log[c]|])
  }

  lemma WinKeeps(g: Ledger, c: NodeId, q: set<NodeId>)
    requires Sound(g) && MayWin(g, c, q)
    ensures Sound(Win(g, c, q)) && Grows(g, Win(g, c, q))
  {
    var h := Win(g, c, q);
    var t := g.term[c];
    NewTermUnacked(g, t);
    assert Grows(g, h);
    assert GoodVote(g, c, t);
    BackedGrows(g, h, g.log[c]);
    assert GoodTermLog(h, t);
    assert GoodElection(h, t);
    NodeLogsFrame(g, h);
    TermLogsFrame(g, h);
    VotesFrame(g, h);
    forall u | u in g.elected
      ensures g.elected[u].leader in g.ids
      ensures g.term[g.elected[u].leader] == u ==> g.log[g.elected[u].leader] == g.tlog[u]
    {
      assert GoodElection(g, u);
    }
    ElectionsFrame(g, h);
    assert GoodAck(h, c, t);
    AcksFrame(g, h);
    LogsKeepFrame(g, h);
    VotesInPast(g, c);
    VotesKeepFrame(g, h);
  }

  lemma NewTermUnacked(g: Ledger, t: nat)
    requires Shape(g) && Acks(g) && t !in g.elected
    ensures forall v, u :: (v, u) in g.acks ==> u != t
  {
    forall v, u | (v, u) in g.acks
      ensures u != t
    {
      assert GoodAck(g, v, u);
    }
  }

  // A leader appends ------------------------------------------------------------------

  ghost predicate Leads(g: Ledger, c: NodeId) {
    Shape(g) && c in g.ids && g.term[c] in g.elected && g.elected[g.term[c]].leader == c
  }

  ghost function Append(g: Ledger, c: NodeId, e: LogEntry): Ledger
    requires Leads(g, c)
  {
    var t := g.term[c];
    g.(log := g.log[c := g.log[c] + [e]],
       tlog := g.tlog[t := g.tlog[t] + [e]],
       acks := g.acks[(c, t) := |g.tlog[t]| + 1])
  }

  lemma AppendGrows(g: Ledger, c: NodeId, e: LogEntry)
    requires Sound(g) && Leads(g, c) && e.term == g.term[c]
    ensures Grows(g, Append(g, c, e))
  {
    assert GoodElection(g, g.term[c]);
    if (c, g.term[c]) in g.acks {
      assert GoodAck(g, c, g.term[c]);
    }
  }

  lemma AppendKeeps(g: Ledger, c: NodeId, e: LogEntry)
    requires Sound(g) && Leads(g, c) && e.term == g.term[c]
    ensures Sound(Append(g, c, e)) && Grows(g, Append(g, c, e))
  {
    var h := Append(g, c, e);
    var t := g.term[c];
    assert GoodElection(g, t);
    if (c, t) in g.acks {
      assert GoodAck(g, c, t);
    }
    AppendGrows(g, c, e);
    ExtendedLog(g, h, c, e);
    NodeLogsFrame(g, h);
    TermLogsFrame(g, h);
    VotesFrame(g, h);
    forall u | u in g.elected
      ensures g.elected[u].leader in g.ids
      ensures h.term[g.elected[u].leader] == u ==> h.log[g.elected[u].leader] == h.tlog[u]
    {
      assert GoodElection(g, u);
    }
    ElectionsFrame(g, h);
    assert GoodAck(h, c, t);
    AcksFrame(g, h);
    forall v, u, n: nat | (v, u) in h.acks && n <= h.acks[(v, u)] && v == c
      ensures KeptInLog(h, v, u, n)
    {
      if u != t {
        ExtendedKeeps(g, h, c, u, n);
      }
    }
    LogsKeepFrame(g, h);
    VotesInPast(g, c);
    VotesKeepFrame(g, h);
  }

  lemma ExtendedKeeps(g: Ledger, h: Ledger, c: NodeId, u: nat, n: nat)
    requires Grows(g, h) && Acks(g) && LogsKeep(g) && (c, u) in g.acks && n <= g.acks[(c, u)]
    requires c in g.log && c in h.log && Agree(g.log[c], h.log[c], |g.log[c]|)
    ensures KeptInLog(h, c, u, n)
  {
    assert GoodAck(g, c, u) && KeptInLog(g, c, u, n);
    assert Agree(g.tlog[u], h.tlog[u], |g.tlog[u]|);
    if AllHold(h, u, n, h.term[c]) {
      AllHoldBack(g, h, u, n, g.term[c], h.term[c]);
    }
  }

  lemma ExtendedLog(g: Ledger, h: Ledger, c: NodeId, e: LogEntry)
    requires Sound(g) && Leads(g, c) && e.term == g.term[c] && h == Append(g, c, e) && Grows(g, h)
    ensures GoodTermLog(h, g.term[c]) && GoodNode(h, c)
  {
    var t := g.term[c];
    assert GoodElection(g, t) && GoodTermLog(g, t);
    ExtendedBacked(g, h, g.tlog[t], e);
  }

  lemma ExtendedBacked(g: Ledger, h: Ledger, l: Log, e: LogEntry)
    requires Grows(g, h) && Backed(g.tlog, l) && e.term in h.tlog && h.tlog[e.term] == l + [e]
    ensures Backed(h.tlog, l + [e])
  {
    hide Grows;
    var m := l + [e];
    BackedGrows(g, h, l);
    forall i | 0 <= i < |m|
      ensures BackedAt(h.tlog, m, i)
    {
      if i < |l| {
        assert BackedAt(h.tlog, l, i);
      }
    }
  }

  // A follower stores entries of its term's leader ------------------------------------

  /** The log of a follower that stores the first `k` entries of `src`: unchanged when it
      already has them, otherwise exactly those entries. */
  ghost function Merge(l: Log, src: Log, k: nat): Log
    requires k <= |src|
  {
    if Agree(l, src, k) then l else src[..k]
  }

  ghost predicate MayAccept(g: Ledger, v: NodeId, k: nat) {
    && Shape(g) && v in g.ids && g.term[v] in g.elected && g.elected[g.term[v]].leader != v
    && k <= |g.tlog[g.term[v]]|
  }

  ghost function Accept(g: Ledger, v: NodeId, k: nat): Ledger
    requires MayAccept(g, v, k)
  {
    var t := g.term[v];
    g.(log := g.log[v := Merge(g.log[v], g.tlog[t], k)],
       acks := g.acks[(v, t) := if (v, t) in g.acks && g.acks[(v, t)] >= k then g.acks[(v, t)] else k])
  }

  lemma AcceptKeeps(g: Ledger, v: NodeId, k: nat)
    requires Sound(g) && MayAccept(g, v, k)
    ensures Sound(Accept(g, v, k)) && Grows(g, Accept(g, v, k))
  {
    var h := Accept(g, v, k);
    var t := g.term[v];
    if (v, t) in g.acks {
      assert GoodAck(g, v, t);
    }
    FollowerLogChanged(g, h, v);
    forall x, u, n: nat | (x, u) in h.acks && n <= h.acks[(x, u)] && x == v
      ensures KeptInLog(h, x, u, n)
    {
      if (v, u) in g.acks && n <= g.acks[(v, u)] {
        assert GoodAck(g, v, u);
        if AllHold(h, u, n, h.term[v]) {
          KeptIsLeaders(g, h, v, u, n);
        }
      }
    }
    LogsKeepFrame(g, h);
  }

  /** The leader of `v`'s term holds whatever prefix `v` is obliged to have kept. */
  lemma KeptIsLeaders(g: Ledger, h: Ledger, v: NodeId, u: nat, n: nat)
    requires Shape(g) && Grows(g, h) && TermLogs(g) && Acks(g) && LogsKeep(g)
    requires v in g.ids && g.term[v] in g.elected && h.term[v] == g.term[v]
    requires (v, u) in g.acks && n <= g.acks[(v, u)] && u in h.tlog && AllHold(h, u, n, h.term[v])
    ensures u in g.tlog && Agree(g.log[v], g.tlog[u], n) && Agree(g.tlog[g.term[v]], g.tlog[u], n)
  {
    var t := g.term[v];
    assert GoodAck(g, v, u) && KeptInLog(g, v, u, n);
    AllHoldBack(g, h, u, n, t, t);
    if u < t {
      assert Holds(g, t, u, n) && GoodTermLog(g, t);
    }
  }

  lemma PrefixBacked(tlog: map<nat, Log>, l: Log, k: nat)
    requires Backed(tlog, l) && k <= |l|
    ensures Backed(tlog, l[..k])
  {
    forall i | 0 <= i < k
      ensures BackedAt(tlog, l[..k], i)
    {
      assert BackedAt(tlog, l, i);
    }
  }

  /** Everything but the kept acknowledgements survives when a follower's log becomes a prefix of
      its leader's log, or stays as it is. */
  lemma FollowerLogChanged(g: Ledger, h: Ledger, v: NodeId)
    requires Sound(g) && MayAccept(g, v, 0)
    requires v in h.log && h.log == g.log[v := h.log[v]]
    requires h == g.(log := h.log, acks := h.acks)
    requires h.log[v] == g.log[v] ||
             (|h.log[v]| <= |g.tlog[g.term[v]]| && h.log[v] == g.tlog[g.term[v]][..|h.log[v]|])
    requires forall k :: k in g.acks ==> k in h.acks && g.acks[k] <= h.acks[k]
    requires forall k :: k in h.acks && k != (v, g.term[v]) ==> k in g.acks && h.acks[k] == g.acks[k]
    requires (v, g.term[v]) in h.acks ==> h.acks[(v, g.term[v])] <= |g.tlog[g.term[v]]|
    ensures Grows(g, h) && NodeLogs(h) && TermLogs(h) && Votes(h) && Elections(h) && Acks(h) && VotesKeep(h)
  {
    var t := g.term[v];
    assert Grows(g, h);
    assert GoodTermLog(g, t);
    PrefixBacked(g.tlog, g.tlog[t], if |h.log[v]| <= |g.tlog[t]| then |h.log[v]| else 0);
    assert GoodNode(g, v);
    assert GoodNode(h, v);
    NodeLogsFrame(g, h);
    TermLogsFrame(g, h);
    VotesFrame(g, h);
    forall u | u in g.elected
      ensures g.elected[u].leader in g.ids
      ensures h.term[g.elected[u].leader] == u ==> h.log[g.elected[u].leader] == h.tlog[u]
    {
      assert GoodElection(g, u);
    }
    ElectionsFrame(g, h);
    assert (v, t) in h.acks ==> GoodAck(h, v, t);
    AcksFrame(g, h);
    VotesInPast(g, v);
    VotesKeepFrame(g, h);
  }

  // A follower replaces its log by its leader's snapshot --------------------------------

  /** Replacing the log by the first `b` entries of the leader's is safe when the follower's log
      does not agree with the leader's beyond `b`. */
  ghost predicate MayInstall(g: Ledger, v: NodeId, b: nat) {
    MayAccept(g, v, b) && !Agree(g.log[v], g.tlog[g.term[v]], b + 1)
  }

  ghost function Install(g: Ledger, v: NodeId, b: nat): Ledger
    requires MayInstall(g, v, b)
  {
    g.(log := g.log[v := g.tlog[g.term[v]][..b]])
  }

  lemma AgreeDown(a: Log, b: Log, n: nat)
    ensures forall k: nat {:trigger Agree(a, b, k)} :: Agree(a, b, n) && k <= n ==> Agree(a, b, k)
  {
  }

  lemma InstallKeeps(g: Ledger, v: NodeId, b: nat)
    requires Sound(g) && MayInstall(g, v, b)
    ensures Sound(Install(g, v, b)) && Grows(g, Install(g, v, b))
  {
    var h := Install(g, v, b);
    if (v, g.term[v]) in g.acks {
      assert GoodAck(g, v, g.term[v]);
    }
    FollowerLogChanged(g, h, v);
    forall x, u, n: nat | (x, u) in h.acks && n <= h.acks[(x, u)] && x == v
      ensures KeptInLog(h, x, u, n)
    {
      assert GoodAck(g, v, u);
      if AllHold(h, u, n, h.term[v]) {
        KeptIsLeaders(g, h, v, u, n);
        AgreeDown(g.log[v], g.tlog[g.term[v]], n);
      }
    }
    LogsKeepFrame(g, h);
  }
}
