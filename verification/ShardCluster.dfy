/** The data plane of the elastic store: one endpoint per member, routed inserts, and migration of
    shards between owners when a node joins or leaves. Endpoints are reachable and answer truthfully. */
module ShardCluster {
  import opened Wrappers
  import opened RaftTypes
  import opened Ordered
  import opened Membership
  import opened Sharding
  import TripleStore

  // --------------------------------------------------------------------- one shard's data

  /** The triples of a store whose subject hashes to the shard. */
  ghost function Bucket(hash: nat -> nat, store: set<Triple>, shard: nat, n: nat): set<Triple> {
    if n == 0 then {} else set t | t in store && ShardOf(hash, t.sub, n) == shard
  }

  method ScanBucket(hash: nat -> nat, store: set<Triple>, shard: nat, n: nat) returns (r: seq<Triple>)
    ensures TripleSet(r) == Bucket(hash, store, shard, n)
    ensures Ascending(r, TripleStore.TripleLe)
  {
    r := [];
    if n == 0 {
      return;
    }
    var all := TripleStore.IterAll(store);
    for i := 0 to |all|
      invariant forall t :: t in r <==> t in all[..i] && ShardOf(hash, t.sub, n) == shard
      invariant Ascending(r, TripleStore.TripleLe)
    {
      if ShardOf(hash, all[i].sub, n) == shard {
        forall t | t in r
          ensures TripleStore.TripleLe(t, all[i]) && t != all[i]
        {
          var j :| 0 <= j < i && all[j] == t;
        }
        r := r + [all[i]];
      }
    }
    assert all[..|all|] == all;
    assert forall t :: t in all <==> t in TripleSet(all);
  }

  /** Remove a shard's triples; the count is how many there were. */
  method PurgeBucket(hash: nat -> nat, store: set<Triple>, shard: nat, n: nat) returns (r: set<Triple>, removed: nat)
    ensures r == store - Bucket(hash, store, shard, n)
    ensures removed == |Bucket(hash, store, shard, n)|
  {
    var doomed := ScanBucket(hash, store, shard, n);
    r, removed := store, 0;
    for i := 0 to |doomed|
      invariant r == store - TripleSet(doomed[..i]) && removed == i == |TripleSet(doomed[..i])|
    {
      assert doomed[..i + 1] == doomed[..i] + [doomed[i]];
      assert TripleSet(doomed[..i + 1]) == TripleSet(doomed[..i]) + {doomed[i]};
      assert doomed[i] in TripleSet(doomed) && doomed[i] !in TripleSet(doomed[..i]);
      if doomed[i] in r {
        r := r - {doomed[i]};
        removed := removed + 1;
      }
    }
    assert doomed[..|doomed|] == doomed;
  }

  // ---------------------------------------------------------------------- the whole cluster

  type Endpoints = map<NodeId, set<Triple>>

  ghost function Union(endpoints: Endpoints): set<Triple> {
    set id, t | id in endpoints && t in endpoints[id] :: t
  }

  /** The map names `id` for the triple's shard. */
  ghost predicate OwnedBy(hash: nat -> nat, owners: seq<NodeId>, id: NodeId, t: Triple) {
    |owners| > 0 && owners[ShardOf(hash, t.sub, |owners|)] == id
  }

  /** Every triple is held only by the node the map names for its shard. */
  ghost predicate HeldBy(hash: nat -> nat, owners: seq<NodeId>, endpoints: Endpoints) {
    forall id, t :: id in endpoints && t in endpoints[id] ==> OwnedBy(hash, owners, id, t)
  }

  /** What moving one shard does to the endpoints. */
  ghost function Moved(hash: nat -> nat, endpoints: Endpoints, shard: nat, n: nat, from: NodeId,
      to: NodeId): Endpoints {
    if from == to || from !in endpoints then endpoints
    else
      var b := Bucket(hash, endpoints[from], shard, n);
      var e := if to in endpoints then endpoints[to := endpoints[to] + b] else endpoints;
      e[from := e[from] - b]
  }

  /** Moving a shard to its new owner conserves every triple and keeps each with exactly its owner. */
  lemma MoveConserves(hash: nat -> nat, owners: seq<NodeId>, endpoints: Endpoints, shard: nat, to: NodeId)
    requires HeldBy(hash, owners, endpoints) && shard < |owners| && owners[shard] in endpoints && to in endpoints
    ensures var e := Moved(hash, endpoints, shard, |owners|, owners[shard], to);
            && HeldBy(hash, owners[shard := to], e) && Union(e) == Union(endpoints) && e.Keys == endpoints.Keys
  {
    var from, n := owners[shard], |owners|;
    var e := Moved(hash, endpoints, shard, n, from, to);
    if from != to {
      forall id, t: Triple | id in e && t in e[id]
        ensures owners[shard := to][ShardOf(hash, t.sub, n)] == id && t in Union(endpoints)
      {
        if t in endpoints[id] {
        } else {
          assert id == to && t in endpoints[from];
        }
      }
      forall t | t in Union(endpoints)
        ensures t in Union(e)
      {
        var id :| id in endpoints && t in endpoints[id];
        if id == from && t in Bucket(hash, endpoints[from], shard, n) {
          assert t in e[to];
        } else {
          assert t in e[id];
        }
      }
    } else {
      assert owners[shard := to] == owners;
    }
  }

  /** The summed counts are the size of the union. */
  ghost function Summed(endpoints: Endpoints, ids: set<NodeId>): nat
    requires ids <= endpoints.Keys
    decreases |ids|
  {
    if ids == {} then 0
    else
      var id :| id in ids;
      |endpoints[id]| + Summed(endpoints, ids - {id})
  }

  lemma {:induction false} SummedIsUnion(hash: nat -> nat, owners: seq<NodeId>, endpoints: Endpoints, ids: set<NodeId>)
    requires HeldBy(hash, owners, endpoints) && ids <= endpoints.Keys
    ensures Summed(endpoints, ids) == |set id, t | id in ids && t in endpoints[id] :: t|
    decreases |ids|
  {
    var all := set id, t | id in ids && t in endpoints[id] :: t;
    if ids == {} {
      assert all == {};
    } else {
      var x :| x in ids && Summed(endpoints, ids) == |endpoints[x]| + Summed(endpoints, ids - {x});
      var rest := set id, t | id in ids - {x} && t in endpoints[id] :: t;
      SummedIsUnion(hash, owners, endpoints, ids - {x});
      assert all == endpoints[x] + rest;
      assert endpoints[x] !! rest by {
        forall t | t in endpoints[x]
          ensures t !in rest
        {
          assert owners[ShardOf(hash, t.sub, |owners|)] == x;
        }
      }
    }
  }

  // -------------------------------------------------------------------------- rebalancing

  /** The endpoints after moving each of the first `s` shards whose owner differs. */
  ghost function Rebalanced(hash: nat -> nat, was: Config, now: Config, endpoints: Endpoints, s: nat): Endpoints {
    if s == 0 then endpoints
    else
      var e := Rebalanced(hash, was, now, endpoints, s - 1);
      var a, b := Owner(was, s - 1), Owner(now, s - 1);
      if a.Some? && b.Some? && a != b then Moved(hash, e, s - 1, now.numShards, a.value, b.value) else e
  }

  lemma {:induction false} RebalanceConserves(hash: nat -> nat, was: Config, now: Config, endpoints: Endpoints, s: nat)
    requires |was.assignment| == |now.assignment| == now.numShards && s <= now.numShards
    requires forall i :: 0 <= i < now.numShards ==> was.assignment[i] in endpoints && now.assignment[i] in endpoints
    requires HeldBy(hash, was.assignment, endpoints)
    ensures var e := Rebalanced(hash, was, now, endpoints, s);
            && HeldBy(hash, now.assignment[..s] + was.assignment[s..], e)
            && Union(e) == Union(endpoints) && e.Keys == endpoints.Keys
  {
    hide HeldBy;
    hide Union;
    hide Moved;
    if s == 0 {
      assert now.assignment[..0] + was.assignment[0..] == was.assignment;
    } else {
      RebalanceConserves(hash, was, now, endpoints, s - 1);
      var mix := now.assignment[..s - 1] + was.assignment[s - 1..];
      var e := Rebalanced(hash, was, now, endpoints, s - 1);
      assert mix[s - 1 := now.assignment[s - 1]] == now.assignment[..s] + was.assignment[s..];
      if was.assignment[s - 1] != now.assignment[s - 1] {
        MoveConserves(hash, mix, e, s - 1, now.assignment[s - 1]);
      } else {
        assert mix[s - 1 := now.assignment[s - 1]] == mix;
      }
    }
  }

  ghost function Seeded(e: Endpoints, id: NodeId, seed: set<Triple>): Endpoints
    requires id in e
  {
    e[id := e[id] + seed]
  }

  /** Triples a joining endpoint brings along stay where they are. */
  lemma {:induction false} RebalanceSeed(hash: nat -> nat, was: Config, now: Config, endpoints: Endpoints, id: NodeId,
                                         seed: set<Triple>, s: nat)
    requires id in endpoints && id !in was.assignment
    ensures var e := Rebalanced(hash, was, now, endpoints, s);
            && e.Keys == endpoints.Keys
            && Rebalanced(hash, was, now, Seeded(endpoints, id, seed), s) == Seeded(e, id, seed)
  {
    hide Moved;
    if s > 0 {
      RebalanceSeed(hash, was, now, endpoints, id, seed, s - 1);
      var e := Rebalanced(hash, was, now, endpoints, s - 1);
      var a, b := Owner(was, s - 1), Owner(now, s - 1);
      if a.Some? && b.Some? && a != b {
        MovedSeed(hash, e, s - 1, now.numShards, a.value, b.value, id, seed);
      }
    }
  }

  lemma MovedSeed(hash: nat -> nat, e: Endpoints, shard: nat, n: nat, from: NodeId, to: NodeId, id: NodeId,
      seed: set<Triple>)
    requires id in e && from != id
    ensures Moved(hash, e, shard, n, from, to).Keys == e.Keys
    ensures Moved(hash, Seeded(e, id, seed), shard, n, from, to) == Seeded(Moved(hash, e, shard, n, from, to), id, seed)
  {
    hide Bucket;
    var x, y := Moved(hash, Seeded(e, id, seed), shard, n, from, to),
        Seeded(Moved(hash, e, shard, n, from, to), id, seed);
    if from in e && to == id {
      var b := Bucket(hash, e[from], shard, n);
      assert (e[id] + seed) + b == (e[id] + b) + seed;
    }
    assert forall k :: k in e ==> x[k] == y[k];
  }

  datatype Cluster = Cluster(config: Config, endpoints: Endpoints)

  ghost predicate Sound(hash: nat -> nat, w: Weight, c: Cluster) {
    Settled(w, c.config) && c.endpoints.Keys == c.config.members.Keys && HeldBy(hash, c.config.assignment, c.endpoints)
  }

  /** Admit a node with an endpoint, as the code does: the endpoint is registered first. */
  ghost function Join(hash: nat -> nat, w: Weight, c: Cluster, id: NodeId, addr: Text, endpoint: set<Triple>): Cluster {
    var e := c.endpoints[id := endpoint];
    var (now, changed) := AddMember(w, c.config, id, addr);
    if !changed then Cluster(now, e)
    else Cluster(now, Rebalanced(hash, c.config, now, e, now.numShards))
  }

  /** Evict a node: its shards go to their new owners, then its endpoint is dropped. */
  ghost function Leave(hash: nat -> nat, w: Weight, c: Cluster, id: NodeId): Cluster {
    var (now, changed) := RemoveMember(w, c.config, id);
    if !changed then c
    else Cluster(now, Rebalanced(hash, c.config, now, c.endpoints, now.numShards) - {id})
  }

  ghost function Put(hash: nat -> nat, c: Cluster, t: Triple): Cluster {
    match OwnerOfSubject(hash, c.config, t.sub)
    case None => c
    case Some(id) =>
      if id in c.endpoints then c.(endpoints := c.endpoints[id := c.endpoints[id] + {t}]) else c
  }

  datatype Placement = Added(isNew: bool) | NoRoute

  /** What an insert answers: whether the owner took the triple as a new one. */
  function Answer(hash: nat -> nat, c: Cluster, t: Triple): Placement {
    match OwnerOfSubject(hash, c.config, t.sub)
    case None => NoRoute
    case Some(id) => if id in c.endpoints then Added(t !in c.endpoints[id]) else NoRoute
  }

  lemma AssignedSize(w: Weight, c: Config)
    requires Settled(w, c)
    ensures c.members != map[] ==> |c.assignment| == c.numShards
    ensures c.members == map[] ==> c.assignment == []
    ensures forall i :: 0 <= i < |c.assignment| ==> c.assignment[i] in c.members
  {
    forall i | 0 <= i < |c.assignment|
      ensures c.assignment[i] in c.members
    {
      OwnersAreMembers(w, c, i);
    }
  }

  lemma NoMembersNoData(hash: nat -> nat, w: Weight, c: Cluster)
    requires Sound(hash, w, c) && c.config.members == map[]
    ensures c.endpoints == map[] && Union(c.endpoints) == {}
  {
    assert c.endpoints.Keys == {};
  }

  /** Joining with an empty endpoint. */
  lemma EmptyJoin(hash: nat -> nat, w: Weight, c: Cluster, id: NodeId, addr: Text)
    requires Sound(hash, w, c) && id !in c.config.members
    ensures var d := Join(hash, w, c, id, addr, {});
            Sound(hash, w, d) && Union(d.endpoints) == Union(c.endpoints) && id in d.endpoints
  {
    hide Assigned;
    hide Moved;
    var now := AddMember(w, c.config, id, addr).0;
    var e := c.endpoints[id := {}];
    JoinKeeps(hash, w, c, id);
    AssignedSize(w, c.config);
    AssignedSize(w, now);
    if c.config.members == map[] {
      NothingMoves(hash, c.config, now, e, now.numShards);
      NoMembersNoData(hash, w, c);
    } else {
      RebalanceConserves(hash, c.config, now, e, now.numShards);
      assert now.assignment[..now.numShards] + c.config.assignment[now.numShards..] == now.assignment;
    }
  }

  lemma JoinKeeps(hash: nat -> nat, w: Weight, c: Cluster, id: NodeId)
    requires Sound(hash, w, c) && id !in c.config.members
    ensures var e := c.endpoints[id := {}];
            HeldBy(hash, c.config.assignment, e) && Union(e) == Union(c.endpoints)
  {
    hide OwnedBy;
    var e := c.endpoints[id := {}];
    forall t | t in Union(c.endpoints)
      ensures t in Union(e)
    {
      var x :| x in c.endpoints && t in c.endpoints[x];
      assert x in e && t in e[x];
    }
    forall t | t in Union(e)
      ensures t in Union(c.endpoints)
    {
      var x :| x in e && t in e[x];
      assert x in c.endpoints && t in c.endpoints[x];
    }
  }

  lemma {:induction false} NothingMoves(hash: nat -> nat, was: Config, now: Config, e: Endpoints, s: nat)
    requires was.assignment == []
    ensures Rebalanced(hash, was, now, e, s) == e
  {
    if s > 0 {
      NothingMoves(hash, was, now, e, s - 1);
    }
  }

  /** A new node may bring triples of its own: nothing is lost whatever it brings, and each triple ends
      up with exactly its owner precisely when everything it brings belongs to it. */
  lemma JoinConserves(hash: nat -> nat, w: Weight, c: Cluster, id: NodeId, addr: Text, endpoint: set<Triple>)
    requires Sound(hash, w, c) && id !in c.config.members
    ensures var d := Join(hash, w, c, id, addr, endpoint);
            && Union(d.endpoints) == Union(c.endpoints) + endpoint
            && (Sound(hash, w, d) <==> forall t :: t in endpoint ==> OwnerOfSubject(hash, d.config, t.sub) == Some(id))
  {
    hide Assigned;
    hide Rebalanced;
    var now := AddMember(w, c.config, id, addr).0;
    EmptyJoin(hash, w, c, id, addr);
    AssignedSize(w, c.config);
    AssignedSize(w, now);
    var d := Join(hash, w, c, id, addr, {});
    var e := c.endpoints[id := {}];
    RebalanceSeed(hash, c.config, now, e, id, endpoint, now.numShards);
    assert {} + endpoint == endpoint;
    assert Seeded(e, id, endpoint) == c.endpoints[id := endpoint];
    SeedHeld(hash, now, d.endpoints, id, endpoint);
  }

  lemma SeedHeld(hash: nat -> nat, now: Config, e: Endpoints, id: NodeId, seed: set<Triple>)
    requires id in e && HeldBy(hash, now.assignment, e) && now.members != map[] && |now.assignment| == now.numShards
    ensures Union(Seeded(e, id, seed)) == Union(e) + seed
    ensures HeldBy(hash, now.assignment, Seeded(e, id, seed))
            <==> forall t :: t in seed ==> OwnerOfSubject(hash, now, t.sub) == Some(id)
  {
    var f := Seeded(e, id, seed);
    forall t | t in Union(e) + seed
      ensures t in Union(f)
    {
      if t in seed {
        assert t in f[id];
      } else {
        var x :| x in e && t in e[x];
        assert t in f[x];
      }
    }
    forall t | t in Union(f)
      ensures t in Union(e) + seed
    {
      var x :| x in f && t in f[x];
      assert t in e[x] || t in seed;
    }
    if HeldBy(hash, now.assignment, f) {
      forall t | t in seed
        ensures OwnerOfSubject(hash, now, t.sub) == Some(id)
      {
        assert t in f[id];
      }
    }
  }

  /** Registering an endpoint for a node that is already a member replaces its data: everything is still
      there precisely when the new endpoint holds what the old one held. */
  lemma RejoinKeeps(hash: nat -> nat, w: Weight, c: Cluster, id: NodeId, addr: Text, endpoint: set<Triple>)
    requires Sound(hash, w, c) && id in c.config.members
    ensures Union(c.endpoints) <= Union(Join(hash, w, c, id, addr, endpoint).endpoints) <==> c.endpoints[id] <= endpoint
  {
    var e := Join(hash, w, c, id, addr, endpoint).endpoints;
    assert e == c.endpoints[id := endpoint];
    if c.endpoints[id] <= endpoint {
      forall t | t in Union(c.endpoints)
        ensures t in Union(e)
      {
        var x :| x in c.endpoints && t in c.endpoints[x];
        assert t in e[x];
      }
    }
    if Union(c.endpoints) <= Union(e) {
      forall t | t in c.endpoints[id]
        ensures t in endpoint
      {
        assert t in Union(c.endpoints);
        assert c.config.assignment[ShardOf(hash, t.sub, |c.config.assignment|)] == id;
        var x :| x in e && t in e[x];
        assert x != id ==> t in c.endpoints[x];
      }
    }
  }

  /** Leaving conserves everything as long as someone stays; with the last member goes all the data. */
  lemma LeaveConserves(hash: nat -> nat, w: Weight, c: Cluster, id: NodeId)
    requires Sound(hash, w, c) && id in c.config.members
    ensures var d := Leave(hash, w, c, id);
            && Sound(hash, w, d)
            && Union(d.endpoints) == if c.config.members.Keys == {id} then {} else Union(c.endpoints)
  {
    hide Assigned;
    hide Moved;
    var now := RemoveMember(w, c.config, id).0;
    var d := Leave(hash, w, c, id);
    assert now.members.Keys == c.config.members.Keys - {id};
    AssignedSize(w, c.config);
    AssignedSize(w, now);
    if c.config.members.Keys == {id} {
      assert now.members == map[];
      NothingLeft(hash, c.config, now, c.endpoints, now.numShards);
      assert d.endpoints.Keys == {};
    } else {
      Remaining(c.config.members, id);
      RebalanceConserves(hash, c.config, now, c.endpoints, now.numShards);
      assert now.assignment[..now.numShards] + c.config.assignment[now.numShards..] == now.assignment;
      var e := Rebalanced(hash, c.config, now, c.endpoints, now.numShards);
      EmptyDropped(hash, now.assignment, e, id);
    }
  }

  lemma Remaining(members: map<NodeId, Text>, id: NodeId)
    requires id in members && members.Keys != {id}
    ensures members - {id} != map[]
  {
    assert exists x :: x in members.Keys && x != id;
    var x :| x in members.Keys && x != id;
    assert x in members - {id};
  }

  lemma EmptyDropped(hash: nat -> nat, owners: seq<NodeId>, e: Endpoints, id: NodeId)
    requires HeldBy(hash, owners, e) && id !in owners && id in e
    ensures HeldBy(hash, owners, e - {id}) && Union(e - {id}) == Union(e)
  {
    hide OwnedBy;
    var f := e - {id};
    forall t
      ensures t !in e[id]
    {
      NotHeld(hash, owners, e, id, t);
    }
    forall x, t: Triple | x in f && t in f[x]
      ensures OwnedBy(hash, owners, x, t)
    {
      assert x in e && t in e[x];
    }
    forall t | t in Union(e)
      ensures t in Union(f)
    {
      var x :| x in e && t in e[x];
      assert x in f && t in f[x];
    }
  }

  lemma NotHeld(hash: nat -> nat, owners: seq<NodeId>, e: Endpoints, id: NodeId, t: Triple)
    requires HeldBy(hash, owners, e) && id !in owners && id in e
    ensures t !in e[id]
  {
  }

  lemma {:induction false} NothingLeft(hash: nat -> nat, was: Config, now: Config, e: Endpoints, s: nat)
    requires now.assignment == []
    ensures Rebalanced(hash, was, now, e, s) == e
  {
    if s > 0 {
      NothingLeft(hash, was, now, e, s - 1);
    }
  }

  /** A routed insert adds exactly its triple, and it is new precisely when no node held it. */
  lemma PutConserves(hash: nat -> nat, w: Weight, c: Cluster, t: Triple)
    requires Sound(hash, w, c) && c.config.numShards > 0 && c.config.members != map[]
    ensures var d := Put(hash, c, t);
            && Sound(hash, w, d) && Union(d.endpoints) == Union(c.endpoints) + {t}
            && OwnerOfSubject(hash, c.config, t.sub).Some? && OwnerOfSubject(hash, c.config, t.sub).value in c.endpoints
            && (t in Union(c.endpoints) <==> t in c.endpoints[OwnerOfSubject(hash, c.config, t.sub).value])
  {
    hide Assigned;
    var d := Put(hash, c, t);
    AssignedSize(w, c.config);
    var id := OwnerOfSubject(hash, c.config, t.sub).value;
    assert d.endpoints == Seeded(c.endpoints, id, {t});
    SeedHeld(hash, c.config, c.endpoints, id, {t});
  }

  /** What the answer to an insert tells: no route exactly when there is no shard or no member, and
      otherwise whether any node held the triple before. */
  lemma AnswerTells(hash: nat -> nat, w: Weight, c: Cluster, t: Triple, r: Placement)
    requires Sound(hash, w, c) && r == Answer(hash, c, t)
    ensures r.NoRoute? <==> c.config.numShards == 0 || c.config.members == map[]
    ensures r.NoRoute? ==> Put(hash, c, t) == c
    ensures r.Added? ==> Sound(hash, w, Put(hash, c, t))
                         && Union(Put(hash, c, t).endpoints) == Union(c.endpoints) + {t}
                         && |Union(Put(hash, c, t).endpoints)| == |Union(c.endpoints)| + if r.isNew then 1 else 0
  {
    hide Sound;
    hide Union;
    if c.config.numShards > 0 && c.config.members != map[] {
      PutConserves(hash, w, c, t);
      var all := Union(c.endpoints);
      if t in all {
        assert all + {t} == all;
      } else {
        assert |all + {t}| == |all| + 1;
      }
    } else {
      NoRouteThere(hash, w, c, t);
    }
  }

  lemma NoRouteThere(hash: nat -> nat, w: Weight, c: Cluster, t: Triple)
    requires Sound(hash, w, c) && (c.config.numShards == 0 || c.config.members == map[])
    ensures OwnerOfSubject(hash, c.config, t.sub).None?
  {
    AssignedSize(w, c.config);
  }

  // ------------------------------------------------------------------------- whole runs

  datatype Change =
    | Joined(id: NodeId, addr: Text)
    | Left(id: NodeId)
    | Inserted(t: Triple)

  /** A node joins with a new id and an empty endpoint; the last member never leaves. */
  predicate Allowed(c: Cluster, x: Change) {
    match x
    case Joined(id, _) => id !in c.config.members
    case Left(id) => id in c.config.members && c.config.members.Keys != {id}
    case Inserted(_) => true
  }

  ghost function After(hash: nat -> nat, w: Weight, c: Cluster, x: Change): Cluster {
    match x
    case Joined(id, addr) => Join(hash, w, c, id, addr, {})
    case Left(id) => Leave(hash, w, c, id)
    case Inserted(t) => Put(hash, c, t)
  }

  ghost function AfterAll(hash: nat -> nat, w: Weight, numShards: nat, xs: seq<Change>): Cluster {
    if xs == [] then Cluster(Empty(numShards), map[])
    else After(hash, w, AfterAll(hash, w, numShards, xs[..|xs| - 1]), xs[|xs| - 1])
  }

  ghost predicate AllAllowed(hash: nat -> nat, w: Weight, numShards: nat, xs: seq<Change>) {
    forall i :: 0 <= i < |xs| ==> Allowed(AfterAll(hash, w, numShards, xs[..i]), xs[i])
  }

  /** The triples inserted while someone was there to take them. */
  ghost function Accepted(hash: nat -> nat, w: Weight, numShards: nat, xs: seq<Change>): set<Triple> {
    if xs == [] then {}
    else
      var rest := Accepted(hash, w, numShards, xs[..|xs| - 1]);
      var x := xs[|xs| - 1];
      if x.Inserted? && numShards > 0 && AfterAll(hash, w, numShards, xs[..|xs| - 1]).config.members != map[]
      then rest + {x.t} else rest
  }

  /** In every fault-free run of inserts, joins and leaves each triple is held by exactly the current
      owner of its shard, the union is the set of all accepted inserts, and the summed counts are its
      size. */
  lemma {:induction false} RunConserves(hash: nat -> nat, w: Weight, numShards: nat, xs: seq<Change>)
    requires AllAllowed(hash, w, numShards, xs)
    ensures var c := AfterAll(hash, w, numShards, xs);
            && Sound(hash, w, c) && c.config.numShards == numShards
            && Union(c.endpoints) == Accepted(hash, w, numShards, xs)
            && Summed(c.endpoints, c.endpoints.Keys) == |Accepted(hash, w, numShards, xs)|
  {
    hide Assigned;
    hide Rebalanced;
    var c := AfterAll(hash, w, numShards, xs);
    if xs == [] {
      assert Union(c.endpoints) == {};
      assert Settled(w, c.config) by {
        NoAssignment(w, numShards);
      }
    } else {
      var init, x := xs[..|xs| - 1], xs[|xs| - 1];
      assert forall i :: 0 <= i < |init| ==> init[..i] == xs[..i] && init[i] == xs[i];
      RunConserves(hash, w, numShards, init);
      ChangeConserves(hash, w, AfterAll(hash, w, numShards, init), x);
    }
    SummedIsUnion(hash, c.config.assignment, c.endpoints, c.endpoints.Keys);
    assert Union(c.endpoints) == set id, t | id in c.endpoints.Keys && t in c.endpoints[id] :: t;
  }

  lemma NoAssignment(w: Weight, numShards: nat)
    ensures Settled(w, Empty(numShards))
  {
  }

  lemma ChangeConserves(hash: nat -> nat, w: Weight, c: Cluster, x: Change)
    requires Sound(hash, w, c) && Allowed(c, x)
    ensures var d := After(hash, w, c, x);
            && Sound(hash, w, d) && d.config.numShards == c.config.numShards
            && Union(d.endpoints) == if x.Inserted? && c.config.numShards > 0 && c.config.members != map[]
                                     then Union(c.endpoints) + {x.t} else Union(c.endpoints)
  {
    hide Assigned;
    hide Rebalanced;
    hide HeldBy;
    match x
    case Joined(id, addr) => EmptyJoin(hash, w, c, id, addr);
    case Left(id) => LeaveConserves(hash, w, c, id);
    case Inserted(t) =>
      if c.config.numShards > 0 && c.config.members != map[] {
        PutConserves(hash, w, c, t);
      }
  }

  /** Inserting `done` one by one has taken the cluster from `c` to `d`, adding `added` new triples. */
  ghost predicate Filled(hash: nat -> nat, w: Weight, c: Cluster, d: Cluster, done: seq<Triple>, added: nat) {
    && Sound(hash, w, d) && d.config == c.config && (done == [] ==> d == c)
    && (done != [] ==> c.config.numShards > 0 && c.config.members != map[])
    && Union(d.endpoints) == Union(c.endpoints) + TripleSet(done)
    && |Union(d.endpoints)| == |Union(c.endpoints)| + added
  }

  lemma PutConfig(hash: nat -> nat, c: Cluster, t: Triple)
    ensures Put(hash, c, t).config == c.config
  {
  }

  lemma OneMore(hash: nat -> nat, w: Weight, c: Cluster, d: Cluster, done: seq<Triple>, added: nat, t: Triple)
    requires Filled(hash, w, c, d, done, added)
    ensures var r := Answer(hash, d, t);
            && (r.NoRoute? ==>
                  done == [] && Put(hash, d, t) == d && (c.config.numShards == 0 || c.config.members == map[]))
            && (r.Added? ==> Filled(hash, w, c, Put(hash, d, t), done + [t], if r.isNew then added + 1 else added))
  {
    hide Sound;
    hide Union;
    hide Put;
    hide Answer;
    AnswerTells(hash, w, d, t, Answer(hash, d, t));
    PutConfig(hash, d, t);
    assert done + [t] != [];
    assert TripleSet(done + [t]) == TripleSet(done) + {t};
  }

  lemma NothingFilled(hash: nat -> nat, w: Weight, c: Cluster)
    requires Sound(hash, w, c)
    ensures Filled(hash, w, c, c, [], 0)
  {
    hide Sound;
    hide Union;
  }

  lemma FilledTells(hash: nat -> nat, w: Weight, c: Cluster, d: Cluster, done: seq<Triple>, added: nat)
    requires Filled(hash, w, c, d, done, added)
    ensures Sound(hash, w, d) && d.config == c.config && (done == [] ==> d == c)
    ensures done != [] ==> c.config.numShards > 0 && c.config.members != map[]
    ensures Union(d.endpoints) == Union(c.endpoints) + TripleSet(done)
    ensures |Union(d.endpoints)| == |Union(c.endpoints)| + added
  {
    hide Sound;
    hide Union;
  }

  // -------------------------------------------------------------------------- the object

  class ShardCluster {
    const hash: nat -> nat
    const config: ClusterConfig
    var endpoints: Endpoints

    ghost function View(): Cluster
      reads this, config
    {
      Cluster(config.View(), endpoints)
    }

    constructor (hash: nat -> nat, weight: Weight, numShards: nat)
      ensures View() == Cluster(Empty(numShards), map[]) && config.weight == weight && fresh(config)
    {
      this.hash := hash;
      config := new ClusterConfig(weight, numShards);
      endpoints := map[];
    }

    /** Stream a shard from one endpoint to another, then purge it from the first. */
    method MigrateShard(shard: nat, from: NodeId, to: NodeId)
      modifies this
      ensures endpoints == Moved(hash, old(endpoints), shard, config.numShards, from, to)
    {
      if from == to || from !in endpoints {
        return;
      }
      var triples := ScanBucket(hash, endpoints[from], shard, config.numShards);
      if to in endpoints {
        var store := endpoints[to];
        for i := 0 to |triples|
          invariant store == old(endpoints)[to] + TripleSet(triples[..i])
        {
          assert triples[..i + 1] == triples[..i] + [triples[i]];
          store := store + {triples[i]};
        }
        assert triples[..|triples|] == triples;
        endpoints := endpoints[to := store];
      }
      var rest, removed := PurgeBucket(hash, endpoints[from], shard, config.numShards);
      endpoints := endpoints[from := rest];
    }

    /** Move every shard whose owner changed since `was`. */
    method Rebalance(was: Config)
      modifies this
      ensures endpoints == Rebalanced(hash, was, config.View(), old(endpoints), config.numShards)
    {
      hide Moved;
      for s := 0 to config.numShards
        invariant endpoints == Rebalanced(hash, was, config.View(), old(endpoints), s)
      {
        var a, b := Owner(was, s), Owner(config.View(), s);
        if a.Some? && b.Some? && a != b {
          MigrateShard(s, a.value, b.value);
        }
      }
    }

    method AddNode(id: NodeId, addr: Text, endpoint: set<Triple>)
      modifies this, config
      ensures View() == Join(hash, config.weight, old(View()), id, addr, endpoint)
    {
      hide Rebalanced;
      hide Assigned;
      var was := config.View();
      endpoints := endpoints[id := endpoint];
      var changed := config.Add(id, addr);
      if changed {
        Rebalance(was);
      }
    }

    method RemoveNode(id: NodeId)
      requires Settled(config.weight, config.View())
      modifies this, config
      ensures View() == Leave(hash, config.weight, old(View()), id)
    {
      hide Moved;
      hide Assigned;
      var was := config.View();
      var changed := config.Remove(id);
      if !changed {
        return;
      }
      for s := 0 to config.numShards
        invariant config.View() == RemoveMember(config.weight, was, id).0
        invariant endpoints == Rebalanced(hash, was, config.View(), old(endpoints), s)
      {
        OnlyItsOwnMove(config.weight, was, id, s);
        var to := Owner(config.View(), s);
        if Owner(was, s) == Some(id) && to.Some? {
          MigrateShard(s, id, to.value);
        }
      }
      endpoints := endpoints - {id};
    }

    method Insert(t: Triple) returns (r: Placement)
      modifies this`endpoints
      ensures View() == Put(hash, old(View()), t)
      ensures r == Answer(hash, old(View()), t)
    {
      var o := OwnerOfSubject(hash, config.View(), t.sub);
      if o.None? || o.value !in endpoints {
        return NoRoute;
      }
      r := Added(t !in endpoints[o.value]);
      endpoints := endpoints[o.value := endpoints[o.value] + {t}];
    }

    /** Insert one by one, stopping at the first triple that cannot be routed: that is the first one of all,
        and it is so exactly when there are no shards or no members to route to. */
    method InsertAll(triples: seq<Triple>) returns (r: Result<nat>)
      requires Sound(hash, config.weight, View())
      modifies this`endpoints
      ensures Sound(hash, config.weight, View())
      ensures r.Ok? <==> triples == [] || (config.numShards > 0 && config.members != map[])
      ensures r.Ok? ==> Union(endpoints) == old(Union(endpoints)) + TripleSet(triples)
                        && r.value == |Union(endpoints)| - |old(Union(endpoints))|
      ensures r.Err? ==> endpoints == old(endpoints)
    {
      hide Filled;
      hide Sound;
      hide Union;
      hide Put;
      hide Answer;
      ghost var c := View();
      var added: nat := 0;
      NothingFilled(hash, config.weight, c);
      for i := 0 to |triples|
        invariant Filled(hash, config.weight, c, View(), triples[..i], added)
      {
        ghost var d := View();
        var one := Insert(triples[i]);
        OneMore(hash, config.weight, c, d, triples[..i], added, triples[i]);
        if one.NoRoute? {
          FilledTells(hash, config.weight, c, d, triples[..i], added);
          return Err;
        }
        if one.isNew {
          added := added + 1;
        }
        assert triples[..i + 1] == triples[..i] + [triples[i]];
      }
      assert triples[..|triples|] == triples;
      FilledTells(hash, config.weight, c, View(), triples, added);
      r := Ok(added);
    }

    /** The summed sizes of all endpoints. */
    method TripleCount() returns (n: nat)
      requires Sound(hash, config.weight, View())
      ensures n == |Union(endpoints)|
    {
      n := 0;
      var rest := endpoints.Keys;
      ghost var seen: set<Triple> := {};
      while rest != {}
        invariant rest <= endpoints.Keys
        invariant seen == set id, t | id in endpoints.Keys - rest && t in endpoints[id] :: t
        invariant n == |seen|
        decreases |rest|
      {
        var id :| id in rest;
        HeldApart(hash, config.assignment, endpoints, id, endpoints.Keys - rest, seen);
        n := n + |endpoints[id]|;
        seen := seen + endpoints[id];
        rest := rest - {id};
      }
      assert seen == Union(endpoints);
    }
  }

  /** No two endpoints hold the same triple. */
  lemma HeldApart(hash: nat -> nat, owners: seq<NodeId>, e: Endpoints, id: NodeId, others: set<NodeId>,
                  seen: set<Triple>)
    requires HeldBy(hash, owners, e) && id in e && id !in others && others <= e.Keys
    requires seen == set x, t | x in others && t in e[x] :: t
    ensures e[id] !! seen
  {
    forall t | t in e[id]
      ensures t !in seen
    {
      assert OwnedBy(hash, owners, id, t);
      assert forall x :: x in others && t in e[x] ==> OwnedBy(hash, owners, x, t);
    }
  }

  /** When a node leaves, exactly its own shards have a different owner. */
  lemma OnlyItsOwnMove(w: Weight, was: Config, id: NodeId, s: nat)
    requires Settled(w, was) && id in was.members && s < was.numShards
    ensures var now := RemoveMember(w, was, id).0;
            (Owner(was, s).Some? && Owner(now, s).Some? && Owner(was, s) != Owner(now, s))
            <==> (Owner(was, s) == Some(id) && Owner(now, s).Some?)
  {
    hide Assigned;
    var now := RemoveMember(w, was, id).0;
    if was.members.Keys == {id} {
      assert now.members.Keys == {};
      AssignedSize(w, now);
    } else {
      RemoveMovesOnlyItsOwn(w, was, id, s);
    }
  }
}
