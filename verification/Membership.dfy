/** Cluster membership and the shard-to-owner map by rendezvous hashing. The weight a shard gives to a
    node is any fixed function. */
module Membership {
  import opened Wrappers
  import opened RaftTypes
  import opened Ordered
  import opened RaftNode
  import opened RaftSafety
  import TripleStore
  import Sharding

  type Weight = (nat, NodeId) -> nat

  // ----------------------------------------------------------------- rendezvous hashing

  /** The last of the members with the greatest weight, as a maximum by key yields it. */
  function RendezvousOwner(w: Weight, shard: nat, members: seq<NodeId>): (m: NodeId)
    requires members != []
    ensures m in members
  {
    if |members| == 1 then members[0]
    else
      var best := RendezvousOwner(w, shard, members[..|members| - 1]);
      var last := members[|members| - 1];
      if w(shard, last) >= w(shard, best) then last else best
  }

  /** The owner among a set of nodes, without any order: greatest weight, then greatest id. */
  ghost predicate IsOwner(w: Weight, shard: nat, members: set<NodeId>, m: NodeId) {
    && m in members
    && forall x :: x in members ==> w(shard, x) < w(shard, m) || (w(shard, x) == w(shard, m) && x <= m)
  }

  /** Over members in ascending order the computed owner depends on the set of members alone. */
  lemma {:induction false} OwnerOfSet(w: Weight, shard: nat, members: seq<NodeId>)
    requires members != [] && Ascending(members, TripleStore.NatLe)
    ensures IsOwner(w, shard, Elements(members), RendezvousOwner(w, shard, members))
  {
    if |members| > 1 {
      var init, last := members[..|members| - 1], members[|members| - 1];
      OwnerOfSet(w, shard, init);
      assert members == init + [last];
      forall x | x in Elements(members)
        ensures x in Elements(init) || x == last
      {
      }
      forall x | x in init
        ensures x < last
      {
        var i :| 0 <= i < |init| && init[i] == x;
        assert members[i] == x;
      }
    }
  }

  lemma OwnerUnique(w: Weight, shard: nat, members: set<NodeId>, a: NodeId, b: NodeId)
    requires IsOwner(w, shard, members, a) && IsOwner(w, shard, members, b)
    ensures a == b
  {
  }

  // ------------------------------------------------------------------- configurations

  datatype Config = Config(epoch: nat, numShards: nat, members: map<NodeId, Text>, assignment: seq<NodeId>)

  function Empty(numShards: nat): Config {
    Config(0, numShards, map[], [])
  }

  function MemberIds(members: map<NodeId, Text>): (r: seq<NodeId>)
    ensures Ascending(r, TripleStore.NatLe) && Elements(r) == members.Keys
  {
    TripleStore.ListNats(members.Keys)
  }

  lemma SomeMember(members: map<NodeId, Text>)
    ensures members != map[] <==> MemberIds(members) != []
  {
    NoElements(MemberIds(members));
    assert members != map[] <==> members.Keys != {};
  }

  function Assigned(w: Weight, numShards: nat, members: map<NodeId, Text>): seq<NodeId> {
    if members == map[] then []
    else
      SomeMember(members);
      seq(numShards, s requires 0 <= s < numShards => RendezvousOwner(w, s, MemberIds(members)))
  }

  function WithMembers(w: Weight, c: Config, members: map<NodeId, Text>): Config {
    Config(c.epoch + 1, c.numShards, members, Assigned(w, c.numShards, members))
  }

  function AddMember(w: Weight, c: Config, id: NodeId, addr: Text): (Config, bool) {
    if id in c.members then (c, false) else (WithMembers(w, c, c.members[id := addr]), true)
  }

  function RemoveMember(w: Weight, c: Config, id: NodeId): (Config, bool) {
    if id !in c.members then (c, false) else (WithMembers(w, c, c.members - {id}), true)
  }

  /** Data commands are not the configuration's business. */
  function ApplyConfig(w: Weight, c: Config, op: LogOp): (Config, bool) {
    match op
    case AddNode(id, addr) => AddMember(w, c, id, addr)
    case RemoveNode(id) => RemoveMember(w, c, id)
    case _ => (c, false)
  }

  /** The configuration whose assignment is the one its members determine. */
  ghost predicate Settled(w: Weight, c: Config) {
    c.assignment == Assigned(w, c.numShards, c.members)
  }

  function Owner(c: Config, shard: nat): Option<NodeId> {
    if shard < |c.assignment| then Some(c.assignment[shard]) else None
  }

  function OwnerOfSubject(hash: nat -> nat, c: Config, sub: nat): Option<NodeId> {
    if c.numShards == 0 || c.members == map[] then None else Owner(c, Sharding.ShardOf(hash, sub, c.numShards))
  }

  /** Every shard of a configuration with members is owned, by a member, and by the one the member set
      alone determines. */
  lemma OwnersAreMembers(w: Weight, c: Config, shard: nat)
    requires Settled(w, c) && shard < c.numShards && c.members != map[]
    ensures Owner(c, shard).Some? && Owner(c, shard).value in c.members
    ensures IsOwner(w, shard, c.members.Keys, Owner(c, shard).value)
  {
    SomeMember(c.members);
    OwnerOfSet(w, shard, MemberIds(c.members));
  }

  /** Adding a node changes a shard's owner only to that node. */
  lemma AddMovesOnlyToNew(w: Weight, c: Config, id: NodeId, addr: Text, shard: nat)
    requires Settled(w, c) && id !in c.members && shard < c.numShards
    ensures var d := AddMember(w, c, id, addr).0;
            && Settled(w, d) && Owner(d, shard).Some?
            && (Owner(d, shard) == Some(id) || Owner(d, shard) == Owner(c, shard))
  {
    var d := AddMember(w, c, id, addr).0;
    assert d.members.Keys == c.members.Keys + {id};
    OwnersAreMembers(w, d, shard);
    if Owner(d, shard) != Some(id) {
      var m := Owner(d, shard).value;
      assert m in c.members;
      OwnersAreMembers(w, c, shard);
      OwnerUnique(w, shard, c.members.Keys, m, Owner(c, shard).value);
    }
  }

  /** Removing a node changes only its own shards' owners. */
  lemma RemoveMovesOnlyItsOwn(w: Weight, c: Config, id: NodeId, shard: nat)
    requires Settled(w, c) && id in c.members && c.members.Keys != {id} && shard < c.numShards
    ensures var d := RemoveMember(w, c, id).0;
            && Settled(w, d) && Owner(d, shard).Some? && Owner(d, shard) != Some(id)
            && (Owner(c, shard) != Some(id) ==> Owner(d, shard) == Owner(c, shard))
  {
    var d := RemoveMember(w, c, id).0;
    assert d.members.Keys == c.members.Keys - {id};
    assert d.members != map[] by {
      assert d.members.Keys != {} by {
        assert exists x :: x in c.members.Keys && x != id;
      }
    }
    OwnersAreMembers(w, c, shard);
    OwnersAreMembers(w, d, shard);
    if Owner(c, shard) != Some(id) {
      OwnerUnique(w, shard, d.members.Keys, Owner(c, shard).value, Owner(d, shard).value);
    }
  }

  // ----------------------------------------------------- agreement through the log

  /** The configuration after applying a log from the empty one. */
  function ConfigAfter(w: Weight, numShards: nat, log: Log): Config {
    if log == [] then Empty(numShards)
    else ApplyConfig(w, ConfigAfter(w, numShards, log[..|log| - 1]), log[|log| - 1].op).0
  }

  lemma {:induction false} ConfigSettled(w: Weight, numShards: nat, log: Log)
    ensures Settled(w, ConfigAfter(w, numShards, log)) && ConfigAfter(w, numShards, log).numShards == numShards
  {
    if log != [] {
      ConfigSettled(w, numShards, log[..|log| - 1]);
    }
  }

  /** The configuration after the drained actions; a store reset leaves it alone. */
  function AfterActions(w: Weight, c: Config, actions: seq<StoreAction>): Config {
    if actions == [] then c
    else
      var d := AfterActions(w, c, actions[..|actions| - 1]);
      match actions[|actions| - 1]
      case Apply(op) => ApplyConfig(w, d, op).0
      case Reset(_) => d
  }

  lemma {:induction false} ActionsFollowLog(w: Weight, numShards: nat, canon: Log, a: nat, b: nat)
    requires a <= b <= |canon|
    ensures AfterActions(w, ConfigAfter(w, numShards, canon[..a]), ApplyAll(canon[a..b]))
            == ConfigAfter(w, numShards, canon[..b])
  {
    hide ApplyConfig;
    var actions := ApplyAll(canon[a..b]);
    if a < b {
      ActionsFollowLog(w, numShards, canon, a, b - 1);
      assert canon[..b][..b - 1] == canon[..b - 1];
      assert actions[..|actions| - 1] == ApplyAll(canon[a..b - 1]);
    } else {
      assert actions == [];
    }
  }

  /** A store reset in front of the drained commands does not matter to the configuration. */
  lemma {:induction false} ResetIgnored(w: Weight, c: Config, triples: seq<Triple>, actions: seq<StoreAction>)
    ensures AfterActions(w, c, [Reset(triples)] + actions) == AfterActions(w, c, actions)
  {
    hide ApplyConfig;
    var all := [Reset(triples)] + actions;
    if actions == [] {
      assert all == [Reset(triples)] && all[..0] == [];
      assert AfterActions(w, c, []) == c;
    } else {
      ResetIgnored(w, c, triples, actions[..|actions| - 1]);
      assert all[..|all| - 1] == [Reset(triples)] + actions[..|actions| - 1];
      assert all[|all| - 1] == actions[|actions| - 1];
    }
  }

  /** Draining takes a node from the configuration of its applied prefix of the one history to that of its
      committed prefix. */
  lemma DrainConfigures(w: Weight, numShards: nat, n: Node, store: set<Triple>, canon: Log, c: Config)
    requires FollowsHistory(n, store, canon) && c == ConfigAfter(w, numShards, canon[..n.applied])
    ensures AfterActions(w, c, DrainApply(n).1) == ConfigAfter(w, numShards, canon[..n.commit])
  {
    hide Fold;
    hide ActionsAfter;
    DrainsHistory(n, store, canon);
    var rest := ApplyAll(canon[n.applied..n.commit]);
    assert [] + rest == rest;
    ActionsFollowLog(w, numShards, canon, n.applied, n.commit);
    if n.pendingReset.Some? {
      ResetIgnored(w, c, n.pendingReset.value, rest);
    }
  }

  // ------------------------------------------------------------------------ the object

  class ClusterConfig {
    const weight: Weight
    const numShards: nat
    var epoch: nat
    var members: map<NodeId, Text>
    var assignment: seq<NodeId>

    function View(): Config
      reads this
    {
      Config(epoch, numShards, members, assignment)
    }

    constructor (weight: Weight, numShards: nat)
      ensures View() == Empty(numShards) && this.weight == weight
    {
      this.weight, this.numShards := weight, numShards;
      epoch, members, assignment := 0, map[], [];
    }

    /** Find the member with the greatest weight for a shard. */
    static method FindOwner(weight: Weight, shard: nat, ids: seq<NodeId>) returns (best: NodeId)
      requires ids != []
      ensures best == RendezvousOwner(weight, shard, ids)
    {
      best := ids[0];
      assert ids[..1] == [ids[0]];
      for i := 1 to |ids|
        invariant best == RendezvousOwner(weight, shard, ids[..i])
      {
        assert ids[..i + 1][..i] == ids[..i];
        if weight(shard, ids[i]) >= weight(shard, best) {
          best := ids[i];
        }
      }
      assert ids[..|ids|] == ids;
    }

    /** Recompute the whole shard-to-owner map. */
    method Reassign()
      modifies this`assignment
      ensures assignment == Assigned(weight, numShards, members)
    {
      hide MemberIds;
      hide RendezvousOwner;
      if members == map[] {
        assignment := [];
        return;
      }
      var ids := MemberIds(members);
      SomeMember(members);
      var owners: seq<NodeId> := [];
      for s := 0 to numShards
        invariant |owners| == s
        invariant forall k :: 0 <= k < s ==> owners[k] == RendezvousOwner(weight, k, ids)
      {
        var o := FindOwner(weight, s, ids);
        owners := owners + [o];
      }
      assignment := owners;
    }

    method Add(id: NodeId, addr: Text) returns (changed: bool)
      modifies this
      ensures (View(), changed) == AddMember(weight, old(View()), id, addr)
    {
      if id in members {
        return false;
      }
      members := members[id := addr];
      epoch := epoch + 1;
      Reassign();
      changed := true;
    }

    method Remove(id: NodeId) returns (changed: bool)
      modifies this
      ensures (View(), changed) == RemoveMember(weight, old(View()), id)
    {
      if id !in members {
        return false;
      }
      members := members - {id};
      epoch := epoch + 1;
      Reassign();
      changed := true;
    }

    method ApplyOp(op: LogOp) returns (changed: bool)
      modifies this
      ensures (View(), changed) == ApplyConfig(weight, old(View()), op)
    {
      match op
      case AddNode(id, addr) => changed := Add(id, addr);
      case RemoveNode(id) => changed := Remove(id);
      case _ => changed := false;
    }
  }
}
