/** The sharded store: routed loading and the scatter-gather access methods. */
module ShardedStore {
  import opened RaftTypes
  import opened Ordered
  import opened Sharding
  import TripleStore

  class ShardedStore {
    const hash: nat -> nat
    const shards: seq<set<Triple>>

    ghost predicate Valid() {
      Placed(hash, shards)
    }

    ghost function All(): set<Triple> {
      Whole(shards)
    }

    /** Route every triple to the bucket of its subject and load each bucket once. */
    constructor FromTriples(hash: nat -> nat, numShards: nat, triples: seq<Triple>)
      ensures Valid() && All() == TripleSet(triples)
      ensures |shards| == if numShards == 0 then 1 else numShards
    {
      var n := if numShards == 0 then 1 else numShards;
      var buckets: seq<seq<Triple>> := seq(n, _ => []);
      for k := 0 to |triples|
        invariant |buckets| == n
        invariant forall i, t :: 0 <= i < n && t in buckets[i] ==> ShardOf(hash, t.sub, n) == i && t in triples[..k]
        invariant forall t :: t in triples[..k] ==> t in buckets[ShardOf(hash, t.sub, n)]
      {
        var t := triples[k];
        var i := ShardOf(hash, t.sub, n);
        assert triples[..k + 1] == triples[..k] + [t];
        buckets := buckets[i := buckets[i] + [t]];
      }
      assert triples[..|triples|] == triples;
      this.hash := hash;
      this.shards := seq(n, i requires 0 <= i < |buckets| => TripleSet(buckets[i]));
      new;
      assert forall i :: 0 <= i < n ==> shards[i] == TripleSet(buckets[i]);
      forall t | t in triples
        ensures t in Whole(shards)
      {
        assert t in shards[ShardOf(hash, t.sub, n)];
      }
    }

    // -------------------------------------------------------------- gather and merge

    method GatherPairs(ghost keep: Triple -> bool, ghost pick: Triple -> Pair, access: set<Triple> -> seq<Pair>)
      returns (r: seq<Pair>)
      requires forall s: set<Triple> :: access(s) == TripleStore.ListPairs(Image(s, keep, pick))
      ensures r == TripleStore.ListPairs(Image(All(), keep, pick))
    {
      hide Listing;
      hide Image;
      hide TotalOrder;
      TripleStore.OrdersAreTotal();
      ghost var lists := Lists(shards, keep, pick, TripleStore.PairLe);
      var out := [];
      for i := 0 to |shards|
        invariant out == Concat(lists[..i])
      {
        assert lists[..i + 1][..i] == lists[..i];
        out := out + access(shards[i]);
      }
      assert lists[..|shards|] == lists;
      Gathered(shards, keep, pick, TripleStore.PairLe);
      r := SortDedup(out, TripleStore.PairLe);
    }

    method GatherNats(ghost keep: Triple -> bool, ghost pick: Triple -> nat, access: set<Triple> -> seq<nat>)
      returns (r: seq<nat>)
      requires forall s: set<Triple> :: access(s) == TripleStore.ListNats(Image(s, keep, pick))
      ensures r == TripleStore.ListNats(Image(All(), keep, pick))
    {
      hide Listing;
      hide Image;
      hide TotalOrder;
      TripleStore.OrdersAreTotal();
      ghost var lists := Lists(shards, keep, pick, TripleStore.NatLe);
      var out := [];
      for i := 0 to |shards|
        invariant out == Concat(lists[..i])
      {
        assert lists[..i + 1][..i] == lists[..i];
        out := out + access(shards[i]);
      }
      assert lists[..|shards|] == lists;
      Gathered(shards, keep, pick, TripleStore.NatLe);
      r := SortDedup(out, TripleStore.NatLe);
    }

    method Exists(t: Triple) returns (r: bool)
      ensures r == (t in All())
    {
      r := false;
      for i := 0 to |shards|
        invariant r == exists j :: 0 <= j < i && t in shards[j]
      {
        r := r || t in shards[i];
      }
    }

    method PoByS(sub: nat) returns (r: seq<Pair>)
      ensures r == TripleStore.PoByS(All(), sub)
    {
      ghost var keep := (t: Triple) => t.sub == sub;
      ghost var pick := (t: Triple) => (t.pred, t.obj);
      assert forall s: set<Triple> :: Image(s, keep, pick) == set t | t in s && t.sub == sub :: (t.pred, t.obj);
      r := GatherPairs(keep, pick, s => TripleStore.PoByS(s, sub));
    }

    method OBySp(sub: nat, pred: nat) returns (r: seq<nat>)
      ensures r == TripleStore.OBySp(All(), sub, pred)
    {
      ghost var keep := (t: Triple) => t.sub == sub && t.pred == pred;
      ghost var pick := (t: Triple) => t.obj;
      assert forall s: set<Triple> :: Image(s, keep, pick) == set t | t in s && t.sub == sub && t.pred == pred :: t.obj;
      r := GatherNats(keep, pick, s => TripleStore.OBySp(s, sub, pred));
    }

    method PBySo(sub: nat, obj: nat) returns (r: seq<nat>)
      ensures r == TripleStore.PBySo(All(), sub, obj)
    {
      ghost var keep := (t: Triple) => t.sub == sub && t.obj == obj;
      ghost var pick := (t: Triple) => t.pred;
      assert forall s: set<Triple> :: Image(s, keep, pick) == set t | t in s && t.sub == sub && t.obj == obj :: t.pred;
      r := GatherNats(keep, pick, s => TripleStore.PBySo(s, sub, obj));
    }

    method PsByO(obj: nat) returns (r: seq<Pair>)
      ensures r == TripleStore.PsByO(All(), obj)
    {
      ghost var keep := (t: Triple) => t.obj == obj;
      ghost var pick := (t: Triple) => (t.pred, t.sub);
      assert forall s: set<Triple> :: Image(s, keep, pick) == set t | t in s && t.obj == obj :: (t.pred, t.sub);
      r := GatherPairs(keep, pick, s => TripleStore.PsByO(s, obj));
    }

    method SByPo(pred: nat, obj: nat) returns (r: seq<nat>)
      ensures r == TripleStore.SByPo(All(), pred, obj)
    {
      ghost var keep := (t: Triple) => t.pred == pred && t.obj == obj;
      ghost var pick := (t: Triple) => t.sub;
      assert forall s: set<Triple> :: Image(s, keep, pick) == set t | t in s && t.pred == pred && t.obj == obj :: t.sub;
      r := GatherNats(keep, pick, s => TripleStore.SByPo(s, pred, obj));
    }

    method SoByP(pred: nat) returns (r: seq<Pair>)
      ensures r == TripleStore.SoByP(All(), pred)
    {
      ghost var keep := (t: Triple) => t.pred == pred;
      ghost var pick := (t: Triple) => (t.sub, t.obj);
      assert forall s: set<Triple> :: Image(s, keep, pick) == set t | t in s && t.pred == pred :: (t.sub, t.obj);
      r := GatherPairs(keep, pick, s => TripleStore.SoByP(s, pred));
    }

    method SubsByP(pred: nat) returns (r: seq<nat>)
      ensures r == TripleStore.SubsByP(All(), pred)
    {
      ghost var keep := (t: Triple) => t.pred == pred;
      ghost var pick := (t: Triple) => t.sub;
      assert forall s: set<Triple> :: Image(s, keep, pick) == set t | t in s && t.pred == pred :: t.sub;
      r := GatherNats(keep, pick, s => TripleStore.SubsByP(s, pred));
    }

    method ObjsByP(pred: nat) returns (r: seq<nat>)
      ensures r == TripleStore.ObjsByP(All(), pred)
    {
      ghost var keep := (t: Triple) => t.pred == pred;
      ghost var pick := (t: Triple) => t.obj;
      assert forall s: set<Triple> :: Image(s, keep, pick) == set t | t in s && t.pred == pred :: t.obj;
      r := GatherNats(keep, pick, s => TripleStore.ObjsByP(s, pred));
    }

    method SubjectKeys() returns (r: seq<nat>)
      ensures r == TripleStore.SubjectKeys(All())
    {
      ghost var keep := (t: Triple) => true;
      ghost var pick := (t: Triple) => t.sub;
      assert forall s: set<Triple> :: Image(s, keep, pick) == set t | t in s :: t.sub;
      r := GatherNats(keep, pick, s => TripleStore.SubjectKeys(s));
    }

    method ObjectKeys() returns (r: seq<nat>)
      ensures r == TripleStore.ObjectKeys(All())
    {
      ghost var keep := (t: Triple) => true;
      ghost var pick := (t: Triple) => t.obj;
      assert forall s: set<Triple> :: Image(s, keep, pick) == set t | t in s :: t.obj;
      r := GatherNats(keep, pick, s => TripleStore.ObjectKeys(s));
    }

    method Predicates() returns (r: seq<nat>)
      ensures r == TripleStore.Predicates(All())
    {
      ghost var keep := (t: Triple) => true;
      ghost var pick := (t: Triple) => t.pred;
      assert forall s: set<Triple> :: Image(s, keep, pick) == set t | t in s :: t.pred;
      r := GatherNats(keep, pick, s => TripleStore.Predicates(s));
    }

    // --------------------------------------------------------------------- statistics

    method TripleCount() returns (n: nat)
      requires Valid()
      ensures n == |All()|
    {
      ghost var keep := (t: Triple) => true;
      n := 0;
      for i := 0 to |shards|
        invariant n == Total(shards[..i], keep)
      {
        assert shards[..i + 1][..i] == shards[..i];
        assert shards[i] == set t | t in shards[i] && keep(t);
        n := n + |shards[i]|;
      }
      assert shards[..|shards|] == shards;
      PlacedDisjoint(hash, shards);
      TotalIsWhole(shards, keep);
      assert All() == set t | t in All() && keep(t);
    }

    method PredCard(pred: nat) returns (n: nat)
      requires Valid()
      ensures n == TripleStore.PredCard(All(), pred)
    {
      ghost var keep := (t: Triple) => t.pred == pred;
      n := 0;
      for i := 0 to |shards|
        invariant n == Total(shards[..i], keep)
      {
        assert shards[..i + 1][..i] == shards[..i];
        assert (set t | t in shards[i] && t.pred == pred) == set t | t in shards[i] && keep(t);
        n := n + TripleStore.PredCard(shards[i], pred);
      }
      assert shards[..|shards|] == shards;
      PlacedDisjoint(hash, shards);
      TotalIsWhole(shards, keep);
      assert (set t | t in All() && t.pred == pred) == set t | t in All() && keep(t);
    }

    method DistinctSubjects() returns (n: nat)
      ensures n == |set t | t in All() :: t.sub|
    {
      var keys := SubjectKeys();
      n := |keys|;
    }

    method DistinctObjects() returns (n: nat)
      ensures n == |set t | t in All() :: t.obj|
    {
      var keys := ObjectKeys();
      n := |keys|;
    }

    method NumPredicates() returns (n: nat)
      ensures n == |set t | t in All() :: t.pred|
    {
      var preds: set<nat> := {};
      for i := 0 to |shards|
        invariant preds == set j, t | 0 <= j < i && t in shards[j] :: t.pred
      {
        preds := preds + set p | p in TripleStore.Predicates(shards[i]);
        assert (set p | p in TripleStore.Predicates(shards[i])) == Elements(TripleStore.Predicates(shards[i]));
      }
      assert preds == set t | t in All() :: t.pred;
      n := |preds|;
    }

    method PredDistinctSubj(pred: nat) returns (n: nat)
      ensures n == |set t | t in All() && t.pred == pred :: t.sub|
    {
      var keys := SubsByP(pred);
      n := |keys|;
    }

    method PredDistinctObj(pred: nat) returns (n: nat)
      ensures n == |set t | t in All() && t.pred == pred :: t.obj|
    {
      var keys := ObjsByP(pred);
      n := |keys|;
    }

    /** All triples in predicate-major order, rebuilt predicate by predicate. */
    method IterAll() returns (out: seq<Triple>)
      ensures out == TripleStore.IterAll(All())
    {
      hide Rebuilt;
      hide RebuiltAll;
      hide Whole;
      hide TripleStore.SoByP;
      hide TripleStore.Predicates;
      var preds := Predicates();
      out := [];
      RebuiltNone(All());
      for i := 0 to |preds|
        invariant out == RebuiltAll(All(), preds[..i])
      {
        RebuiltMore(All(), preds, i);
        var pairs := SoByP(preds[i]);
        var part := Push(preds[i], pairs);
        out := out + part;
      }
      assert preds[..|preds|] == preds;
      RebuiltIsIterAll(All());
    }

    lemma RebuiltNone(s: set<Triple>)
      ensures RebuiltAll(s, []) == []
    {
    }

    lemma RebuiltMore(s: set<Triple>, preds: seq<nat>, i: nat)
      requires i < |preds|
      ensures RebuiltAll(s, preds[..i + 1])
          == RebuiltAll(s, preds[..i]) + Rebuilt(preds[i], TripleStore.SoByP(s, preds[i]))
    {
      hide Rebuilt;
      hide TripleStore.SoByP;
      assert preds[..i + 1][..i] == preds[..i];
    }

    static method Push(pred: nat, pairs: seq<Pair>) returns (out: seq<Triple>)
      ensures out == Rebuilt(pred, pairs)
    {
      out := [];
      for i := 0 to |pairs|
        invariant out == Rebuilt(pred, pairs[..i])
      {
        out := out + [Triple(pairs[i].0, pred, pairs[i].1)];
      }
      assert pairs[..|pairs|] == pairs;
    }
  }
}
