/** Scatter-gather over a triple set partitioned by `hash(subject) mod N`. Every access method of the
    partitioned store answers exactly what one store holding all the triples answers. */
module Sharding {
  import opened RaftTypes
  import opened Ordered
  import TripleStore

  type Pair = TripleStore.Pair

  /** The shard a subject hashes to; the hash is any fixed function. */
  function ShardOf(hash: nat -> nat, sub: nat, n: nat): (i: nat)
    requires n > 0
    ensures i < n
  {
    hash(sub) % n
  }

  /** All triples of all shards. */
  ghost function Whole(shards: seq<set<Triple>>): set<Triple> {
    set i, t | 0 <= i < |shards| && t in shards[i] :: t
  }

  /** Every triple lives on the shard its subject hashes to. */
  ghost predicate Placed(hash: nat -> nat, shards: seq<set<Triple>>) {
    |shards| > 0 && forall i, t :: 0 <= i < |shards| && t in shards[i] ==> ShardOf(hash, t.sub, |shards|) == i
  }

  // ----------------------------------------------------------------- gathering lists

  function Concat<T>(lists: seq<seq<T>>): seq<T> {
    if lists == [] then [] else Concat(lists[..|lists| - 1]) + lists[|lists| - 1]
  }

  lemma {:induction false} ConcatElements<T(!new)>(lists: seq<seq<T>>, x: T)
    ensures x in Concat(lists) <==> exists i :: 0 <= i < |lists| && x in lists[i]
  {
    if lists != [] {
      var init := lists[..|lists| - 1];
      ConcatElements(init, x);
      assert forall i :: 0 <= i < |init| ==> init[i] == lists[i];
      if x in lists[|lists| - 1] {
        assert exists i :: 0 <= i < |lists| && x in lists[i];
      }
    }
  }

  function Image<T>(s: set<Triple>, keep: Triple -> bool, pick: Triple -> T): set<T> {
    set t | t in s && keep(t) :: pick(t)
  }

  function Lists<T(!new,==)>(shards: seq<set<Triple>>, keep: Triple -> bool, pick: Triple -> T,
      le: (T, T) -> bool): seq<seq<T>>
    requires TotalOrder(le)
  {
    seq(|shards|, i requires 0 <= i < |shards| => Listing(Image(shards[i], keep, pick), le))
  }

  /** Sorting and deduplicating the concatenated answers of all shards gives the answer of the whole. */
  lemma Gathered<T(!new)>(shards: seq<set<Triple>>, keep: Triple -> bool, pick: Triple -> T, le: (T, T) -> bool)
    requires TotalOrder(le)
    ensures SortDedup(Concat(Lists(shards, keep, pick, le)), le) == Listing(Image(Whole(shards), keep, pick), le)
  {
    hide TotalOrder;
    hide Listing;
    var all := Concat(Lists(shards, keep, pick, le));
    forall x
      ensures x in Elements(all) <==> x in Image(Whole(shards), keep, pick)
    {
      GatheredElement(shards, keep, pick, le, x);
    }
    assert Elements(all) == Image(Whole(shards), keep, pick);
    SortDedupLists(all, le);
  }

  lemma GatheredElement<T(!new)>(shards: seq<set<Triple>>, keep: Triple -> bool, pick: Triple -> T,
      le: (T, T) -> bool, x: T)
    requires TotalOrder(le)
    ensures x in Concat(Lists(shards, keep, pick, le)) <==> x in Image(Whole(shards), keep, pick)
  {
    hide TotalOrder;
    hide Listing;
    var lists := Lists(shards, keep, pick, le);
    ConcatElements(lists, x);
    forall i | 0 <= i < |shards|
      ensures x in lists[i] <==> x in Image(shards[i], keep, pick)
    {
      assert x in lists[i] <==> x in Elements(lists[i]);
    }
    if x in Image(Whole(shards), keep, pick) {
      var t :| t in Whole(shards) && keep(t) && pick(t) == x;
      var i :| 0 <= i < |shards| && t in shards[i];
      assert x in Image(shards[i], keep, pick);
    }
    if x in Concat(lists) {
      var i :| 0 <= i < |lists| && x in lists[i];
      var t :| t in shards[i] && keep(t) && pick(t) == x;
      assert t in Whole(shards);
    }
  }

  // ------------------------------------------------------------------------- counting

  ghost function Total(shards: seq<set<Triple>>, keep: Triple -> bool): nat {
    if shards == [] then 0
    else Total(shards[..|shards| - 1], keep) + |set t | t in shards[|shards| - 1] && keep(t)|
  }

  /** Summing per-shard counts counts every triple once, because no two shards share one. */
  lemma {:induction false} TotalIsWhole(shards: seq<set<Triple>>, keep: Triple -> bool)
    requires forall i, j :: 0 <= i < j < |shards| ==> shards[i] !! shards[j]
    ensures Total(shards, keep) == |set t | t in Whole(shards) && keep(t)|
  {
    if shards == [] {
      assert (set t | t in Whole(shards) && keep(t)) == {};
    } else {
      var init, last := shards[..|shards| - 1], shards[|shards| - 1];
      TotalIsWhole(init, keep);
      var a := set t | t in Whole(init) && keep(t);
      var b := set t | t in last && keep(t);
      assert a !! b;
      WholeSplits(shards);
      assert (set t | t in Whole(shards) && keep(t)) == a + b;
    }
  }

  lemma WholeSplits(shards: seq<set<Triple>>)
    requires shards != []
    ensures Whole(shards) == Whole(shards[..|shards| - 1]) + shards[|shards| - 1]
  {
    var init, last := shards[..|shards| - 1], shards[|shards| - 1];
    assert forall i :: 0 <= i < |init| ==> init[i] == shards[i];
    forall t | t in Whole(shards)
      ensures t in Whole(init) + last
    {
      var i :| 0 <= i < |shards| && t in shards[i];
      assert i < |init| ==> t in init[i];
    }
    assert forall t :: t in last ==> t in shards[|shards| - 1];
  }

  lemma PlacedDisjoint(hash: nat -> nat, shards: seq<set<Triple>>)
    requires Placed(hash, shards)
    ensures forall i, j :: 0 <= i < j < |shards| ==> shards[i] !! shards[j]
  {
    forall i, j | 0 <= i < j < |shards|
      ensures shards[i] !! shards[j]
    {
      forall t | t in shards[i]
        ensures t !in shards[j]
      {
        assert ShardOf(hash, t.sub, |shards|) == i;
      }
    }
  }

  // ------------------------------------------------------------ predicate-major order

  /** The triples of one predicate, rebuilt from its sorted (subject, object) pairs. */
  function Rebuilt(pred: nat, pairs: seq<Pair>): seq<Triple> {
    seq(|pairs|, i requires 0 <= i < |pairs| => Triple(pairs[i].0, pred, pairs[i].1))
  }

  function RebuiltAll(s: set<Triple>, preds: seq<nat>): seq<Triple> {
    if preds == [] then []
    else RebuiltAll(s, preds[..|preds| - 1]) + Rebuilt(preds[|preds| - 1], TripleStore.SoByP(s, preds[|preds| - 1]))
  }

  lemma RebuiltIs(s: set<Triple>, pred: nat)
    ensures var r := Rebuilt(pred, TripleStore.SoByP(s, pred));
            Ascending(r, TripleStore.TripleLe) && forall t :: t in r <==> t in s && t.pred == pred
  {
    hide TripleStore.ListPairs;
    var pairs := TripleStore.SoByP(s, pred);
    var r := Rebuilt(pred, pairs);
    forall t | t in s && t.pred == pred
      ensures t in r
    {
      assert (t.sub, t.obj) in Elements(pairs);
      var i :| 0 <= i < |pairs| && pairs[i] == (t.sub, t.obj);
      assert r[i] == t;
    }
    forall t | t in r
      ensures t in s && t.pred == pred
    {
      var i :| 0 <= i < |r| && r[i] == t;
      assert pairs[i] in Elements(pairs);
    }
  }

  lemma {:induction false} RebuiltAllIs(s: set<Triple>, preds: seq<nat>)
    requires Ascending(preds, TripleStore.NatLe)
    ensures Ascending(RebuiltAll(s, preds), TripleStore.TripleLe)
    ensures forall t :: t in RebuiltAll(s, preds) <==> t in s && t.pred in preds
  {
    hide Rebuilt;
    hide TripleStore.SoByP;
    hide TripleStore.TripleLe;
    if preds != [] {
      var init, last := preds[..|preds| - 1], preds[|preds| - 1];
      RebuiltAllIs(s, init);
      RebuiltIs(s, last);
      assert preds == init + [last];
      var a, b := RebuiltAll(s, init), Rebuilt(last, TripleStore.SoByP(s, last));
      AscendingJoin(a, b, init, last);
      assert RebuiltAll(s, preds) == a + b;
      forall t
        ensures t in a + b <==> t in s && t.pred in preds
      {
        assert t in a + b <==> t in a || t in b;
        assert t.pred in preds <==> t.pred in init || t.pred == last;
      }
    }
  }

  lemma AscendingJoin(a: seq<Triple>, b: seq<Triple>, init: seq<nat>, last: nat)
    requires Ascending(a, TripleStore.TripleLe) && Ascending(b, TripleStore.TripleLe)
    requires Ascending(init + [last], TripleStore.NatLe)
    requires (forall t :: t in a ==> t.pred in init) && (forall t :: t in b ==> t.pred == last)
    ensures Ascending(a + b, TripleStore.TripleLe)
  {
    forall t | t in a
      ensures t.pred < last
    {
      var i :| 0 <= i < |init| && init[i] == t.pred;
      assert (init + [last])[i] == t.pred && (init + [last])[|init|] == last;
    }
    forall i, j | 0 <= i < j < |a + b|
      ensures TripleStore.TripleLe((a + b)[i], (a + b)[j]) && (a + b)[i] != (a + b)[j]
    {
      if i < |a| <= j {
        assert a[i] in a && b[j - |a|] in b;
      }
    }
  }

  /** Going through the predicates in order and through each one's pairs in order lists the whole store
      in predicate-major order. */
  lemma RebuiltIsIterAll(s: set<Triple>)
    ensures RebuiltAll(s, TripleStore.Predicates(s)) == TripleStore.IterAll(s)
  {
    hide TripleStore.ListNats;
    hide Listing;
    var preds := TripleStore.Predicates(s);
    RebuiltAllIs(s, preds);
    var r := RebuiltAll(s, preds);
    forall t | t in s
      ensures t.pred in preds
    {
      assert t.pred in Elements(preds);
    }
    TripleStore.OrdersAreTotal();
    assert Elements(r) == s;
    assert Elements(TripleStore.IterAll(s)) == s by {
      assert TripleSet(TripleStore.IterAll(s)) == s;
    }
    AscendingUnique(r, TripleStore.IterAll(s), TripleStore.TripleLe);
  }
}
