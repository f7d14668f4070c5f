/** A triple store as the finite set of triples it holds. Every access method lists its answer in
    increasing order without repetition; `IterAll` goes predicate by predicate. */
module TripleStore {
  import opened RaftTypes
  import opened Ordered

  type Pair = (nat, nat)

  predicate NatLe(a: nat, b: nat) { a <= b }

  predicate PairLe(a: Pair, b: Pair) { a.0 < b.0 || (a.0 == b.0 && a.1 <= b.1) }

  /** Predicate-major order. */
  predicate TripleLe(a: Triple, b: Triple) {
    a.pred < b.pred || (a.pred == b.pred && PairLe((a.sub, a.obj), (b.sub, b.obj)))
  }

  lemma OrdersAreTotal()
    ensures TotalOrder(NatLe) && TotalOrder(PairLe) && TotalOrder(TripleLe)
  {
  }

  function ListNats(s: set<nat>): (r: seq<nat>)
    ensures Ascending(r, NatLe) && Elements(r) == s && |r| == |s|
  {
    OrdersAreTotal();
    Listing(s, NatLe)
  }

  function ListPairs(s: set<Pair>): (r: seq<Pair>)
    ensures Ascending(r, PairLe) && Elements(r) == s && |r| == |s|
  {
    OrdersAreTotal();
    Listing(s, PairLe)
  }

  function PoByS(s: set<Triple>, sub: nat): seq<Pair> {
    ListPairs(set t | t in s && t.sub == sub :: (t.pred, t.obj))
  }

  function OBySp(s: set<Triple>, sub: nat, pred: nat): seq<nat> {
    ListNats(set t | t in s && t.sub == sub && t.pred == pred :: t.obj)
  }

  function PBySo(s: set<Triple>, sub: nat, obj: nat): seq<nat> {
    ListNats(set t | t in s && t.sub == sub && t.obj == obj :: t.pred)
  }

  function PsByO(s: set<Triple>, obj: nat): seq<Pair> {
    ListPairs(set t | t in s && t.obj == obj :: (t.pred, t.sub))
  }

  function SByPo(s: set<Triple>, pred: nat, obj: nat): seq<nat> {
    ListNats(set t | t in s && t.pred == pred && t.obj == obj :: t.sub)
  }

  function SoByP(s: set<Triple>, pred: nat): seq<Pair> {
    ListPairs(set t | t in s && t.pred == pred :: (t.sub, t.obj))
  }

  function SubsByP(s: set<Triple>, pred: nat): seq<nat> {
    ListNats(set t | t in s && t.pred == pred :: t.sub)
  }

  function ObjsByP(s: set<Triple>, pred: nat): seq<nat> {
    ListNats(set t | t in s && t.pred == pred :: t.obj)
  }

  function SubjectKeys(s: set<Triple>): seq<nat> {
    ListNats(set t | t in s :: t.sub)
  }

  function ObjectKeys(s: set<Triple>): seq<nat> {
    ListNats(set t | t in s :: t.obj)
  }

  function Predicates(s: set<Triple>): seq<nat> {
    ListNats(set t | t in s :: t.pred)
  }

  function PredCard(s: set<Triple>, pred: nat): nat {
    |set t | t in s && t.pred == pred|
  }

  function IterAll(s: set<Triple>): (r: seq<Triple>)
    ensures Ascending(r, TripleLe) && TripleSet(r) == s && |r| == |s|
  {
    OrdersAreTotal();
    var r := Listing(s, TripleLe);
    assert Elements(r) == TripleSet(r);
    r
  }
}
