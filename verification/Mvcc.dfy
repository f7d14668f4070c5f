/** Versioned storage and optimistic transactions on values. A triple is identified with its key,
    its lossless N-Triples text. A database at a version is the set of keys it contains. */
module Mvcc {
  import opened Wrappers
  import Ordered

  type Key = string

  datatype Level = ReadUncommitted | ReadCommitted | RepeatableRead | Serializable
  {
    /** Reads see the snapshot taken at the start. */
    predicate Stable() { this == RepeatableRead || this == Serializable }
    predicate ChecksWrites() { this == RepeatableRead || this == Serializable }
    predicate ChecksReads() { this == Serializable }
  }

  datatype Op = Insert(key: Key) | Delete(key: Key)

  // ------------------------------------------------------------- buffered writes

  function ApplyOp(s: set<Key>, op: Op): set<Key> {
    match op
    case Insert(k) => s + {k}
    case Delete(k) => s - {k}
  }

  function ApplyOps(s: set<Key>, ops: seq<Op>): set<Key> {
    if ops == [] then s else ApplyOp(ApplyOps(s, ops[..|ops| - 1]), ops[|ops| - 1])
  }

  function KeysOf(ops: seq<Op>): set<Key> {
    set op | op in ops :: op.key
  }

  /** The last operation per key: whether it leaves the key present. */
  function Net(ops: seq<Op>): map<Key, bool> {
    if ops == [] then map[] else Net(ops[..|ops| - 1])[ops[|ops| - 1].key := ops[|ops| - 1].Insert?]
  }

  /** Applying operations one by one has, on each key, the effect of the last one for that key. */
  lemma {:induction false} NetIsLast(s: set<Key>, ops: seq<Op>, k: Key)
    ensures k in Net(ops) <==> k in KeysOf(ops)
    ensures k in ApplyOps(s, ops) <==> if k in Net(ops) then Net(ops)[k] else k in s
  {
    if ops != [] {
      var init, last := ops[..|ops| - 1], ops[|ops| - 1];
      NetIsLast(s, init, k);
      assert ops == init + [last];
      assert KeysOf(ops) == KeysOf(init) + {last.key};
    }
  }

  // --------------------------------------------------------------- version chains

  /** A commit that left the key present or absent. */
  datatype Record = Record(version: nat, present: bool)

  type Chain = seq<Record>

  /** The latest record no newer than `v`. */
  function Visible(c: Chain, v: nat): Option<Record> {
    if c == [] then None
    else if c[|c| - 1].version <= v then Some(c[|c| - 1])
    else Visible(c[..|c| - 1], v)
  }

  /** Whether a reader pinned at `v` sees `k`, falling back to the base for keys without a record. */
  predicate Resolves(chains: map<Key, Chain>, base: set<Key>, k: Key, v: nat) {
    if k in chains && Visible(chains[k], v).Some? then Visible(chains[k], v).value.present else k in base
  }

  function Recorded(chains: map<Key, Chain>, version: nat, net: map<Key, bool>): map<Key, Chain> {
    map k | k in chains.Keys + net.Keys ::
      (if k in chains then chains[k] else []) + (if k in net then [Record(version, net[k])] else [])
  }

  /** The position of the latest record no newer than `floor`; `floor` is `None` when nothing is pinned. */
  function Anchor(c: Chain, floor: Option<nat>): (i: nat)
    ensures i <= |c| && (c != [] ==> i < |c|)
  {
    if |c| <= 1 then 0
    else if floor.None? || c[|c| - 1].version <= floor.value then |c| - 1
    else Anchor(c[..|c| - 1], floor)
  }

  function Trimmed(c: Chain, floor: Option<nat>): Chain {
    c[Anchor(c, floor)..]
  }

  /** A chain worth keeping: some record, and not a single one that repeats the base. */
  predicate Keeps(c: Chain, inBase: bool) {
    c != [] && (|c| == 1 ==> c[0].present != inBase)
  }

  function Collected(chains: map<Key, Chain>, floor: Option<nat>, base: set<Key>): map<Key, Chain> {
    map k | k in chains && Keeps(Trimmed(chains[k], floor), k in base) :: Trimmed(chains[k], floor)
  }

  ghost predicate Ascending(c: Chain) {
    forall i, j :: 0 <= i < j < |c| ==> c[i].version < c[j].version
  }

  ghost predicate NoNewer(c: Chain, v: nat) {
    forall i :: 0 <= i < |c| ==> c[i].version <= v
  }

  lemma {:induction false} VisibleAt(c: Chain, v: nat, i: nat)
    requires Ascending(c) && i < |c| && c[i].version <= v && (i + 1 < |c| ==> c[i + 1].version > v)
    ensures Visible(c, v) == Some(c[i])
  {
    if i + 1 < |c| {
      assert c[i + 1].version <= c[|c| - 1].version;
      var d := c[..|c| - 1];
      assert i + 1 < |d| ==> d[i + 1] == c[i + 1];
      VisibleAt(d, v, i);
    }
  }

  lemma {:induction false} NoneVisible(c: Chain, v: nat)
    requires forall i :: 0 <= i < |c| ==> c[i].version > v
    ensures Visible(c, v).None?
  {
    if c != [] {
      NoneVisible(c[..|c| - 1], v);
    }
  }

  /** Where the visible record is, if there is one. */
  lemma {:induction false} VisibleIndex(c: Chain, v: nat) returns (i: nat)
    requires Ascending(c) && Visible(c, v).Some?
    ensures i < |c| && Visible(c, v) == Some(c[i]) && c[i].version <= v && (i + 1 < |c| ==> c[i + 1].version > v)
  {
    i := |c| - 1;
    if c[i].version > v {
      i := VisibleIndex(c[..|c| - 1], v);
    }
  }

  lemma {:induction false} NoneIsOlder(c: Chain, v: nat)
    requires Visible(c, v).None?
    ensures forall i :: 0 <= i < |c| ==> c[i].version > v
  {
    if c != [] {
      NoneIsOlder(c[..|c| - 1], v);
      assert forall i :: 0 <= i < |c| - 1 ==> c[i] == c[..|c| - 1][i];
    }
  }

  lemma {:induction false} AnchorIs(c: Chain, floor: Option<nat>)
    requires c != []
    ensures var a := Anchor(c, floor);
            && (forall i :: a < i < |c| ==> floor.Some? && c[i].version > floor.value)
            && (a > 0 ==> floor.None? || c[a].version <= floor.value)
  {
    if |c| > 1 && !(floor.None? || c[|c| - 1].version <= floor.value) {
      AnchorIs(c[..|c| - 1], floor);
      assert forall i :: 0 <= i < |c| - 1 ==> c[i] == c[..|c| - 1][i];
    }
  }

  lemma SuffixAscending(c: Chain, a: nat)
    requires Ascending(c) && a <= |c|
    ensures Ascending(c[a..])
  {
    var d := c[a..];
    forall i, j | 0 <= i < j < |d|
      ensures d[i].version < d[j].version
    {
      assert c[a + i].version < c[a + j].version;
    }
  }

  lemma OlderFirst(c: Chain, i: nat, j: nat)
    requires Ascending(c) && i <= j < |c|
    ensures c[i].version <= c[j].version
  {
  }

  /** The record a reader sees is not before one it could see. */
  lemma SeenFrom(c: Chain, a: nat, v: nat, i: nat)
    requires Ascending(c) && a < |c| && i < |c| && (a > 0 ==> c[a].version <= v)
    requires i + 1 < |c| ==> c[i + 1].version > v
    ensures a <= i
  {
    hide Ascending;
    OlderFirst(c, if i < a then i + 1 else a, a);
  }

  lemma SuffixUnseen(c: Chain, a: nat, v: nat)
    requires a <= |c| && forall i :: 0 <= i < |c| ==> c[i].version > v
    ensures forall i :: 0 <= i < |c[a..]| ==> c[a..][i].version > v
  {
  }

  /** Records before one that a reader already sees do not matter to it. */
  lemma SuffixVisible(c: Chain, a: nat, v: nat)
    requires Ascending(c) && a < |c| && (a > 0 ==> c[a].version <= v)
    ensures Visible(c[a..], v) == Visible(c, v) && Ascending(c[a..])
  {
    hide Visible;
    hide Ascending;
    var d := c[a..];
    SuffixAscending(c, a);
    if Visible(c, v).Some? {
      var i := VisibleIndex(c, v);
      SeenFrom(c, a, v, i);
      assert d[i - a] == c[i] && (i + 1 < |c| ==> d[i - a + 1] == c[i + 1]);
      VisibleAt(d, v, i - a);
    } else {
      NoneIsOlder(c, v);
      SuffixUnseen(c, a, v);
      NoneVisible(d, v);
    }
  }

  /** Trimming to the oldest pin leaves what every pinned reader sees as it was. */
  lemma TrimmedVisible(c: Chain, floor: Option<nat>, v: nat)
    requires Ascending(c) && c != []
    requires if floor.Some? then floor.value <= v else NoNewer(c, v)
    ensures Visible(Trimmed(c, floor), v) == Visible(c, v) && Ascending(Trimmed(c, floor))
  {
    hide Visible;
    AnchorIs(c, floor);
    SuffixVisible(c, Anchor(c, floor), v);
  }

  ghost predicate ChainsOk(chains: map<Key, Chain>, version: nat) {
    forall k :: k in chains ==> Ascending(chains[k]) && NoNewer(chains[k], version) && chains[k] != []
  }

  /** Collection cannot be observed by any reader pinned at or above the floor. */
  lemma CollectedResolves(chains: map<Key, Chain>, floor: Option<nat>, base: set<Key>, version: nat, k: Key, v: nat)
    requires ChainsOk(chains, version)
    requires if floor.Some? then floor.value <= v else version <= v
    ensures Resolves(Collected(chains, floor, base), base, k, v) == Resolves(chains, base, k, v)
  {
    hide Visible;
    hide Trimmed;
    if k in chains {
      var c := chains[k];
      TrimmedVisible(c, floor, v);
      var d := Trimmed(c, floor);
      if !Keeps(d, k in base) {
        DroppedAgrees(d, k in base, v);
      }
    }
  }

  lemma DroppedAgrees(d: Chain, inBase: bool, v: nat)
    requires !Keeps(d, inBase)
    ensures Visible(d, v).Some? ==> Visible(d, v).value.present == inBase
  {
    if |d| == 1 {
      assert d[..0] == [];
    }
  }

  lemma CollectedOk(chains: map<Key, Chain>, floor: Option<nat>, base: set<Key>, version: nat)
    requires ChainsOk(chains, version)
    ensures ChainsOk(Collected(chains, floor, base), version)
  {
  }

  /** A new version's records change nothing for older readers and show its own effect from then on. */
  lemma RecordedResolves(chains: map<Key, Chain>, version: nat, net: map<Key, bool>, base: set<Key>, k: Key, v: nat)
    requires version >= 1 && ChainsOk(chains, version - 1)
    ensures v < version ==> Resolves(Recorded(chains, version, net), base, k, v) == Resolves(chains, base, k, v)
    ensures v >= version ==> Resolves(Recorded(chains, version, net), base, k, v)
                             == if k in net then net[k] else Resolves(chains, base, k, version - 1)
  {
    hide Visible;
    if k in chains {
      LastVisible(chains[k], version - 1, v);
    }
    if k in chains.Keys + net.Keys {
      var c := if k in chains then chains[k] else [];
      assert c + [] == c;
      if k in net {
        AppendVisible(c, Record(version, net[k]), v);
        NoneVisible([], v);
      }
    }
  }

  lemma AppendVisible(c: Chain, r: Record, v: nat)
    ensures Visible(c + [r], v) == if r.version <= v then Some(r) else Visible(c, v)
  {
    assert (c + [r])[..|c|] == c;
  }

  lemma LastVisible(c: Chain, w: nat, v: nat)
    requires NoNewer(c, w)
    ensures w <= v ==> Visible(c, v) == Visible(c, w)
  {
  }

  lemma RecordedOk(chains: map<Key, Chain>, version: nat, net: map<Key, bool>)
    requires version >= 1 && ChainsOk(chains, version - 1)
    ensures ChainsOk(Recorded(chains, version, net), version)
  {
    forall k | k in chains.Keys + net.Keys
      ensures var d := Recorded(chains, version, net)[k]; Ascending(d) && NoNewer(d, version) && d != []
    {
      var c := if k in chains then chains[k] else [];
    }
  }

  // ------------------------------------------------------- registry and validation

  /** Shared bookkeeping: write sets by version, and how many readers and writers are pinned at each. */
  datatype Occ = Occ(history: map<nat, set<Key>>, live: map<nat, nat>, lastLegacy: nat)

  function Register(o: Occ, v: nat): Occ {
    o.(live := o.live[v := (if v in o.live then o.live[v] else 0) + 1])
  }

  function Deregister(o: Occ, v: nat): Occ {
    if v !in o.live then o
    else if o.live[v] <= 1 then o.(live := o.live - {v})
    else o.(live := o.live[v := o.live[v] - 1])
  }

  /** The oldest pin. */
  ghost predicate IsFloor(o: Occ, f: Option<nat>) {
    match f
    case None => o.live == map[]
    case Some(v) => v in o.live && forall w :: w in o.live ==> v <= w
  }

  predicate Le(a: nat, b: nat) { a <= b }

  lemma NonEmpty(m: map<nat, nat>)
    requires m != map[]
    ensures m.Keys != {}
  {
  }

  function Floor(o: Occ): (f: Option<nat>)
    ensures IsFloor(o, f)
  {
    if o.live == map[] then None
    else
      NonEmpty(o.live);
      assert Ordered.TotalOrder(Le);
      Some(Ordered.Least(o.live.Keys, Le))
  }

  function Prune(o: Occ): Occ {
    var f := Floor(o);
    o.(history := map v | v in o.history && f.Some? && v > f.value :: o.history[v])
  }

  datatype Verdict = Clear | LegacyWrite | WriteConflict | ReadConflict

  predicate Overlaps(history: map<nat, set<Key>>, start: nat, keys: set<Key>) {
    exists v :: v in history && v > start && keys * history[v] != {}
  }

  function Validate(o: Occ, start: nat, level: Level, keys: set<Key>, read: set<Key>): Verdict {
    if level.ChecksWrites() && o.lastLegacy > start then LegacyWrite
    else if level.ChecksWrites() && Overlaps(o.history, start, keys) then WriteConflict
    else if level.ChecksReads() && Overlaps(o.history, start, read) then ReadConflict
    else Clear
  }
}
