/** The concurrent database as objects: the registry of pins and write sets, the per-key version
    chains, the database with its published snapshot, transaction handles and version-pinned readers.
    Every method runs under the locks it takes in a fixed order, so it is one atomic step. */
module ConcurrentDb {
  import opened Wrappers
  import opened Mvcc
  import opened Transactions

  class OccState {
    var history: map<nat, set<Key>>
    var liveStarts: map<nat, nat>
    var lastLegacyVersion: nat

    ghost function View(): Occ
      reads this
    {
      Occ(history, liveStarts, lastLegacyVersion)
    }

    constructor ()
      ensures View() == Occ(map[], map[], 0)
    {
      history, liveStarts, lastLegacyVersion := map[], map[], 0;
    }

    method Register(v: nat)
      modifies this
      ensures View() == Mvcc.Register(old(View()), v)
    {
      var count := if v in liveStarts then liveStarts[v] else 0;
      liveStarts := liveStarts[v := count + 1];
    }

    method Deregister(v: nat)
      modifies this
      ensures View() == Mvcc.Deregister(old(View()), v)
    {
      if v in liveStarts {
        if liveStarts[v] <= 1 {
          liveStarts := liveStarts - {v};
        } else {
          liveStarts := liveStarts[v := liveStarts[v] - 1];
        }
      }
    }

    /** The oldest pin, or `None` when nothing is live. */
    method GcFloor() returns (floor: Option<nat>)
      ensures floor == Floor(View())
    {
      floor := None;
      var rest := liveStarts.Keys;
      while rest != {}
        invariant rest <= liveStarts.Keys
        invariant floor.None? <==> rest == liveStarts.Keys
        invariant floor.Some? ==> floor.value in liveStarts.Keys - rest
        invariant floor.Some? ==> forall v :: v in liveStarts && v !in rest ==> floor.value <= v
        decreases |rest|
      {
        var v :| v in rest;
        if floor.None? || v < floor.value {
          floor := Some(v);
        }
        rest := rest - {v};
      }
      FloorUnique(View(), floor);
    }

    method Gc()
      modifies this`history
      ensures View() == Prune(old(View()))
    {
      var floor := GcFloor();
      history := map v | v in history && floor.Some? && v > floor.value :: history[v];
    }

    /** Whether a commit newer than `start` wrote one of `keys`. */
    method AnyNewerWrote(start: nat, keys: set<Key>) returns (found: bool)
      ensures found == Overlaps(history, start, keys)
    {
      found := false;
      var rest := history.Keys;
      while rest != {}
        invariant rest <= history.Keys
        invariant found ==> Overlaps(history, start, keys)
        invariant !found ==> forall v :: v in history && v !in rest && v > start ==> keys * history[v] == {}
        decreases |rest|
      {
        var v :| v in rest;
        if v > start && keys * history[v] != {} {
          found := true;
        }
        rest := rest - {v};
      }
    }
  }

  lemma FloorUnique(o: Occ, f: Option<nat>)
    requires IsFloor(o, f)
    ensures f == Floor(o)
  {
  }

  lemma RecordedNone(chains: map<Key, Chain>, version: nat)
    ensures Recorded(chains, version, map[]) == chains
  {
    assert Recorded(chains, version, map[]).Keys == chains.Keys;
    assert forall k :: k in chains ==> chains[k] + [] == chains[k];
  }

  lemma RecordedOne(chains: map<Key, Chain>, version: nat, net: map<Key, bool>, k: Key, present: bool)
    requires k !in net
    ensures var r := Recorded(chains, version, net);
            Recorded(chains, version, net[k := present])
            == r[k := (if k in r then r[k] else []) + [Mvcc.Record(version, present)]]
  {
    var r, t := Recorded(chains, version, net), Recorded(chains, version, net[k := present]);
    assert k in chains ==> r[k] == chains[k] + [] == chains[k];
    assert t.Keys == r.Keys + {k};
  }

  class VersionedStore {
    var chains: map<Key, Chain>

    constructor ()
      ensures chains == map[]
    {
      chains := map[];
    }

    /** Append one version record. */
    method Record(version: nat, k: Key, present: bool)
      modifies this
      ensures chains == old(chains)[k := (if k in old(chains) then old(chains)[k] else [])
                                         + [Mvcc.Record(version, present)]]
    {
      var c := if k in chains then chains[k] else [];
      chains := chains[k := c + [Mvcc.Record(version, present)]];
    }

    /** Record the net effect of a transaction, key by key. */
    method RecordAll(version: nat, net: map<Key, bool>)
      modifies this
      ensures chains == Recorded(old(chains), version, net)
    {
      var rest := net.Keys;
      ghost var done: map<Key, bool> := map[];
      RecordedNone(chains, version);
      while rest != {}
        invariant rest <= net.Keys && done == net - rest
        invariant chains == Recorded(old(chains), version, done)
        decreases |rest|
      {
        var k :| k in rest;
        RecordedOne(old(chains), version, done, k, net[k]);
        Record(version, k, net[k]);
        rest := rest - {k};
        done := done[k := net[k]];
      }
      assert done == net;
    }

    method VisiblePresent(k: Key, v: nat) returns (r: Option<bool>)
      ensures r == if k in chains && Visible(chains[k], v).Some? then Some(Visible(chains[k], v).value.present)
          else None
    {
      r := None;
      if k in chains {
        var c := chains[k];
        var i := |c|;
        assert c[..i] == c;
        while i > 0
          invariant 0 <= i <= |c| && Visible(c, v) == Visible(c[..i], v)
        {
          assert c[..i][..i - 1] == c[..i - 1];
          if c[i - 1].version <= v {
            return Some(c[i - 1].present);
          }
          i := i - 1;
        }
      }
    }

    /** Lay every chain's visible state over the base, in whatever order the chains come. */
    method MaterializeInto(v: nat, base: set<Key>) returns (store: set<Key>)
      ensures forall k :: k in store <==> Resolves(chains, base, k, v)
    {
      store := base;
      var rest := chains.Keys;
      while rest != {}
        invariant rest <= chains.Keys
        invariant forall k :: k in store <==> if k in rest then k in base else Resolves(chains, base, k, v)
        decreases |rest|
      {
        var k :| k in rest;
        var p := VisiblePresent(k, v);
        if p.Some? {
          store := if p.value then store + {k} else store - {k};
        }
        rest := rest - {k};
      }
    }

    /** Reclaim the records no reader at or above `floor` can tell apart. */
    method Gc(floor: Option<nat>, base: set<Key>)
      modifies this
      ensures chains == Collected(old(chains), floor, base)
    {
      hide Trimmed;
      var kept: map<Key, Chain> := map[];
      var rest := chains.Keys;
      while rest != {}
        invariant chains == old(chains) && rest <= chains.Keys
        invariant forall k :: k in kept <==> k in chains && k !in rest && Keeps(Trimmed(chains[k], floor), k in base)
        invariant forall k :: k in kept ==> kept[k] == Trimmed(chains[k], floor)
        decreases |rest|
      {
        var k :| k in rest;
        var c := TrimChain(chains[k], floor);
        if c != [] && (|c| == 1 ==> c[0].present != (k in base)) {
          kept := kept[k := c];
        }
        rest := rest - {k};
      }
      chains := kept;
    }

    /** Drop the records before the latest one no newer than `floor`. */
    static method TrimChain(c: Chain, floor: Option<nat>) returns (r: Chain)
      ensures r == Trimmed(c, floor)
    {
      var i := |c|;
      assert c[..i] == c;
      while i > 1 && !(floor.None? || c[i - 1].version <= floor.value)
        invariant 0 <= i <= |c| && (c != [] ==> i >= 1) && Anchor(c, floor) == Anchor(c[..i], floor)
      {
        assert c[..i][..i - 1] == c[..i - 1];
        i := i - 1;
      }
      r := if i == 0 then c else c[i - 1..];
    }
  }

  /** The database: the authoritative content, the published snapshot, the registry and the chains. */
  class ConcurrentDb {
    var writer: set<Key>
    var current: set<Key>
    var version: nat
    const base: set<Key>
    const occ: OccState
    const versioned: VersionedStore

    ghost predicate Valid()
      reads this
    {
      writer == current
    }

    ghost function View(): Db
      reads this, occ, versioned
    {
      Db(current, version, base, occ.View(), versioned.chains)
    }

    constructor (content: set<Key>)
      ensures Valid() && View() == Initial(content).db && fresh(occ) && fresh(versioned)
    {
      writer, current, version, base := content, content, 1, content;
      occ := new OccState();
      versioned := new VersionedStore();
    }

    /** Publish the writer's content as the next version. */
    method Publish() returns (next: nat)
      modifies this`current, this`version
      ensures Valid() && current == writer && next == version == old(version) + 1
    {
      next := version + 1;
      current, version := writer, next;
    }

    /** A write outside any transaction: `content` is what the caller's closure makes of the database. */
    method WritePlain(content: set<Key>)
      requires Valid()
      modifies this, occ
      ensures Valid()
      ensures View() == old(View()).(content := content, version := old(version) + 1,
                                     occ := old(View()).occ.(lastLegacy := old(version) + 1))
    {
      writer := content;
      var v := Publish();
      occ.lastLegacyVersion := v;
    }

    method Begin(level: Level) returns (t: Handle)
      requires Valid()
      modifies occ
      ensures Valid() && View() == old(View()).(occ := Mvcc.Register(old(View()).occ, old(version)))
      ensures fresh(t) && t.db == this && t.Valid() && t.registered && t.View() == Txn(version, current, level, [])
    {
      occ.Register(version);
      t := new Handle(this, version, current, level);
    }

    method OpenView() returns (w: VersionView)
      requires Valid()
      modifies occ
      ensures Valid() && View() == old(View()).(occ := Mvcc.Register(old(View()).occ, old(version)))
      ensures fresh(w) && w.db == this && w.registered && w.version == version
    {
      w := OpenViewAt(version);
    }

    method OpenViewAt(v: nat) returns (w: VersionView)
      requires Valid()
      modifies occ
      ensures Valid() && View() == old(View()).(occ := Mvcc.Register(old(View()).occ, v))
      ensures fresh(w) && w.db == this && w.registered && w.version == v
    {
      occ.Register(v);
      w := new VersionView(this, v);
    }

    /** Release a pin and collect. */
    method Release(pin: nat)
      requires Valid()
      modifies occ, versioned
      ensures Valid() && View() == Retire(old(View()), pin)
    {
      occ.Deregister(pin);
      occ.Gc();
      var floor := occ.GcFloor();
      versioned.Gc(floor, base);
    }
  }

  datatype Outcome = Committed(version: nat) | Conflict(verdict: Verdict)

  /** A transaction in progress. */
  class Handle {
    const db: ConcurrentDb
    const snapshot: set<Key>
    const start: nat
    const level: Level
    var ops: seq<Op>
    var keys: set<Key>
    var seen: set<Key>
    var registered: bool
    ghost var events: seq<Event>

    ghost predicate Valid()
      reads this
    {
      ops == Writes(events) && keys == WrittenKeys(events) && seen == ReadKeys(events)
    }

    ghost function View(): Txn
      reads this
    {
      Txn(start, snapshot, level, events)
    }

    constructor (db: ConcurrentDb, start: nat, snapshot: set<Key>, level: Level)
      ensures Valid() && View() == Txn(start, snapshot, level, []) && this.db == db && registered
    {
      this.db, this.start, this.snapshot, this.level := db, start, snapshot, level;
      ops, keys, seen, registered, events := [], {}, {}, true, [];
    }

    method Buffer(op: Op)
      requires Valid()
      modifies this`ops, this`keys, this`events
      ensures Valid() && View() == old(View()).(events := old(events) + [Wrote(op)])
    {
      keys := keys + {op.key};
      ops := ops + [op];
      events := events + [Wrote(op)];
      assert events[..|events| - 1] == old(events);
      WroteKeys(old(events), op);
    }

    /** A tracked read. */
    method Read(k: Key) returns (present: bool)
      requires Valid() && db.Valid()
      modifies this`seen, this`events
      ensures present == Sees(old(View()), db.current, k)
      ensures Valid() && View() == old(View()).(events := old(events) + [Saw(k, present)])
    {
      seen := seen + {k};
      present := Contains(k);
      events := events + [Saw(k, present)];
      assert events[..|events| - 1] == old(events);
      SawKeys(old(events), k, present);
    }

    /** Whether `k` is visible: the base state with the buffered writes applied in order. */
    method Contains(k: Key) returns (present: bool)
      requires ops == Writes(events) && db.Valid()
      ensures present == Sees(View(), db.current, k)
    {
      ghost var s := if level.Stable() then snapshot else db.current;
      present := if level.Stable() then k in snapshot else k in db.current;
      for i := 0 to |ops|
        invariant present == (k in ApplyOps(s, ops[..i]))
      {
        assert ops[..i + 1][..i] == ops[..i];
        match ops[i]
        case Insert(x) =>
          if x == k {
            present := true;
          }
        case Delete(x) =>
          if x == k {
            present := false;
          }
      }
      assert ops[..|ops|] == ops;
    }

    method Judged() returns (verdict: Verdict)
      requires Valid()
      ensures verdict == Judge(db.View(), View())
    {
      hide Overlaps;
      if level.ChecksWrites() && db.occ.lastLegacyVersion > start {
        return LegacyWrite;
      }
      if level.ChecksWrites() {
        var ww := db.occ.AnyNewerWrote(start, keys);
        if ww {
          return WriteConflict;
        }
      }
      if level.ChecksReads() {
        var rw := db.occ.AnyNewerWrote(start, seen);
        if rw {
          return ReadConflict;
        }
      }
      verdict := Clear;
    }

    /** Validate, and either apply, publish and record the buffered writes or discard them; in both
        cases the transaction is unpinned and the stores are collected. */
    method Commit() returns (r: Outcome)
      requires Valid() && db.Valid() && registered
      modifies this`registered, db, db.occ, db.versioned
      ensures db.Valid() && db.View() == CommitTxn(old(db.View()), old(View())) && !registered
      ensures var verdict := Judge(old(db.View()), old(View()));
              r == if verdict == Clear then Committed(old(db.version) + 1) else Conflict(verdict)
    {
      hide Overlaps;
      hide Recorded;
      hide Retire;
      ghost var d, t := db.View(), View();
      var verdict := Judged();
      if verdict != Clear {
        db.Release(start);
        registered := false;
        return Conflict(verdict);
      }
      ApplyAll();
      var v := db.Publish();
      var net := NetEffect();
      db.versioned.RecordAll(v, net);
      db.occ.history := db.occ.history[v := keys];
      assert db.View() == Install(d, Writes(t.events));
      db.Release(start);
      registered := false;
      r := Committed(v);
    }

    /** Apply the buffered writes to the authoritative content. */
    method ApplyAll()
      requires Valid()
      modifies db`writer
      ensures db.writer == ApplyOps(old(db.writer), ops)
    {
      for i := 0 to |ops|
        invariant db.writer == ApplyOps(old(db.writer), ops[..i])
      {
        assert ops[..i + 1][..i] == ops[..i];
        match ops[i]
        case Insert(k) => db.writer := db.writer + {k};
        case Delete(k) => db.writer := db.writer - {k};
      }
      assert ops[..|ops|] == ops;
    }

    /** The last write per key. */
    method NetEffect() returns (net: map<Key, bool>)
      requires Valid()
      ensures net == Net(ops)
    {
      net := map[];
      for i := 0 to |ops|
        invariant net == Net(ops[..i])
      {
        assert ops[..i + 1][..i] == ops[..i];
        net := net[ops[i].key := ops[i].Insert?];
      }
      assert ops[..|ops|] == ops;
    }

    /** Dropping an uncommitted transaction unpins it. */
    method Drop()
      requires db.Valid()
      modifies this`registered, db.occ, db.versioned
      ensures db.Valid() && !registered
      ensures db.View() == if old(registered) then Retire(old(db.View()), start) else old(db.View())
    {
      if registered {
        db.Release(start);
        registered := false;
      }
    }
  }

  class VersionView {
    const db: ConcurrentDb
    const version: nat
    var registered: bool

    constructor (db: ConcurrentDb, version: nat)
      ensures this.db == db && this.version == version && registered
    {
      this.db, this.version, registered := db, version, true;
    }

    /** Whether `k` is visible at the pinned version. */
    method Contains(k: Key) returns (present: bool)
      ensures present == Resolves(db.versioned.chains, db.base, k, version)
    {
      var p := db.versioned.VisiblePresent(k, version);
      present := if p.Some? then p.value else k in db.base;
    }

    /** The whole state a query at the pinned version is evaluated on. */
    method Materialize() returns (store: set<Key>)
      ensures forall k :: k in store <==> Resolves(db.versioned.chains, db.base, k, version)
    {
      store := db.versioned.MaterializeInto(version, db.base);
    }

    method Drop()
      requires db.Valid()
      modifies this`registered, db.occ, db.versioned
      ensures db.Valid() && !registered
      ensures db.View() == if old(registered) then Retire(old(db.View()), version) else old(db.View())
    {
      if registered {
        db.Release(version);
        registered := false;
      }
    }
  }

  lemma WroteKeys(events: seq<Event>, op: Op)
    ensures Writes(events + [Wrote(op)]) == Writes(events) + [op]
    ensures WrittenKeys(events + [Wrote(op)]) == WrittenKeys(events) + {op.key}
    ensures ReadKeys(events + [Wrote(op)]) == ReadKeys(events)
  {
    assert (events + [Wrote(op)])[..|events|] == events;
  }

  lemma SawKeys(events: seq<Event>, k: Key, present: bool)
    ensures Writes(events + [Saw(k, present)]) == Writes(events)
    ensures ReadKeys(events + [Saw(k, present)]) == ReadKeys(events) + {k}
  {
    assert (events + [Saw(k, present)])[..|events|] == events;
  }
}
