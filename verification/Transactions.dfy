/** Transactions, version-pinned readers and plain writers sharing one database. Every public
    operation is one atomic step. `Past` records, for the statements only, everything that was ever
    committed; no step looks at it. */
module Transactions {
  import opened Mvcc

  // ------------------------------------------------------------------ transactions

  /** What a transaction did so far, in order: buffered writes and tracked reads with their answers. */
  datatype Event = Wrote(op: Op) | Saw(key: Key, present: bool)

  function Writes(events: seq<Event>): seq<Op> {
    if events == [] then []
    else
      var rest := Writes(events[..|events| - 1]);
      match events[|events| - 1]
      case Wrote(op) => rest + [op]
      case Saw(_, _) => rest
  }

  function ReadKeys(events: seq<Event>): set<Key> {
    set e | e in events && e.Saw? :: e.key
  }

  function WrittenKeys(events: seq<Event>): set<Key> {
    KeysOf(Writes(events))
  }

  /** The answers are those a run starting from state `s` would get. */
  ghost predicate Replays(s: set<Key>, events: seq<Event>) {
    events == [] ||
    var init, last := events[..|events| - 1], events[|events| - 1];
    && Replays(s, init)
    && (last.Saw? ==> last.present == (last.key in ApplyOps(s, Writes(init))))
  }

  datatype Txn = Txn(start: nat, snapshot: set<Key>, level: Level, events: seq<Event>)

  /** Whether the transaction sees `k`: its snapshot or the latest state, under its own writes. */
  predicate Sees(t: Txn, latest: set<Key>, k: Key) {
    k in ApplyOps(if t.level.Stable() then t.snapshot else latest, Writes(t.events))
  }

  // -------------------------------------------------------------------- the database

  datatype Db = Db(content: set<Key>, version: nat, base: set<Key>, occ: Occ, chains: map<Key, Chain>)

  /** Unpin one transaction or reader, then collect history and chains. */
  function Retire(d: Db, pin: nat): Db {
    var o := Prune(Deregister(d.occ, pin));
    d.(occ := o, chains := Collected(d.chains, Floor(o), d.base))
  }

  /** Apply, publish and record a validated transaction. */
  function Install(d: Db, ops: seq<Op>): Db {
    d.(content := ApplyOps(d.content, ops), version := d.version + 1,
       occ := d.occ.(history := d.occ.history[d.version + 1 := KeysOf(ops)]),
       chains := Recorded(d.chains, d.version + 1, Net(ops)))
  }

  function Judge(d: Db, t: Txn): Verdict {
    Validate(d.occ, t.start, t.level, WrittenKeys(t.events), ReadKeys(t.events))
  }

  function CommitTxn(d: Db, t: Txn): Db {
    Retire(if Judge(d, t) == Clear then Install(d, Writes(t.events)) else d, t.start)
  }

  // ------------------------------------------------------------------------- the past

  datatype Done = Done(start: nat, level: Level, events: seq<Event>)

  /** `states[v]` is the content of version `v`; `shadow[v]` the same with plain writes left out;
      `commits` the committed transactions by version; `legacy` the versions of plain writes; readers
      at `retained` or later are still served. */
  datatype Past = Past(states: seq<set<Key>>, shadow: seq<set<Key>>, commits: map<nat, Done>, legacy: set<nat>,
                       retained: nat)

  datatype System = System(db: Db, txns: map<nat, Txn>, views: map<nat, nat>, past: Past)

  datatype Step =
    | Begin(id: nat, level: Level)
    | Write(id: nat, op: Op)
    | Read(id: nat, key: Key)
    | Commit(id: nat)
    | Abort(id: nat)
    | Plain(content: set<Key>)
    | Open(id: nat)
    | OpenAt(id: nat, v: nat)
    | Close(id: nat)

  /** Time travel goes to a version between the oldest pin and the current version. */
  predicate Enabled(s: System, step: Step) {
    match step
    case Begin(id, _) => id !in s.txns
    case Write(id, _) => id in s.txns
    case Read(id, _) => id in s.txns
    case Commit(id) => id in s.txns
    case Abort(id) => id in s.txns
    case Plain(_) => true
    case Open(id) => id !in s.views
    case OpenAt(id, v) =>
      id !in s.views && v <= s.db.version && Floor(s.db.occ).Some? && Floor(s.db.occ).value <= v
    case Close(id) => id in s.views
  }

  function Raised(p: Past, d: Db): Past {
    var f := Floor(d.occ);
    var r := if f.Some? then f.value else d.version;
    if r > p.retained then p.(retained := r) else p
  }

  function Noted(s: System, t: Txn): Past {
    var ops := Writes(t.events);
    var n := |s.past.states|;
    s.past.(states := s.past.states + [ApplyOps(s.db.content, ops)],
            shadow := s.past.shadow
                      + [ApplyOps(if n > 0 && |s.past.shadow| == n then s.past.shadow[n - 1] else {}, ops)],
            commits := s.past.commits[s.db.version + 1 := Done(t.start, t.level, t.events)])
  }

  function Next(s: System, step: Step): System
    requires Enabled(s, step)
  {
    match step
    case Begin(id, level) =>
      s.(db := s.db.(occ := Register(s.db.occ, s.db.version)),
         txns := s.txns[id := Txn(s.db.version, s.db.content, level, [])])
    case Write(id, op) =>
      s.(txns := s.txns[id := s.txns[id].(events := s.txns[id].events + [Wrote(op)])])
    case Read(id, k) =>
      s.(txns := s.txns[id := s.txns[id].(events := s.txns[id].events + [Saw(k, Sees(s.txns[id], s.db.content, k))])])
    case Commit(id) =>
      var t := s.txns[id];
      var d := CommitTxn(s.db, t);
      System(d, s.txns - {id}, s.views, Raised(if Judge(s.db, t) == Clear then Noted(s, t) else s.past, d))
    case Abort(id) =>
      var d := Retire(s.db, s.txns[id].start);
      System(d, s.txns - {id}, s.views, Raised(s.past, d))
    case Plain(content) =>
      var v := s.db.version + 1;
      var n := |s.past.shadow|;
      s.(db := s.db.(content := content, version := v, occ := s.db.occ.(lastLegacy := v)),
         past := s.past.(states := s.past.states + [content],
                         shadow := s.past.shadow + [if n > 0 then s.past.shadow[n - 1] else {}],
                         legacy := s.past.legacy + {v}))
    case Open(id) =>
      s.(db := s.db.(occ := Register(s.db.occ, s.db.version)), views := s.views[id := s.db.version])
    case OpenAt(id, v) =>
      s.(db := s.db.(occ := Register(s.db.occ, v)), views := s.views[id := v])
    case Close(id) =>
      var d := Retire(s.db, s.views[id]);
      System(d, s.txns, s.views - {id}, Raised(s.past, d))
  }

  /** A new database: version one, nothing pinned, empty chains. */
  function Initial(content: set<Key>): System {
    System(Db(content, 1, content, Occ(map[], map[], 0), map[]), map[], map[],
           Past([content, content], [content, content], map[], {}, 1))
  }

  ghost predicate Run(systems: seq<System>, steps: seq<Step>) {
    && |systems| == |steps| + 1 && systems[0] == Initial(systems[0].db.content)
    && forall i :: 0 <= i < |steps| ==> Enabled(systems[i], steps[i]) && systems[i + 1] == Next(systems[i], steps[i])
  }

  // --------------------------------------------------------------------- invariant

  ghost predicate Dated(s: System) {
    var p := s.past;
    && s.db.version >= 1 && |p.states| == |p.shadow| == s.db.version + 1
    && s.db.content == p.states[s.db.version] && p.shadow[1] == p.states[1] == s.db.base
    && 1 <= p.retained <= s.db.version
    && (forall v :: v in p.commits ==> 2 <= v <= s.db.version && v !in p.legacy && p.commits[v].start < v)
    && (forall v :: v in p.legacy ==> 2 <= v <= s.db.version)
    && (forall v :: 2 <= v <= s.db.version ==> v in p.commits || v in p.legacy)
  }

  /** Each version is the previous one changed by its transaction. */
  ghost predicate Chained(p: Past) {
    && |p.states| == |p.shadow|
    && (forall v {:trigger p.commits[v]} :: v in p.commits ==>
          && 1 <= v < |p.states|
          && p.states[v] == ApplyOps(p.states[v - 1], Writes(p.commits[v].events))
          && p.shadow[v] == ApplyOps(p.shadow[v - 1], Writes(p.commits[v].events)))
    && (forall v :: v in p.legacy ==> 1 <= v < |p.states| && p.shadow[v] == p.shadow[v - 1])
  }

  ghost predicate HistoryOk(s: System) {
    var o, p := s.db.occ, s.past;
    && (forall v :: v in o.history ==> v in p.commits && o.history[v] == WrittenKeys(p.commits[v].events))
    && (forall v, q :: v in p.commits && q in o.live && q < v ==> v in o.history)
    && (forall v :: v in p.legacy ==> v <= o.lastLegacy)
    && (o.lastLegacy == 0 || o.lastLegacy in p.legacy)
  }

  ghost function TxnPins(s: System, q: nat): set<nat> {
    set t | t in s.txns && s.txns[t].start == q
  }

  ghost function ViewPins(s: System, q: nat): set<nat> {
    set w | w in s.views && s.views[w] == q
  }

  ghost predicate PinOk(s: System, q: nat) {
    (if q in s.db.occ.live then s.db.occ.live[q] else 0) == |TxnPins(s, q)| + |ViewPins(s, q)|
  }

  ghost predicate PinsOk(s: System) {
    && (forall q {:trigger PinOk(s, q)} :: PinOk(s, q))
    && (forall q :: q in s.db.occ.live ==> s.db.occ.live[q] >= 1 && s.past.retained <= q <= s.db.version)
  }

  ghost predicate ServesAt(s: System, v: nat)
    requires v < |s.past.shadow|
  {
    forall k :: Resolves(s.db.chains, s.db.base, k, v) <==> k in s.past.shadow[v]
  }

  ghost predicate ViewsOk(s: System) {
    && ChainsOk(s.db.chains, s.db.version) && |s.past.shadow| == s.db.version + 1
    && forall v {:trigger ServesAt(s, v)} :: s.past.retained <= v <= s.db.version ==> ServesAt(s, v)
  }

  ghost predicate TxnOk(s: System, t: Txn) {
    && 1 <= t.start < |s.past.states| && t.snapshot == s.past.states[t.start]
    && (t.level.Stable() ==> Replays(t.snapshot, t.events))
  }

  ghost predicate TxnsOk(s: System) {
    forall id {:trigger s.txns[id]} :: id in s.txns ==> TxnOk(s, s.txns[id])
  }

  /** What a committed transaction at version `v` may rely on. */
  ghost predicate CommitOk(p: Past, v: nat)
    requires v in p.commits
  {
    var c := p.commits[v];
    c.level.Stable() ==>
      && 1 <= c.start < v && c.start < |p.states| && Replays(p.states[c.start], c.events)
      && (forall u :: u in p.legacy ==> !(c.start < u < v))
      && (forall u :: u in p.commits && c.start < u < v ==>
            && WrittenKeys(c.events) !! WrittenKeys(p.commits[u].events)
            && (c.level.ChecksReads() ==> ReadKeys(c.events) !! WrittenKeys(p.commits[u].events)))
  }

  ghost predicate CommitsOk(p: Past) {
    forall v {:trigger CommitOk(p, v)} :: v in p.commits ==> CommitOk(p, v)
  }

  ghost predicate Inv(s: System) {
    Dated(s) && Chained(s.past) && HistoryOk(s) && PinsOk(s) && ViewsOk(s) && TxnsOk(s) && CommitsOk(s.past)
  }

  lemma InitialInv(content: set<Key>)
    ensures Inv(Initial(content))
  {
    var s := Initial(content);
    forall q
      ensures PinOk(s, q)
    {
      assert TxnPins(s, q) == {} && ViewPins(s, q) == {};
    }
  }

  // ------------------------------------------------------------- unpinning a handle

  /** The system after one pin is released and the stores are collected. */
  function Unpinned(s: System, pin: nat): System {
    var d := Retire(s.db, pin);
    s.(db := d, past := Raised(s.past, d))
  }

  lemma UnpinnedHistory(s: System, pin: nat)
    requires HistoryOk(s)
    ensures HistoryOk(Unpinned(s, pin))
  {
    hide WrittenKeys;
    hide Collected;
    var o := Unpinned(s, pin).db.occ;
    var f := Floor(Deregister(s.db.occ, pin));
    forall v, q | v in s.past.commits && q in o.live && q < v
      ensures v in o.history
    {
      assert q in s.db.occ.live;
    }
  }

  /** After a collection every retained write set is newer than the oldest pin. */
  lemma RetainedIsNewer(s: System, pin: nat)
    ensures var o := Unpinned(s, pin).db.occ;
            forall v :: v in o.history ==> Floor(o).Some? && Floor(o).value < v
  {
    hide Collected;
  }

  lemma UnpinnedViews(s: System, pin: nat)
    requires Dated(s) && ViewsOk(s) && forall q :: q in s.db.occ.live ==> q <= s.db.version
    ensures ViewsOk(Unpinned(s, pin)) && s.past.retained <= Unpinned(s, pin).past.retained <= s.db.version
  {
    hide Collected;
    hide ChainsOk;
    hide Resolves;
    hide Prune;
    var m := Unpinned(s, pin);
    var o := Prune(Deregister(s.db.occ, pin));
    var f := Floor(o);
    PruneLive(Deregister(s.db.occ, pin));
    CollectedOk(s.db.chains, f, s.db.base, s.db.version);
    forall v | m.past.retained <= v <= s.db.version
      ensures ServesAt(m, v)
    {
      assert ServesAt(s, v);
      forall k
        ensures Resolves(m.db.chains, m.db.base, k, v) <==> k in m.past.shadow[v]
      {
        CollectedResolves(s.db.chains, f, s.db.base, s.db.version, k, v);
      }
    }
  }

  lemma PruneLive(o: Occ)
    ensures Prune(o).live == o.live
  {
  }

  lemma UnpinnedDated(s: System, pin: nat)
    requires Dated(s) && Chained(s.past) && CommitsOk(s.past) && TxnsOk(s)
    requires s.past.retained <= Unpinned(s, pin).past.retained <= s.db.version
    ensures var m := Unpinned(s, pin); Dated(m) && Chained(m.past) && CommitsOk(m.past) && TxnsOk(m)
  {
    hide Replays;
    hide Collected;
    hide Prune;
    hide ApplyOps;
    hide Writes;
    var m := Unpinned(s, pin);
    forall v | v in m.past.commits
      ensures CommitOk(m.past, v)
    {
      assert CommitOk(s.past, v);
    }
    forall id | id in m.txns
      ensures TxnOk(m, m.txns[id])
    {
      assert TxnOk(s, s.txns[id]);
    }
  }

  /** The same handles are pinned everywhere except at `pin`. */
  ghost predicate PinsBut(s: System, m: System, pin: nat) {
    forall q {:trigger TxnPins(m, q)} :: q != pin ==> TxnPins(m, q) == TxnPins(s, q) && ViewPins(m, q) == ViewPins(s, q)
  }

  lemma UnpinnedPins(s: System, m: System, pin: nat)
    requires PinsOk(s) && pin in s.db.occ.live
    requires m.db.occ.live == Deregister(s.db.occ, pin).live && m.db.version == s.db.version
    requires |TxnPins(m, pin)| + |ViewPins(m, pin)| + 1 == |TxnPins(s, pin)| + |ViewPins(s, pin)|
    requires PinsBut(s, m, pin)
    requires m.past.retained <= s.db.version
    requires forall q :: q in m.db.occ.live ==> m.past.retained <= q
    ensures PinsOk(m)
  {
    hide TxnPins;
    hide ViewPins;
    assert PinOk(s, pin);
    forall q
      ensures PinOk(m, q)
    {
      assert PinOk(s, q);
      assert TxnPins(m, q) == TxnPins(m, q);
    }
  }

  lemma UnpinnedFloor(s: System, pin: nat)
    requires PinsOk(s)
    ensures var m := Unpinned(s, pin);
            && m.db.occ.live == Deregister(s.db.occ, pin).live
            && forall q :: q in m.db.occ.live ==> m.past.retained <= q
  {
    hide Collected;
    PruneLive(Deregister(s.db.occ, pin));
  }

  lemma TxnRemoved(s: System, m: System, id: nat)
    requires id in s.txns && m.txns == s.txns - {id} && m.views == s.views
    ensures var pin := s.txns[id].start;
            && |TxnPins(m, pin)| + 1 == |TxnPins(s, pin)| && ViewPins(m, pin) == ViewPins(s, pin)
            && PinsBut(s, m, pin)
  {
    var pin := s.txns[id].start;
    assert TxnPins(s, pin) == TxnPins(m, pin) + {id};
    forall q | q != pin
      ensures ViewPins(m, q) == ViewPins(s, q) && TxnPins(m, q) == TxnPins(s, q)
    {
    }
  }

  lemma ViewRemoved(s: System, m: System, id: nat)
    requires id in s.views && m.views == s.views - {id} && m.txns == s.txns
    ensures var pin := s.views[id];
            && |ViewPins(m, pin)| + 1 == |ViewPins(s, pin)| && TxnPins(m, pin) == TxnPins(s, pin)
            && PinsBut(s, m, pin)
  {
    var pin := s.views[id];
    assert ViewPins(s, pin) == ViewPins(m, pin) + {id};
    forall q | q != pin
      ensures ViewPins(m, q) == ViewPins(s, q) && TxnPins(m, q) == TxnPins(s, q)
    {
    }
  }

  lemma PinHeld(s: System, q: nat)
    requires PinsOk(s) && (TxnPins(s, q) != {} || ViewPins(s, q) != {})
    ensures q in s.db.occ.live
  {
    assert PinOk(s, q);
  }

  /** Everything but the pins is unaffected by which handles are open. */
  ghost predicate Core(s: System) {
    Dated(s) && Chained(s.past) && HistoryOk(s) && ViewsOk(s) && TxnsOk(s) && CommitsOk(s.past)
  }

  lemma CloseTxn(s: System, id: nat)
    requires Inv(s) && id in s.txns
    ensures Inv(Unpinned(s, s.txns[id].start).(txns := s.txns - {id}))
  {
    hide PinsBut;
    hide Dated;
    hide Chained;
    hide HistoryOk;
    hide ViewsOk;
    hide CommitsOk;
    hide TxnOk;
    hide Unpinned;
    hide Deregister;
    var pin := s.txns[id].start;
    var u := Unpinned(s, pin);
    var m := u.(txns := s.txns - {id});
    LiveBounded(s);
    UnpinnedHistory(s, pin);
    UnpinnedViews(s, pin);
    UnpinnedDated(s, pin);
    UnpinnedFloor(s, pin);
    SameHandles(s, pin);
    TxnRemoved(s, m, id);
    assert id in TxnPins(s, pin);
    PinHeld(s, pin);
    UnpinnedPins(s, m, pin);
    FewerTxns(u, m);
  }

  lemma FewerTxns(u: System, m: System)
    requires Core(u) && m == u.(txns := m.txns, views := m.views) && m.txns.Keys <= u.txns.Keys
    requires forall id :: id in m.txns ==> m.txns[id] == u.txns[id]
    ensures Core(m)
  {
    hide Replays;
    hide ChainsOk;
    hide Resolves;
    hide CommitOk;
    hide Writes;
    hide ApplyOps;
    hide WrittenKeys;
    forall id | id in m.txns
      ensures TxnOk(m, m.txns[id])
    {
      assert TxnOk(u, u.txns[id]);
    }
    forall v | m.past.retained <= v <= m.db.version && v < |m.past.shadow|
      ensures ServesAt(m, v)
    {
      assert ServesAt(u, v);
    }
  }

  lemma SameHandles(s: System, pin: nat)
    ensures var u := Unpinned(s, pin); u.txns == s.txns && u.views == s.views && u.db.version == s.db.version
  {
  }

  lemma LiveBounded(s: System)
    requires PinsOk(s)
    ensures forall q :: q in s.db.occ.live ==> q <= s.db.version
  {
  }

  lemma CloseView(s: System, id: nat)
    requires Inv(s) && id in s.views
    ensures Inv(Unpinned(s, s.views[id]).(views := s.views - {id}))
  {
    hide PinsBut;
    hide Dated;
    hide Chained;
    hide HistoryOk;
    hide ViewsOk;
    hide CommitsOk;
    hide TxnOk;
    hide Unpinned;
    hide Deregister;
    var pin := s.views[id];
    var u := Unpinned(s, pin);
    var m := u.(views := s.views - {id});
    LiveBounded(s);
    UnpinnedHistory(s, pin);
    UnpinnedViews(s, pin);
    UnpinnedDated(s, pin);
    UnpinnedFloor(s, pin);
    SameHandles(s, pin);
    ViewRemoved(s, m, id);
    assert id in ViewPins(s, pin);
    PinHeld(s, pin);
    UnpinnedPins(s, m, pin);
    FewerTxns(u, m);
  }

  // ------------------------------------------------------------------- opening handles

  lemma RegisteredPins(s: System, m: System, pin: nat)
    requires PinsOk(s) && s.past.retained <= pin <= s.db.version
    requires m.db.occ.live == Register(s.db.occ, pin).live && m.db.version == s.db.version && m.past == s.past
    requires |TxnPins(m, pin)| + |ViewPins(m, pin)| == |TxnPins(s, pin)| + |ViewPins(s, pin)| + 1
    requires PinsBut(s, m, pin)
    ensures PinsOk(m)
  {
    hide TxnPins;
    hide ViewPins;
    forall q
      ensures PinOk(m, q)
    {
      assert PinOk(s, q);
      assert TxnPins(m, q) == TxnPins(m, q);
    }
  }

  lemma RegisteredHistory(s: System, m: System, pin: nat)
    requires HistoryOk(s) && m.past == s.past && m.db.occ == Register(s.db.occ, pin)
    requires pin == s.db.version || exists q :: q in s.db.occ.live && q <= pin
    requires forall v :: v in s.past.commits ==> v <= s.db.version
    ensures HistoryOk(m)
  {
    hide WrittenKeys;
    forall v, q | v in m.past.commits && q in m.db.occ.live && q < v
      ensures v in m.db.occ.history
    {
      if q == pin && pin != s.db.version {
        var r :| r in s.db.occ.live && r <= pin;
      }
    }
  }

  lemma SameViews(s: System, m: System)
    requires ViewsOk(s) && m.past == s.past && m.db == s.db.(occ := m.db.occ)
    ensures ViewsOk(m)
  {
    hide Resolves;
    forall v | m.past.retained <= v <= m.db.version
      ensures ServesAt(m, v)
    {
      assert ServesAt(s, v);
    }
  }

  lemma TxnAdded(s: System, m: System, id: nat, t: Txn)
    requires id !in s.txns && m.txns == s.txns[id := t] && m.views == s.views
    ensures |TxnPins(m, t.start)| == |TxnPins(s, t.start)| + 1 && ViewPins(m, t.start) == ViewPins(s, t.start)
    ensures PinsBut(s, m, t.start)
  {
    assert TxnPins(m, t.start) == TxnPins(s, t.start) + {id};
    forall q | q != t.start
      ensures ViewPins(m, q) == ViewPins(s, q) && TxnPins(m, q) == TxnPins(s, q)
    {
    }
  }

  lemma ViewAdded(s: System, m: System, id: nat, pin: nat)
    requires id !in s.views && m.views == s.views[id := pin] && m.txns == s.txns
    ensures |ViewPins(m, pin)| == |ViewPins(s, pin)| + 1 && TxnPins(m, pin) == TxnPins(s, pin)
    ensures PinsBut(s, m, pin)
  {
    assert ViewPins(m, pin) == ViewPins(s, pin) + {id};
    forall q | q != pin
      ensures ViewPins(m, q) == ViewPins(s, q) && TxnPins(m, q) == TxnPins(s, q)
    {
    }
  }

  /** Open transactions stay in order while the past only grows. */
  lemma SameTxns(s: System, m: System)
    requires TxnsOk(s) && s.past.states <= m.past.states
    requires forall x :: x in m.txns ==> (x in s.txns && m.txns[x] == s.txns[x]) || TxnOk(m, m.txns[x])
    ensures TxnsOk(m)
  {
    hide Replays;
    forall x | x in m.txns
      ensures TxnOk(m, m.txns[x])
    {
      if x in s.txns && m.txns[x] == s.txns[x] {
        assert TxnOk(s, s.txns[x]);
      }
    }
  }

  lemma BeginKeeps(s: System, id: nat, level: Level)
    requires Inv(s) && id !in s.txns
    ensures Inv(Next(s, Begin(id, level)))
  {
    hide PinsBut;
    hide Chained;
    hide HistoryOk;
    hide PinsOk;
    hide ViewsOk;
    hide TxnsOk;
    hide CommitsOk;
    hide Register;
    var m := Next(s, Begin(id, level));
    SameViews(s, m);
    RegisteredHistory(s, m, s.db.version);
    TxnAdded(s, m, id, Txn(s.db.version, s.db.content, level, []));
    RegisteredPins(s, m, s.db.version);
    SameTxns(s, m);
  }

  lemma OpenKeeps(s: System, m: System, id: nat, pin: nat)
    requires Inv(s) && id !in s.views && s.past.retained <= pin <= s.db.version
    requires pin == s.db.version || exists q :: q in s.db.occ.live && q <= pin
    requires m == s.(db := s.db.(occ := Register(s.db.occ, pin)), views := s.views[id := pin])
    ensures Inv(m)
  {
    hide PinsBut;
    hide Chained;
    hide HistoryOk;
    hide PinsOk;
    hide ViewsOk;
    hide TxnsOk;
    hide CommitsOk;
    hide Register;
    SameViews(s, m);
    RegisteredHistory(s, m, pin);
    ViewAdded(s, m, id, pin);
    RegisteredPins(s, m, pin);
    SameTxns(s, m);
  }

  // -------------------------------------------------------------- working in a transaction

  lemma ReplaysMore(s: set<Key>, events: seq<Event>, e: Event)
    requires Replays(s, events) && (e.Saw? ==> e.present == (e.key in ApplyOps(s, Writes(events))))
    ensures Replays(s, events + [e])
  {
    assert (events + [e])[..|events|] == events;
  }

  lemma EventKeeps(s: System, id: nat, e: Event)
    requires Inv(s) && id in s.txns && (e.Saw? ==> e.present == Sees(s.txns[id], s.db.content, e.key))
    ensures Inv(s.(txns := s.txns[id := s.txns[id].(events := s.txns[id].events + [e])]))
  {
    hide Dated;
    hide Chained;
    hide HistoryOk;
    hide CommitsOk;
    hide Replays;
    hide ApplyOps;
    hide Writes;
    var t := s.txns[id];
    var u := t.(events := t.events + [e]);
    var m := s.(txns := s.txns[id := u]);
    assert TxnOk(s, t);
    if t.level.Stable() {
      ReplaysMore(t.snapshot, t.events, e);
    }
    DatedAgain(s, m);
    forall q
      ensures PinOk(m, q)
    {
      assert PinOk(s, q);
      assert TxnPins(m, q) == TxnPins(s, q) && ViewPins(m, q) == ViewPins(s, q);
    }
    forall x | x in m.txns
      ensures TxnOk(m, m.txns[x])
    {
      assert x != id ==> TxnOk(s, s.txns[x]);
    }
    SameViews(s, m);
  }

  lemma DatedAgain(s: System, m: System)
    requires Dated(s) && HistoryOk(s) && m.db == s.db && m.past == s.past
    ensures Dated(m) && HistoryOk(m)
  {
  }

  // ----------------------------------------------------------------------- plain writes

  lemma SamePins(s: System, m: System)
    requires PinsOk(s) && m.txns == s.txns && m.views == s.views && m.db.occ.live == s.db.occ.live
    requires m.past.retained == s.past.retained && s.db.version <= m.db.version
    ensures PinsOk(m)
  {
    forall q
      ensures PinOk(m, q)
    {
      assert PinOk(s, q);
      assert TxnPins(m, q) == TxnPins(s, q) && ViewPins(m, q) == ViewPins(s, q);
    }
  }

  lemma PlainDated(s: System, content: set<Key>)
    requires Dated(s) && Chained(s.past) && HistoryOk(s) && (forall q :: q in s.db.occ.live ==> q <= s.db.version)
    ensures var m := Next(s, Plain(content)); Dated(m) && Chained(m.past) && HistoryOk(m)
  {
    hide Writes;
    hide ApplyOps;
    hide WrittenKeys;
  }

  lemma PlainKeeps(s: System, content: set<Key>)
    requires Inv(s)
    ensures Inv(Next(s, Plain(content)))
  {
    hide HistoryOk;
    hide Chained;
    hide PinsOk;
    hide ViewsOk;
    hide TxnsOk;
    hide CommitsOk;
    var m := Next(s, Plain(content));
    LiveBounded(s);
    PlainDated(s, content);
    PlainCommits(s, m);
    PlainViews(s, m);
    SamePins(s, m);
    SameTxns(s, m);
  }

  lemma PlainCommits(s: System, m: System)
    requires Dated(s) && CommitsOk(s.past) && s.past.states <= m.past.states && m.past.commits == s.past.commits
    requires m.past.legacy == s.past.legacy + {s.db.version + 1}
    ensures CommitsOk(m.past)
  {
    hide Replays;
    hide WrittenKeys;
    forall v | v in m.past.commits
      ensures CommitOk(m.past, v)
    {
      assert CommitOk(s.past, v);
    }
  }

  lemma PlainViews(s: System, m: System)
    requires ViewsOk(s) && m.db.chains == s.db.chains && m.db.base == s.db.base && m.db.version == s.db.version + 1
    requires m.past.retained == s.past.retained <= s.db.version
    requires m.past.shadow == s.past.shadow + [s.past.shadow[s.db.version]]
    ensures ViewsOk(m)
  {
    assert ChainsOk(m.db.chains, m.db.version);
    forall v | m.past.retained <= v <= m.db.version
      ensures ServesAt(m, v)
    {
      var u := if v <= s.db.version then v else s.db.version;
      assert ServesAt(s, u);
      forall k
        ensures Resolves(m.db.chains, m.db.base, k, v) <==> k in m.past.shadow[v]
      {
        if k in s.db.chains {
          LastVisible(s.db.chains[k], s.db.version, v);
        }
      }
    }
  }

  // ---------------------------------------------------------------------------- commit

  /** Some committed transaction or plain write since `start` stands in the way, going by everything
      that ever happened. */
  ghost predicate Obstructed(p: Past, t: Txn) {
    || (exists u :: u in p.legacy && u > t.start)
    || (exists u :: u in p.commits && u > t.start && WrittenKeys(t.events) * WrittenKeys(p.commits[u].events) != {})
    || (t.level.ChecksReads() &&
        exists u :: u in p.commits && u > t.start && ReadKeys(t.events) * WrittenKeys(p.commits[u].events) != {})
  }

  lemma OverlapsFully(s: System, start: nat, keys: set<Key>)
    requires HistoryOk(s) && start in s.db.occ.live
    ensures Overlaps(s.db.occ.history, start, keys)
            <==> exists u :: u in s.past.commits && u > start && keys * WrittenKeys(s.past.commits[u].events) != {}
  {
    hide WrittenKeys;
    if u :| u in s.past.commits && u > start && keys * WrittenKeys(s.past.commits[u].events) != {} {
      assert u in s.db.occ.history;
    }
  }

  /** Validating against the collected history gives the verdict of the full history. */
  lemma PrunedVerdict(s: System, id: nat)
    requires Inv(s) && id in s.txns && s.txns[id].level.Stable()
    ensures Judge(s.db, s.txns[id]) != Clear <==> Obstructed(s.past, s.txns[id])
  {
    hide Dated;
    hide Chained;
    hide ViewsOk;
    hide TxnsOk;
    hide CommitsOk;
    hide WrittenKeys;
    hide Overlaps;
    var t := s.txns[id];
    assert id in TxnPins(s, t.start);
    PinHeld(s, t.start);
    OverlapsFully(s, t.start, WrittenKeys(t.events));
    OverlapsFully(s, t.start, ReadKeys(t.events));
  }

  /** The system just after a validated transaction is applied, before it is unpinned. */
  function Installed(s: System, id: nat): System
    requires id in s.txns
  {
    s.(db := Install(s.db, Writes(s.txns[id].events)), past := Noted(s, s.txns[id]))
  }

  lemma InstalledDated(s: System, id: nat)
    requires Dated(s) && id in s.txns && s.txns[id].start <= s.db.version
    ensures Dated(Installed(s, id))
  {
    hide Writes;
    hide ApplyOps;
    hide Recorded;
    hide KeysOf;
    hide Net;
  }

  lemma InstalledChained(s: System, id: nat)
    requires Dated(s) && Chained(s.past) && id in s.txns
    ensures Chained(Installed(s, id).past)
  {
    hide Writes;
    hide ApplyOps;
    hide Recorded;
    var p, q := s.past, Installed(s, id).past;
    forall v | v in q.commits
      ensures 1 <= v < |q.states| && q.states[v] == ApplyOps(q.states[v - 1], Writes(q.commits[v].events))
      ensures q.shadow[v] == ApplyOps(q.shadow[v - 1], Writes(q.commits[v].events))
    {
      if v in p.commits {
        assert q.commits[v] == p.commits[v];
      }
    }
  }

  lemma InstalledHistory(s: System, id: nat)
    requires Dated(s) && HistoryOk(s) && id in s.txns
    ensures HistoryOk(Installed(s, id))
  {
    hide Writes;
    hide KeysOf;
    hide Recorded;
  }

  lemma InstalledViews(s: System, id: nat)
    requires Dated(s) && ViewsOk(s) && id in s.txns
    ensures ViewsOk(Installed(s, id))
  {
    hide Writes;
    hide ApplyOps;
    hide Resolves;
    hide Recorded;
    hide ChainsOk;
    hide Net;
    var m := Installed(s, id);
    var ops := Writes(s.txns[id].events);
    RecordedOk(s.db.chains, s.db.version + 1, Net(ops));
    forall v | m.past.retained <= v <= m.db.version
      ensures ServesAt(m, v)
    {
      assert ServesAt(s, if v <= s.db.version then v else s.db.version);
      forall k
        ensures Resolves(m.db.chains, m.db.base, k, v) <==> k in m.past.shadow[v]
      {
        RecordedResolves(s.db.chains, s.db.version + 1, Net(ops), s.db.base, k, v);
        NetIsLast(s.past.shadow[s.db.version], ops, k);
      }
    }
  }

  lemma InstalledCommits(s: System, id: nat)
    requires Inv(s) && id in s.txns && Judge(s.db, s.txns[id]) == Clear
    ensures CommitsOk(Installed(s, id).past)
  {
    hide Replays;
    hide Writes;
    hide WrittenKeys;
    hide ReadKeys;
    hide Recorded;
    hide Chained;
    hide HistoryOk;
    hide PinsOk;
    hide ViewsOk;
    hide Judge;
    var t, p := s.txns[id], Installed(s, id).past;
    assert TxnOk(s, t);
    if t.level.Stable() {
      PrunedVerdict(s, id);
      Unobstructed(s.past, t);
    }
    forall v | v in p.commits
      ensures CommitOk(p, v)
    {
      if v in s.past.commits {
        assert CommitOk(s.past, v);
      } else {
        assert v == s.db.version + 1 && p.commits[v] == Done(t.start, t.level, t.events);
        assert forall u :: u in p.commits && u < v ==> u in s.past.commits && p.commits[u] == s.past.commits[u];
      }
    }
  }

  lemma Unobstructed(p: Past, t: Txn)
    requires !Obstructed(p, t)
    ensures forall u :: u in p.legacy ==> u <= t.start
    ensures forall u :: u in p.commits && u > t.start ==> WrittenKeys(t.events) !! WrittenKeys(p.commits[u].events)
    ensures t.level.ChecksReads() ==>
              forall u :: u in p.commits && u > t.start ==> ReadKeys(t.events) !! WrittenKeys(p.commits[u].events)
  {
    hide WrittenKeys;
    hide ReadKeys;
    forall u | u in p.commits && u > t.start
      ensures WrittenKeys(t.events) !! WrittenKeys(p.commits[u].events)
      ensures t.level.ChecksReads() ==> ReadKeys(t.events) !! WrittenKeys(p.commits[u].events)
    {
      Disjoint(WrittenKeys(t.events), WrittenKeys(p.commits[u].events));
      Disjoint(ReadKeys(t.events), WrittenKeys(p.commits[u].events));
    }
  }

  lemma Disjoint(a: set<Key>, b: set<Key>)
    ensures a * b == {} <==> a !! b
  {
    assert forall x :: x in a && x in b ==> x in a * b;
  }

  lemma StartBounded(s: System, id: nat)
    requires Dated(s) && TxnsOk(s) && id in s.txns
    ensures s.txns[id].start <= s.db.version
  {
    hide Replays;
    assert TxnOk(s, s.txns[id]);
  }

  lemma InstalledKeeps(s: System, id: nat)
    requires Inv(s) && id in s.txns && Judge(s.db, s.txns[id]) == Clear
    ensures Inv(Installed(s, id))
  {
    hide Dated;
    hide Chained;
    hide HistoryOk;
    hide PinsOk;
    hide ViewsOk;
    hide TxnsOk;
    hide CommitsOk;
    hide Judge;
    hide Writes;
    hide Recorded;
    StartBounded(s, id);
    InstalledDated(s, id);
    InstalledChained(s, id);
    InstalledHistory(s, id);
    InstalledViews(s, id);
    InstalledCommits(s, id);
    SamePins(s, Installed(s, id));
    SameTxns(s, Installed(s, id));
  }

  lemma CommitKeeps(s: System, id: nat)
    requires Inv(s) && id in s.txns
    ensures Inv(Next(s, Commit(id)))
  {
    hide Inv;
    hide Judge;
    hide Retire;
    if Judge(s.db, s.txns[id]) == Clear {
      InstalledKeeps(s, id);
      CloseTxn(Installed(s, id), id);
    } else {
      CloseTxn(s, id);
    }
  }

  lemma StepKeeps(s: System, step: Step)
    requires Inv(s) && Enabled(s, step)
    ensures Inv(Next(s, step))
  {
    match step
    case Begin(id, level) => BeginKeeps(s, id, level);
    case Write(id, op) => EventKeeps(s, id, Wrote(op));
    case Read(id, k) => EventKeeps(s, id, Saw(k, Sees(s.txns[id], s.db.content, k)));
    case Commit(id) => CommitKeeps(s, id);
    case Abort(id) => CloseTxn(s, id);
    case Plain(content) => PlainKeeps(s, content);
    case Open(id) => OpenKeeps(s, Next(s, step), id, s.db.version);
    case OpenAt(id, v) => OpenKeeps(s, Next(s, step), id, v);
    case Close(id) => CloseView(s, id);
  }

  lemma {:induction false} RunInv(systems: seq<System>, steps: seq<Step>, i: nat)
    requires Run(systems, steps) && i < |systems|
    ensures Inv(systems[i])
  {
    hide Inv;
    hide Next;
    hide Enabled;
    hide Initial;
    if i == 0 {
      InitialInv(systems[0].db.content);
    } else {
      RunInv(systems, steps, i - 1);
      StepKeeps(systems[i - 1], steps[i - 1]);
    }
  }

  // ----------------------------------------------------------------------- main theorems

  /** Snapshot isolation in every run: between the start and the commit of a repeatable-read or
      serializable transaction nobody else committed a write to a key it wrote, and no plain write
      happened at all. */
  lemma SnapshotIsolation(systems: seq<System>, steps: seq<Step>, i: nat, v: nat, u: nat)
    requires Run(systems, steps) && i < |systems| && v in systems[i].past.commits
    requires systems[i].past.commits[v].level.Stable() && systems[i].past.commits[v].start < u < v
    ensures u in systems[i].past.commits && u !in systems[i].past.legacy
    ensures WrittenKeys(systems[i].past.commits[v].events) !! WrittenKeys(systems[i].past.commits[u].events)
  {
    hide Run;
    hide WrittenKeys;
    hide Replays;
    RunInv(systems, steps, i);
    assert CommitOk(systems[i].past, v);
  }

  /** A key nobody wrote between two versions is in both or in neither. */
  lemma {:induction false} Untouched(p: Past, a: nat, b: nat, k: Key)
    requires Chained(p) && 1 <= a <= b < |p.states|
    requires forall u :: a < u <= b ==> u in p.commits && k !in WrittenKeys(p.commits[u].events)
    ensures k in p.states[a] <==> k in p.states[b]
  {
    if a < b {
      Untouched(p, a, b - 1, k);
      NetIsLast(p.states[b - 1], Writes(p.commits[b].events), k);
    }
  }

  /** The answers only depend on the keys asked for. */
  lemma {:induction false} ReplaysElsewhere(s: set<Key>, r: set<Key>, events: seq<Event>)
    requires Replays(s, events) && forall k :: k in ReadKeys(events) ==> (k in s <==> k in r)
    ensures Replays(r, events)
  {
    if events != [] {
      var init, last := events[..|events| - 1], events[|events| - 1];
      assert events == init + [last];
      assert forall k :: k in ReadKeys(init) ==> k in ReadKeys(events);
      ReplaysElsewhere(s, r, init);
      if last.Saw? {
        assert last in events;
        NetIsLast(s, Writes(init), last.key);
        NetIsLast(r, Writes(init), last.key);
      }
    }
  }

  /** Serializability in every run, also next to other levels and plain writes: each committed
      serializable transaction got exactly the answers it would get on the state just before its
      commit, and its version is that state changed by its writes. */
  lemma SerializableReads(systems: seq<System>, steps: seq<Step>, i: nat, v: nat)
    requires Run(systems, steps) && i < |systems| && v in systems[i].past.commits
    requires systems[i].past.commits[v].level == Serializable
    ensures var p := systems[i].past;
            && 1 <= v < |p.states| && Replays(p.states[v - 1], p.commits[v].events)
            && p.states[v] == ApplyOps(p.states[v - 1], Writes(p.commits[v].events))
  {
    hide Run;
    hide WrittenKeys;
    hide Replays;
    RunInv(systems, steps, i);
    var p := systems[i].past;
    assert CommitOk(p, v);
    var c := p.commits[v];
    forall k | k in ReadKeys(c.events)
      ensures k in p.states[c.start] <==> k in p.states[v - 1]
    {
      Untouched(p, c.start, v - 1, k);
    }
    ReplaysElsewhere(p.states[c.start], p.states[v - 1], c.events);
  }

  /** A transaction that decides only by its tracked reads: from what happened so far it knows what to
      do next. */
  datatype Move = Ask(key: Key) | Do(op: Op) | Finish

  type Program = seq<Event> -> Move

  ghost predicate MoveIs(m: Move, e: Event) {
    match m
    case Ask(k) => e.Saw? && e.key == k
    case Do(op) => e == Wrote(op)
    case Finish => false
  }

  /** `events` is a complete run of the program. */
  ghost predicate Follows(p: Program, events: seq<Event>) {
    && p(events) == Finish
    && forall i :: 0 <= i < |events| ==> MoveIs(p(events[..i]), events[i])
  }

  /** Run alone on the state just before its commit, the transaction would have done exactly what it
      did: there is only one complete run of a program from a given state. */
  lemma {:induction false} SerialRunIsSame(p: Program, s: set<Key>, a: seq<Event>, b: seq<Event>)
    requires Follows(p, a) && Follows(p, b) && Replays(s, a) && Replays(s, b)
    ensures a == b
  {
    var n := if |a| <= |b| then |a| else |b|;
    SamePrefix(p, s, a, b, n);
    assert a[..|a|] == a && b[..|b|] == b;
    assert forall i :: 0 <= i < |a| ==> !p(a[..i]).Finish?;
    assert forall i :: 0 <= i < |b| ==> !p(b[..i]).Finish?;
  }

  lemma {:induction false} SamePrefix(p: Program, s: set<Key>, a: seq<Event>, b: seq<Event>, n: nat)
    requires Follows(p, a) && Follows(p, b) && Replays(s, a) && Replays(s, b) && n <= |a| && n <= |b|
    ensures a[..n] == b[..n]
  {
    if n > 0 {
      SamePrefix(p, s, a, b, n - 1);
      assert MoveIs(p(a[..n - 1]), a[n - 1]) && MoveIs(p(b[..n - 1]), b[n - 1]);
      ReplaysPrefix(s, a, n);
      ReplaysPrefix(s, b, n);
      assert a[..n][..n - 1] == a[..n - 1] && b[..n][..n - 1] == b[..n - 1];
    }
  }

  lemma {:induction false} ReplaysPrefix(s: set<Key>, events: seq<Event>, n: nat)
    requires Replays(s, events) && n <= |events|
    ensures Replays(s, events[..n])
    decreases |events|
  {
    if n < |events| {
      ReplaysPrefix(s, events[..|events| - 1], n);
      assert events[..|events| - 1][..n] == events[..n];
    } else {
      assert events[..n] == events;
    }
  }

  /** The state reached by running a list of finished transactions one after another. */
  ghost function Serially(s: set<Key>, done: seq<Done>): set<Key> {
    if done == [] then s else ApplyOps(Serially(s, done[..|done| - 1]), Writes(done[|done| - 1].events))
  }

  ghost function InOrder(p: Past, n: nat): seq<Done>
    requires forall v :: 2 <= v <= n ==> v in p.commits
  {
    if n < 2 then [] else InOrder(p, n - 1) + [p.commits[n]]
  }

  lemma {:induction false} StatesSerial(p: Past, n: nat)
    requires Chained(p) && 1 <= n < |p.states| && forall v :: 2 <= v <= n ==> v in p.commits
    ensures p.states[n] == Serially(p.states[1], InOrder(p, n))
  {
    hide ApplyOps;
    hide Writes;
    if n >= 2 {
      StatesSerial(p, n - 1);
      assert InOrder(p, n)[..|InOrder(p, n)| - 1] == InOrder(p, n - 1);
    }
  }

  /** A run in which every committed transaction is serializable and nobody writes plainly equals
      running the committed transactions one by one in version order: each one's answers are those of
      the serial state before it, and the database is the serial state after the last. */
  lemma SerialExecution(systems: seq<System>, steps: seq<Step>, i: nat)
    requires Run(systems, steps) && i < |systems| && systems[i].past.legacy == {}
    requires forall v :: v in systems[i].past.commits ==> systems[i].past.commits[v].level == Serializable
    ensures var s := systems[i];
            && s.db.version >= 1 && (forall v :: 2 <= v <= s.db.version ==> v in s.past.commits)
            && s.db.content == Serially(s.db.base, InOrder(s.past, s.db.version))
            && forall v :: 2 <= v <= s.db.version ==>
                 Replays(Serially(s.db.base, InOrder(s.past, v - 1)), s.past.commits[v].events)
  {
    hide Run;
    hide Replays;
    hide Writes;
    hide ApplyOps;
    hide HistoryOk;
    hide PinsOk;
    hide ViewsOk;
    hide TxnsOk;
    hide CommitsOk;
    RunInv(systems, steps, i);
    var s := systems[i];
    StatesSerial(s.past, s.db.version);
    forall v | 2 <= v <= s.db.version
      ensures Replays(Serially(s.db.base, InOrder(s.past, v - 1)), s.past.commits[v].events)
    {
      SerializableReads(systems, steps, i, v);
      StatesSerial(s.past, v - 1);
    }
  }

  /** The state reached by running, one after another, what `replay` says for versions 2 to `n`. */
  ghost function ReplayState(base: set<Key>, replay: map<nat, seq<Event>>, n: nat): set<Key> {
    if n < 2 || n !in replay then base else ApplyOps(ReplayState(base, replay, n - 1), Writes(replay[n]))
  }

  ghost predicate ReplayedAt(base: set<Key>, programs: map<nat, Program>, replay: map<nat, seq<Event>>, v: nat)
    requires v > 0
  {
    && v in programs && v in replay
    && Follows(programs[v], replay[v]) && Replays(ReplayState(base, replay, v - 1), replay[v])
  }

  /** For each version from 2 to `n`, `replay` has a complete run of that version's program, alone on the
      state reached before it. */
  ghost predicate SerialReplay(base: set<Key>, programs: map<nat, Program>, replay: map<nat, seq<Event>>, n: nat) {
    forall v {:trigger ReplayedAt(base, programs, replay, v)} :: 2 <= v <= n ==> ReplayedAt(base, programs, replay, v)
  }

  /** The transactions of a run are complete runs of these programs. */
  ghost predicate RunsOf(p: Past, programs: map<nat, Program>, n: nat) {
    forall v :: 2 <= v <= n ==> v in programs && v in p.commits && Follows(programs[v], p.commits[v].events)
  }

  ghost predicate SameAt(p: Past, replay: map<nat, seq<Event>>, v: nat) {
    v in replay && v in p.commits && replay[v] == p.commits[v].events
  }

  ghost predicate SameEvents(p: Past, replay: map<nat, seq<Event>>, n: nat) {
    forall v {:trigger SameAt(p, replay, v)} :: 2 <= v <= n ==> SameAt(p, replay, v)
  }

  lemma {:induction false} SameState(base: set<Key>, p: Past, replay: map<nat, seq<Event>>, n: nat)
    requires SameEvents(p, replay, n) && forall v :: 2 <= v <= n ==> v in p.commits
    ensures ReplayState(base, replay, n) == Serially(base, InOrder(p, n))
  {
    hide ApplyOps;
    hide Writes;
    if n >= 2 {
      SameState(base, p, replay, n - 1);
      var order := InOrder(p, n);
      assert order[..|order| - 1] == InOrder(p, n - 1);
      assert SameAt(p, replay, n);
    }
  }

  /** After a replay that is the recorded run so far, the next program does again what it did. */
  lemma NextRepeats(base: set<Key>, p: Past, programs: map<nat, Program>, replay: map<nat, seq<Event>>, n: nat)
    requires n >= 2 && n in programs && n in p.commits && Follows(programs[n], p.commits[n].events)
    requires Replays(ReplayState(base, replay, n - 1), p.commits[n].events)
    ensures ReplayedAt(base, programs, replay, n) <==> SameAt(p, replay, n)
  {
    hide Follows;
    hide Replays;
    hide ReplayState;
    if ReplayedAt(base, programs, replay, n) {
      SerialRunIsSame(programs[n], ReplayState(base, replay, n - 1), replay[n], p.commits[n].events);
    }
  }

  /** Recorded transactions that replay on the serial states are reproduced by any serial replay. */
  lemma {:induction false} ReplayRepeats(base: set<Key>, p: Past, programs: map<nat, Program>,
                                         replay: map<nat, seq<Event>>, n: nat)
    requires RunsOf(p, programs, n) && forall v :: 2 <= v <= n ==> v in p.commits
    requires forall v :: 2 <= v <= n ==> Replays(Serially(base, InOrder(p, v - 1)), p.commits[v].events)
    ensures SerialReplay(base, programs, replay, n) <==> SameEvents(p, replay, n)
  {
    hide Follows;
    hide Replays;
    hide Serially;
    hide InOrder;
    hide ReplayState;
    hide ReplayedAt;
    hide SameAt;
    if n >= 2 {
      ReplayRepeats(base, p, programs, replay, n - 1);
      ReplaySplits(base, programs, replay, n);
      EventsSplit(p, replay, n);
      if SameEvents(p, replay, n - 1) {
        SameState(base, p, replay, n - 1);
        assert Replays(Serially(base, InOrder(p, n - 1)), p.commits[n].events);
        NextRepeats(base, p, programs, replay, n);
      }
    }
  }

  lemma EventsSplit(p: Past, replay: map<nat, seq<Event>>, n: nat)
    requires n >= 2
    ensures SameEvents(p, replay, n) <==> SameEvents(p, replay, n - 1) && SameAt(p, replay, n)
  {
    hide SameAt;
  }

  lemma ReplaySplits(base: set<Key>, programs: map<nat, Program>, replay: map<nat, seq<Event>>, n: nat)
    requires n >= 2
    ensures SerialReplay(base, programs, replay, n) <==>
              SerialReplay(base, programs, replay, n - 1) && ReplayedAt(base, programs, replay, n)
  {
    hide ReplayedAt;
  }

  /** Serializability as a caller sees it. Take a run in which every committed transaction is serializable
      and decides by its tracked reads, and nobody writes plainly. Running the same programs again one by
      one in version order, each alone from start to end, is possible in exactly one way: every program
      asks, sees and writes just what it did in the run, and the last state is the database. */
  lemma SerialReplayIsRun(systems: seq<System>, steps: seq<Step>, i: nat, programs: map<nat, Program>,
                          replay: map<nat, seq<Event>>)
    requires Run(systems, steps) && i < |systems| && systems[i].past.legacy == {}
    requires forall v :: v in systems[i].past.commits ==> systems[i].past.commits[v].level == Serializable
    requires RunsOf(systems[i].past, programs, systems[i].db.version)
    ensures var s := systems[i];
            SerialReplay(s.db.base, programs, replay, s.db.version) <==> SameEvents(s.past, replay, s.db.version)
    ensures var s := systems[i];
            SerialReplay(s.db.base, programs, replay, s.db.version) ==>
              s.db.content == ReplayState(s.db.base, replay, s.db.version)
  {
    hide Run;
    hide RunsOf;
    hide Follows;
    hide Replays;
    hide Serially;
    hide InOrder;
    hide SerialReplay;
    hide SameEvents;
    hide ReplayState;
    SerialExecution(systems, steps, i);
    var s := systems[i];
    ReplayRepeats(s.db.base, s.past, programs, replay, s.db.version);
    if SameEvents(s.past, replay, s.db.version) {
      SameState(s.db.base, s.past, replay, s.db.version);
    }
  }

  /** Every open reader answers as of its version, after any later commits, aborts, closings and
      collections: exactly the base with the transactions committed up to that version. */
  lemma ViewsServe(systems: seq<System>, steps: seq<Step>, i: nat, id: nat, k: Key)
    requires Run(systems, steps) && i < |systems| && id in systems[i].views
    ensures var s := systems[i];
            && s.views[id] < |s.past.shadow|
            && (Resolves(s.db.chains, s.db.base, k, s.views[id]) <==> k in s.past.shadow[s.views[id]])
  {
    hide Run;
    hide Dated;
    hide Chained;
    hide HistoryOk;
    hide TxnsOk;
    hide CommitsOk;
    hide Resolves;
    RunInv(systems, steps, i);
    var s := systems[i];
    assert id in ViewPins(s, s.views[id]);
    PinHeld(s, s.views[id]);
    assert ServesAt(s, s.views[id]);
  }

  lemma {:induction false} ShadowIsState(p: Past, v: nat)
    requires Chained(p) && 1 <= v < |p.states| && p.shadow[1] == p.states[1]
    requires forall u :: 2 <= u <= v ==> u in p.commits
    ensures p.shadow[v] == p.states[v]
  {
    if v >= 2 {
      ShadowIsState(p, v - 1);
      assert v in p.commits && p.shadow[v] == ApplyOps(p.shadow[v - 1], Writes(p.commits[v].events));
    }
  }

  /** Without plain writes a reader sees the committed state of its version: the collected chains
      refine the full multi-version history. */
  lemma ViewsSeeTheirVersion(systems: seq<System>, steps: seq<Step>, i: nat, id: nat, k: Key)
    requires Run(systems, steps) && i < |systems| && id in systems[i].views && systems[i].past.legacy == {}
    ensures var s := systems[i];
            && s.views[id] < |s.past.states|
            && (Resolves(s.db.chains, s.db.base, k, s.views[id]) <==> k in s.past.states[s.views[id]])
  {
    hide Run;
    hide HistoryOk;
    hide ViewsOk;
    hide TxnsOk;
    hide CommitsOk;
    hide Resolves;
    hide ApplyOps;
    hide Writes;
    RunInv(systems, steps, i);
    ViewsServe(systems, steps, i, id, k);
    var s := systems[i];
    assert id in ViewPins(s, s.views[id]);
    PinHeld(s, s.views[id]);
    ShadowIsState(s.past, s.views[id]);
  }

  lemma NextPast(s: System, step: Step)
    requires Enabled(s, step)
    ensures s.past.states <= Next(s, step).past.states && s.past.legacy <= Next(s, step).past.legacy
    ensures forall v :: v in s.past.commits && v <= s.db.version ==>
              v in Next(s, step).past.commits && Next(s, step).past.commits[v] == s.past.commits[v]
    ensures s.db.version <= Next(s, step).db.version
  {
    hide ApplyOps;
    hide Recorded;
    hide Collected;
    hide Prune;
    hide Judge;
    hide Writes;
  }

  /** What was committed once stays on record unchanged. */
  lemma {:induction false} PastOnlyGrows(systems: seq<System>, steps: seq<Step>, i: nat, j: nat)
    requires Run(systems, steps) && i <= j < |systems|
    ensures systems[i].past.states <= systems[j].past.states && systems[i].past.legacy <= systems[j].past.legacy
    ensures systems[i].db.version <= systems[j].db.version
    decreases j - i
  {
    hide Next;
    hide Enabled;
    hide Initial;
    if i < j {
      PastOnlyGrows(systems, steps, i, j - 1);
      NextPast(systems[j - 1], steps[j - 1]);
    }
  }

  /** A reader pinned at the version that was current at moment `i` still sees, at any later moment `j`
      without plain writes, exactly what the database held at moment `i`. */
  lemma ViewsAreFrozen(systems: seq<System>, steps: seq<Step>, i: nat, j: nat, id: nat, k: Key)
    requires Run(systems, steps) && i <= j < |systems| && systems[j].past.legacy == {}
    requires id in systems[j].views && systems[j].views[id] == systems[i].db.version
    ensures Resolves(systems[j].db.chains, systems[j].db.base, k, systems[j].views[id]) <==> k in systems[i].db.content
  {
    hide Run;
    hide Resolves;
    hide Chained;
    hide HistoryOk;
    hide PinsOk;
    hide ViewsOk;
    hide TxnsOk;
    hide CommitsOk;
    RunInv(systems, steps, i);
    PastOnlyGrows(systems, steps, i, j);
    ViewsSeeTheirVersion(systems, steps, j, id, k);
  }
}
