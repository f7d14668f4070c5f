/** The codec as written: encoders that append to a growing buffer and a reader that moves a cursor over
    arbitrary bytes, with an error instead of a read past the end. */
module RpcCodec {
  import opened Wrappers
  import opened RaftTypes
  import opened Rpc
  import opened RpcMessages

  // ----------------------------------------------------------------------- encoding

  class Buffer {
    var bytes: Bytes

    constructor ()
      ensures bytes == []
    {
      bytes := [];
    }

    method Push(b: Octet)
      modifies this
      ensures bytes == old(bytes) + [b]
    {
      bytes := bytes + [b];
    }

    method PutU32(v: nat)
      modifies this
      ensures bytes == old(bytes) + U32Bytes(v)
    {
      bytes := bytes + U32Bytes(v);
    }

    method PutU64(v: nat)
      modifies this
      ensures bytes == old(bytes) + U64Bytes(v)
    {
      bytes := bytes + U64Bytes(v);
    }

    method PutI64(v: int)
      modifies this
      ensures bytes == old(bytes) + I64Bytes(v)
    {
      PutU64(v % U64_END);
    }

    method PutText(s: Text)
      modifies this
      ensures bytes == old(bytes) + TextBytes(s)
    {
      PutU32(|s|);
      bytes := bytes + s;
    }

    method PutTriple(t: Triple)
      modifies this
      ensures bytes == old(bytes) + TripleBytes(t)
    {
      PutU32(t.sub);
      PutU32(t.pred);
      PutU32(t.obj);
    }

    method PutIds(ids: seq<nat>)
      modifies this
      ensures bytes == old(bytes) + Counted(ids, U32Bytes)
    {
      PutU32(|ids|);
      ghost var start := bytes;
      for i := 0 to |ids|
        invariant bytes == start + Many(ids[..i], U32Bytes)
      {
        assert ids[..i + 1][..i] == ids[..i];
        PutU32(ids[i]);
      }
      assert ids[..|ids|] == ids;
    }

    method PutPairs(pairs: seq<(nat, nat)>)
      modifies this
      ensures bytes == old(bytes) + Counted(pairs, PairBytes)
    {
      PutU32(|pairs|);
      ghost var start := bytes;
      for i := 0 to |pairs|
        invariant bytes == start + Many(pairs[..i], PairBytes)
      {
        assert pairs[..i + 1][..i] == pairs[..i];
        PutU32(pairs[i].0);
        PutU32(pairs[i].1);
      }
      assert pairs[..|pairs|] == pairs;
    }

    method PutMember(id: NodeId, addr: Text)
      modifies this
      ensures bytes == old(bytes) + ([3] + (U64Bytes(id) + TextBytes(addr)))
    {
      hide U64Bytes;
      hide TextBytes;
      Push(3);
      PutU64(id);
      PutText(addr);
    }

    method PutOp(op: LogOp)
      modifies this
      ensures bytes == old(bytes) + OpBytes(op)
    {
      hide TripleBytes;
      hide U64Bytes;
      hide TextBytes;
      match op
      case Insert(t) =>
        Push(1);
        PutTriple(t);
      case Delete(t) =>
        Push(2);
        PutTriple(t);
      case AddNode(id, addr) => PutMember(id, addr);
      case RemoveNode(id) =>
        Push(4);
        PutU64(id);
      case Noop => Push(5);
    }

    method PutEntries(entries: Log)
      modifies this
      ensures bytes == old(bytes) + Counted(entries, EntryBytes)
    {
      hide OpBytes;
      hide U64Bytes;
      hide U32Bytes;
      PutU32(|entries|);
      ghost var start := bytes;
      for i := 0 to |entries|
        invariant bytes == start + Many(entries[..i], EntryBytes)
      {
        assert entries[..i + 1][..i] == entries[..i];
        PutU64(entries[i].term);
        PutOp(entries[i].op);
      }
      assert entries[..|entries|] == entries;
    }

    method PutTriples(ts: seq<Triple>)
      modifies this
      ensures bytes == old(bytes) + Counted(ts, TripleBytes)
    {
      hide TripleBytes;
      hide U32Bytes;
      PutU32(|ts|);
      ghost var start := bytes;
      for i := 0 to |ts|
        invariant bytes == start + Many(ts[..i], TripleBytes)
      {
        assert ts[..i + 1][..i] == ts[..i];
        PutTriple(ts[i]);
      }
      assert ts[..|ts|] == ts;
    }

    method PutFour(a: nat, b: nat, c: nat, d: nat)
      modifies this
      ensures bytes == old(bytes) + FourBytes(a, b, c, d)
    {
      hide U64Bytes;
      PutU64(a);
      PutU64(b);
      PutU64(c);
      PutU64(d);
    }

    method PutMsg(m: RaftMsg)
      modifies this
      ensures bytes == old(bytes) + MsgBytes(m)
    {
      hide FourBytes;
      hide Counted;
      hide U64Bytes;
      match m
      case RequestVote(term, c, i, t) => PutFour(term, c, i, t);
      case AppendEntries(term, l, prev, prevTerm, commit, entries) =>
        PutFour(term, l, prev, prevTerm);
        PutU64(commit);
        PutEntries(entries);
      case InstallSnapshot(term, l, i, t, triples) =>
        PutFour(term, l, i, t);
        PutTriples(triples);
    }

    method PutTwo(a: nat, b: nat)
      modifies this
      ensures bytes == old(bytes) + TwoBytes(a, b)
    {
      PutU32(a);
      PutU32(b);
    }

    method PutReply(r: RaftReply)
      modifies this
      ensures bytes == old(bytes) + ReplyBytes(r)
    {
      hide U64Bytes;
      PutU64(r.term);
      match r
      case VoteReply(_, granted) => Push(if granted then 1 else 0);
      case AppendReply(_, success, m) =>
        Push(if success then 1 else 0);
        PutU64(m);
      case SnapshotReply(_) =>
    }

    method PutAck(ok: bool, hint: int, index: nat)
      modifies this
      ensures bytes == old(bytes) + AckBytes(ok, hint, index)
    {
      hide I64Bytes;
      hide U64Bytes;
      Push(if ok then 1 else 0);
      PutI64(hint);
      PutU64(index);
    }

    method PutStatus(term: nat, role: Octet, hint: int, commit: nat, last: nat)
      modifies this
      ensures bytes == old(bytes) + StatusBytes(term, role, hint, commit, last)
    {
      hide I64Bytes;
      hide U64Bytes;
      PutU64(term);
      Push(role);
      PutI64(hint);
      PutU64(commit);
      PutU64(last);
    }

    method PutConfig(epoch: nat, n: nat, members: seq<(NodeId, Text)>, assignment: seq<NodeId>)
      modifies this
      ensures bytes == old(bytes) + ConfigBytes(epoch, n, members, assignment)
    {
      hide U32Bytes;
      hide U64Bytes;
      hide Counted;
      PutU64(epoch);
      PutU32(n);
      PutMembers(members);
      PutOwners(assignment);
    }

    method PutMembers(members: seq<(NodeId, Text)>)
      modifies this
      ensures bytes == old(bytes) + Counted(members, MemberBytes)
    {
      hide U64Bytes;
      hide U32Bytes;
      hide TextBytes;
      PutU32(|members|);
      ghost var start := bytes;
      for i := 0 to |members|
        invariant bytes == start + Many(members[..i], MemberBytes)
      {
        assert members[..i + 1][..i] == members[..i];
        PutU64(members[i].0);
        PutText(members[i].1);
      }
      assert members[..|members|] == members;
    }

    method PutOwners(owners: seq<NodeId>)
      modifies this
      ensures bytes == old(bytes) + Counted(owners, U64Bytes)
    {
      hide U64Bytes;
      hide U32Bytes;
      PutU32(|owners|);
      ghost var start := bytes;
      for i := 0 to |owners|
        invariant bytes == start + Many(owners[..i], U64Bytes)
      {
        assert owners[..i + 1][..i] == owners[..i];
        PutU64(owners[i]);
      }
      assert owners[..|owners|] == owners;
    }
  }

  method EncodeRequest(r: Request) returns (out: Bytes)
    ensures out == RequestBytes(r)
  {
    hide TripleBytes;
    hide U32Bytes;
    hide TwoBytes;
    hide MsgBytes;
    hide OpBytes;
    var b := new Buffer();
    b.Push(RequestTag(r));
    match r {
      case Exists(t) => b.PutTriple(t);
      case PoByS(s) => b.PutU32(s);
      case OBySp(s, p) => b.PutTwo(s, p);
      case PBySo(s, o) => b.PutTwo(s, o);
      case PsByO(o) => b.PutU32(o);
      case SByPo(p, o) => b.PutTwo(p, o);
      case SoByP(p) => b.PutU32(p);
      case SubsByP(p) => b.PutU32(p);
      case ObjsByP(p) => b.PutU32(p);
      case PredCard(p) => b.PutU32(p);
      case InsertTriple(t) => b.PutTriple(t);
      case Raft(m) => b.PutMsg(m);
      case ClientWrite(op) => b.PutOp(op);
      case ScanShard(s, n) => b.PutTwo(s, n);
      case PurgeShard(s, n) => b.PutTwo(s, n);
      case _ =>
    }
    out := b.bytes;
  }

  method EncodeResponse(r: Response) returns (out: Bytes)
    ensures out == ResponseBytes(r)
  {
    hide U32Bytes;
    hide U64Bytes;
    hide Counted;
    hide TextBytes;
    hide ReplyBytes;
    hide AckBytes;
    hide StatusBytes;
    hide ConfigBytes;
    var b := new Buffer();
    b.Push(ResponseTag(r));
    match r {
      case Flag(v) => b.Push(if v then 1 else 0);
      case Count(n) => b.PutU64(n);
      case Ids(ids) => b.PutIds(ids);
      case Pairs(pairs) => b.PutPairs(pairs);
      case Error(text) => b.PutText(text);
      case Reply(reply) => b.PutReply(reply);
      case WriteAck(ok, hint, index) => b.PutAck(ok, hint, index);
      case Status(term, role, hint, commit, last) => b.PutStatus(term, role, hint, commit, last);
      case Triples(ts) => b.PutTriples(ts);
      case ConfigIs(epoch, n, members, assignment) => b.PutConfig(epoch, n, members, assignment);
    }
    out := b.bytes;
  }

  // ----------------------------------------------------------------------- decoding

  /** A read at the cursor did what reading at that position does. */
  ghost predicate Did<T>(spec: Result<(T, nat)>, r: Result<T>, pos: nat) {
    match spec
    case Ok(v) => r == Ok(v.0) && pos == v.1
    case Err => r.Err?
  }

  lemma {:induction false} ManyFails<T>(read: Read<T>, buf: Bytes, pos: nat, i: nat, n: nat)
    requires i <= n && ReadMany(read, buf, pos, i).Err?
    ensures ReadMany(read, buf, pos, n).Err?
  {
    if i < n {
      ManyFails(read, buf, pos, i, n - 1);
    }
  }

  class Reader {
    const buf: Bytes
    const parse: ParseAddr
    var pos: nat

    constructor (buf: Bytes, parse: ParseAddr)
      ensures this.buf == buf && this.parse == parse && pos == 0
    {
      this.buf, this.parse, pos := buf, parse, 0;
    }

    method Take(n: nat) returns (r: Result<Bytes>)
      modifies this
      ensures Did(Rpc.Take(buf, old(pos), n), r, pos)
    {
      var end := pos + n;
      if end <= |buf| {
        r := Ok(buf[pos..end]);
        pos := end;
      } else {
        r := Err;
      }
    }

    method TakeOctet() returns (r: Result<Octet>)
      modifies this
      ensures Did(ReadOctet(buf, old(pos)), r, pos)
    {
      var b :- Take(1);
      r := Ok(b[0]);
    }

    method TakeU32() returns (r: Result<nat>)
      modifies this
      ensures Did(ReadU32(buf, old(pos)), r, pos)
    {
      var b :- Take(4);
      r := Ok(FromBigEndian(b));
    }

    method TakeU64() returns (r: Result<nat>)
      modifies this
      ensures Did(ReadU64(buf, old(pos)), r, pos)
    {
      var b :- Take(8);
      r := Ok(FromBigEndian(b));
    }

    method TakeBool() returns (r: Result<bool>)
      modifies this
      ensures Did(ReadBool(buf, old(pos)), r, pos)
    {
      var b :- TakeOctet();
      r := Ok(b != 0);
    }

    method TakeI64() returns (r: Result<int>)
      modifies this
      ensures Did(ReadI64(buf, old(pos)), r, pos)
    {
      hide ReadU64;
      var u :- TakeU64();
      r := Ok(if u >= I64_END then u - U64_END else u);
    }

    method TakeText() returns (r: Result<Text>)
      modifies this
      ensures Did(ReadText(buf, old(pos)), r, pos)
    {
      hide ReadU32;
      hide Utf8;
      var n :- TakeU32();
      var s :- Take(n);
      r := if Utf8(s) then Ok(s) else Err;
    }

    method TakeAddr() returns (r: Result<Text>)
      modifies this
      ensures Did(ReadAddr(parse, buf, old(pos)), r, pos)
    {
      hide ReadText;
      var s :- TakeText();
      var a := parse(s);
      r := if a.Some? then Ok(a.value) else Err;
    }

    method TakeTriple() returns (r: Result<Triple>)
      modifies this
      ensures Did(ReadTriple(buf, old(pos)), r, pos)
    {
      hide ReadU32;
      var s :- TakeU32();
      var p :- TakeU32();
      var o :- TakeU32();
      r := Ok(Triple(s, p, o));
    }

    method TakeOp() returns (r: Result<LogOp>)
      modifies this
      ensures Did(ReadOp(parse, buf, old(pos)), r, pos)
    {
      hide ReadOctet;
      hide ReadTriple;
      hide ReadU64;
      hide ReadAddr;
      var kind :- TakeOctet();
      match kind {
        case 1 =>
          var t :- TakeTriple();
          r := Ok(LogOp.Insert(t));
        case 2 =>
          var t :- TakeTriple();
          r := Ok(LogOp.Delete(t));
        case 3 =>
          var id :- TakeU64();
          var a :- TakeAddr();
          r := Ok(AddNode(id, a));
        case 4 =>
          var id :- TakeU64();
          r := Ok(RemoveNode(id));
        case 5 => r := Ok(Noop);
        case _ => r := Err;
      }
    }

    method TakeEntries() returns (r: Result<Log>)
      modifies this
      ensures Did(ReadCounted((b, i) => ReadEntry(parse, b, i), buf, old(pos)), r, pos)
    {
      hide ReadU32;
      hide ReadU64;
      hide ReadOp;
      ghost var read: Read<LogEntry> := (b, i) => ReadEntry(parse, b, i);
      var n :- TakeU32();
      ghost var start := pos;
      var out: Log := [];
      for i := 0 to n
        invariant ReadMany(read, buf, start, i) == Ok((out, pos))
      {
        var term := TakeU64();
        if term.Err? {
          ManyFails(read, buf, start, i + 1, n);
          return Err;
        }
        var op := TakeOp();
        if op.Err? {
          ManyFails(read, buf, start, i + 1, n);
          return Err;
        }
        out := out + [LogEntry(term.value, op.value)];
      }
      r := Ok(out);
    }

    method TakeTriples() returns (r: Result<seq<Triple>>)
      modifies this
      ensures Did(ReadCounted(ReadTriple, buf, old(pos)), r, pos)
    {
      hide ReadU32;
      hide ReadTriple;
      var n :- TakeU32();
      ghost var start := pos;
      var out: seq<Triple> := [];
      for i := 0 to n
        invariant ReadMany(ReadTriple, buf, start, i) == Ok((out, pos))
      {
        var t := TakeTriple();
        if t.Err? {
          ManyFails(ReadTriple, buf, start, i + 1, n);
          return Err;
        }
        out := out + [t.value];
      }
      r := Ok(out);
    }

    method TakeIds() returns (r: Result<seq<nat>>)
      modifies this
      ensures Did(ReadCounted(ReadU32, buf, old(pos)), r, pos)
    {
      hide ReadU32;
      var n :- TakeU32();
      ghost var start := pos;
      var out: seq<nat> := [];
      for i := 0 to n
        invariant ReadMany(ReadU32, buf, start, i) == Ok((out, pos))
      {
        var v := TakeU32();
        if v.Err? {
          ManyFails(ReadU32, buf, start, i + 1, n);
          return Err;
        }
        out := out + [v.value];
      }
      r := Ok(out);
    }

    method TakePairs() returns (r: Result<seq<(nat, nat)>>)
      modifies this
      ensures Did(ReadCounted(ReadTwo, buf, old(pos)), r, pos)
    {
      hide ReadU32;
      var n :- TakeU32();
      ghost var start := pos;
      var out: seq<(nat, nat)> := [];
      for i := 0 to n
        invariant ReadMany(ReadTwo, buf, start, i) == Ok((out, pos))
      {
        var a := TakeU32();
        if a.Err? {
          ManyFails(ReadTwo, buf, start, i + 1, n);
          return Err;
        }
        var b := TakeU32();
        if b.Err? {
          ManyFails(ReadTwo, buf, start, i + 1, n);
          return Err;
        }
        out := out + [(a.value, b.value)];
      }
      r := Ok(out);
    }

    method TakeMembers() returns (r: Result<seq<(NodeId, Text)>>)
      modifies this
      ensures Did(ReadCounted((b, i) => ReadMember(parse, b, i), buf, old(pos)), r, pos)
    {
      hide ReadU32;
      hide ReadU64;
      hide ReadAddr;
      ghost var read: Read<(NodeId, Text)> := (b, i) => ReadMember(parse, b, i);
      var n :- TakeU32();
      ghost var start := pos;
      var out: seq<(NodeId, Text)> := [];
      for i := 0 to n
        invariant ReadMany(read, buf, start, i) == Ok((out, pos))
      {
        var id := TakeU64();
        if id.Err? {
          ManyFails(read, buf, start, i + 1, n);
          return Err;
        }
        var a := TakeAddr();
        if a.Err? {
          ManyFails(read, buf, start, i + 1, n);
          return Err;
        }
        out := out + [(id.value, a.value)];
      }
      r := Ok(out);
    }

    method TakeOwners() returns (r: Result<seq<NodeId>>)
      modifies this
      ensures Did(ReadCounted(ReadU64, buf, old(pos)), r, pos)
    {
      hide ReadU32;
      hide ReadU64;
      var n :- TakeU32();
      ghost var start := pos;
      var out: seq<NodeId> := [];
      for i := 0 to n
        invariant ReadMany(ReadU64, buf, start, i) == Ok((out, pos))
      {
        var v := TakeU64();
        if v.Err? {
          ManyFails(ReadU64, buf, start, i + 1, n);
          return Err;
        }
        out := out + [v.value];
      }
      r := Ok(out);
    }

    method TakeMsg(tag: Octet) returns (r: Result<RaftMsg>)
      modifies this
      ensures Did(ReadMsg(parse, tag, buf, old(pos)), r, pos)
    {
      hide ReadU64;
      hide ReadCounted;
      var a :- TakeU64();
      var b :- TakeU64();
      var c :- TakeU64();
      var d :- TakeU64();
      if tag == 16 {
        r := Ok(RequestVote(a, b, c, d));
      } else if tag == 17 {
        var commit :- TakeU64();
        var entries :- TakeEntries();
        r := Ok(AppendEntries(a, b, c, d, commit, entries));
      } else {
        var triples :- TakeTriples();
        r := Ok(InstallSnapshot(a, b, c, d, triples));
      }
    }

    method TakeReply(tag: Octet) returns (r: Result<RaftReply>)
      modifies this
      ensures Did(ReadReply(tag, buf, old(pos)), r, pos)
    {
      hide ReadU64;
      hide ReadBool;
      var term :- TakeU64();
      if tag == 6 {
        var granted :- TakeBool();
        r := Ok(VoteReply(term, granted));
      } else if tag == 7 {
        var success :- TakeBool();
        var m :- TakeU64();
        r := Ok(AppendReply(term, success, m));
      } else {
        r := Ok(SnapshotReply(term));
      }
    }

    method TakeStatus() returns (r: Result<Response>)
      modifies this
      ensures Did(ReadStatus(buf, old(pos)), r, pos)
    {
      hide ReadU64;
      hide ReadI64;
      hide ReadOctet;
      var term :- TakeU64();
      var role :- TakeOctet();
      var hint :- TakeI64();
      var commit :- TakeU64();
      var last :- TakeU64();
      r := Ok(Status(term, role, hint, commit, last));
    }
  }

  /** Decode any bytes whatever: the request they begin with, or an error. */
  method DecodeRequest(parse: ParseAddr, payload: Bytes) returns (r: Result<Request>)
    ensures var spec := ReadRequest(parse, payload, 0);
            r == if spec.Ok? then Ok(spec.value.0) else Err
  {
    hide ReadOctet;
    hide ReadTriple;
    hide ReadU32;
    hide ReadMsg;
    hide ReadOp;
    var c := new Reader(payload, parse);
    var tag :- c.TakeOctet();
    if tag == 1 || tag == 15 {
      var t :- c.TakeTriple();
      r := Ok(if tag == 1 then Exists(t) else InsertTriple(t));
    } else if tag in {2, 5, 7, 8, 9, 14} {
      var v :- c.TakeU32();
      r := Ok(OneId(tag, v));
    } else if tag in {3, 4, 6, 22, 23} {
      var a :- c.TakeU32();
      var b :- c.TakeU32();
      r := Ok(TwoIds(tag, a, b));
    } else if tag in {10, 11, 12, 13, 20, 21} {
      r := Ok(NoIds(tag));
    } else if tag in {16, 17, 18} {
      var m :- c.TakeMsg(tag);
      r := Ok(Raft(m));
    } else if tag == 19 {
      var op :- c.TakeOp();
      r := Ok(ClientWrite(op));
    } else {
      r := Err;
    }
  }

  method DecodeResponse(parse: ParseAddr, payload: Bytes) returns (r: Result<Response>)
    ensures var spec := ReadResponse(parse, payload, 0);
            r == if spec.Ok? then Ok(spec.value.0) else Err
  {
    hide ReadOctet;
    hide ReadBool;
    hide ReadU32;
    hide ReadU64;
    hide ReadI64;
    hide ReadText;
    hide ReadCounted;
    hide ReadReply;
    hide ReadStatus;
    var c := new Reader(payload, parse);
    var tag :- c.TakeOctet();
    match tag {
      case 1 =>
        var b :- c.TakeBool();
        r := Ok(Flag(b));
      case 2 =>
        var n :- c.TakeU64();
        r := Ok(Count(n));
      case 3 =>
        var ids :- c.TakeIds();
        r := Ok(Ids(ids));
      case 4 =>
        var pairs :- c.TakePairs();
        r := Ok(Pairs(pairs));
      case 5 =>
        var text :- c.TakeText();
        r := Ok(Error(text));
      case 9 =>
        var ok :- c.TakeBool();
        var hint :- c.TakeI64();
        var index :- c.TakeU64();
        r := Ok(WriteAck(ok, hint, index));
      case 10 => r := c.TakeStatus();
      case 11 =>
        var ts :- c.TakeTriples();
        r := Ok(Triples(ts));
      case 12 =>
        var epoch :- c.TakeU64();
        var n :- c.TakeU32();
        var members :- c.TakeMembers();
        var assignment :- c.TakeOwners();
        r := Ok(ConfigIs(epoch, n, members, assignment));
      case _ =>
        if tag in {6, 7, 8} {
          var reply :- c.TakeReply(tag);
          r := Ok(Reply(reply));
        } else {
          r := Err;
        }
    }
  }

  // ------------------------------------------------------------------------ framing

  method WriteMessage(w: Buffer, payload: Bytes) returns (ok: bool)
    modifies w
    ensures ok == Frame(payload).Ok?
    ensures w.bytes == if ok then old(w.bytes) + Frame(payload).value else old(w.bytes)
  {
    if |payload| > MAX_FRAME {
      return false;
    }
    w.PutU32(|payload|);
    w.bytes := w.bytes + payload;
    ok := true;
  }

  method ReadMessage(c: Reader) returns (r: Result<Bytes>)
    modifies c
    ensures Did(ReadFrame(c.buf, old(c.pos)), r, c.pos)
  {
    hide ReadU32;
    var n :- c.TakeU32();
    if n > MAX_FRAME {
      return Err;
    }
    r := c.Take(n);
  }
}
