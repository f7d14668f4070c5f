/** Requests and responses on the wire. Decoding the encoding of any message, followed by any bytes
    whatever, gives the message back and consumes exactly the encoding. */
module RpcMessages {
  import opened Wrappers
  import opened RaftTypes
  import opened Rpc

  datatype Request =
    | Exists(t: Triple)
    | PoByS(sub: nat)
    | OBySp(sub: nat, pred: nat)
    | PBySo(sub: nat, obj: nat)
    | PsByO(obj: nat)
    | SByPo(pred: nat, obj: nat)
    | SoByP(pred: nat)
    | SubsByP(pred: nat)
    | ObjsByP(pred: nat)
    | SubjectKeys
    | ObjectKeys
    | Predicates
    | TripleCount
    | PredCard(pred: nat)
    | InsertTriple(t: Triple)
    | Raft(msg: RaftMsg)
    | ClientWrite(op: LogOp)
    | ClusterStatus
    | GetConfig
    | ScanShard(shard: nat, numShards: nat)
    | PurgeShard(shard: nat, numShards: nat)

  datatype Response =
    | Flag(b: bool)
    | Count(n: nat)
    | Ids(ids: seq<nat>)
    | Pairs(pairs: seq<(nat, nat)>)
    | Error(text: Text)
    | Reply(reply: RaftReply)
    | WriteAck(ok: bool, leaderHint: int, index: nat)
    | Status(term: nat, role: Octet, leaderHint: int, commitIndex: nat, lastLogIndex: nat)
    | Triples(triples: seq<Triple>)
    | ConfigIs(epoch: nat, numShards: nat, members: seq<(NodeId, Text)>, assignment: seq<NodeId>)

  // ------------------------------------------------------------------- Raft requests

  predicate MsgFits(parse: ParseAddr, m: RaftMsg) {
    match m
    case RequestVote(term, c, i, t) => term < U64_END && c < U64_END && i < U64_END && t < U64_END
    case AppendEntries(term, l, prev, prevTerm, commit, entries) =>
      && term < U64_END && l < U64_END && prev < U64_END && prevTerm < U64_END && commit < U64_END
      && |entries| < U32_END && forall e :: e in entries ==> EntryFits(parse, e)
    case InstallSnapshot(term, l, i, t, triples) =>
      && term < U64_END && l < U64_END && i < U64_END && t < U64_END
      && |triples| < U32_END && forall x :: x in triples ==> TripleFits(x)
  }

  /** Four 64-bit fields in a row. */
  function FourBytes(a: nat, b: nat, c: nat, d: nat): Bytes {
    U64Bytes(a) + (U64Bytes(b) + (U64Bytes(c) + U64Bytes(d)))
  }

  function ReadFour(buf: Bytes, pos: nat): Result<((nat, nat, nat, nat), nat)> {
    var (a, p) :- ReadU64(buf, pos);
    var (b, q) :- ReadU64(buf, p);
    var (c, r) :- ReadU64(buf, q);
    var (d, z) :- ReadU64(buf, r);
    Ok(((a, b, c, d), z))
  }

  lemma FourAt(buf: Bytes, pos: nat, a: nat, b: nat, c: nat, d: nat)
    requires a < U64_END && b < U64_END && c < U64_END && d < U64_END && At(buf, pos, FourBytes(a, b, c, d))
    ensures ReadFour(buf, pos) == Ok(((a, b, c, d), pos + 32)) && |FourBytes(a, b, c, d)| == 32
  {
    hide U64Bytes;
    hide ReadU64;
    Width8(a);
    Width8(b);
    Width8(c);
    Width8(d);
    AtSplit(buf, pos, U64Bytes(a), U64Bytes(b) + (U64Bytes(c) + U64Bytes(d)));
    AtSplit(buf, pos + 8, U64Bytes(b), U64Bytes(c) + U64Bytes(d));
    AtSplit(buf, pos + 16, U64Bytes(c), U64Bytes(d));
    U64At(buf, pos, a);
    U64At(buf, pos + 8, b);
    U64At(buf, pos + 16, c);
    U64At(buf, pos + 24, d);
  }

  function MsgTag(m: RaftMsg): Octet {
    if m.RequestVote? then 16 else if m.AppendEntries? then 17 else 18
  }

  function MsgBytes(m: RaftMsg): Bytes {
    match m
    case RequestVote(term, c, i, t) => FourBytes(term, c, i, t)
    case AppendEntries(term, l, prev, prevTerm, commit, entries) =>
      FourBytes(term, l, prev, prevTerm) + (U64Bytes(commit) + Counted(entries, EntryBytes))
    case InstallSnapshot(term, l, i, t, triples) => FourBytes(term, l, i, t) + Counted(triples, TripleBytes)
  }

  function ReadMsg(parse: ParseAddr, tag: Octet, buf: Bytes, pos: nat): Result<(RaftMsg, nat)> {
    var (f, p) :- ReadFour(buf, pos);
    if tag == 16 then Ok((RequestVote(f.0, f.1, f.2, f.3), p))
    else if tag == 17 then
      var (commit, q) :- ReadU64(buf, p);
      var (entries, z) :- ReadCounted((b, i) => ReadEntry(parse, b, i), buf, q);
      Ok((AppendEntries(f.0, f.1, f.2, f.3, commit, entries), z))
    else
      var (triples, z) :- ReadCounted(ReadTriple, buf, p);
      Ok((InstallSnapshot(f.0, f.1, f.2, f.3, triples), z))
  }

  lemma EntriesAt(parse: ParseAddr, buf: Bytes, pos: nat, entries: Log)
    requires |entries| < U32_END && (forall e :: e in entries ==> EntryFits(parse, e))
        && At(buf, pos, Counted(entries, EntryBytes))
    ensures ReadCounted((b, i) => ReadEntry(parse, b, i), buf, pos)
        == Ok((entries, pos + |Counted(entries, EntryBytes)|))
  {
    hide EntryBytes;
    hide ReadEntry;
    hide EntryFits;
    var read: Read<LogEntry> := (b, i) => ReadEntry(parse, b, i);
    forall e | e in entries
      ensures Undoes(read, EntryBytes, e)
    {
      forall b: Bytes, i: nat | At(b, i, EntryBytes(e))
        ensures read(b, i) == Ok((e, i + |EntryBytes(e)|))
      {
        EntryAt(parse, b, i, e);
      }
    }
    CountedUndone(read, EntryBytes, entries, buf, pos);
  }

  lemma TriplesAt(buf: Bytes, pos: nat, ts: seq<Triple>)
    requires |ts| < U32_END && (forall t :: t in ts ==> TripleFits(t)) && At(buf, pos, Counted(ts, TripleBytes))
    ensures ReadCounted(ReadTriple, buf, pos) == Ok((ts, pos + |Counted(ts, TripleBytes)|))
  {
    hide TripleBytes;
    hide ReadTriple;
    forall t | t in ts
      ensures Undoes(ReadTriple, TripleBytes, t)
    {
      forall b: Bytes, i: nat | At(b, i, TripleBytes(t))
        ensures ReadTriple(b, i) == Ok((t, i + |TripleBytes(t)|))
      {
        TripleAt(b, i, t);
      }
    }
    CountedUndone(ReadTriple, TripleBytes, ts, buf, pos);
  }

  lemma MsgAt(parse: ParseAddr, buf: Bytes, pos: nat, m: RaftMsg)
    requires MsgFits(parse, m) && At(buf, pos, MsgBytes(m))
    ensures ReadMsg(parse, MsgTag(m), buf, pos) == Ok((m, pos + |MsgBytes(m)|))
  {
    hide FourBytes;
    hide ReadFour;
    hide U64Bytes;
    hide ReadU64;
    hide Counted;
    hide ReadCounted;
    hide EntryFits;
    match m
    case RequestVote(term, c, i, t) =>
      FourAt(buf, pos, term, c, i, t);
    case AppendEntries(term, l, prev, prevTerm, commit, entries) =>
      AtSplit(buf, pos, FourBytes(term, l, prev, prevTerm), U64Bytes(commit) + Counted(entries, EntryBytes));
      FourAt(buf, pos, term, l, prev, prevTerm);
      Width8(commit);
      AtSplit(buf, pos + 32, U64Bytes(commit), Counted(entries, EntryBytes));
      U64At(buf, pos + 32, commit);
      EntriesAt(parse, buf, pos + 40, entries);
    case InstallSnapshot(term, l, i, t, triples) =>
      AtSplit(buf, pos, FourBytes(term, l, i, t), Counted(triples, TripleBytes));
      FourAt(buf, pos, term, l, i, t);
      TriplesAt(buf, pos + 32, triples);
  }

  // ----------------------------------------------------------------------- requests

  predicate RequestFits(parse: ParseAddr, r: Request) {
    match r
    case Exists(t) => TripleFits(t)
    case PoByS(s) => s < U32_END
    case OBySp(s, p) => s < U32_END && p < U32_END
    case PBySo(s, o) => s < U32_END && o < U32_END
    case PsByO(o) => o < U32_END
    case SByPo(p, o) => p < U32_END && o < U32_END
    case SoByP(p) => p < U32_END
    case SubsByP(p) => p < U32_END
    case ObjsByP(p) => p < U32_END
    case PredCard(p) => p < U32_END
    case InsertTriple(t) => TripleFits(t)
    case Raft(m) => MsgFits(parse, m)
    case ClientWrite(op) => OpFits(parse, op)
    case ScanShard(s, n) => s < U32_END && n < U32_END
    case PurgeShard(s, n) => s < U32_END && n < U32_END
    case _ => true
  }

  function RequestTag(r: Request): Octet {
    match r
    case Exists(_) => 1
    case PoByS(_) => 2
    case OBySp(_, _) => 3
    case PBySo(_, _) => 4
    case PsByO(_) => 5
    case SByPo(_, _) => 6
    case SoByP(_) => 7
    case SubsByP(_) => 8
    case ObjsByP(_) => 9
    case SubjectKeys => 10
    case ObjectKeys => 11
    case Predicates => 12
    case TripleCount => 13
    case PredCard(_) => 14
    case InsertTriple(_) => 15
    case Raft(m) => MsgTag(m)
    case ClientWrite(_) => 19
    case ClusterStatus => 20
    case GetConfig => 21
    case ScanShard(_, _) => 22
    case PurgeShard(_, _) => 23
  }

  function TwoBytes(a: nat, b: nat): Bytes { U32Bytes(a) + U32Bytes(b) }

  /** The fields after the tag. */
  function RequestBody(r: Request): Bytes {
    match r
    case Exists(t) => TripleBytes(t)
    case PoByS(s) => U32Bytes(s)
    case OBySp(s, p) => TwoBytes(s, p)
    case PBySo(s, o) => TwoBytes(s, o)
    case PsByO(o) => U32Bytes(o)
    case SByPo(p, o) => TwoBytes(p, o)
    case SoByP(p) => U32Bytes(p)
    case SubsByP(p) => U32Bytes(p)
    case ObjsByP(p) => U32Bytes(p)
    case PredCard(p) => U32Bytes(p)
    case InsertTriple(t) => TripleBytes(t)
    case Raft(m) => MsgBytes(m)
    case ClientWrite(op) => OpBytes(op)
    case ScanShard(s, n) => TwoBytes(s, n)
    case PurgeShard(s, n) => TwoBytes(s, n)
    case _ => []
  }

  function RequestBytes(r: Request): Bytes { [RequestTag(r)] + RequestBody(r) }

  function ReadTwo(buf: Bytes, pos: nat): Result<((nat, nat), nat)> {
    var (a, p) :- ReadU32(buf, pos);
    var (b, q) :- ReadU32(buf, p);
    Ok(((a, b), q))
  }

  lemma TwoAt(buf: Bytes, pos: nat, a: nat, b: nat)
    requires a < U32_END && b < U32_END && At(buf, pos, TwoBytes(a, b))
    ensures ReadTwo(buf, pos) == Ok(((a, b), pos + |TwoBytes(a, b)|))
  {
    hide U32Bytes;
    hide ReadU32;
    Width4(a);
    Width4(b);
    AtSplit(buf, pos, U32Bytes(a), U32Bytes(b));
    U32At(buf, pos, a);
    U32At(buf, pos + 4, b);
  }

  /** A request with one id after its tag. */
  function OneId(tag: Octet, v: nat): Request {
    if tag == 2 then PoByS(v) else if tag == 5 then PsByO(v) else if tag == 7 then SoByP(v)
    else if tag == 8 then SubsByP(v) else if tag == 9 then ObjsByP(v) else PredCard(v)
  }

  /** A request with two ids after its tag. */
  function TwoIds(tag: Octet, a: nat, b: nat): Request {
    if tag == 3 then OBySp(a, b) else if tag == 4 then PBySo(a, b) else if tag == 6 then SByPo(a, b)
    else if tag == 22 then ScanShard(a, b) else PurgeShard(a, b)
  }

  function NoIds(tag: Octet): Request {
    if tag == 10 then SubjectKeys else if tag == 11 then ObjectKeys else if tag == 12 then Predicates
    else if tag == 13 then TripleCount else if tag == 20 then ClusterStatus else GetConfig
  }

  function ReadRequest(parse: ParseAddr, buf: Bytes, pos: nat): Result<(Request, nat)> {
    var (tag, p) :- ReadOctet(buf, pos);
    if tag == 1 || tag == 15 then
      var (t, q) :- ReadTriple(buf, p);
      Ok((if tag == 1 then Exists(t) else InsertTriple(t), q))
    else if tag in {2, 5, 7, 8, 9, 14} then
      var (v, q) :- ReadU32(buf, p);
      Ok((OneId(tag, v), q))
    else if tag in {3, 4, 6, 22, 23} then
      var (v, q) :- ReadTwo(buf, p);
      Ok((TwoIds(tag, v.0, v.1), q))
    else if tag in {10, 11, 12, 13, 20, 21} then Ok((NoIds(tag), p))
    else if tag in {16, 17, 18} then
      var (m, q) :- ReadMsg(parse, tag, buf, p);
      Ok((Raft(m), q))
    else if tag == 19 then
      var (op, q) :- ReadOp(parse, buf, p);
      Ok((ClientWrite(op), q))
    else Err
  }

  /** Requests round-trip, wherever they stand and whatever follows. */
  lemma RequestAt(parse: ParseAddr, buf: Bytes, pos: nat, r: Request)
    requires RequestFits(parse, r) && At(buf, pos, RequestBytes(r))
    ensures ReadRequest(parse, buf, pos) == Ok((r, pos + |RequestBytes(r)|))
  {
    hide TripleBytes;
    hide ReadTriple;
    hide U32Bytes;
    hide ReadU32;
    hide TwoBytes;
    hide ReadTwo;
    hide MsgBytes;
    hide ReadMsg;
    hide OpBytes;
    hide ReadOp;
    hide ReadOctet;
    hide MsgFits;
    hide OpFits;
    TagAt(buf, pos, RequestTag(r), RequestBody(r));
    var p := pos + 1;
    match r
    case Exists(t) => TripleAt(buf, p, t);
    case InsertTriple(t) => TripleAt(buf, p, t);
    case PoByS(v) => IdAt(buf, p, v);
    case PsByO(v) => IdAt(buf, p, v);
    case SoByP(v) => IdAt(buf, p, v);
    case SubsByP(v) => IdAt(buf, p, v);
    case ObjsByP(v) => IdAt(buf, p, v);
    case PredCard(v) => IdAt(buf, p, v);
    case OBySp(a, b) => TwoAt(buf, p, a, b);
    case PBySo(a, b) => TwoAt(buf, p, a, b);
    case SByPo(a, b) => TwoAt(buf, p, a, b);
    case ScanShard(a, b) => TwoAt(buf, p, a, b);
    case PurgeShard(a, b) => TwoAt(buf, p, a, b);
    case Raft(m) => MsgAt(parse, buf, p, m);
    case ClientWrite(op) => OpAt(parse, buf, p, op);
    case _ =>
  }

  lemma IdAt(buf: Bytes, pos: nat, v: nat)
    requires v < U32_END && At(buf, pos, U32Bytes(v))
    ensures ReadU32(buf, pos) == Ok((v, pos + |U32Bytes(v)|))
  {
    hide ReadU32;
    U32At(buf, pos, v);
    Width4(v);
  }

  lemma AtStart(s: Bytes, rest: Bytes)
    ensures At(s + rest, 0, s)
  {
  }

  /** Decoding a request's encoding followed by anything gives the request and stops right after it. */
  lemma RequestRoundTrip(parse: ParseAddr, r: Request, rest: Bytes)
    requires RequestFits(parse, r)
    ensures ReadRequest(parse, RequestBytes(r) + rest, 0) == Ok((r, |RequestBytes(r)|))
  {
    hide RequestBytes;
    hide ReadRequest;
    hide RequestFits;
    AtStart(RequestBytes(r), rest);
    RequestAt(parse, RequestBytes(r) + rest, 0, r);
  }

  /** So no request's encoding is the beginning of another's. */
  lemma RequestsPrefixFree(parse: ParseAddr, r: Request, s: Request, rest: Bytes)
    requires RequestFits(parse, r) && RequestFits(parse, s) && RequestBytes(s) == RequestBytes(r) + rest
    ensures r == s && rest == []
  {
    hide RequestBytes;
    hide ReadRequest;
    hide RequestFits;
    RequestRoundTrip(parse, r, rest);
    RequestRoundTrip(parse, s, []);
    assert RequestBytes(s) + [] == RequestBytes(s);
  }

  // ---------------------------------------------------------------------- responses

  predicate HintFits(h: int) { I64_MIN <= h < I64_END }

  predicate MemberFits(parse: ParseAddr, m: (NodeId, Text)) { m.0 < U64_END && AddrFits(parse, m.1) }

  predicate ReplyFits(r: RaftReply) {
    r.term < U64_END && (r.AppendReply? ==> r.matchIndex < U64_END)
  }

  predicate ResponseFits(parse: ParseAddr, r: Response) {
    match r
    case Flag(_) => true
    case Count(n) => n < U64_END
    case Ids(ids) => |ids| < U32_END && forall v :: v in ids ==> v < U32_END
    case Pairs(pairs) => |pairs| < U32_END && forall v :: v in pairs ==> v.0 < U32_END && v.1 < U32_END
    case Error(text) => |text| < U32_END && Utf8(text)
    case Reply(reply) => ReplyFits(reply)
    case WriteAck(_, hint, index) => HintFits(hint) && index < U64_END
    case Status(term, _, hint, commit, last) => term < U64_END && HintFits(hint) && commit < U64_END && last < U64_END
    case Triples(ts) => |ts| < U32_END && forall t :: t in ts ==> TripleFits(t)
    case ConfigIs(epoch, n, members, assignment) =>
      && epoch < U64_END && n < U32_END && |members| < U32_END && |assignment| < U32_END
      && (forall m :: m in members ==> MemberFits(parse, m)) && forall v :: v in assignment ==> v < U64_END
  }

  function ResponseTag(r: Response): Octet {
    match r
    case Flag(_) => 1
    case Count(_) => 2
    case Ids(_) => 3
    case Pairs(_) => 4
    case Error(_) => 5
    case Reply(VoteReply(_, _)) => 6
    case Reply(AppendReply(_, _, _)) => 7
    case Reply(SnapshotReply(_)) => 8
    case WriteAck(_, _, _) => 9
    case Status(_, _, _, _, _) => 10
    case Triples(_) => 11
    case ConfigIs(_, _, _, _) => 12
  }

  function PairBytes(v: (nat, nat)): Bytes { TwoBytes(v.0, v.1) }

  function MemberBytes(m: (NodeId, Text)): Bytes { U64Bytes(m.0) + TextBytes(m.1) }

  function ReplyBytes(r: RaftReply): Bytes {
    match r
    case VoteReply(term, granted) => U64Bytes(term) + BoolBytes(granted)
    case AppendReply(term, success, m) => U64Bytes(term) + (BoolBytes(success) + U64Bytes(m))
    case SnapshotReply(term) => U64Bytes(term)
  }

  function ConfigBytes(epoch: nat, n: nat, members: seq<(NodeId, Text)>, assignment: seq<NodeId>): Bytes {
    U64Bytes(epoch) + (U32Bytes(n) + (Counted(members, MemberBytes) + Counted(assignment, U64Bytes)))
  }

  function AckBytes(ok: bool, hint: int, index: nat): Bytes {
    BoolBytes(ok) + (I64Bytes(hint) + U64Bytes(index))
  }

  function StatusBytes(term: nat, role: Octet, hint: int, commit: nat, last: nat): Bytes {
    U64Bytes(term) + (OctetBytes(role) + (I64Bytes(hint) + (U64Bytes(commit) + U64Bytes(last))))
  }

  function ResponseBody(r: Response): Bytes {
    match r
    case Flag(b) => BoolBytes(b)
    case Count(n) => U64Bytes(n)
    case Ids(ids) => Counted(ids, U32Bytes)
    case Pairs(pairs) => Counted(pairs, PairBytes)
    case Error(text) => TextBytes(text)
    case Reply(reply) => ReplyBytes(reply)
    case WriteAck(ok, hint, index) => AckBytes(ok, hint, index)
    case Status(term, role, hint, commit, last) => StatusBytes(term, role, hint, commit, last)
    case Triples(ts) => Counted(ts, TripleBytes)
    case ConfigIs(epoch, n, members, assignment) => ConfigBytes(epoch, n, members, assignment)
  }

  function ResponseBytes(r: Response): Bytes {
    [ResponseTag(r)] + ResponseBody(r)
  }

  function ReadMember(parse: ParseAddr, buf: Bytes, pos: nat): Result<((NodeId, Text), nat)> {
    var (id, p) :- ReadU64(buf, pos);
    var (a, q) :- ReadAddr(parse, buf, p);
    Ok(((id, a), q))
  }

  function ReadReply(tag: Octet, buf: Bytes, pos: nat): Result<(RaftReply, nat)> {
    var (term, p) :- ReadU64(buf, pos);
    if tag == 6 then
      var (granted, q) :- ReadBool(buf, p);
      Ok((VoteReply(term, granted), q))
    else if tag == 7 then
      var (success, q) :- ReadBool(buf, p);
      var (m, z) :- ReadU64(buf, q);
      Ok((AppendReply(term, success, m), z))
    else Ok((SnapshotReply(term), p))
  }

  function ReadAck(buf: Bytes, pos: nat): Result<(Response, nat)> {
    var (ok, p) :- ReadBool(buf, pos);
    var (hint, q) :- ReadI64(buf, p);
    var (index, z) :- ReadU64(buf, q);
    Ok((WriteAck(ok, hint, index), z))
  }

  function ReadStatus(buf: Bytes, pos: nat): Result<(Response, nat)> {
    var (term, p) :- ReadU64(buf, pos);
    var (role, q) :- ReadOctet(buf, p);
    var (hint, r) :- ReadI64(buf, q);
    var (commit, s) :- ReadU64(buf, r);
    var (last, z) :- ReadU64(buf, s);
    Ok((Status(term, role, hint, commit, last), z))
  }

  function ReadConfig(parse: ParseAddr, buf: Bytes, pos: nat): Result<(Response, nat)> {
    var (epoch, p) :- ReadU64(buf, pos);
    var (n, q) :- ReadU32(buf, p);
    var (members, r) :- ReadCounted((b, i) => ReadMember(parse, b, i), buf, q);
    var (assignment, z) :- ReadCounted(ReadU64, buf, r);
    Ok((ConfigIs(epoch, n, members, assignment), z))
  }

  function ReadResponse(parse: ParseAddr, buf: Bytes, pos: nat): Result<(Response, nat)> {
    var (tag, p) :- ReadOctet(buf, pos);
    match tag
    case 1 =>
      var (b, q) :- ReadBool(buf, p);
      Ok((Flag(b), q))
    case 2 =>
      var (n, q) :- ReadU64(buf, p);
      Ok((Count(n), q))
    case 3 =>
      var (ids, q) :- ReadCounted(ReadU32, buf, p);
      Ok((Ids(ids), q))
    case 4 =>
      var (pairs, q) :- ReadCounted(ReadTwo, buf, p);
      Ok((Pairs(pairs), q))
    case 5 =>
      var (text, q) :- ReadText(buf, p);
      Ok((Error(text), q))
    case 9 => ReadAck(buf, p)
    case 10 => ReadStatus(buf, p)
    case 11 =>
      var (ts, q) :- ReadCounted(ReadTriple, buf, p);
      Ok((Triples(ts), q))
    case 12 => ReadConfig(parse, buf, p)
    case _ =>
      if tag in {6, 7, 8} then
        var (r, q) :- ReadReply(tag, buf, p);
        Ok((Reply(r), q))
      else Err
  }

  lemma IdsAt(buf: Bytes, pos: nat, ids: seq<nat>)
    requires |ids| < U32_END && (forall v :: v in ids ==> v < U32_END) && At(buf, pos, Counted(ids, U32Bytes))
    ensures ReadCounted(ReadU32, buf, pos) == Ok((ids, pos + |Counted(ids, U32Bytes)|))
  {
    hide U32Bytes;
    hide ReadU32;
    forall v | v in ids
      ensures Undoes(ReadU32, U32Bytes, v)
    {
      forall b: Bytes, i: nat | At(b, i, U32Bytes(v))
        ensures ReadU32(b, i) == Ok((v, i + |U32Bytes(v)|))
      {
        IdAt(b, i, v);
      }
    }
    CountedUndone(ReadU32, U32Bytes, ids, buf, pos);
  }

  lemma PairsAt(buf: Bytes, pos: nat, pairs: seq<(nat, nat)>)
    requires |pairs| < U32_END && (forall v :: v in pairs ==> v.0 < U32_END && v.1 < U32_END)
    requires At(buf, pos, Counted(pairs, PairBytes))
    ensures ReadCounted(ReadTwo, buf, pos) == Ok((pairs, pos + |Counted(pairs, PairBytes)|))
  {
    hide TwoBytes;
    hide ReadTwo;
    forall v | v in pairs
      ensures Undoes(ReadTwo, PairBytes, v)
    {
      forall b: Bytes, i: nat | At(b, i, PairBytes(v))
        ensures ReadTwo(b, i) == Ok((v, i + |PairBytes(v)|))
      {
        TwoAt(b, i, v.0, v.1);
      }
    }
    CountedUndone(ReadTwo, PairBytes, pairs, buf, pos);
  }

  lemma OwnersAt(buf: Bytes, pos: nat, ids: seq<NodeId>)
    requires |ids| < U32_END && (forall v :: v in ids ==> v < U64_END) && At(buf, pos, Counted(ids, U64Bytes))
    ensures ReadCounted(ReadU64, buf, pos) == Ok((ids, pos + |Counted(ids, U64Bytes)|))
  {
    hide U64Bytes;
    hide ReadU64;
    forall v | v in ids
      ensures Undoes(ReadU64, U64Bytes, v)
    {
      forall b: Bytes, i: nat | At(b, i, U64Bytes(v))
        ensures ReadU64(b, i) == Ok((v, i + |U64Bytes(v)|))
      {
        U64At(b, i, v);
        Width8(v);
      }
    }
    CountedUndone(ReadU64, U64Bytes, ids, buf, pos);
  }

  lemma MemberAt(parse: ParseAddr, buf: Bytes, pos: nat, m: (NodeId, Text))
    requires MemberFits(parse, m) && At(buf, pos, MemberBytes(m))
    ensures ReadMember(parse, buf, pos) == Ok((m, pos + |MemberBytes(m)|))
  {
    hide U64Bytes;
    hide ReadU64;
    hide TextBytes;
    hide ReadAddr;
    Width8(m.0);
    AtSplit(buf, pos, U64Bytes(m.0), TextBytes(m.1));
    U64At(buf, pos, m.0);
    AddrAt(parse, buf, pos + 8, m.1);
  }

  lemma MembersAt(parse: ParseAddr, buf: Bytes, pos: nat, members: seq<(NodeId, Text)>)
    requires |members| < U32_END && (forall m :: m in members ==> MemberFits(parse, m))
    requires At(buf, pos, Counted(members, MemberBytes))
    ensures ReadCounted((b, i) => ReadMember(parse, b, i), buf, pos)
        == Ok((members, pos + |Counted(members, MemberBytes)|))
  {
    hide MemberBytes;
    hide ReadMember;
    hide MemberFits;
    var read: Read<(NodeId, Text)> := (b, i) => ReadMember(parse, b, i);
    forall m | m in members
      ensures Undoes(read, MemberBytes, m)
    {
      forall b: Bytes, i: nat | At(b, i, MemberBytes(m))
        ensures read(b, i) == Ok((m, i + |MemberBytes(m)|))
      {
        MemberAt(parse, b, i, m);
      }
    }
    CountedUndone(read, MemberBytes, members, buf, pos);
  }

  lemma ReplyAt(buf: Bytes, pos: nat, r: RaftReply)
    requires ReplyFits(r) && At(buf, pos, ReplyBytes(r))
    ensures ReadReply(ResponseTag(Reply(r)), buf, pos) == Ok((r, pos + |ReplyBytes(r)|))
  {
    hide U64Bytes;
    hide ReadU64;
    hide ReadBool;
    Width8(r.term);
    match r
    case VoteReply(term, granted) =>
      AtSplit(buf, pos, U64Bytes(term), BoolBytes(granted));
      U64At(buf, pos, term);
      BoolAt(buf, pos + 8, granted);
    case AppendReply(term, success, m) =>
      AtSplit(buf, pos, U64Bytes(term), BoolBytes(success) + U64Bytes(m));
      AtSplit(buf, pos + 8, BoolBytes(success), U64Bytes(m));
      Width8(m);
      U64At(buf, pos, term);
      BoolAt(buf, pos + 8, success);
      U64At(buf, pos + 9, m);
    case SnapshotReply(term) => U64At(buf, pos, term);
  }

  lemma AckAt(buf: Bytes, pos: nat, ok: bool, hint: int, index: nat)
    requires HintFits(hint) && index < U64_END && At(buf, pos, AckBytes(ok, hint, index))
    ensures ReadAck(buf, pos) == Ok((WriteAck(ok, hint, index), pos + |AckBytes(ok, hint, index)|))
  {
    hide BigEndian;
    hide ReadBool;
    hide ReadI64;
    hide ReadU64;
    AtSplit(buf, pos, BoolBytes(ok), I64Bytes(hint) + U64Bytes(index));
    AtSplit(buf, pos + 1, I64Bytes(hint), U64Bytes(index));
    BoolAt(buf, pos, ok);
    I64At(buf, pos + 1, hint);
    U64At(buf, pos + 9, index);
  }

  lemma StatusAt(buf: Bytes, pos: nat, term: nat, role: Octet, hint: int, commit: nat, last: nat)
    requires term < U64_END && HintFits(hint) && commit < U64_END && last < U64_END
    requires At(buf, pos, StatusBytes(term, role, hint, commit, last))
    ensures ReadStatus(buf, pos)
            == Ok((Status(term, role, hint, commit, last), pos + |StatusBytes(term, role, hint, commit, last)|))
  {
    hide BigEndian;
    hide ReadOctet;
    hide ReadI64;
    hide ReadU64;
    var t4 := U64Bytes(commit) + U64Bytes(last);
    AtSplit(buf, pos, U64Bytes(term), OctetBytes(role) + (I64Bytes(hint) + t4));
    AtSplit(buf, pos + 8, OctetBytes(role), I64Bytes(hint) + t4);
    AtSplit(buf, pos + 9, I64Bytes(hint), t4);
    AtSplit(buf, pos + 17, U64Bytes(commit), U64Bytes(last));
    U64At(buf, pos, term);
    OctetAt(buf, pos + 8, role);
    I64At(buf, pos + 9, hint);
    U64At(buf, pos + 17, commit);
    U64At(buf, pos + 25, last);
  }

  lemma ConfigAt(parse: ParseAddr, buf: Bytes, pos: nat, r: Response)
    requires r.ConfigIs? && ResponseFits(parse, r)
        && At(buf, pos, ConfigBytes(r.epoch, r.numShards, r.members, r.assignment))
    ensures ReadConfig(parse, buf, pos) == Ok((r, pos + |ConfigBytes(r.epoch, r.numShards, r.members, r.assignment)|))
  {
    hide U32Bytes;
    hide U64Bytes;
    hide ReadU32;
    hide ReadU64;
    hide Counted;
    hide ReadCounted;
    hide MemberFits;
    var a, b := Counted(r.members, MemberBytes), Counted(r.assignment, U64Bytes);
    Width8(r.epoch);
    Width4(r.numShards);
    AtSplit(buf, pos, U64Bytes(r.epoch), U32Bytes(r.numShards) + (a + b));
    AtSplit(buf, pos + 8, U32Bytes(r.numShards), a + b);
    AtSplit(buf, pos + 12, a, b);
    U64At(buf, pos, r.epoch);
    U32At(buf, pos + 8, r.numShards);
    MembersAt(parse, buf, pos + 12, r.members);
    OwnersAt(buf, pos + 12 + |a|, r.assignment);
  }

  lemma ResponseAt(parse: ParseAddr, buf: Bytes, pos: nat, r: Response)
    requires ResponseFits(parse, r) && At(buf, pos, ResponseBytes(r))
    ensures ReadResponse(parse, buf, pos) == Ok((r, pos + |ResponseBytes(r)|))
  {
    hide U64Bytes;
    hide ReadU64;
    hide Counted;
    hide ReadCounted;
    hide TextBytes;
    hide ReadText;
    hide ReplyBytes;
    hide ReadReply;
    hide AckBytes;
    hide ReadAck;
    hide StatusBytes;
    hide ReadStatus;
    hide ConfigBytes;
    hide ReadConfig;
    hide BoolBytes;
    hide ReadBool;
    hide ReadOctet;
    TagAt(buf, pos, ResponseTag(r), ResponseBody(r));
    var p := pos + 1;
    match r
    case Flag(b) =>
      BoolWidth(b);
      BoolAt(buf, p, b);
    case Count(n) =>
      Width8(n);
      U64At(buf, p, n);
    case Ids(ids) => IdsAt(buf, p, ids);
    case Pairs(pairs) => PairsAt(buf, p, pairs);
    case Error(text) => TextAt(buf, p, text);
    case Reply(reply) => ReplyAt(buf, p, reply);
    case WriteAck(ok, hint, index) => AckAt(buf, p, ok, hint, index);
    case Status(term, role, hint, commit, last) => StatusAt(buf, p, term, role, hint, commit, last);
    case Triples(ts) => TriplesAt(buf, p, ts);
    case ConfigIs(_, _, _, _) => ConfigAt(parse, buf, p, r);
  }

  lemma BoolWidth(b: bool)
    ensures |BoolBytes(b)| == 1
  {
  }

  /** Decoding a response's encoding followed by anything gives the response and stops right after it. */
  lemma ResponseRoundTrip(parse: ParseAddr, r: Response, rest: Bytes)
    requires ResponseFits(parse, r)
    ensures ReadResponse(parse, ResponseBytes(r) + rest, 0) == Ok((r, |ResponseBytes(r)|))
  {
    hide ResponseBytes;
    hide ReadResponse;
    hide ResponseFits;
    AtStart(ResponseBytes(r), rest);
    ResponseAt(parse, ResponseBytes(r) + rest, 0, r);
  }

  // ------------------------------------------------------------------------ framing

  const MAX_FRAME: nat := 256 * 1024 * 1024

  /** A length, then the payload; too long a payload is an error. */
  function Frame(payload: Bytes): Result<Bytes> {
    if |payload| > MAX_FRAME then Err else Ok(U32Bytes(|payload|) + payload)
  }

  function ReadFrame(stream: Bytes, pos: nat): Result<(Bytes, nat)> {
    var (n, p) :- ReadU32(stream, pos);
    if n > MAX_FRAME then Err else Take(stream, p, n)
  }

  function FrameAll(payloads: seq<Bytes>): Result<Bytes> {
    if payloads == [] then Ok([])
    else
      var rest :- FrameAll(payloads[..|payloads| - 1]);
      var f :- Frame(payloads[|payloads| - 1]);
      Ok(rest + f)
  }

  /** Messages written to a stream one after another are read back in order, each in full. */
  lemma {:induction false} FramesInOrder(payloads: seq<Bytes>, stream: Bytes, pos: nat)
    requires FrameAll(payloads).Ok? && At(stream, pos, FrameAll(payloads).value)
    ensures ReadMany(ReadFrame, stream, pos, |payloads|) == Ok((payloads, pos + |FrameAll(payloads).value|))
  {
    hide U32Bytes;
    hide ReadU32;
    if payloads != [] {
      var init, last := payloads[..|payloads| - 1], payloads[|payloads| - 1];
      var a, f := FrameAll(init).value, Frame(last).value;
      AtSplit(stream, pos, a, f);
      FramesInOrder(init, stream, pos);
      var p := pos + |a|;
      AtSplit(stream, p, U32Bytes(|last|), last);
      Width4(|last|);
      U32At(stream, p, |last|);
      TakeAt(stream, p + 4, last);
      assert payloads == init + [last];
    }
  }

  /** A stream of payloads is accepted exactly when each fits a frame. */
  lemma {:induction false} FramesFit(payloads: seq<Bytes>)
    ensures FrameAll(payloads).Ok? <==> forall p :: p in payloads ==> |p| <= MAX_FRAME
  {
    if payloads != [] {
      FramesFit(payloads[..|payloads| - 1]);
      assert payloads == payloads[..|payloads| - 1] + [payloads[|payloads| - 1]];
    }
  }
}
