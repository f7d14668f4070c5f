/** The wire format of the shard and replication protocol: big-endian integers, counted lists, tagged
    variants. Encodings are byte sequences; decoding reads from a position and reports the next one. */
module Rpc {
  import opened Wrappers
  import opened RaftTypes

  type Bytes = seq<Octet>

  const U8_END: nat := 0x100
  const U32_END: nat := 0x1_0000_0000
  const U64_END: nat := 0x1_0000_0000_0000_0000
  const I64_MIN: int := -0x8000_0000_0000_0000
  const I64_END: int := 0x8000_0000_0000_0000

  // ---------------------------------------------------------------------- integers

  function Pow256(n: nat): nat {
    if n == 0 then 1 else 256 * Pow256(n - 1)
  }

  function BigEndian(v: nat, n: nat): (r: Bytes)
    ensures |r| == n
  {
    if n == 0 then [] else BigEndian(v / 256, n - 1) + [v % 256]
  }

  function FromBigEndian(s: Bytes): nat {
    if s == [] then 0 else 256 * FromBigEndian(s[..|s| - 1]) + s[|s| - 1]
  }

  lemma {:induction false} BigEndianRoundTrip(v: nat, n: nat)
    requires v < Pow256(n)
    ensures FromBigEndian(BigEndian(v, n)) == v
  {
    if n > 0 {
      BigEndianRoundTrip(v / 256, n - 1);
      assert BigEndian(v, n)[..n - 1] == BigEndian(v / 256, n - 1);
    }
  }

  lemma {:induction false} FromBigEndianBound(s: Bytes)
    ensures FromBigEndian(s) < Pow256(|s|)
  {
    if s != [] {
      FromBigEndianBound(s[..|s| - 1]);
    }
  }

  lemma Widths()
    ensures Pow256(1) == U8_END && Pow256(4) == U32_END && Pow256(8) == U64_END
  {
    assert Pow256(2) == 0x1_0000 && Pow256(3) == 0x100_0000;
    assert Pow256(4) == 0x1_0000_0000;
    assert Pow256(5) == 0x100_0000_0000 && Pow256(6) == 0x1_0000_0000_0000 && Pow256(7) == 0x100_0000_0000_0000;
  }

  function U32Bytes(v: nat): Bytes { BigEndian(v, 4) }
  function U64Bytes(v: nat): Bytes { BigEndian(v, 8) }
  function BoolBytes(b: bool): Bytes { if b then [1] else [0] }
  function OctetBytes(b: Octet): Bytes { [b] }

  /** Two's complement. */
  function I64Bytes(v: int): Bytes { U64Bytes(v % U64_END) }

  function TextBytes(s: Text): Bytes { U32Bytes(|s|) + s }

  // --------------------------------------------------------------- reading at a position

  /** `s` stands in `buf` at `pos`. */
  ghost predicate At(buf: Bytes, pos: nat, s: Bytes) {
    pos + |s| <= |buf| && buf[pos..pos + |s|] == s
  }

  lemma AtSplit(buf: Bytes, pos: nat, a: Bytes, b: Bytes)
    requires At(buf, pos, a + b)
    ensures At(buf, pos, a) && At(buf, pos + |a|, b)
  {
    var w := buf[pos..pos + |a + b|];
    assert w[..|a|] == a && w[|a|..] == b;
    assert buf[pos..pos + |a|] == w[..|a|];
    assert buf[pos + |a|..pos + |a| + |b|] == w[|a|..];
  }

  function Take(buf: Bytes, pos: nat, n: nat): Result<(Bytes, nat)> {
    if pos + n <= |buf| then Ok((buf[pos..pos + n], pos + n)) else Err
  }

  function ReadOctet(buf: Bytes, pos: nat): Result<(Octet, nat)> {
    var (b, p) :- Take(buf, pos, 1);
    Ok((b[0], p))
  }

  function ReadU32(buf: Bytes, pos: nat): Result<(nat, nat)> {
    var (b, p) :- Take(buf, pos, 4);
    Ok((FromBigEndian(b), p))
  }

  function ReadU64(buf: Bytes, pos: nat): Result<(nat, nat)> {
    var (b, p) :- Take(buf, pos, 8);
    Ok((FromBigEndian(b), p))
  }

  function ReadBool(buf: Bytes, pos: nat): Result<(bool, nat)> {
    var (b, p) :- ReadOctet(buf, pos);
    Ok((b != 0, p))
  }

  function ReadI64(buf: Bytes, pos: nat): Result<(int, nat)> {
    var (u, p) :- ReadU64(buf, pos);
    Ok((if u >= I64_END then u - U64_END else u, p))
  }

  /** Well-formed UTF-8, as table 3-7 of the Unicode Standard gives it. */
  predicate Utf8(s: Bytes) {
    s == []
    || (s[0] < 0x80 && Utf8(s[1..]))
    || (|s| >= 2 && 0xC2 <= s[0] <= 0xDF && Trail(s[1]) && Utf8(s[2..]))
    || (|s| >= 3 && (if s[0] == 0xE0 then 0xA0 <= s[1] <= 0xBF
                     else if s[0] == 0xED then 0x80 <= s[1] <= 0x9F
                     else 0xE1 <= s[0] <= 0xEF && Trail(s[1])) && Trail(s[2]) && Utf8(s[3..]))
    || (|s| >= 4 && (if s[0] == 0xF0 then 0x90 <= s[1] <= 0xBF
                     else if s[0] == 0xF4 then 0x80 <= s[1] <= 0x8F
                     else 0xF1 <= s[0] <= 0xF3 && Trail(s[1])) && Trail(s[2]) && Trail(s[3]) && Utf8(s[4..]))
  }

  predicate Trail(b: Octet) { 0x80 <= b <= 0xBF }

  function ReadText(buf: Bytes, pos: nat): Result<(Text, nat)> {
    var (n, p) :- ReadU32(buf, pos);
    var (s, q) :- Take(buf, p, n);
    if Utf8(s) then Ok((s, q)) else Err
  }

  lemma TakeAt(buf: Bytes, pos: nat, s: Bytes)
    requires At(buf, pos, s)
    ensures Take(buf, pos, |s|) == Ok((s, pos + |s|))
  {
  }

  lemma U32At(buf: Bytes, pos: nat, v: nat)
    requires v < U32_END && At(buf, pos, U32Bytes(v))
    ensures ReadU32(buf, pos) == Ok((v, pos + 4))
  {
    hide BigEndian;
    hide FromBigEndian;
    Widths();
    BigEndianRoundTrip(v, 4);
    TakeAt(buf, pos, U32Bytes(v));
  }

  lemma U64At(buf: Bytes, pos: nat, v: nat)
    requires v < U64_END && At(buf, pos, U64Bytes(v))
    ensures ReadU64(buf, pos) == Ok((v, pos + 8))
  {
    hide BigEndian;
    hide FromBigEndian;
    Widths();
    BigEndianRoundTrip(v, 8);
    TakeAt(buf, pos, U64Bytes(v));
  }

  lemma OctetAt(buf: Bytes, pos: nat, b: Octet)
    requires At(buf, pos, OctetBytes(b))
    ensures ReadOctet(buf, pos) == Ok((b, pos + 1))
  {
  }

  lemma BoolAt(buf: Bytes, pos: nat, b: bool)
    requires At(buf, pos, BoolBytes(b))
    ensures ReadBool(buf, pos) == Ok((b, pos + 1))
  {
    OctetAt(buf, pos, if b then 1 else 0);
  }

  lemma I64At(buf: Bytes, pos: nat, v: int)
    requires I64_MIN <= v < I64_END && At(buf, pos, I64Bytes(v))
    ensures ReadI64(buf, pos) == Ok((v, pos + 8))
  {
    hide U64Bytes;
    hide ReadU64;
    TwosComplement(v);
    U64At(buf, pos, if v < 0 then v + U64_END else v);
  }

  lemma TwosComplement(v: int)
    requires I64_MIN <= v < I64_END
    ensures v % U64_END == if v < 0 then v + U64_END else v
  {
    if v < 0 {
      assert v == -1 * U64_END + (v + U64_END);
    }
  }

  lemma TextAt(buf: Bytes, pos: nat, s: Text)
    requires |s| < U32_END && Utf8(s) && At(buf, pos, TextBytes(s))
    ensures ReadText(buf, pos) == Ok((s, pos + |TextBytes(s)|))
  {
    hide BigEndian;
    hide Utf8;
    AtSplit(buf, pos, U32Bytes(|s|), s);
    U32At(buf, pos, |s|);
    TakeAt(buf, pos + 4, s);
  }

  // -------------------------------------------------------------------------- lists

  function Many<T>(xs: seq<T>, enc: T -> Bytes): Bytes {
    if xs == [] then [] else Many(xs[..|xs| - 1], enc) + enc(xs[|xs| - 1])
  }

  /** A count, then the elements. */
  function Counted<T>(xs: seq<T>, enc: T -> Bytes): Bytes {
    U32Bytes(|xs|) + Many(xs, enc)
  }

  type Read<T> = (Bytes, nat) -> Result<(T, nat)>

  function ReadMany<T>(read: Read<T>, buf: Bytes, pos: nat, n: nat): Result<(seq<T>, nat)> {
    if n == 0 then Ok(([], pos))
    else
      var (xs, p) :- ReadMany(read, buf, pos, n - 1);
      var (x, q) :- read(buf, p);
      Ok((xs + [x], q))
  }

  function ReadCounted<T>(read: Read<T>, buf: Bytes, pos: nat): Result<(seq<T>, nat)> {
    var (n, p) :- ReadU32(buf, pos);
    ReadMany(read, buf, p, n)
  }

  /** `read` undoes `enc` on `x`, wherever it stands and whatever follows. */
  ghost predicate Undoes<T(!new)>(read: Read<T>, enc: T -> Bytes, x: T) {
    forall buf: Bytes, pos: nat {:trigger At(buf, pos, enc(x))} :: At(buf, pos, enc(x)) ==>
        read(buf, pos) == Ok((x, pos + |enc(x)|))
  }

  lemma {:induction false} ManyAt<T(!new)>(read: Read<T>, enc: T -> Bytes, xs: seq<T>, buf: Bytes, pos: nat)
    requires (forall x :: x in xs ==> Undoes(read, enc, x)) && At(buf, pos, Many(xs, enc))
    ensures ReadMany(read, buf, pos, |xs|) == Ok((xs, pos + |Many(xs, enc)|))
  {
    if xs != [] {
      var init, last := xs[..|xs| - 1], xs[|xs| - 1];
      AtSplit(buf, pos, Many(init, enc), enc(last));
      ManyAt(read, enc, init, buf, pos);
      assert Undoes(read, enc, last);
      assert xs == init + [last];
    }
  }

  lemma CountedUndone<T(!new)>(read: Read<T>, enc: T -> Bytes, xs: seq<T>, buf: Bytes, pos: nat)
    requires |xs| < U32_END && (forall x :: x in xs ==> Undoes(read, enc, x)) && At(buf, pos, Counted(xs, enc))
    ensures ReadCounted(read, buf, pos) == Ok((xs, pos + |Counted(xs, enc)|))
  {
    AtSplit(buf, pos, U32Bytes(|xs|), Many(xs, enc));
    U32At(buf, pos, |xs|);
    ManyAt(read, enc, xs, buf, pos + 4);
  }

  // ------------------------------------------------------------- triples and log entries

  /** What a socket address parses to, as the text it prints as; `None` when it is none. */
  type ParseAddr = Text -> Option<Text>

  predicate TripleFits(t: Triple) { t.sub < U32_END && t.pred < U32_END && t.obj < U32_END }

  function TripleBytes(t: Triple): Bytes { U32Bytes(t.sub) + U32Bytes(t.pred) + U32Bytes(t.obj) }

  function ReadTriple(buf: Bytes, pos: nat): Result<(Triple, nat)> {
    var (s, p) :- ReadU32(buf, pos);
    var (r, q) :- ReadU32(buf, p);
    var (o, z) :- ReadU32(buf, q);
    Ok((Triple(s, r, o), z))
  }

  lemma TripleAt(buf: Bytes, pos: nat, t: Triple)
    requires TripleFits(t) && At(buf, pos, TripleBytes(t))
    ensures ReadTriple(buf, pos) == Ok((t, pos + |TripleBytes(t)|))
  {
    hide U32Bytes;
    hide ReadU32;
    var a, b, c := U32Bytes(t.sub), U32Bytes(t.pred), U32Bytes(t.obj);
    AtSplit(buf, pos, a + b, c);
    AtSplit(buf, pos, a, b);
    Width4(t.sub);
    Width4(t.pred);
    Width4(t.obj);
    U32At(buf, pos, t.sub);
    U32At(buf, pos + 4, t.pred);
    U32At(buf, pos + 8, t.obj);
  }

  lemma Width4(v: nat)
    ensures |U32Bytes(v)| == 4
  {
  }

  lemma Width8(v: nat)
    ensures |U64Bytes(v)| == 8
  {
  }

  /** An address prints as valid text and parses back to itself. */
  predicate AddrFits(parse: ParseAddr, a: Text) { |a| < U32_END && Utf8(a) && parse(a) == Some(a) }

  function ReadAddr(parse: ParseAddr, buf: Bytes, pos: nat): Result<(Text, nat)> {
    var (s, p) :- ReadText(buf, pos);
    match parse(s)
    case None => Err
    case Some(a) => Ok((a, p))
  }

  lemma AddrAt(parse: ParseAddr, buf: Bytes, pos: nat, a: Text)
    requires AddrFits(parse, a) && At(buf, pos, TextBytes(a))
    ensures ReadAddr(parse, buf, pos) == Ok((a, pos + |TextBytes(a)|))
  {
    TextAt(buf, pos, a);
  }

  predicate OpFits(parse: ParseAddr, op: LogOp) {
    match op
    case Insert(t) => TripleFits(t)
    case Delete(t) => TripleFits(t)
    case AddNode(id, addr) => id < U64_END && AddrFits(parse, addr)
    case RemoveNode(id) => id < U64_END
    case Noop => true
  }

  function OpBytes(op: LogOp): Bytes {
    match op
    case Insert(t) => [1] + TripleBytes(t)
    case Delete(t) => [2] + TripleBytes(t)
    case AddNode(id, addr) => [3] + (U64Bytes(id) + TextBytes(addr))
    case RemoveNode(id) => [4] + U64Bytes(id)
    case Noop => [5]
  }

  function ReadOp(parse: ParseAddr, buf: Bytes, pos: nat): Result<(LogOp, nat)> {
    var (kind, p) :- ReadOctet(buf, pos);
    match kind
    case 1 =>
      var (t, q) :- ReadTriple(buf, p);
      Ok((LogOp.Insert(t), q))
    case 2 =>
      var (t, q) :- ReadTriple(buf, p);
      Ok((LogOp.Delete(t), q))
    case 3 =>
      var (id, q) :- ReadU64(buf, p);
      var (a, z) :- ReadAddr(parse, buf, q);
      Ok((AddNode(id, a), z))
    case 4 =>
      var (id, q) :- ReadU64(buf, p);
      Ok((RemoveNode(id), q))
    case 5 => Ok((Noop, p))
    case _ => Err
  }

  lemma OpAt(parse: ParseAddr, buf: Bytes, pos: nat, op: LogOp)
    requires OpFits(parse, op) && At(buf, pos, OpBytes(op))
    ensures ReadOp(parse, buf, pos) == Ok((op, pos + |OpBytes(op)|))
  {
    hide TripleBytes;
    hide ReadTriple;
    hide U64Bytes;
    hide ReadU64;
    hide TextBytes;
    hide ReadAddr;
    match op
    case Insert(t) =>
      TagAt(buf, pos, 1, TripleBytes(t));
      TripleAt(buf, pos + 1, t);
    case Delete(t) =>
      TagAt(buf, pos, 2, TripleBytes(t));
      TripleAt(buf, pos + 1, t);
    case AddNode(id, addr) =>
      TagAt(buf, pos, 3, U64Bytes(id) + TextBytes(addr));
      AtSplit(buf, pos + 1, U64Bytes(id), TextBytes(addr));
      Width8(id);
      U64At(buf, pos + 1, id);
      AddrAt(parse, buf, pos + 9, addr);
    case RemoveNode(id) =>
      TagAt(buf, pos, 4, U64Bytes(id));
      Width8(id);
      U64At(buf, pos + 1, id);
    case Noop => OctetAt(buf, pos, 5);
  }

  lemma TagAt(buf: Bytes, pos: nat, tag: Octet, rest: Bytes)
    requires At(buf, pos, [tag] + rest)
    ensures ReadOctet(buf, pos) == Ok((tag, pos + 1)) && At(buf, pos + 1, rest)
  {
    AtSplit(buf, pos, [tag], rest);
    OctetAt(buf, pos, tag);
  }

  function EntryBytes(e: LogEntry): Bytes { U64Bytes(e.term) + OpBytes(e.op) }

  function ReadEntry(parse: ParseAddr, buf: Bytes, pos: nat): Result<(LogEntry, nat)> {
    var (term, p) :- ReadU64(buf, pos);
    var (op, q) :- ReadOp(parse, buf, p);
    Ok((LogEntry(term, op), q))
  }

  predicate EntryFits(parse: ParseAddr, e: LogEntry) { e.term < U64_END && OpFits(parse, e.op) }

  lemma EntryAt(parse: ParseAddr, buf: Bytes, pos: nat, e: LogEntry)
    requires EntryFits(parse, e) && At(buf, pos, EntryBytes(e))
    ensures ReadEntry(parse, buf, pos) == Ok((e, pos + |EntryBytes(e)|))
  {
    hide OpBytes;
    hide ReadOp;
    hide U64Bytes;
    hide ReadU64;
    Width8(e.term);
    AtSplit(buf, pos, U64Bytes(e.term), OpBytes(e.op));
    U64At(buf, pos, e.term);
    OpAt(parse, buf, pos + 8, e.op);
  }
}
