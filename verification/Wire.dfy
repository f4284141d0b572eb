/** The datagram format of `network.h`: a ten-byte header, big-endian 32-bit fields, and
    the receive buffer of 1024 zeroed bytes. */
module Wire {
  import opened FileModel
  import opened Messages

  const HEADER_SIZE := 10
  const MAX_BUF_SIZE := 1024
  const TWO_32 := 0x1_0000_0000
  const TWO_31 := 0x8000_0000

  function TypeByte(m: Message): byte {
    match m
    case Init => 0xC0
    case InitAck => 0xC1
    case OpenFile(_, _) => 0xC2
    case OpenFileAck(_) => 0xC3
    case WriteBlock(_, _, _) => 0xC4
    case Vote(_) => 0xC5
    case VoteAck(_, _) => 0xC6
    case Commit(_) => 0xC7
    case CommitAck(_) => 0xC8
    case Abort(_) => 0xC9
    case AbortAck(_) => 0xCA
    case Close(_) => 0xCB
    case CloseAck(_) => 0xCC
  }

  /** `htonl` of the value converted to 32 bits: two's complement for negative ones. */
  function Be32(v: int): (b: seq<byte>)
    ensures |b| == 4
  {
    var u := v % TWO_32;
    [u / 0x100_0000, u / 0x1_0000 % 0x100, u / 0x100 % 0x100, u % 0x100]
  }

  function U32At(buf: seq<byte>, i: nat): (u: nat)
    requires i + 4 <= |buf|
    ensures u < TWO_32
  {
    var a: int, b: int, c: int, d: int := buf[i], buf[i + 1], buf[i + 2], buf[i + 3];
    a * 0x100_0000 + b * 0x1_0000 + c * 0x100 + d
  }

  /** The same bytes read as a signed 32-bit `int`. */
  function I32At(buf: seq<byte>, i: nat): (v: int)
    requires i + 4 <= |buf|
    ensures -TWO_31 <= v < TWO_31
  {
    var u := U32At(buf, i);
    if u < TWO_31 then u else u - TWO_32
  }

  /** The bytes after the header. */
  function Body(m: Message): seq<byte> {
    match m
    case Init => []
    case InitAck => []
    case OpenFile(fileId, name) => Be32(fileId) + name
    case WriteBlock(fileId, updateId, u) => Be32(fileId) + Be32(updateId) + Be32(u.byteOffset) + Be32(|u.block|) +
      u.block
    case Vote(fileId) => Be32(fileId)
    case Commit(fileId) => Be32(fileId)
    case Abort(fileId) => Be32(fileId)
    case Close(fileId) => Be32(fileId)
    case VoteAck(fileDesc, updateId) => Be32(fileDesc) + Be32(updateId)
    case OpenFileAck(fileDesc) => Be32(fileDesc)
    case CommitAck(fileDesc) => Be32(fileDesc)
    case AbortAck(fileDesc) => Be32(fileDesc)
    case CloseAck(fileDesc) => Be32(fileDesc)
  }

  function Encode(p: Packet): (e: seq<byte>)
    ensures |e| == HEADER_SIZE + |Body(p.msg)|
  {
    [TypeByte(p.msg), 0] + Be32(p.nodeId) + Be32(p.seqNum) + Body(p.msg)
  }

  /** The bytes of a C string: up to the first NUL. */
  function CString(b: seq<byte>): seq<byte> {
    if b == [] || b[0] == 0 then [] else [b[0]] + CString(b[1..])
  }

  /** `deserialize` of the class that the type byte selects, on a full receive buffer. Sizes
      and offsets no sender produces, for which the original copies outside its buffers,
      decode to nothing here. */
  function Decode(buf: seq<byte>): Option<Packet>
    requires |buf| == MAX_BUF_SIZE
  {
    var node, seqNum, id, fd := U32At(buf, 2), U32At(buf, 6), U32At(buf, 10), I32At(buf, 10);
    match buf[0]
    case 0xC0 => Some(Packet(node, seqNum, Init))
    case 0xC1 => Some(Packet(node, seqNum, InitAck))
    case 0xC2 => Some(Packet(node, seqNum, OpenFile(id, CString(buf[14..142]))))
    case 0xC3 => Some(Packet(node, seqNum, OpenFileAck(fd)))
    case 0xC4 =>
      var offset, size := I32At(buf, 18), I32At(buf, 22);
      if offset < 0 || size < 0 || 26 + size > MAX_BUF_SIZE then None
      else Some(Packet(node, seqNum, WriteBlock(id, U32At(buf, 14), Update(offset, buf[26..26 + size]))))
    case 0xC5 => Some(Packet(node, seqNum, Vote(id)))
    case 0xC6 => Some(Packet(node, seqNum, VoteAck(fd, U32At(buf, 14))))
    case 0xC7 => Some(Packet(node, seqNum, Commit(id)))
    case 0xC8 => Some(Packet(node, seqNum, CommitAck(fd)))
    case 0xC9 => Some(Packet(node, seqNum, Abort(id)))
    case 0xCA => Some(Packet(node, seqNum, AbortAck(fd)))
    case 0xCB => Some(Packet(node, seqNum, Close(id)))
    case 0xCC => Some(Packet(node, seqNum, CloseAck(fd)))
    case _ => None
  }

  predicate IsUint32(v: int) {
    0 <= v < TWO_32
  }

  predicate IsInt32(v: int) {
    -TWO_31 <= v < TWO_31
  }

  /** The values the C fields can hold and the API guards let through. */
  predicate InRange(p: Packet) {
    IsUint32(p.nodeId) && IsUint32(p.seqNum) &&
    match p.msg
    case Init => true
    case InitAck => true
    case OpenFile(fileId, name) => IsUint32(fileId) && |name| < MAX_FILE_NAME_SIZE && 0 !in name
    case WriteBlock(fileId, updateId, u) =>
      IsUint32(fileId) && IsUint32(updateId) && IsInt32(u.byteOffset) && |u.block| <= MAX_BLOCK_LENGTH
    case Vote(fileId) => IsUint32(fileId)
    case Commit(fileId) => IsUint32(fileId)
    case Abort(fileId) => IsUint32(fileId)
    case Close(fileId) => IsUint32(fileId)
    case VoteAck(fileDesc, updateId) => IsInt32(fileDesc) && IsUint32(updateId)
    case OpenFileAck(fileDesc) => IsInt32(fileDesc)
    case CommitAck(fileDesc) => IsInt32(fileDesc)
    case AbortAck(fileDesc) => IsInt32(fileDesc)
    case CloseAck(fileDesc) => IsInt32(fileDesc)
  }

  /** What `recvfrom` leaves in the zeroed receive buffer. */
  function Received(e: seq<byte>): (buf: seq<byte>)
    requires |e| <= MAX_BUF_SIZE
    ensures |buf| == MAX_BUF_SIZE
  {
    e + Zeros(MAX_BUF_SIZE - |e|)
  }

  // ---------------------------------------------------------------------- byte by byte

  /** Four bytes of a datagram. */
  type Word = b: seq<byte> | |b| == 4 witness [0, 0, 0, 0]

  /** The unsigned number they stand for, the highest byte first. */
  function Unsigned(b: Word): nat {
    var x, y, z, w := b[0] as nat, b[1] as nat, b[2] as nat, b[3] as nat;
    x * 0x100_0000 + y * 0x1_0000 + z * 0x100 + w
  }

  /** ... and the signed one, in two's complement. */
  function Signed(b: Word): int {
    if b[0] < 0x80 then Unsigned(b) else Unsigned(b) - 0x1_0000_0000
  }

  lemma LastDigit(q: int, r: int)
    requires 0 <= r < 0x100
    ensures (q * 0x100 + r) / 0x100 == q && (q * 0x100 + r) % 0x100 == r
  {
  }

  /** The digits of a number by repeated division. */
  lemma DigitsOf(x: byte, y: byte, z: byte, w: byte)
    ensures var u := ((x * 0x100 + y) * 0x100 + z) * 0x100 + w;
            u < TWO_32 && [u / 0x100_0000, u / 0x1_0000 % 0x100, u / 0x100 % 0x100, u % 0x100] == [x, y, z, w]
  {
    LastDigit((x * 0x100 + y) * 0x100 + z, w);
    LastDigit(x * 0x100 + y, z);
    LastDigit(x, y);
    Quotients(((x * 0x100 + y) * 0x100 + z) * 0x100 + w);
  }

  lemma Complement(u: nat)
    requires u < TWO_32
    ensures u % TWO_32 == (u - TWO_32) % TWO_32 == u
  {
  }

  /** Numbers travel highest byte first, negative ones as their complement. */
  lemma BigEndian(b: Word)
    ensures Be32(Unsigned(b)) == Be32(Signed(b)) == b
  {
    DigitsOf(b[0], b[1], b[2], b[3]);
    Complement(Unsigned(b));
  }

  lemma Quotients(u: nat)
    ensures u / 0x1_0000 == u / 0x100 / 0x100 && u / 0x100_0000 == u / 0x100 / 0x100 / 0x100
  {
  }

  lemma Header(n: Word, q: Word)
    ensures forall m :: Encode(Packet(Unsigned(n), Unsigned(q), m)) == [TypeByte(m), 0] + n + q + Body(m)
  {
    BigEndian(n);
    BigEndian(q);
    hide Unsigned, Be32, TypeByte, Body;
  }

  lemma Bodies(f: Word, g: Word, o: Word, size: Word, block: seq<byte>)
    requires Unsigned(size) == |block|
    ensures Be32(Unsigned(f)) == Be32(Signed(f)) == f && Be32(Unsigned(g)) == g
    ensures Body(WriteBlock(Unsigned(f), Unsigned(g), Update(Unsigned(o), block))) == f + g + o + size + block
  {
    BigEndian(f);
    BigEndian(g);
    BigEndian(o);
    BigEndian(size);
    hide Unsigned, Signed, Be32;
  }

  /** Every datagram, byte by byte: the kind, a zero, node id and sequence number, and the
      fields of the kind. */
  lemma Format(n: Word, q: Word, f: Word, g: Word, o: Word, size: Word, block: seq<byte>)
    requires Unsigned(size) == |block|
    ensures var (node, num, id, fd) := (Unsigned(n), Unsigned(q), Unsigned(f), Signed(f));
            && Encode(Packet(node, num, Init)) == [0xC0, 0] + n + q
            && Encode(Packet(node, num, InitAck)) == [0xC1, 0] + n + q
            && Encode(Packet(node, num, OpenFile(id, block))) == [0xC2, 0] + n + q + f + block
            && Encode(Packet(node, num, OpenFileAck(fd))) == [0xC3, 0] + n + q + f
            && Encode(Packet(node, num, WriteBlock(id, Unsigned(g), Update(Unsigned(o), block)))) ==
                 [0xC4, 0] + n + q + f + g + o + size + block
            && Encode(Packet(node, num, Vote(id))) == [0xC5, 0] + n + q + f
            && Encode(Packet(node, num, VoteAck(fd, Unsigned(g)))) == [0xC6, 0] + n + q + f + g
            && Encode(Packet(node, num, Commit(id))) == [0xC7, 0] + n + q + f
            && Encode(Packet(node, num, CommitAck(fd))) == [0xC8, 0] + n + q + f
            && Encode(Packet(node, num, Abort(id))) == [0xC9, 0] + n + q + f
            && Encode(Packet(node, num, AbortAck(fd))) == [0xCA, 0] + n + q + f
            && Encode(Packet(node, num, Close(id))) == [0xCB, 0] + n + q + f
            && Encode(Packet(node, num, CloseAck(fd))) == [0xCC, 0] + n + q + f
  {
    Header(n, q);
    Bodies(f, g, o, size, block);
    hide Unsigned, Signed, Be32, Encode;
    Joined([0xC2, 0] + n + q, f, block);
    Joined([0xC6, 0] + n + q, f, g);
    assert [0xC4, 0] + n + q + (f + g + o + size + block) == [0xC4, 0] + n + q + f + g + o + size + block;
  }

  lemma Joined(a: seq<byte>, b: seq<byte>, c: seq<byte>)
    ensures a + (b + c) == a + b + c
  {
  }

  // ---------------------------------------------------------------------- the round trip

  lemma FourDigits(u: nat)
    requires u < TWO_32
    ensures u / 0x100_0000 * 0x100_0000 + u / 0x1_0000 % 0x100 * 0x1_0000 + u / 0x100 % 0x100 * 0x100 + u % 0x100 == u
  {
    var a, b, c := u / 0x100, u / 0x1_0000, u / 0x100_0000;
    assert u == a * 0x100 + u % 0x100;
    assert a / 0x100 == b && a == b * 0x100 + a % 0x100;
    assert b / 0x100 == c && b == c * 0x100 + b % 0x100;
  }

  lemma Be32RoundTrip(v: int, buf: seq<byte>, i: nat)
    requires i + 4 <= |buf| && buf[i..i + 4] == Be32(v)
    ensures U32At(buf, i) == v % TWO_32
    ensures IsInt32(v) ==> I32At(buf, i) == v
  {
    FourDigits(v % TWO_32);
    var b := buf[i..i + 4];
    assert b[0] == buf[i] && b[1] == buf[i + 1] && b[2] == buf[i + 2] && b[3] == buf[i + 3];
  }

  lemma CStringStep(b: seq<byte>)
    ensures CString(b) == if b == [] || b[0] == 0 then [] else [b[0]] + CString(b[1..])
  {
  }

  lemma {:induction false} CStringStops(name: seq<byte>, rest: seq<byte>)
    requires 0 !in name && rest != [] && rest[0] == 0
    ensures CString(name + rest) == name
  {
    if name != [] {
      assert (name + rest)[1..] == name[1..] + rest;
      CStringStops(name[1..], rest);
    } else {
      assert name + rest == rest;
    }
  }

  lemma HeaderRoundTrip(p: Packet)
    requires |Encode(p)| <= MAX_BUF_SIZE && IsUint32(p.nodeId) && IsUint32(p.seqNum)
    ensures var buf := Received(Encode(p));
            && buf[0] == TypeByte(p.msg) && U32At(buf, 2) == p.nodeId && U32At(buf, 6) == p.seqNum
            && buf[10..] == Body(p.msg) + Zeros(MAX_BUF_SIZE - |Encode(p)|)
  {
    hide *;
    HeaderParts(p);
    var buf := Received(Encode(p));
    HeaderSlices(buf, TypeByte(p.msg), Be32(p.nodeId), Be32(p.seqNum), Body(p.msg), Zeros(MAX_BUF_SIZE - |Encode(p)|));
    Be32RoundTrip(p.nodeId, buf, 2);
    Be32RoundTrip(p.seqNum, buf, 6);
  }

  lemma HeaderParts(p: Packet)
    requires |Encode(p)| <= MAX_BUF_SIZE && IsUint32(p.nodeId) && IsUint32(p.seqNum)
    ensures p.nodeId % TWO_32 == p.nodeId && p.seqNum % TWO_32 == p.seqNum
    ensures Received(Encode(p))
         == [TypeByte(p.msg), 0] + Be32(p.nodeId) + Be32(p.seqNum) + Body(p.msg) + Zeros(MAX_BUF_SIZE - |Encode(p)|)
  {
    hide Be32, Body, TypeByte;
  }

  lemma HeaderSlices(buf: seq<byte>, t: byte, a: seq<byte>, b: seq<byte>, c: seq<byte>, z: seq<byte>)
    requires |a| == |b| == 4 && buf == [t, 0] + a + b + c + z
    ensures |buf| >= 10 && buf[0] == t && buf[2..6] == a && buf[6..10] == b && buf[10..] == c + z
  {
  }

  lemma FirstField(p: Packet, v: int, rest: seq<byte>)
    requires |Encode(p)| <= MAX_BUF_SIZE && IsUint32(p.nodeId) && IsUint32(p.seqNum) && Body(p.msg) == Be32(v) + rest
    ensures var buf := Received(Encode(p));
            && U32At(buf, 10) == v % TWO_32 && (IsInt32(v) ==> I32At(buf, 10) == v)
            && buf[14..] == rest + Zeros(MAX_BUF_SIZE - |Encode(p)|)
  {
    var buf := Received(Encode(p));
    HeaderRoundTrip(p);
    assert buf[10..14] == buf[10..][..4] == Be32(v);
    assert buf[14..] == buf[10..][4..];
    Be32RoundTrip(v, buf, 10);
  }

  lemma OpenFileRoundTrip(p: Packet)
    requires InRange(p) && p.msg.OpenFile?
    ensures Decode(Received(Encode(p))) == Some(p)
  {
    var buf, name := Received(Encode(p)), p.msg.filename;
    HeaderRoundTrip(p);
    FirstField(p, p.msg.fileId, name);
    var rest := buf[14 + |name|..142];
    assert buf[14..142] == buf[14..][..128] == name + rest;
    assert rest[0] == buf[14..][|name|] == 0;
    CStringStops(name, rest);
  }

  lemma WriteBlockBody(p: Packet)
    requires InRange(p) && p.msg.WriteBlock?
    ensures IsUint32(p.nodeId) && IsUint32(p.seqNum) && |Encode(p)| <= MAX_BUF_SIZE
    ensures p.msg.fileId % TWO_32 == p.msg.fileId
    ensures |Received(Encode(p))| >= 14
    ensures var m := p.msg;
            Body(m) == Be32(m.fileId) + (Be32(m.updateId) + Be32(m.update.byteOffset) + Be32(|m.update.block|) +
                                         m.update.block)
  {
    hide Be32;
  }

  lemma WriteBlockFields(p: Packet)
    requires InRange(p) && p.msg.WriteBlock?
    ensures var buf, m := Received(Encode(p)), p.msg;
            && U32At(buf, 10) == m.fileId && buf[14..18] == Be32(m.updateId)
            && buf[18..22] == Be32(m.update.byteOffset) && buf[22..26] == Be32(|m.update.block|)
            && buf[26..26 + |m.update.block|] == m.update.block
  {
    hide *;
    WriteBlockBody(p);
    var m, u := p.msg, p.msg.update;
    var a, b, c := Be32(m.updateId), Be32(u.byteOffset), Be32(|u.block|);
    FirstField(p, m.fileId, a + b + c + u.block);
    Slices(Received(Encode(p)), a, b, c, u.block, Zeros(MAX_BUF_SIZE - |Encode(p)|));
  }

  lemma Slices(buf: seq<byte>, a: seq<byte>, b: seq<byte>, c: seq<byte>, d: seq<byte>, z: seq<byte>)
    requires |buf| >= 14 && |a| == |b| == |c| == 4 && buf[14..] == (a + b + c + d) + z
    ensures |buf| >= 26 + |d|
    ensures buf[14..18] == a && buf[18..22] == b && buf[22..26] == c && buf[26..26 + |d|] == d
  {
    var rest := buf[14..];
    assert |rest| == |buf| - 14;
    assert buf[14..18] == rest[..4] && buf[18..22] == rest[4..8] && buf[22..26] == rest[8..12];
    assert buf[26..26 + |d|] == rest[12..12 + |d|];
  }

  lemma DecodeWriteBlock(buf: seq<byte>, p: Packet)
    requires |buf| == MAX_BUF_SIZE && InRange(p) && p.msg.WriteBlock?
    requires buf[0] == 0xC4 && U32At(buf, 2) == p.nodeId && U32At(buf, 6) == p.seqNum
    requires var m := p.msg;
             && U32At(buf, 10) == m.fileId && U32At(buf, 14) == m.updateId && I32At(buf, 18) == m.update.byteOffset
             && I32At(buf, 22) == |m.update.block| && buf[26..26 + |m.update.block|] == m.update.block
    ensures Decode(buf) == Some(p)
  {
    hide U32At, I32At;
  }

  lemma DecodeVoteAck(buf: seq<byte>, p: Packet)
    requires |buf| == MAX_BUF_SIZE && p.msg.VoteAck?
    requires buf[0] == 0xC6 && U32At(buf, 2) == p.nodeId && U32At(buf, 6) == p.seqNum
    requires I32At(buf, 10) == p.msg.fileDesc && U32At(buf, 14) == p.msg.updateId
    ensures Decode(buf) == Some(p)
  {
    hide U32At, I32At;
  }

  lemma WriteBlockRanges(p: Packet)
    requires InRange(p) && p.msg.WriteBlock?
    ensures IsUint32(p.nodeId) && IsUint32(p.seqNum) && |Encode(p)| <= MAX_BUF_SIZE && TypeByte(p.msg) == 0xC4
    ensures var m := p.msg;
            && m.updateId % TWO_32 == m.updateId && IsInt32(m.update.byteOffset) && IsInt32(|m.update.block|)
            && 26 + |m.update.block| <= MAX_BUF_SIZE
    ensures |Received(Encode(p))| == MAX_BUF_SIZE >= 26
  {
    hide Be32;
  }

  lemma WriteBlockRoundTrip(p: Packet)
    requires InRange(p) && p.msg.WriteBlock?
    ensures Decode(Received(Encode(p))) == Some(p)
  {
    hide *;
    WriteBlockRanges(p);
    var buf, m := Received(Encode(p)), p.msg;
    HeaderRoundTrip(p);
    WriteBlockFields(p);
    Be32RoundTrip(m.updateId, buf, 14);
    Be32RoundTrip(m.update.byteOffset, buf, 18);
    Be32RoundTrip(|m.update.block|, buf, 22);
    DecodeWriteBlock(buf, p);
  }

  lemma VoteAckRanges(p: Packet)
    requires InRange(p) && p.msg.VoteAck?
    ensures IsUint32(p.nodeId) && IsUint32(p.seqNum) && |Encode(p)| <= MAX_BUF_SIZE && TypeByte(p.msg) == 0xC6
    ensures p.msg.updateId % TWO_32 == p.msg.updateId && IsInt32(p.msg.fileDesc)
    ensures Body(p.msg) == Be32(p.msg.fileDesc) + Be32(p.msg.updateId)
    ensures |Received(Encode(p))| == MAX_BUF_SIZE >= 18
  {
    hide Be32;
  }

  lemma VoteAckRoundTrip(p: Packet)
    requires InRange(p) && p.msg.VoteAck?
    ensures Decode(Received(Encode(p))) == Some(p)
  {
    hide *;
    VoteAckRanges(p);
    var buf, m := Received(Encode(p)), p.msg;
    HeaderRoundTrip(p);
    FirstField(p, m.fileDesc, Be32(m.updateId));
    assert buf[14..18] == buf[14..][..4] == Be32(m.updateId);
    Be32RoundTrip(m.updateId, buf, 14);
    DecodeVoteAck(buf, p);
  }

  /** The kinds whose body is one descriptor or file number. */
  lemma OneFieldRoundTrip(p: Packet)
    requires InRange(p) && |Body(p.msg)| == 4
    requires !p.msg.OpenFile? && !p.msg.WriteBlock? && !p.msg.VoteAck?
    ensures |Encode(p)| <= MAX_BUF_SIZE && Decode(Received(Encode(p))) == Some(p)
  {
    var v := if p.msg.Vote? || p.msg.Commit? || p.msg.Abort? || p.msg.Close? then p.msg.fileId else p.msg.fileDesc;
    assert Body(p.msg) == Be32(v) + [];
    HeaderRoundTrip(p);
    FirstField(p, v, []);
    hide Be32, Encode, Received, U32At, I32At;
  }

  /** All thirteen kinds survive the wire, and every encoding fits the receive buffer. */
  lemma WireRoundTrip(p: Packet)
    requires InRange(p)
    ensures |Encode(p)| <= MAX_BUF_SIZE && Decode(Received(Encode(p))) == Some(p)
  {
    if p.msg.OpenFile? {
      OpenFileRoundTrip(p);
    } else if p.msg.WriteBlock? {
      WriteBlockRoundTrip(p);
    } else if p.msg.VoteAck? {
      VoteAckRoundTrip(p);
    } else if p.msg.Init? || p.msg.InitAck? {
      HeaderRoundTrip(p);
    } else {
      OneFieldRoundTrip(p);
    }
  }

  /** Different packets never share an encoding. */
  lemma EncodingIsInjective(p: Packet, q: Packet)
    requires InRange(p) && InRange(q) && Encode(p) == Encode(q)
    ensures p == q
  {
    WireRoundTrip(p);
    WireRoundTrip(q);
  }

  // ------------------------------------------------------------ the buffers, in place

  /** `memcpy(buf + at, ..)`. */
  method Put(buf: array<byte>, at: nat, b: seq<byte>)
    requires at + |b| <= buf.Length
    modifies buf
    ensures buf[..] == old(buf[..at]) + b + old(buf[at + |b|..])
    ensures buf[..at + |b|] == old(buf[..at]) + b
  {
    for i := 0 to |b|
      invariant buf[..at] == old(buf[..at])
      invariant buf[at..at + i] == b[..i]
      invariant buf[at + i..] == old(buf[at + i..])
    {
      ghost var before := buf[at + i..];
      assert before[1..] == old(buf[at + i + 1..]);
      buf[at + i] := b[i];
      assert buf[at + i + 1..] == before[1..];
      assert b[..i + 1] == b[..i] + [b[i]];
    }
    assert buf[..] == buf[..at] + buf[at..at + |b|] + buf[at + |b|..];
  }

  /** What the callers of `sendMessage` add to `HEADER_SIZE`. */
  function BodySize(m: Message): (n: nat)
    ensures n == |Body(m)|
  {
    match m
    case Init => 0
    case InitAck => 0
    case OpenFile(_, name) => 4 + |name|
    case WriteBlock(_, _, u) => 16 + |u.block|
    case VoteAck(_, _) => 8
    case _ => 4
  }

  /** The messages with one field after the header. */
  method SerializeField(buf: array<byte>, v: int)
    requires buf.Length == HEADER_SIZE + 4
    modifies buf
    ensures buf[..] == old(buf[..HEADER_SIZE]) + Be32(v)
  {
    hide Be32;
    Put(buf, HEADER_SIZE, Be32(v));
    assert buf[..buf.Length] == buf[..];
  }

  /** `VoteAckMessage::serialize` after the header. */
  method SerializeVoteAck(buf: array<byte>, fileDesc: int, updateId: nat)
    requires buf.Length == HEADER_SIZE + 8
    modifies buf
    ensures buf[..] == old(buf[..HEADER_SIZE]) + Be32(fileDesc) + Be32(updateId)
  {
    hide Be32;
    Put(buf, HEADER_SIZE, Be32(fileDesc));
    Put(buf, HEADER_SIZE + 4, Be32(updateId));
    assert buf[..buf.Length] == buf[..];
  }

  /** `OpenFileMessage::serialize` after the header. */
  method SerializeOpenFile(buf: array<byte>, fileId: nat, name: Name)
    requires buf.Length == HEADER_SIZE + 4 + |name|
    modifies buf
    ensures buf[..] == old(buf[..HEADER_SIZE]) + Be32(fileId) + name
  {
    hide Be32;
    Put(buf, HEADER_SIZE, Be32(fileId));
    Put(buf, HEADER_SIZE + 4, name);
    assert buf[..buf.Length] == buf[..];
  }

  /** `WriteBlockMessage::serialize` after the header. */
  method SerializeWriteBlock(buf: array<byte>, fileId: nat, updateId: nat, u: Update)
    requires buf.Length == HEADER_SIZE + 16 + |u.block|
    modifies buf
    ensures buf[..] == old(buf[..HEADER_SIZE]) + Be32(fileId) + Be32(updateId) + Be32(u.byteOffset) + Be32(|u.block|) +
              u.block
  {
    hide Be32;
    Put(buf, HEADER_SIZE, Be32(fileId));
    Put(buf, HEADER_SIZE + 4, Be32(updateId));
    Put(buf, HEADER_SIZE + 8, Be32(u.byteOffset));
    Put(buf, HEADER_SIZE + 12, Be32(|u.block|));
    Put(buf, HEADER_SIZE + 16, u.block);
    assert buf[..buf.Length] == buf[..];
  }

  lemma BodyParts(h: seq<byte>, m: Message)
    ensures m.OpenFile? ==> h + Body(m) == h + Be32(m.fileId) + m.filename
    ensures m.WriteBlock? ==> var u := m.update;
              h + Body(m) == h + Be32(m.fileId) + Be32(m.updateId) + Be32(u.byteOffset) + Be32(|u.block|) + u.block
    ensures m.VoteAck? ==> h + Body(m) == h + Be32(m.fileDesc) + Be32(m.updateId)
  {
    hide Be32;
  }

  /** The fields after the header, each written at its own offset. */
  method SerializeBody(buf: array<byte>, m: Message)
    requires buf.Length == HEADER_SIZE + BodySize(m)
    modifies buf
    ensures buf[..] == old(buf[..HEADER_SIZE]) + Body(m)
  {
    BodyParts(buf[..HEADER_SIZE], m);
    hide Be32;
    match m {
      case Init => assert buf[..HEADER_SIZE] == buf[..];
      case InitAck => assert buf[..HEADER_SIZE] == buf[..];
      case OpenFile(fileId, name) => SerializeOpenFile(buf, fileId, name);
      case WriteBlock(fileId, updateId, u) => SerializeWriteBlock(buf, fileId, updateId, u);
      case VoteAck(fileDesc, updateId) => SerializeVoteAck(buf, fileDesc, updateId);
      case Vote(fileId) => SerializeField(buf, fileId);
      case Commit(fileId) => SerializeField(buf, fileId);
      case Abort(fileId) => SerializeField(buf, fileId);
      case Close(fileId) => SerializeField(buf, fileId);
      case OpenFileAck(fileDesc) => SerializeField(buf, fileDesc);
      case CommitAck(fileDesc) => SerializeField(buf, fileDesc);
      case AbortAck(fileDesc) => SerializeField(buf, fileDesc);
      case CloseAck(fileDesc) => SerializeField(buf, fileDesc);
    }
  }

  /** `sendMessage` and `serialize`: header and fields go to their offsets in a zeroed
      buffer of exactly the length that the caller computed. */
  method Serialize(p: Packet) returns (buf: array<byte>)
    ensures buf[..] == Encode(p)
  {
    buf := new byte[HEADER_SIZE + BodySize(p.msg)](_ => 0);
    buf[0] := TypeByte(p.msg);
    assert buf[..2] == [TypeByte(p.msg), 0];
    Put(buf, 2, Be32(p.nodeId));
    assert buf[..6] == [TypeByte(p.msg), 0] + Be32(p.nodeId);
    Put(buf, 6, Be32(p.seqNum));
    assert buf[..HEADER_SIZE] == [TypeByte(p.msg), 0] + Be32(p.nodeId) + Be32(p.seqNum);
    SerializeBody(buf, p.msg);
  }

  method Get32(buf: array<byte>, i: nat) returns (u: nat)
    requires i + 4 <= buf.Length
    ensures u == U32At(buf[..], i)
  {
    var a: int, b: int, c: int, d: int := buf[i], buf[i + 1], buf[i + 2], buf[i + 3];
    u := a * 0x100_0000 + b * 0x1_0000 + c * 0x100 + d;
  }

  method GetSigned32(buf: array<byte>, i: nat) returns (v: int)
    requires i + 4 <= buf.Length
    ensures v == I32At(buf[..], i)
  {
    var u := Get32(buf, i);
    v := if u < TWO_31 then u else u - TWO_32;
  }

  /** A file name is read up to its first NUL. */
  method GetString(buf: array<byte>, lo: nat, hi: nat) returns (name: seq<byte>)
    requires lo <= hi <= buf.Length
    ensures name == CString(buf[lo..hi])
  {
    hide CString;
    name := [];
    var i := lo;
    while i < hi && buf[i] != 0
      invariant lo <= i <= hi
      invariant CString(buf[lo..hi]) == name + CString(buf[i..hi])
    {
      ghost var rest := buf[i..hi];
      CStringStep(rest);
      assert buf[i + 1..hi] == rest[1..];
      Joined(name, [buf[i]], CString(rest[1..]));
      name := name + [buf[i]];
      i := i + 1;
    }
    CStringStep(buf[i..hi]);
  }

  /** `deserialize`, on the receive buffer. */
  method Deserialize(buf: array<byte>) returns (p: Option<Packet>)
    requires buf.Length == MAX_BUF_SIZE
    ensures p == Decode(buf[..])
  {
    var node := Get32(buf, 2);
    var seqNum := Get32(buf, 6);
    var id := Get32(buf, 10);
    var fd := GetSigned32(buf, 10);
    var second := Get32(buf, 14);
    var m: Option<Message> := None;
    match buf[0] {
      case 0xC0 => m := Some(Init);
      case 0xC1 => m := Some(InitAck);
      case 0xC2 =>
        var name := GetString(buf, 14, 142);
        assert buf[..][14..142] == buf[14..142];
        m := Some(OpenFile(id, name));
      case 0xC3 => m := Some(OpenFileAck(fd));
      case 0xC4 =>
        var offset := GetSigned32(buf, 18);
        var size := GetSigned32(buf, 22);
        if offset >= 0 && 0 <= size <= MAX_BUF_SIZE - 26 {
          assert buf[..][26..26 + size] == buf[26..26 + size];
          m := Some(WriteBlock(id, second, Update(offset, buf[26..26 + size])));
        }
      case 0xC5 => m := Some(Vote(id));
      case 0xC6 => m := Some(VoteAck(fd, second));
      case 0xC7 => m := Some(Commit(id));
      case 0xC8 => m := Some(CommitAck(fd));
      case 0xC9 => m := Some(Abort(id));
      case 0xCA => m := Some(AbortAck(fd));
      case 0xCB => m := Some(Close(id));
      case 0xCC => m := Some(CloseAck(fd));
      case _ =>
    }
    p := if m.Some? then Some(Packet(node, seqNum, m.value)) else None;
  }
}
