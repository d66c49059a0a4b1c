/**
 The length-prefixed binary frame that carries every local request, response and event
 (crates/sylvops-core/src/protocol.rs:26-334 and 1079-1111).
 */
module Protocol {
  import opened Wrappers

  const MAGIC: int := 0x4353_544C  // "CSTL"
  const MAJOR: int := 1
  const MINOR: int := 36
  const MAX_FRAME_SIZE: nat := 1024 * 1024
  const HEADER_SIZE: nat := 48
  const PREFIX_SIZE: nat := 4

  type Byte = b: int | 0 <= b < 0x100
  type U16 = n: int | 0 <= n < 0x1_0000
  type U32 = n: int | 0 <= n < 0x1_0000_0000
  type Uuid = u: seq<Byte> | |u| == 16 witness [0, 0, 0, 0, 0, 0, 0, 0, 0, 0, 0, 0, 0, 0, 0, 0]

  const NIL: Uuid := [0, 0, 0, 0, 0, 0, 0, 0, 0, 0, 0, 0, 0, 0, 0, 0]

  datatype Version = Version(major: U16, minor: U16)

  const CURRENT := Version(MAJOR, MINOR)

  datatype MessageClass = Request | Response | Event

  datatype Frame = Frame(
    version: Version,
    kind: MessageClass,
    opcode: U16,
    flags: Byte,
    messageId: Uuid,
    correlationId: Option<Uuid>,
    payload: seq<Byte>)

  datatype CodecError =
    | FrameTooLarge(actual: int)
    | TruncatedFrame
    | InvalidFrameLength
    | InvalidMagic
    | UnsupportedProtocol(major: U16, minor: U16)
    | UnknownMessageClass(value: Byte)
    | UnsupportedFrameFlags(flags: Byte)
    | NilMessageId
    | EndOfStream

  // ----- big-endian numbers ----------------------------------------------------------------------

  function Be16(n: U16): (s: seq<Byte>)
    ensures |s| == 2 && FromBe16(s) == n
  {
    [n / 0x100, n % 0x100]
  }

  function FromBe16(s: seq<Byte>): (n: U16)
    requires |s| == 2
  {
    var high: int, low: int := s[0], s[1];
    high * 0x100 + low
  }

  function Be32(n: U32): (s: seq<Byte>)
    ensures |s| == 4 && FromBe32(s) == n
  {
    var s := Be16(n / 0x1_0000) + Be16(n % 0x1_0000);
    assert s[..2] == Be16(n / 0x1_0000) && s[2..] == Be16(n % 0x1_0000);
    s
  }

  function FromBe32(s: seq<Byte>): (n: U32)
    requires |s| == 4
  {
    var high: int, low: int := FromBe16(s[..2]), FromBe16(s[2..]);
    high * 0x1_0000 + low
  }

  lemma Be16OfRead(s: seq<Byte>)
    requires |s| == 2
    ensures Be16(FromBe16(s)) == s
  {
  }

  lemma Be32OfRead(s: seq<Byte>)
    requires |s| == 4
    ensures Be32(FromBe32(s)) == s
  {
    var high: int, low: int := FromBe16(s[..2]), FromBe16(s[2..]);
    assert FromBe32(s) as int / 0x1_0000 == high && FromBe32(s) as int % 0x1_0000 == low;
    Be16OfRead(s[..2]);
    Be16OfRead(s[2..]);
    assert s == s[..2] + s[2..];
  }

  function ClassByte(c: MessageClass): Byte {
    match c
    case Request => 1
    case Response => 2
    case Event => 3
  }

  function ClassOf(b: Byte): Result<MessageClass, CodecError> {
    if b == 1 then Ok(Request) else if b == 2 then Ok(Response) else if b == 3 then Ok(Event)
    else Err(UnknownMessageClass(b))
  }

  // ----- the format -------------------------------------------------------------------------------

  /** Absent correlation is written as the nil identifier. */
  function CorrelationBytes(f: Frame): Uuid {
    if f.correlationId.Some? then f.correlationId.value else NIL
  }

  function Body(f: Frame): seq<Byte>
    requires |f.payload| < 0x1_0000_0000
  {
    Be32(MAGIC) + Be16(f.version.major) + Be16(f.version.minor) + [ClassByte(f.kind)] + Be16(f.opcode) + [f.flags]
    + f.messageId + CorrelationBytes(f) + Be32(|f.payload|) + f.payload
  }

  predicate Encodable(f: Frame) {
    f.messageId != NIL && f.flags == 0 && HEADER_SIZE + |f.payload| <= MAX_FRAME_SIZE
  }

  function Encode(f: Frame): Result<seq<Byte>, CodecError> {
    if f.messageId == NIL then Err(NilMessageId)
    else if f.flags != 0 then Err(UnsupportedFrameFlags(f.flags))
    else if HEADER_SIZE + |f.payload| > MAX_FRAME_SIZE then Err(FrameTooLarge(HEADER_SIZE + |f.payload|))
    else Ok(Be32(HEADER_SIZE + |f.payload|) + Body(f))
  }

  function Decode(bytes: seq<Byte>, checkVersion: bool): Result<Frame, CodecError> {
    if |bytes| < PREFIX_SIZE then Err(TruncatedFrame)
    else
      var declared := FromBe32(bytes[..PREFIX_SIZE]);
      if declared > MAX_FRAME_SIZE then Err(FrameTooLarge(declared))
      else if |bytes| < PREFIX_SIZE + HEADER_SIZE then Err(TruncatedFrame)
      else if |bytes| != PREFIX_SIZE + declared then Err(InvalidFrameLength)
      else DecodeBody(bytes[PREFIX_SIZE..], checkVersion)
  }

  function DecodeBody(body: seq<Byte>, checkVersion: bool): Result<Frame, CodecError> {
    if |body| < HEADER_SIZE then Err(TruncatedFrame)
    else if FromBe32(body[0..4]) != MAGIC then Err(InvalidMagic)
    else
      var version := Version(FromBe16(body[4..6]), FromBe16(body[6..8]));
      if checkVersion && version != CURRENT then Err(UnsupportedProtocol(version.major, version.minor))
      else if ClassOf(body[8]).Err? then Err(UnknownMessageClass(body[8]))
      else if body[11] != 0 then Err(UnsupportedFrameFlags(body[11]))
      else if body[12..28] == NIL then Err(NilMessageId)
      else if HEADER_SIZE + FromBe32(body[44..48]) != |body| then Err(InvalidFrameLength)
      else
        var correlation: Uuid := body[28..44];
        Ok(Frame(version, ClassOf(body[8]).value, FromBe16(body[9..11]), body[11], body[12..28],
                 if correlation == NIL then None else Some(correlation), body[HEADER_SIZE..]))
  }

  /** A frame as it arrives: a correlation that is present but nil cannot be told from none. */
  function Received(f: Frame): Frame {
    if f.correlationId == Some(NIL) then f.(correlationId := None) else f
  }

  // ----- round trips ------------------------------------------------------------------------------

  lemma FirstFields(magic: seq<Byte>, major: seq<Byte>, minor: seq<Byte>, kind: Byte, opcode: seq<Byte>, flags: Byte,
      rest: seq<Byte>)
    requires |magic| == 4 && |major| == 2 && |minor| == 2 && |opcode| == 2
    ensures var b := magic + major + minor + [kind] + opcode + [flags] + rest;
            && |b| == 12 + |rest|
            && b[0..4] == magic && b[4..6] == major && b[6..8] == minor
            && b[8] == kind && b[9..11] == opcode && b[11] == flags && b[12..] == rest
  {
  }

  lemma LastFields(messageId: Uuid, correlation: Uuid, length: seq<Byte>, payload: seq<Byte>)
    requires |length| == 4
    ensures var b := messageId + correlation + length + payload;
            && |b| == 36 + |payload|
            && b[0..16] == messageId && b[16..32] == correlation && b[32..36] == length && b[36..] == payload
  {
  }

  lemma FieldsInTwoHalves(f: Frame)
    requires |f.payload| < 0x1_0000_0000
    ensures Body(f) == Be32(MAGIC) + Be16(f.version.major) + Be16(f.version.minor) + [ClassByte(f.kind)]
        + Be16(f.opcode) + [f.flags]
                       + (f.messageId + CorrelationBytes(f) + Be32(|f.payload|) + f.payload)
  {
  }

  lemma TailSlices(b: seq<Byte>, rest: seq<Byte>)
    requires |b| == 12 + |rest| && b[12..] == rest && |rest| >= 36
    ensures b[12..28] == rest[0..16] && b[28..44] == rest[16..32] && b[44..48] == rest[32..36] && b[48..] == rest[36..]
  {
  }

  /** Where each field of an encoded body lies. */
  lemma BodyLayout(f: Frame)
    requires |f.payload| < 0x1_0000_0000
    ensures var b := Body(f);
            && |b| == HEADER_SIZE + |f.payload|
            && b[0..4] == Be32(MAGIC) && b[4..6] == Be16(f.version.major) && b[6..8] == Be16(f.version.minor)
            && b[8] == ClassByte(f.kind) && b[9..11] == Be16(f.opcode) && b[11] == f.flags
            && b[12..28] == f.messageId && b[28..44] == CorrelationBytes(f)
            && b[44..48] == Be32(|f.payload|) && b[48..] == f.payload
  {
    var rest := f.messageId + CorrelationBytes(f) + Be32(|f.payload|) + f.payload;
    FieldsInTwoHalves(f);
    FirstFields(Be32(MAGIC), Be16(f.version.major), Be16(f.version.minor), ClassByte(f.kind), Be16(f.opcode), f.flags,
        rest);
    LastFields(f.messageId, CorrelationBytes(f), Be32(|f.payload|), f.payload);
    TailSlices(Body(f), rest);
  }

  /**
   Decoding an encoded frame gives back what was sent, under either version policy, except that a
   foreign version is reported as such when versions are checked.
   */
  lemma {:induction false} DecodeOfEncode(f: Frame, checkVersion: bool)
    requires Encodable(f)
    ensures Encode(f).Ok?
    ensures Decode(Encode(f).value, checkVersion)
            == if checkVersion && f.version != CURRENT then Err(UnsupportedProtocol(f.version.major, f.version.minor))
                else Ok(Received(f))
  {
    var bytes := Encode(f).value;
    assert bytes[..PREFIX_SIZE] == Be32(HEADER_SIZE + |f.payload|);
    assert bytes[PREFIX_SIZE..] == Body(f);
    BodyLayout(f);
  }

  /** The round trip is exact if and only if the correlation is not an explicit nil. */
  lemma {:induction false} RoundTripIsExactUnlessNilCorrelation(f: Frame)
    requires Encodable(f) && f.version == CURRENT
    ensures Decode(Encode(f).value, true) == Ok(f) <==> f.correlationId != Some(NIL)
  {
    DecodeOfEncode(f, true);
  }

  /** A concrete frame that does not survive the round trip. */
  lemma {:induction false} NilCorrelationIsLost(id: Uuid)
    requires id != NIL
    ensures var f := Frame(CURRENT, Request, 1, 0, id, Some(NIL), []);
            Encodable(f) && Decode(Encode(f).value, true) == Ok(f.(correlationId := None))
  {
    DecodeOfEncode(Frame(CURRENT, Request, 1, 0, id, Some(NIL), []), true);
  }

  lemma FieldsMakeBody(b: seq<Byte>)
    requires |b| >= HEADER_SIZE
    ensures b == b[0..4] + b[4..6] + b[6..8] + [b[8]] + b[9..11] + [b[11]] + b[12..28] + b[28..44] + b[44..48] + b[48..]
  {
  }

  /** Every accepted byte string is the encoding of the frame it decodes to: there is only one way to write a frame. */
  lemma {:induction false} EncodeOfDecode(bytes: seq<Byte>, checkVersion: bool)
    requires Decode(bytes, checkVersion).Ok?
    ensures Encode(Decode(bytes, checkVersion).value) == Ok(bytes)
    ensures Encodable(Decode(bytes, checkVersion).value)
    ensures Received(Decode(bytes, checkVersion).value) == Decode(bytes, checkVersion).value
    ensures checkVersion ==> Decode(bytes, checkVersion).value.version == CURRENT
  {
    var b, f := bytes[PREFIX_SIZE..], Decode(bytes, checkVersion).value;
    BodyOfDecodedBody(b, checkVersion);
    Be32OfRead(bytes[..PREFIX_SIZE]);
    assert bytes == bytes[..PREFIX_SIZE] + b;
  }

  lemma BodyOfDecodedBody(b: seq<Byte>, checkVersion: bool)
    requires |b| < 0x1_0000_0000 && DecodeBody(b, checkVersion).Ok?
    ensures |DecodeBody(b, checkVersion).value.payload| == |b| - HEADER_SIZE
    ensures Body(DecodeBody(b, checkVersion).value) == b
  {
    FieldsMakeBody(b);
    Be32OfRead(b[0..4]);
    Be16OfRead(b[4..6]);
    Be16OfRead(b[6..8]);
    Be16OfRead(b[9..11]);
    Be32OfRead(b[44..48]);
  }

  /** The accepted byte strings are exactly the encodings of current-version frames. */
  lemma {:induction false} AcceptedExactlyEncodings(bytes: seq<Byte>)
    ensures Decode(bytes, true).Ok? <==> exists f: Frame ::
        Encodable(f) && f.version == CURRENT && Encode(f) == Ok(bytes)
  {
    if Decode(bytes, true).Ok? {
      EncodeOfDecode(bytes, true);
    } else if f: Frame :| Encodable(f) && f.version == CURRENT && Encode(f) == Ok(bytes) {
      DecodeOfEncode(f, true);
    }
  }

  // ----- the bytes on the wire ------------------------------------------------------------------------

  /** The number a byte string stands for, most significant byte first. */
  function BigEndian(s: seq<Byte>): nat {
    if s == [] then 0
    else
      var low: int := s[|s| - 1];
      BigEndian(s[..|s| - 1]) * 0x100 + low
  }

  lemma {:induction false} NumbersAreBigEndian(s: seq<Byte>)
    ensures |s| == 2 ==> FromBe16(s) == BigEndian(s)
    ensures |s| == 4 ==> FromBe32(s) == BigEndian(s)
  {
    if |s| == 2 {
      PairIsBigEndian([], s);
    } else if |s| == 4 {
      PairIsBigEndian([], s[..2]);
      PairIsBigEndian(s[..2], s[2..]);
      assert s == s[..2] + s[2..] && s[..2] == [] + s[..2];
    }
  }

  lemma PairIsBigEndian(front: seq<Byte>, s: seq<Byte>)
    requires |s| == 2
    ensures BigEndian(front + s) == BigEndian(front) * 0x1_0000 + FromBe16(s)
  {
    var t := front + s;
    assert t[..|t| - 1] == front + [s[0]] && (front + [s[0]])[..|front|] == front;
  }

  predicate AllZero(u: Uuid) {
    forall i | 0 <= i < 16 :: u[i] == 0
  }

  predicate KnownClass(b: Byte) {
    1 <= b <= 3
  }

  /** What a byte string of at least 52 bytes is decoded to, by the places of its fields on the wire. */
  function WireTable(bytes: seq<Byte>, checkVersion: bool): Result<Frame, CodecError>
    requires |bytes| >= 52
  {
    var declared := BigEndian(bytes[0..4]);
    var major, minor := FromBe16(bytes[8..10]), FromBe16(bytes[10..12]);
    if declared > 1_048_576 then Err(FrameTooLarge(declared))
    else if 4 + declared != |bytes| then Err(InvalidFrameLength)
    else if bytes[4..8] != [0x43, 0x53, 0x54, 0x4C] then Err(InvalidMagic)
    else if checkVersion && (major != 1 || minor != 36) then Err(UnsupportedProtocol(major, minor))
    else if !KnownClass(bytes[12]) then Err(UnknownMessageClass(bytes[12]))
    else if bytes[15] != 0 then Err(UnsupportedFrameFlags(bytes[15]))
    else if AllZero(bytes[16..32]) then Err(NilMessageId)
    else if 52 + BigEndian(bytes[48..52]) != |bytes| then Err(InvalidFrameLength)
    else
      Ok(Frame(Version(major, minor),
               if bytes[12] == 1 then Request else if bytes[12] == 2 then Response else Event,
               FromBe16(bytes[13..15]), 0, bytes[16..32],
               if AllZero(bytes[32..48]) then None else Some(bytes[32..48]), bytes[52..]))
  }

  lemma MagicBytes(s: seq<Byte>)
    requires |s| == 4
    ensures FromBe32(s) == 0x4353_544C <==> s == [0x43, 0x53, 0x54, 0x4C]
  {
    Be32OfRead(s);
    assert s[0] == s[..2][0] && s[1] == s[..2][1] && s[2] == s[2..][0] && s[3] == s[2..][1];
  }

  lemma BodySlices(bytes: seq<Byte>)
    requires |bytes| >= 52
    ensures var body := bytes[4..];
            && body[0..4] == bytes[4..8] && body[4..6] == bytes[8..10] && body[6..8] == bytes[10..12]
            && body[8] == bytes[12] && body[9..11] == bytes[13..15] && body[11] == bytes[15]
            && body[12..28] == bytes[16..32] && body[28..44] == bytes[32..48] && body[44..48] == bytes[48..52]
            && body[48..] == bytes[52..]
  {
  }

  /** Which bytes are accepted, as what, and which of several faults is reported. */
  lemma {:induction false} DecodeFollowsTable(bytes: seq<Byte>, checkVersion: bool)
    ensures |bytes| < 4 ==> Decode(bytes, checkVersion) == Err(TruncatedFrame)
    ensures 4 <= |bytes| < 52 ==>
        var declared := BigEndian(bytes[0..4]);
        Decode(bytes, checkVersion) == Err(if declared > 1_048_576 then FrameTooLarge(declared) else TruncatedFrame)
    ensures 52 <= |bytes| ==> Decode(bytes, checkVersion) == WireTable(bytes, checkVersion)
  {
    if 4 <= |bytes| {
      NumbersAreBigEndian(bytes[0..4]);
      assert bytes[..4] == bytes[0..4];
    }
    if 52 <= |bytes| {
      BodySlices(bytes);
      MagicBytes(bytes[4..8]);
      NumbersAreBigEndian(bytes[48..52]);
    }
  }

  /** Which frames are refused, and why. */
  lemma {:induction false} EncodeRefusesExactly(f: Frame)
    ensures Encode(f) == Err(NilMessageId) <==> AllZero(f.messageId)
    ensures Encode(f) == Err(UnsupportedFrameFlags(f.flags)) <==> !AllZero(f.messageId) && f.flags != 0
    ensures Encode(f) == Err(FrameTooLarge(48 + |f.payload|))
            <==> !AllZero(f.messageId) && f.flags == 0 && |f.payload| > 1_048_528
    ensures Encode(f).Ok? <==> !AllZero(f.messageId) && f.flags == 0 && |f.payload| <= 1_048_528
    ensures Encode(f).Ok? <==> Encodable(f)
  {
    if AllZero(f.messageId) {
      assert f.messageId == NIL;
    }
  }

  // ----- the stream -------------------------------------------------------------------------------

  /** One frame off the front of a byte stream, and the bytes left over. */
  function ReadFrame(stream: seq<Byte>, checkVersion: bool): Result<(Frame, seq<Byte>), CodecError> {
    if |stream| < PREFIX_SIZE then Err(EndOfStream)
    else
      var declared := FromBe32(stream[..PREFIX_SIZE]);
      if declared > MAX_FRAME_SIZE then Err(FrameTooLarge(declared))
      else if declared < HEADER_SIZE then Err(TruncatedFrame)
      else if |stream| < PREFIX_SIZE + declared then Err(EndOfStream)
      else
        match Decode(stream[..PREFIX_SIZE + declared], checkVersion)
        case Ok(frame) => Ok((frame, stream[PREFIX_SIZE + declared..]))
        case Err(e) => Err(e)
  }

  /** What the front of a stream is read as, by its first four bytes and its length. */
  lemma {:induction false} ReadFollowsTable(stream: seq<Byte>, checkVersion: bool)
    ensures |stream| < 4 ==> ReadFrame(stream, checkVersion) == Err(EndOfStream)
    ensures 4 <= |stream| ==>
        var declared := BigEndian(stream[0..4]);
        ReadFrame(stream, checkVersion)
        == if declared > 1_048_576 then Err(FrameTooLarge(declared))
           else if declared < 48 then Err(TruncatedFrame)
           else if |stream| < 4 + declared then Err(EndOfStream)
           else match WireTable(stream[..4 + declared], checkVersion)
                case Ok(frame) => Ok((frame, stream[4 + declared..]))
                case Err(e) => Err(e)
  {
    if 4 <= |stream| {
      NumbersAreBigEndian(stream[0..4]);
      assert stream[..4] == stream[0..4];
      var declared := BigEndian(stream[0..4]);
      if declared <= 1_048_576 && 48 <= declared && 4 + declared <= |stream| {
        DecodeFollowsTable(stream[..4 + declared], checkVersion);
      }
    }
  }

  /** Reads frames until the stream is used up. */
  function ReadAll(stream: seq<Byte>, checkVersion: bool): Result<seq<Frame>, CodecError>
    decreases |stream|
  {
    if stream == [] then Ok([])
    else
      match ReadFrame(stream, checkVersion)
      case Err(e) => Err(e)
      case Ok((frame, rest)) =>
        match ReadAll(rest, checkVersion)
        case Err(e) => Err(e)
        case Ok(frames) => Ok([frame] + frames)
  }

  function EncodeAll(frames: seq<Frame>): seq<Byte>
    requires forall f | f in frames :: Encodable(f)
  {
    if frames == [] then []
    else
      assert frames[0] in frames && Encodable(frames[0]);
      Encode(frames[0]).value + EncodeAll(frames[1..])
  }

  lemma {:induction false} ReadOfEncode(f: Frame, rest: seq<Byte>, checkVersion: bool)
    requires Encodable(f) && (checkVersion ==> f.version == CURRENT)
    ensures ReadFrame(Encode(f).value + rest, checkVersion) == Ok((Received(f), rest))
  {
    DecodeOfEncode(f, checkVersion);
    var bytes := Encode(f).value;
    BodyLayout(f);
    assert (bytes + rest)[..PREFIX_SIZE] == Be32(HEADER_SIZE + |f.payload|);
    assert (bytes + rest)[..|bytes|] == bytes;
    assert (bytes + rest)[|bytes|..] == rest;
  }

  lemma ReadAllOfLonger(f: Frame, rest: seq<Byte>, frames: seq<Frame>, checkVersion: bool)
    requires Encodable(f) && Received(f) == f && (checkVersion ==> f.version == CURRENT)
    requires ReadAll(rest, checkVersion) == Ok(frames)
    ensures ReadAll(Encode(f).value + rest, checkVersion) == Ok([f] + frames)
  {
    ReadOfEncode(f, rest, checkVersion);
    assert Encode(f).value + rest != [];
  }

  lemma EncodeAllOfLonger(f: Frame, frames: seq<Frame>)
    requires Encodable(f) && forall g | g in frames :: Encodable(g)
    ensures forall g | g in [f] + frames :: Encodable(g)
    ensures EncodeAll([f] + frames) == Encode(f).value + EncodeAll(frames)
  {
    assert ([f] + frames)[1..] == frames;
  }

  /** Reading a concatenation of encoded frames yields exactly those frames and leaves nothing over. */
  lemma {:induction false} ReadAllOfEncodeAll(frames: seq<Frame>, checkVersion: bool)
    requires forall f | f in frames :: Encodable(f)
    requires forall f | f in frames :: Received(f) == f && (checkVersion ==> f.version == CURRENT)
    ensures ReadAll(EncodeAll(frames), checkVersion) == Ok(frames)
  {
    if frames != [] {
      var f, more := frames[0], frames[1..];
      assert f in frames;
      assert frames == [f] + more;
      EncodeAllOfLonger(f, more);
      ReadAllOfEncodeAll(more, checkVersion);
      ReadAllOfLonger(f, EncodeAll(more), more, checkVersion);
    }
  }

  lemma ReadFrameFront(stream: seq<Byte>, checkVersion: bool, frame: Frame, rest: seq<Byte>) returns (front: seq<Byte>)
    requires ReadFrame(stream, checkVersion) == Ok((frame, rest))
    ensures Decode(front, checkVersion) == Ok(frame) && stream == front + rest && front != []
  {
    var end := PREFIX_SIZE + FromBe32(stream[..PREFIX_SIZE]);
    front := stream[..end];
    assert stream == stream[..end] + stream[end..];
  }

  /** What a frame was read from is its encoding and the bytes left over. */
  lemma EncodeOfReadFrame(stream: seq<Byte>, checkVersion: bool, frame: Frame, rest: seq<Byte>)
    requires ReadFrame(stream, checkVersion) == Ok((frame, rest))
    ensures Encodable(frame) && stream == Encode(frame).value + rest && |rest| < |stream|
  {
    var front := ReadFrameFront(stream, checkVersion, frame, rest);
    EncodeOfDecode(front, checkVersion);
  }

  lemma ReadAllHead(stream: seq<Byte>, checkVersion: bool) returns (frame: Frame, rest: seq<Byte>, more: seq<Frame>)
    requires stream != [] && ReadAll(stream, checkVersion).Ok?
    ensures ReadFrame(stream, checkVersion) == Ok((frame, rest))
    ensures ReadAll(rest, checkVersion) == Ok(more) && ReadAll(stream, checkVersion) == Ok([frame] + more)
  {
    var got := ReadFrame(stream, checkVersion).value;
    frame, rest := got.0, got.1;
    more := ReadAll(rest, checkVersion).value;
  }

  /** Whatever a whole stream is read as is what it was written from. */
  lemma {:induction false} EncodeAllOfReadAll(stream: seq<Byte>, checkVersion: bool, frames: seq<Frame>)
    requires ReadAll(stream, checkVersion) == Ok(frames)
    ensures (forall f | f in frames :: Encodable(f)) && EncodeAll(frames) == stream
    decreases |stream|
  {
    if stream != [] {
      var frame, rest, more := ReadAllHead(stream, checkVersion);
      EncodeOfReadFrame(stream, checkVersion, frame, rest);
      EncodeAllOfReadAll(rest, checkVersion, more);
      EncodeAllOfLonger(frame, more);
    }
  }

  // ----- the code -------------------------------------------------------------------------------

  lemma AppendingFieldsMakesFrame(f: Frame, prefix: seq<Byte>)
    requires |f.payload| < 0x1_0000_0000
    ensures prefix + Be32(MAGIC) + Be16(f.version.major) + Be16(f.version.minor) + [ClassByte(f.kind)] + Be16(f.opcode)
        + [f.flags]
            + f.messageId + CorrelationBytes(f) + Be32(|f.payload|) + f.payload == prefix + Body(f)
  {
  }

  method EncodeFrame(f: Frame) returns (r: Result<seq<Byte>, CodecError>)
    ensures r == Encode(f)
  {
    if f.messageId == NIL {
      return Err(NilMessageId);
    }
    if f.flags != 0 {
      return Err(UnsupportedFrameFlags(f.flags));
    }
    var length := HEADER_SIZE + |f.payload|;
    if length > MAX_FRAME_SIZE {
      return Err(FrameTooLarge(length));
    }
    var bytes: seq<Byte> := [];
    bytes := bytes + Be32(length);
    assert bytes == Be32(length);
    bytes := bytes + Be32(MAGIC);
    bytes := bytes + Be16(f.version.major);
    bytes := bytes + Be16(f.version.minor);
    bytes := bytes + [ClassByte(f.kind)];
    bytes := bytes + Be16(f.opcode);
    bytes := bytes + [f.flags];
    bytes := bytes + f.messageId;
    bytes := bytes + CorrelationBytes(f);
    bytes := bytes + Be32(|f.payload|);
    bytes := bytes + f.payload;
    AppendingFieldsMakesFrame(f, Be32(length));
    return Ok(bytes);
  }

  method TakeByte(body: seq<Byte>, position: nat) returns (r: Result<Byte, CodecError>, next: nat)
    ensures position + 1 <= |body| ==> r == Ok(body[position]) && next == position + 1
    ensures position + 1 > |body| ==> r == Err(TruncatedFrame)
  {
    if position >= |body| {
      return Err(TruncatedFrame), position;
    }
    return Ok(body[position]), position + 1;
  }

  method TakeU16(body: seq<Byte>, position: nat) returns (r: Result<U16, CodecError>, next: nat)
    ensures position + 2 <= |body| ==> r == Ok(FromBe16(body[position..position + 2])) && next == position + 2
    ensures position + 2 > |body| ==> r == Err(TruncatedFrame)
  {
    if position + 2 > |body| {
      return Err(TruncatedFrame), position;
    }
    return Ok(FromBe16(body[position..position + 2])), position + 2;
  }

  method TakeU32(body: seq<Byte>, position: nat) returns (r: Result<U32, CodecError>, next: nat)
    ensures position + 4 <= |body| ==> r == Ok(FromBe32(body[position..position + 4])) && next == position + 4
    ensures position + 4 > |body| ==> r == Err(TruncatedFrame)
  {
    if position + 4 > |body| {
      return Err(TruncatedFrame), position;
    }
    return Ok(FromBe32(body[position..position + 4])), position + 4;
  }

  method TakeUuid(body: seq<Byte>, position: nat) returns (r: Result<Uuid, CodecError>, next: nat)
    ensures position + 16 <= |body| ==> r == Ok(body[position..position + 16]) && next == position + 16
    ensures position + 16 > |body| ==> r == Err(TruncatedFrame)
  {
    if position + 16 > |body| {
      return Err(TruncatedFrame), position;
    }
    return Ok(body[position..position + 16]), position + 16;
  }

  /** The cursor walks the header in order and ends exactly at the payload. */
  method DecodeFrameBody(body: seq<Byte>, checkVersion: bool) returns (r: Result<Frame, CodecError>)
    ensures r == DecodeBody(body, checkVersion)
  {
    if |body| < HEADER_SIZE {
      return Err(TruncatedFrame);
    }
    var position := 0;
    var magic;
    magic, position := TakeU32(body, position);
    if magic.value != MAGIC {
      return Err(InvalidMagic);
    }
    var major, minor;
    major, position := TakeU16(body, position);
    minor, position := TakeU16(body, position);
    var version := Version(major.value, minor.value);
    if checkVersion && version != CURRENT {
      return Err(UnsupportedProtocol(version.major, version.minor));
    }
    var kind;
    kind, position := TakeByte(body, position);
    if ClassOf(kind.value).Err? {
      return Err(UnknownMessageClass(kind.value));
    }
    var opcode, flags;
    opcode, position := TakeU16(body, position);
    flags, position := TakeByte(body, position);
    if flags.value != 0 {
      return Err(UnsupportedFrameFlags(flags.value));
    }
    var messageId, correlation;
    messageId, position := TakeUuid(body, position);
    if messageId.value == NIL {
      return Err(NilMessageId);
    }
    correlation, position := TakeUuid(body, position);
    var length;
    length, position := TakeU32(body, position);
    assert position == HEADER_SIZE;
    if HEADER_SIZE + length.value != |body| {
      return Err(InvalidFrameLength);
    }
    return Ok(Frame(version, ClassOf(kind.value).value, opcode.value, flags.value, messageId.value,
                    if correlation.value == NIL then None else Some(correlation.value), body[HEADER_SIZE..]));
  }

  /** Reads a whole stream frame by frame; `rest` is what a failed read had in front of it. */
  method ReadFrames(stream: seq<Byte>, checkVersion: bool) returns (r: Result<seq<Frame>, CodecError>)
    ensures r == ReadAll(stream, checkVersion)
  {
    var frames: seq<Frame> := [];
    var rest := stream;
    assert forall more: seq<Frame> :: [] + more == more;
    while rest != []
      invariant ReadAll(stream, checkVersion)
                == match ReadAll(rest, checkVersion)
                   case Ok(more) => Ok(frames + more)
                   case Err(e) => Err(e)
      decreases |rest|
    {
      var next := ReadFrame(rest, checkVersion);
      if next.Err? {
        return Err(next.error);
      }
      ghost var before := frames;
      frames := frames + [next.value.0];
      assert forall more: seq<Frame> :: before + ([next.value.0] + more) == frames + more;
      rest := next.value.1;
    }
    assert frames + [] == frames;
    return Ok(frames);
  }
}
