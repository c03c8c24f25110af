/** Length-prefixed frames: a big-endian u32 length, a big-endian u16 opcode, the payload. */
module FrameCodec {
  import opened Prelude

  newtype byte = x: int | 0 <= x < 256

  const LENGTH_PREFIX_BYTES := 4
  const OPCODE_BYTES := 2
  const MIN_FRAME_LEN := OPCODE_BYTES
  const U32 := 0x1_0000_0000
  const U16 := 0x1_0000

  type Opcode = x: int | 0 <= x < U16

  datatype Frame = Frame(opcode: Opcode, payload: seq<byte>)

  datatype NetError = FrameTooLarge(declared: nat, max: nat) | Malformed | UnexpectedEof

  function WireLen(frame: Frame): nat {
    OPCODE_BYTES + |frame.payload|
  }

  /** The `count` low-order bytes of a number, most significant first. */
  function BigEndianBytes(n: nat, count: nat): (bytes: seq<byte>)
    ensures |bytes| == count
  {
    if count == 0 then [] else BigEndianBytes(n / 256, count - 1) + [(n % 256) as byte]
  }

  function BigEndian(bytes: seq<byte>): (n: nat)
    ensures n < Power(|bytes|)
    decreases |bytes|
  {
    if bytes == [] then 0 else BigEndian(bytes[..|bytes| - 1]) * 256 + bytes[|bytes| - 1] as int
  }

  /** The numbers that fit in `count` bytes are those below this. */
  function Power(count: nat): nat {
    if count == 0 then 1 else 256 * Power(count - 1)
  }

  /** The length prefix, after an `as u32` cast that keeps the low 32 bits. */
  function LengthBytes(n: nat): (bytes: seq<byte>)
    ensures |bytes| == LENGTH_PREFIX_BYTES
  {
    BigEndianBytes(n % 0x1_0000_0000, LENGTH_PREFIX_BYTES)
  }

  function BigEndian32(bytes: seq<byte>): (n: nat)
    requires |bytes| == LENGTH_PREFIX_BYTES
    ensures n < U32
  {
    Powers();
    BigEndian(bytes)
  }

  function OpcodeBytes(code: Opcode): (bytes: seq<byte>)
    ensures |bytes| == OPCODE_BYTES
  {
    BigEndianBytes(code, OPCODE_BYTES)
  }

  function BigEndian16(bytes: seq<byte>): Opcode
    requires |bytes| == OPCODE_BYTES
  {
    Powers();
    BigEndian(bytes)
  }

  lemma Powers()
    ensures Power(OPCODE_BYTES) == U16 && Power(LENGTH_PREFIX_BYTES) == U32
  {
    assert Power(1) == 256 * Power(0);
    assert Power(2) == 256 * Power(1);
    assert Power(3) == 256 * Power(2);
  }

  /** The bytes written for a frame, whatever its size. */
  function WireBytes(frame: Frame): seq<byte> {
    LengthBytes(WireLen(frame)) + OpcodeBytes(frame.opcode) + frame.payload
  }

  function EncodeFrame(frame: Frame, max: nat): Result<seq<byte>, NetError> {
    if WireLen(frame) > max then Err(FrameTooLarge(WireLen(frame), max))
    else if WireLen(frame) < MIN_FRAME_LEN then Err(Malformed)
    else Ok(WireBytes(frame))
  }

  function DecodeWireLen(prefix: seq<byte>, max: nat): Result<nat, NetError>
    requires |prefix| == LENGTH_PREFIX_BYTES
  {
    var declared := BigEndian32(prefix);
    if declared < MIN_FRAME_LEN then Err(Malformed)
    else if declared > max then Err(FrameTooLarge(declared, max))
    else Ok(declared)
  }

  /** What one `read_frame` finds at the head of the bytes that are left before end of stream. */
  datatype Read = End | Failed(error: NetError) | Got(frame: Frame, used: nat)

  function ReadHead(bytes: seq<byte>, max: nat): (r: Read)
    ensures r.Got? ==> LENGTH_PREFIX_BYTES + OPCODE_BYTES <= r.used <= |bytes|
  {
    if |bytes| < LENGTH_PREFIX_BYTES then End
    else match DecodeWireLen(bytes[..LENGTH_PREFIX_BYTES], max)
      case Err(e) => Failed(e)
      case Ok(len) =>
        if |bytes| < LENGTH_PREFIX_BYTES + len then Failed(UnexpectedEof)
        else Got(Frame(BigEndian16(bytes[LENGTH_PREFIX_BYTES..LENGTH_PREFIX_BYTES + OPCODE_BYTES]),
                       bytes[LENGTH_PREFIX_BYTES + OPCODE_BYTES..LENGTH_PREFIX_BYTES + len]),
                 LENGTH_PREFIX_BYTES + len)
  }

  /** The frames a reader gets by calling `read_frame` until it ends or fails, and the bytes it did not use. */
  datatype Parsed = Parsed(frames: seq<Frame>, rest: seq<byte>, ending: Read)

  function Parse(bytes: seq<byte>, max: nat): Parsed
    decreases |bytes|
  {
    match ReadHead(bytes, max)
    case Got(frame, used) =>
      var tail := Parse(bytes[used..], max);
      Parsed([frame] + tail.frames, tail.rest, tail.ending)
    case stop => Parsed([], bytes, stop)
  }

  function Wire(frames: seq<Frame>): seq<byte>
    decreases |frames|
  {
    if frames == [] then [] else WireBytes(frames[0]) + Wire(frames[1..])
  }

  predicate Legal(frame: Frame, max: nat) {
    WireLen(frame) <= max
  }

  // ---- Numbers ----

  lemma {:induction false} BytesRoundTrip(n: nat, count: nat)
    requires n < Power(count)
    ensures BigEndian(BigEndianBytes(n, count)) == n
  {
    if count > 0 {
      var bytes := BigEndianBytes(n, count);
      BytesRoundTrip(n / 256, count - 1);
      assert bytes[..count - 1] == BigEndianBytes(n / 256, count - 1);
    }
  }

  lemma {:induction false} BytesDetermined(bytes: seq<byte>)
    ensures BigEndianBytes(BigEndian(bytes), |bytes|) == bytes
    decreases |bytes|
  {
    if bytes != [] {
      var front, last := bytes[..|bytes| - 1], bytes[|bytes| - 1];
      BytesDetermined(front);
      assert BigEndian(bytes) / 256 == BigEndian(front) && BigEndian(bytes) % 256 == last as int;
    }
  }

  lemma LengthRoundTrip(n: nat)
    ensures BigEndian32(LengthBytes(n)) == n % 0x1_0000_0000
    ensures n < U32 ==> BigEndian32(LengthBytes(n)) == n
  {
    Powers();
    BytesRoundTrip(n % 0x1_0000_0000, LENGTH_PREFIX_BYTES);
  }

  lemma LengthDetermined(bytes: seq<byte>)
    requires |bytes| == LENGTH_PREFIX_BYTES
    ensures LengthBytes(BigEndian32(bytes)) == bytes
  {
    BytesDetermined(bytes);
  }

  lemma OpcodeRoundTrip(code: Opcode)
    ensures BigEndian16(OpcodeBytes(code)) == code
  {
    Powers();
    BytesRoundTrip(code, OPCODE_BYTES);
  }

  lemma OpcodeDetermined(bytes: seq<byte>)
    requires |bytes| == OPCODE_BYTES
    ensures OpcodeBytes(BigEndian16(bytes)) == bytes
  {
    BytesDetermined(bytes);
  }

  // ---- One frame ----

  /** Whatever follows it, a legal frame reads back as itself, provided its length fits the prefix. */
  lemma ReadBack(frame: Frame, max: nat, more: seq<byte>)
    requires Legal(frame, max) && WireLen(frame) < U32
    ensures ReadHead(WireBytes(frame) + more, max) == Got(frame, |WireBytes(frame)|)
  {
    var bytes := WireBytes(frame) + more;
    LengthRoundTrip(WireLen(frame));
    OpcodeRoundTrip(frame.opcode);
    assert bytes[..LENGTH_PREFIX_BYTES] == LengthBytes(WireLen(frame));
    assert bytes[LENGTH_PREFIX_BYTES..LENGTH_PREFIX_BYTES + OPCODE_BYTES] == OpcodeBytes(frame.opcode);
    assert bytes[LENGTH_PREFIX_BYTES + OPCODE_BYTES..LENGTH_PREFIX_BYTES + WireLen(frame)] == frame.payload;
  }

  /** An encoded frame reads back as itself if and only if its length fits the four-byte prefix. */
  lemma ReadBackIffItFits(frame: Frame, max: nat)
    requires EncodeFrame(frame, max).Ok?
    ensures ReadHead(EncodeFrame(frame, max).value, max) == Got(frame, |WireBytes(frame)|) <==> WireLen(frame) < U32
  {
    var bytes := WireBytes(frame);
    if WireLen(frame) < U32 {
      ReadBack(frame, max, []);
      assert bytes + [] == bytes;
    } else {
      LengthRoundTrip(WireLen(frame));
      assert bytes[..LENGTH_PREFIX_BYTES] == LengthBytes(WireLen(frame));
    }
  }

  /** A frame one byte too long for the prefix declares length zero, and is refused by the reader it was written for. */
  lemma OverlongFrameIsMisread(max: nat)
    requires max >= U32
    ensures var frame := Frame(0, seq(0xFFFF_FFFE, _ => 0));
            && EncodeFrame(frame, max).Ok?
            && ReadHead(EncodeFrame(frame, max).value, max) == Failed(Malformed)
  {
    var frame := Frame(0, seq(0xFFFF_FFFE, _ => 0));
    LengthRoundTrip(WireLen(frame));
    assert WireBytes(frame)[..LENGTH_PREFIX_BYTES] == LengthBytes(WireLen(frame));
  }

  /** A frame that was read is exactly what its bytes encode, and it was legal. */
  lemma ReadIsExact(bytes: seq<byte>, max: nat)
    requires ReadHead(bytes, max).Got?
    ensures var r := ReadHead(bytes, max); WireBytes(r.frame) == bytes[..r.used] && Legal(r.frame, max)
  {
    var r := ReadHead(bytes, max);
    var prefix := bytes[..LENGTH_PREFIX_BYTES];
    var code := bytes[LENGTH_PREFIX_BYTES..LENGTH_PREFIX_BYTES + OPCODE_BYTES];
    LengthDetermined(prefix);
    OpcodeDetermined(code);
    assert WireLen(r.frame) == BigEndian32(prefix);
    assert bytes[..r.used] == prefix + code + r.frame.payload;
  }

  // ---- Whole streams ----

  ghost predicate AllLegal(frames: seq<Frame>, max: nat) {
    forall i :: 0 <= i < |frames| ==> Legal(frames[i], max)
  }

  ghost predicate AllFit(frames: seq<Frame>) {
    forall i :: 0 <= i < |frames| ==> WireLen(frames[i]) < U32
  }

  /** Why a reader stopped, told from the bytes it left unused. */
  ghost predicate StopsBecause(rest: seq<byte>, max: nat, ending: Read) {
    if |rest| < LENGTH_PREFIX_BYTES then ending == End
    else
      var declared := BigEndian32(rest[..LENGTH_PREFIX_BYTES]);
      if declared < MIN_FRAME_LEN then ending == Failed(Malformed)
      else if declared > max then ending == Failed(FrameTooLarge(declared, max))
      else ending == Failed(UnexpectedEof) && |rest| < LENGTH_PREFIX_BYTES + declared
  }

  lemma StoppedBecause(bytes: seq<byte>, max: nat)
    requires !ReadHead(bytes, max).Got?
    ensures StopsBecause(bytes, max, ReadHead(bytes, max))
  {
  }

  lemma ParseStep(bytes: seq<byte>, max: nat)
    requires ReadHead(bytes, max).Got?
    ensures var r := ReadHead(bytes, max); Parse(bytes, max) == Prepend([r.frame], Parse(bytes[r.used..], max))
  {
  }

  lemma Rejoin(bytes: seq<byte>, used: nat, head: seq<byte>, middle: seq<byte>, rest: seq<byte>)
    requires used <= |bytes| && head == bytes[..used] && bytes[used..] == middle + rest
    ensures bytes == (head + middle) + rest
  {
    assert bytes == bytes[..used] + bytes[used..];
  }

  lemma ParseStepIsExact(bytes: seq<byte>, max: nat)
    requires ReadHead(bytes, max).Got?
    requires var r := ReadHead(bytes, max); var tail := Parse(bytes[r.used..], max);
             bytes[r.used..] == Wire(tail.frames) + tail.rest && AllLegal(tail.frames, max)
    ensures bytes == Wire(Parse(bytes, max).frames) + Parse(bytes, max).rest && AllLegal(Parse(bytes, max).frames, max)
  {
    var r := ReadHead(bytes, max);
    var tail := Parse(bytes[r.used..], max);
    ParseStep(bytes, max);
    ReadIsExact(bytes, max);
    WireCons(r.frame, tail.frames);
    Rejoin(bytes, r.used, WireBytes(r.frame), Wire(tail.frames), tail.rest);
  }

  /** For every byte stream: the frames read are legal and encode exactly the bytes used up; the reader ends
      quietly only with fewer than four bytes left, and otherwise what is left declares a bad length or has
      a truncated body. */
  lemma {:induction false} ParseIsExact(bytes: seq<byte>, max: nat)
    ensures bytes == Wire(Parse(bytes, max).frames) + Parse(bytes, max).rest
    ensures AllLegal(Parse(bytes, max).frames, max)
    ensures StopsBecause(Parse(bytes, max).rest, max, Parse(bytes, max).ending)
    decreases |bytes|
  {
    var r := ReadHead(bytes, max);
    if r.Got? {
      ParseIsExact(bytes[r.used..], max);
      ParseStep(bytes, max);
      ParseStepIsExact(bytes, max);
    } else {
      StoppedBecause(bytes, max);
    }
  }

  lemma WireCons(frame: Frame, frames: seq<Frame>)
    ensures Wire([frame] + frames) == WireBytes(frame) + Wire(frames)
  {
    assert ([frame] + frames)[1..] == frames;
  }

  function Prepend(frames: seq<Frame>, p: Parsed): Parsed {
    p.(frames := frames + p.frames)
  }

  lemma ParseAfterFrame(frame: Frame, after: seq<byte>, max: nat)
    requires Legal(frame, max) && WireLen(frame) < U32
    ensures Parse(WireBytes(frame) + after, max) == Prepend([frame], Parse(after, max))
  {
    ReadBack(frame, max, after);
    assert (WireBytes(frame) + after)[|WireBytes(frame)|..] == after;
  }

  /** Encoded legal frames read back as themselves; bytes after them are parsed as if they stood alone. */
  lemma {:induction false} ParseAfterFrames(frames: seq<Frame>, more: seq<byte>, max: nat)
    requires AllLegal(frames, max) && AllFit(frames)
    ensures Parse(Wire(frames) + more, max) == Prepend(frames, Parse(more, max))
    decreases |frames|
  {
    if frames == [] {
      assert Wire(frames) + more == more;
    } else {
      var tail := frames[1..];
      ParseAfterFrames(tail, more, max);
      ParseAfterFrame(frames[0], Wire(tail) + more, max);
      assert (WireBytes(frames[0]) + Wire(tail)) + more == WireBytes(frames[0]) + (Wire(tail) + more) by {
        Regroup(WireBytes(frames[0]), Wire(tail), more);
      }
      PrependTwice(frames, Parse(more, max));
    }
  }

  lemma Regroup(a: seq<byte>, b: seq<byte>, c: seq<byte>)
    ensures (a + b) + c == a + (b + c)
  {
  }

  lemma PrependTwice(frames: seq<Frame>, p: Parsed)
    requires frames != []
    ensures Prepend([frames[0]], Prepend(frames[1..], p)) == Prepend(frames, p)
  {
    assert [frames[0]] + (frames[1..] + p.frames) == frames + p.frames;
  }

  /** A frame cut short is never mistaken for a frame. */
  lemma CutFrameIsUnread(frame: Frame, cut: nat, max: nat)
    requires Legal(frame, max) && WireLen(frame) < U32 && cut < |WireBytes(frame)|
    ensures Parse(WireBytes(frame)[..cut], max).frames == []
  {
    var bytes := WireBytes(frame)[..cut];
    if cut >= LENGTH_PREFIX_BYTES {
      LengthRoundTrip(WireLen(frame));
      assert bytes[..LENGTH_PREFIX_BYTES] == LengthBytes(WireLen(frame));
    }
  }

  lemma WireConcat(a: seq<Frame>, b: seq<Frame>)
    ensures Wire(a + b) == Wire(a) + Wire(b)
    decreases |a|
  {
    if a == [] {
      assert a + b == b;
    } else {
      assert (a + b)[1..] == a[1..] + b;
      WireConcat(a[1..], b);
    }
  }

  // ---- The reader as the program runs it ----

  class ByteStream {
    const bytes: seq<byte>
    var pos: nat

    ghost predicate Valid()
      reads this
    {
      pos <= |bytes|
    }

    ghost function Left(): seq<byte>
      requires Valid()
      reads this
    {
      bytes[pos..]
    }

    constructor (bytes: seq<byte>)
      ensures Valid() && Left() == bytes
    {
      this.bytes := bytes;
      pos := 0;
    }

    /** `read_exact`: all the bytes asked for, or end of stream with the rest consumed. */
    method ReadExact(n: nat) returns (chunk: Option<seq<byte>>)
      requires Valid()
      modifies this
      ensures Valid()
      ensures chunk.Some? <==> n <= |old(Left())|
      ensures chunk.Some? ==> chunk.value == old(Left())[..n] && Left() == old(Left())[n..]
      ensures chunk.None? ==> Left() == []
    {
      if n <= |bytes| - pos {
        chunk := Some(bytes[pos..pos + n]);
        pos := pos + n;
      } else {
        chunk := None;
        pos := |bytes|;
      }
    }

    method ReadFrame(max: nat) returns (r: Result<Option<Frame>, NetError>)
      requires Valid()
      modifies this
      ensures Valid()
      ensures match ReadHead(old(Left()), max)
              case End => r == Ok(None)
              case Failed(e) => r == Err(e)
              case Got(frame, used) => r == Ok(Some(frame)) && Left() == old(Left())[used..]
    {
      ghost var start := Left();
      var prefix := ReadExact(LENGTH_PREFIX_BYTES);
      if prefix.None? {
        return Ok(None);
      }
      var len := DecodeWireLen(prefix.value, max);
      if len.Err? {
        return Err(len.error);
      }
      var code := ReadExact(OPCODE_BYTES);
      if code.None? {
        return Err(UnexpectedEof);
      }
      var payload := ReadExact(len.value - OPCODE_BYTES);
      if payload.None? {
        return Err(UnexpectedEof);
      }
      assert code.value == start[LENGTH_PREFIX_BYTES..LENGTH_PREFIX_BYTES + OPCODE_BYTES];
      assert payload.value == start[LENGTH_PREFIX_BYTES + OPCODE_BYTES..LENGTH_PREFIX_BYTES + len.value];
      assert Left() == start[LENGTH_PREFIX_BYTES + len.value..];
      r := Ok(Some(Frame(BigEndian16(code.value), payload.value)));
    }

    /** A reader's loop: frames until the stream ends or fails. */
    method ReadAll(max: nat) returns (frames: seq<Frame>, error: Option<NetError>)
      requires Valid()
      modifies this
      ensures Valid()
      ensures var p := Parse(old(Left()), max);
              frames == p.frames && error == if p.ending.Failed? then Some(p.ending.error) else None
    {
      frames := [];
      ghost var all := Parse(Left(), max);
      while true
        invariant Valid()
        invariant var p := Parse(Left(), max); all.frames == frames + p.frames && all.ending == p.ending
        decreases |Left()|
      {
        var r := ReadFrame(max);
        match r {
          case Ok(None) => return frames, None;
          case Err(e) => return frames, Some(e);
          case Ok(Some(frame)) => frames := frames + [frame];
        }
      }
    }
  }
}
