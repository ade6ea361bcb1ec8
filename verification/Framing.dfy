/**
 Length-prefixed frames: `src/protocol/framing.rs`, and the reader of control frames in
 `src/bin/neoshd.rs` on top of it.
 */
module Framing {
  import opened Wrappers

  const U32: nat := 0x1_0000_0000
  const MAX_CONTROL_FRAME: nat := 64 * 1024

  datatype FramingError = TooShort | LengthMismatch | TooLarge

  /** `(n as u32).to_be_bytes()`: the cast keeps the low 32 bits. */
  function BigEndian(n: nat): (r: Bytes)
    ensures |r| == 4
  {
    [n / 0x100_0000 % 256, n / 0x1_0000 % 256, n / 0x100 % 256, n % 256]
  }

  /** `u32::from_be_bytes`. */
  function FromBigEndian(b: Bytes): (n: nat)
    requires |b| == 4
    ensures n < U32
  {
    (b[0] as int) * 0x100_0000 + (b[1] as int) * 0x1_0000 + (b[2] as int) * 0x100 + b[3]
  }

  function Frame(payload: Bytes): Bytes {
    BigEndian(|payload|) + payload
  }

  method EncodeFrame(payload: Bytes) returns (out: Bytes)
    ensures out == Frame(payload)
  {
    var len := BigEndian(|payload|);
    out := [];
    out := out + len;
    out := out + payload;
  }

  function DecodeFrame(buf: Bytes, maxPayloadLen: nat): Result<Bytes, FramingError> {
    if |buf| < 4 then Failure(TooShort)
    else
      var payloadLen := FromBigEndian(buf[..4]);
      if payloadLen > maxPayloadLen then Failure(TooLarge)
      else if |buf| != 4 + payloadLen then Failure(LengthMismatch)
      else Success(buf[4..])
  }

  /** The first byte is the most significant one, and the cast to 32 bits drops what is above. */
  lemma MostSignificantFirst(n: nat)
    ensures var b := BigEndian(n);
            (b[0] as int) * 16777216 + (b[1] as int) * 65536 + (b[2] as int) * 256 + b[3] == n % 4294967296
  {
    DigitsOf(n);
  }

  lemma DigitsOf(n: nat)
    ensures FromBigEndian(BigEndian(n)) == n % U32
  {
    var q0 := n / 0x100;
    var q1 := n / 0x1_0000;
    var q2 := n / 0x100_0000;
    assert n == 0x100 * q0 + n % 0x100;
    assert q0 == 0x100 * q1 + q0 % 0x100;
    assert q1 == 0x100 * q2 + q1 % 0x100;
    var low := q2 % 256 * 0x100_0000 + q1 % 256 * 0x1_0000 + q0 % 256 * 0x100 + n % 256;
    assert n == U32 * (q2 / 256) + low;
    Remainder(n, q2 / 256, low);
  }

  lemma Remainder(n: nat, q: nat, r: nat)
    requires n == U32 * q + r && r < U32
    ensures n % U32 == r
  {
  }

  lemma DigitsBack(b: Bytes)
    requires |b| == 4
    ensures BigEndian(FromBigEndian(b)) == b
  {
    var n := FromBigEndian(b);
    assert n / 0x100 == (b[0] as int) * 0x1_0000 + (b[1] as int) * 0x100 + b[2];
    assert n / 0x1_0000 == (b[0] as int) * 0x100 + b[1];
    assert n / 0x100_0000 == b[0];
  }

  /** A frame decodes to its payload exactly when the payload is within the limit and its length fits 32 bits. */
  lemma DecodeAfterEncode(payload: Bytes, maxPayloadLen: nat)
    ensures DecodeFrame(Frame(payload), maxPayloadLen) == Success(payload) <==>
              |payload| < U32 && |payload| <= maxPayloadLen
    ensures DecodeFrame(Frame(payload), maxPayloadLen).Success? ==>
              DecodeFrame(Frame(payload), maxPayloadLen) == Success(payload)
  {
    DigitsOf(|payload|);
    assert Frame(payload)[..4] == BigEndian(|payload|);
    assert Frame(payload)[4..] == payload;
  }

  /** Whatever decodes is the frame of what it decodes to: no two buffers stand for one payload. */
  lemma EncodeAfterDecode(buf: Bytes, maxPayloadLen: nat)
    requires DecodeFrame(buf, maxPayloadLen).Success?
    ensures Frame(DecodeFrame(buf, maxPayloadLen).value) == buf
  {
    DigitsBack(buf[..4]);
    assert buf == buf[..4] + buf[4..];
  }

  /** Which buffers are refused, and why: too short for a length, a length over the limit, a length that is wrong. */
  lemma DecodeRefuses(buf: Bytes, maxPayloadLen: nat)
    ensures var r := DecodeFrame(buf, maxPayloadLen);
            && (r == Failure(TooShort) <==> |buf| < 4)
            && (|buf| >= 4 ==>
                  var n := (buf[0] as int) * 16777216 + (buf[1] as int) * 65536 + (buf[2] as int) * 256 + buf[3];
                  && (r == Failure(TooLarge) <==> n > maxPayloadLen)
                  && (r == Failure(LengthMismatch) <==> n <= maxPayloadLen && |buf| - 4 != n))
  {
  }

  // ---------------------------------------------------------------- the reader

  datatype ReadError = LengthTruncated | ControlFrameTooLarge | PayloadTruncated | DecodeFailed

  /** A receive stream: the bytes that are still to come. A short read uses them all up. */
  class RecvStream {
    var rest: Bytes

    constructor (bytes: Bytes)
      ensures rest == bytes
    {
      rest := bytes;
    }

    method ReadExact(n: nat) returns (r: Option<Bytes>)
      modifies this
      ensures if n <= |old(rest)| then r == Some(old(rest)[..n]) && rest == old(rest)[n..]
              else r == None && rest == []
    {
      if n <= |rest| {
        r := Some(rest[..n]);
        rest := rest[n..];
      } else {
        r := None;
        rest := [];
      }
    }

    method ReadControlFrame() returns (r: Result<Bytes, ReadError>)
      modifies this
      ensures (r, rest) == ReadFrame(old(rest))
    {
      ghost var all := rest;
      var lenBuf := ReadExact(4);
      if lenBuf.None? {
        return Failure(LengthTruncated);
      }
      var payloadLen := FromBigEndian(lenBuf.value);
      if payloadLen > MAX_CONTROL_FRAME {
        return Failure(ControlFrameTooLarge);
      }
      var payload := ReadExact(payloadLen);
      if payload.None? {
        return Failure(PayloadTruncated);
      }
      var frame := lenBuf.value + payload.value;
      assert frame[..4] == lenBuf.value && frame[4..] == payload.value;
      assert all[4 + payloadLen..] == rest;
      assert all[4..4 + payloadLen] == payload.value;
      match DecodeFrame(frame, MAX_CONTROL_FRAME) {
        case Failure(_) => r := Failure(DecodeFailed);
        case Success(decoded) => r := Success(decoded);
      }
    }
  }

  /** One read, on the bytes to come: what is read, and what is left. */
  function ReadFrame(s: Bytes): (Result<Bytes, ReadError>, Bytes) {
    if |s| < 4 then (Failure(LengthTruncated), [])
    else
      var payloadLen := FromBigEndian(s[..4]);
      if payloadLen > MAX_CONTROL_FRAME then (Failure(ControlFrameTooLarge), s[4..])
      else if |s| < 4 + payloadLen then (Failure(PayloadTruncated), [])
      else (Success(s[4..4 + payloadLen]), s[4 + payloadLen..])
  }

  /** Reads until one fails: the payloads, and why it stopped. */
  function ReadAll(s: Bytes): (seq<Bytes>, ReadError)
    decreases |s|
  {
    match ReadFrame(s).0
    case Failure(e) => ([], e)
    case Success(p) => var (ps, e) := ReadAll(ReadFrame(s).1); ([p] + ps, e)
  }

  /** The frames of a list of payloads, one after the other. */
  function Stream(payloads: seq<Bytes>): Bytes {
    if payloads == [] then [] else Frame(payloads[0]) + Stream(payloads[1..])
  }

  predicate Small(payloads: seq<Bytes>) {
    forall i :: 0 <= i < |payloads| ==> |payloads[i]| <= MAX_CONTROL_FRAME
  }

  /** A frame at the head of a stream, taken apart. */
  lemma FrameParts(p: Bytes, t: Bytes)
    ensures var s := Frame(p) + t;
            && |s| == 4 + |p| + |t| && s[..4] == BigEndian(|p|)
            && s[4..] == p + t && s[4..4 + |p|] == p && s[4 + |p|..] == t
  {
    var s := Frame(p) + t;
    assert s == BigEndian(|p|) + (p + t);
  }

  lemma ReadOneFrame(p: Bytes, t: Bytes)
    requires |p| <= MAX_CONTROL_FRAME
    ensures ReadFrame(Frame(p) + t) == (Success(p), t)
  {
    DigitsOf(|p|);
    FrameParts(p, t);
  }

  lemma ReadTooLarge(p: Bytes, t: Bytes)
    requires MAX_CONTROL_FRAME < |p| < 0x1_0000_0000
    ensures ReadFrame(Frame(p) + t) == (Failure(ControlFrameTooLarge), p + t)
  {
    DigitsOf(|p|);
    FrameParts(p, t);
  }

  lemma ReadAllStep(p: Bytes, t: Bytes)
    requires |p| <= MAX_CONTROL_FRAME
    ensures ReadAll(Frame(p) + t) == ([p] + ReadAll(t).0, ReadAll(t).1)
  {
    ReadOneFrame(p, t);
  }

  lemma Prepend(p: Bytes, ps: seq<Bytes>, qs: seq<Bytes>)
    requires ps != [] && ps[0] == p
    ensures [p] + (ps[1..] + qs) == ps + qs
  {
  }

  /** Repeated reading undoes repeated writing, whatever follows. */
  lemma {:induction false} ReadAllFrames(payloads: seq<Bytes>, t: Bytes)
    requires Small(payloads)
    ensures ReadAll(Stream(payloads) + t) == (payloads + ReadAll(t).0, ReadAll(t).1)
  {
    if payloads == [] {
      assert Stream(payloads) + t == t && payloads + ReadAll(t).0 == ReadAll(t).0;
    } else {
      Regroup(Frame(payloads[0]), Stream(payloads[1..]), t);
      ReadAllStep(payloads[0], Stream(payloads[1..]) + t);
      ReadAllFrames(payloads[1..], t);
      Prepend(payloads[0], payloads, ReadAll(t).0);
    }
  }

  /** The number of frames that lie whole in the first `n` bytes. */
  function Whole(payloads: seq<Bytes>, n: nat): (k: nat)
    ensures k <= |payloads|
  {
    if payloads == [] || n < 4 + |payloads[0]| then 0 else 1 + Whole(payloads[1..], n - 4 - |payloads[0]|)
  }

  lemma ReadCutFrame(p: Bytes, n: nat)
    requires |p| <= MAX_CONTROL_FRAME && n < 4 + |p|
    ensures ReadFrame(Frame(p)[..n]).0 == Failure(if n < 4 then LengthTruncated else PayloadTruncated)
  {
    DigitsOf(|p|);
    if n >= 4 {
      assert Frame(p)[..n][..4] == BigEndian(|p|);
    }
  }

  /** A stream cut short anywhere yields the frames that are whole, and then a truncation error. */
  lemma {:induction false} TruncatedStream(payloads: seq<Bytes>, n: nat)
    requires Small(payloads) && n <= |Stream(payloads)|
    ensures var (got, why) := ReadAll(Stream(payloads)[..n]);
            && got == payloads[..Whole(payloads, n)]
            && why in {LengthTruncated, PayloadTruncated}
            && (got == payloads <==> n == |Stream(payloads)|)
  {
    var s := Stream(payloads);
    if payloads != [] {
      var p, rest := payloads[0], payloads[1..];
      assert |Frame(p)| == 4 + |p|;
      if n < 4 + |p| {
        assert s[..n] == Frame(p)[..n];
        ReadCutFrame(p, n);
      } else {
        var m := n - 4 - |p|;
        assert s[..n] == Frame(p) + Stream(rest)[..m];
        ReadOneFrame(p, Stream(rest)[..m]);
        TruncatedStream(rest, m);
        assert payloads == [p] + rest;
        assert payloads[..1 + Whole(rest, m)] == [p] + rest[..Whole(rest, m)];
        if ReadAll(s[..n]).0 == payloads {
          assert ReadAll(s[..n]).0[1..] == rest;
        }
      }
    }
  }

  /** A successful read took one frame off the front. */
  lemma ReadFrameSound(s: Bytes)
    requires ReadFrame(s).0.Success?
    ensures |ReadFrame(s).0.value| <= MAX_CONTROL_FRAME
    ensures s == Frame(ReadFrame(s).0.value) + ReadFrame(s).1
  {
    var n := FromBigEndian(s[..4]);
    DigitsBack(s[..4]);
    assert s == (s[..4] + s[4..4 + n]) + s[4 + n..];
  }

  lemma StreamStep(p: Bytes, more: seq<Bytes>, t: Bytes)
    ensures Stream([p] + more) + t == Frame(p) + (Stream(more) + t)
  {
    assert ([p] + more)[1..] == more;
    Regroup(Frame(p), Stream(more), t);
  }

  /** What is read of any bytes at all: their frames, up to the first place where there is none. */
  lemma {:induction false} ReadAllSound(s: Bytes) returns (t: Bytes)
    ensures Small(ReadAll(s).0)
    ensures s == Stream(ReadAll(s).0) + t && ReadFrame(t).0 == Failure(ReadAll(s).1)
    decreases |s|
  {
    if ReadFrame(s).0.Failure? {
      t := s;
      assert [] + t == s;
    } else {
      ReadFrameSound(s);
      t := ReadAllSound(ReadFrame(s).1);
      StreamStep(ReadFrame(s).0.value, ReadAll(ReadFrame(s).1).0, t);
    }
  }

  /** After the reader's own checks, the inner `decode_frame` cannot fail. */
  lemma InnerDecodeSucceeds(s: Bytes)
    requires |s| >= 4 && FromBigEndian(s[..4]) <= MAX_CONTROL_FRAME && |s| >= 4 + FromBigEndian(s[..4])
    ensures var n := FromBigEndian(s[..4]);
            DecodeFrame(s[..4] + s[4..4 + n], MAX_CONTROL_FRAME) == Success(s[4..4 + n])
    ensures ReadFrame(s).0 == Success(s[4..4 + FromBigEndian(s[..4])])
  {
    var n := FromBigEndian(s[..4]);
    var frame := s[..4] + s[4..4 + n];
    assert frame[..4] == s[..4] && frame[4..] == s[4..4 + n];
  }
}
