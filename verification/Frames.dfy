/** The frame codec: header layout, encoder, and the reading discipline of the receive loop. */
module Frames {
  import opened Bytes

  const CMD_WASTE: byte := 0
  const CMD_SYN: byte := 1
  const CMD_PSH: byte := 2
  const CMD_FIN: byte := 3
  const CMD_SETTINGS: byte := 4
  const CMD_ALERT: byte := 5
  const CMD_UPDATE_PADDING_SCHEME: byte := 6
  const CMD_SYNACK: byte := 7
  const CMD_HEART_REQUEST: byte := 8
  const CMD_HEART_RESPONSE: byte := 9
  const CMD_SERVER_SETTINGS: byte := 10

  const HEADER: nat := 7

  datatype Frame = Frame(cmd: byte, sid: nat, data: bytes)

  /** Only these commands make the receive loop read `Length()` more bytes. */
  predicate TakesBody(cmd: byte) {
    || cmd == CMD_WASTE || cmd == CMD_PSH || cmd == CMD_SETTINGS || cmd == CMD_ALERT
    || cmd == CMD_UPDATE_PADDING_SCHEME || cmd == CMD_SYNACK || cmd == CMD_SERVER_SETTINGS
  }

  predicate WellFormed(f: Frame) {
    && f.sid < U32_LIMIT
    && |f.data| < U16_LIMIT
    && (f.data != [] ==> TakesBody(f.cmd))
  }

  predicate AllWellFormed(fs: seq<Frame>) {
    forall i :: 0 <= i < |fs| ==> WellFormed(fs[i])
  }

  /** The header bytes. The conversions `uint32(sid)` and `uint16(length)` drop the high bits. */
  function Header(cmd: byte, sid: nat, length: nat): (h: bytes)
    ensures |h| == HEADER
  {
    [cmd] + Spelled(sid, 4) + Spelled(length, 2)
  }

  function Encode(f: Frame): (b: bytes)
    ensures |b| == HEADER + |f.data|
  {
    Header(f.cmd, f.sid, |f.data|) + f.data
  }

  function EncodeAll(fs: seq<Frame>): bytes {
    if fs == [] then [] else Encode(fs[0]) + EncodeAll(fs[1..])
  }

  /** The stream a complete header names. */
  function StreamId(h: bytes): (n: nat)
    requires HEADER <= |h|
    ensures n < U32_LIMIT
  {
    FourBytes(h[1..5]);
    TwoBytes(h[1..5][..2]);
    TwoBytes(h[1..5][2..]);
    BigEndian(h[1..5])
  }

  /** How many body bytes a complete header makes the receive loop read. */
  function BodyLength(h: bytes): (n: nat)
    requires HEADER <= |h|
    ensures n < U16_LIMIT
  {
    TwoBytes(h[5..7]);
    if TakesBody(h[0]) then BigEndian(h[5..7]) else 0
  }

  datatype Reading = NeedMore | Got(frame: Frame, used: nat)

  /** Read one frame off the front of `b`, or ask for more bytes. */
  function DecodeOne(b: bytes): (r: Reading)
    ensures r.Got? ==> HEADER <= r.used <= |b| && r.used == HEADER + |r.frame.data|
  {
    if |b| < HEADER then NeedMore
    else
      var n := HEADER + BodyLength(b);
      if |b| < n then NeedMore else Got(Frame(b[0], StreamId(b), b[HEADER..n]), n)
  }

  datatype Parsed = Parsed(frames: seq<Frame>, rest: bytes)

  /** All complete frames of `b`, and the incomplete remainder. */
  function DecodeAll(b: bytes): (p: Parsed)
    decreases |b|
  {
    match DecodeOne(b)
    case NeedMore => Parsed([], b)
    case Got(f, used) =>
      var p := DecodeAll(b[used..]);
      Parsed([f] + p.frames, p.rest)
  }

  predicate AtBoundary(b: bytes) { DecodeAll(b).rest == [] }

  function DropWaste(fs: seq<Frame>): (r: seq<Frame>)
    ensures forall i :: 0 <= i < |r| ==> r[i] in fs && r[i].cmd != CMD_WASTE
  {
    if fs == [] then []
    else (if fs[0].cmd == CMD_WASTE then [] else [fs[0]]) + DropWaste(fs[1..])
  }

  lemma {:induction false} DropWasteAppend(a: seq<Frame>, b: seq<Frame>)
    ensures DropWaste(a + b) == DropWaste(a) + DropWaste(b)
  {
    if a == [] {
      assert a + b == b;
    } else {
      assert (a + b)[1..] == a[1..] + b;
      DropWasteAppend(a[1..], b);
    }
  }

  lemma {:induction false} DropWasteKeeps(fs: seq<Frame>)
    requires forall i :: 0 <= i < |fs| ==> fs[i].cmd != CMD_WASTE
    ensures DropWaste(fs) == fs
  {
    if fs != [] {
      DropWasteKeeps(fs[1..]);
    }
  }

  lemma {:induction false} EncodeAllAppend(a: seq<Frame>, b: seq<Frame>)
    ensures EncodeAll(a + b) == EncodeAll(a) + EncodeAll(b)
  {
    if a == [] {
      assert a + b == b;
    } else {
      assert (a + b)[1..] == a[1..] + b;
      EncodeAllAppend(a[1..], b);
    }
  }

  lemma HeaderFields(cmd: byte, sid: nat, length: nat)
    requires sid < U32_LIMIT
    ensures var h := Header(cmd, sid, length);
            h[0] == cmd && StreamId(h) == sid && BigEndian(h[5..7]) == length % U16_LIMIT
  {
    hide BigEndian;
    hide Spelled;
    var h := Header(cmd, sid, length);
    assert h[1..5] == Spelled(sid, 4) && h[5..7] == Spelled(length, 2);
    SpelledFour(sid);
    SpelledTwo(length);
  }

  /** What the header of any frame, of any size, reads back as. */
  lemma HeaderReadsBack(f: Frame, tail: bytes)
    requires f.sid < U32_LIMIT
    ensures var b := Encode(f) + tail;
            && b[0] == f.cmd
            && StreamId(b) == f.sid
            && BodyLength(b) == if TakesBody(f.cmd) then |f.data| % U16_LIMIT else 0
  {
    hide BigEndian;
    hide Header;
    HeaderFields(f.cmd, f.sid, |f.data|);
    var h, b := Header(f.cmd, f.sid, |f.data|), Encode(f) + tail;
    assert b[1..5] == h[1..5] && b[5..7] == h[5..7];
  }

  lemma DecodeOneEncode(f: Frame, tail: bytes)
    requires WellFormed(f)
    ensures DecodeOne(Encode(f) + tail) == Got(f, |Encode(f)|)
  {
    hide Header;
    hide BodyLength;
    hide StreamId;
    HeaderReadsBack(f, tail);
    var b := Encode(f) + tail;
    assert b[HEADER..HEADER + |f.data|] == f.data;
  }

  lemma DecodedIsWellFormed(b: bytes)
    requires DecodeOne(b).Got?
    ensures WellFormed(DecodeOne(b).frame)
  {
    assert |DecodeOne(b).frame.data| == BodyLength(b);
  }

  lemma SameHeader(a: bytes, b: bytes)
    requires HEADER <= |a| && HEADER <= |b| && forall i :: 0 <= i < HEADER ==> a[i] == b[i]
    ensures a[0] == b[0] && StreamId(a) == StreamId(b) && BodyLength(a) == BodyLength(b)
  {
    hide BigEndian;
    assert a[1..5] == b[1..5] && a[5..7] == b[5..7];
  }

  /** A frame cut anywhere short of its end is never delivered. */
  lemma DecodeOneCut(f: Frame, k: nat)
    requires WellFormed(f) && k < |Encode(f)|
    ensures DecodeOne(Encode(f)[..k]) == NeedMore
  {
    hide Header;
    hide BodyLength;
    if HEADER <= k {
      HeaderReadsBack(f, []);
      SameHeader(Encode(f)[..k], Encode(f) + []);
    }
  }

  lemma DecodeOneExtend(b: bytes, t: bytes)
    requires DecodeOne(b).Got?
    ensures DecodeOne(b + t) == DecodeOne(b)
  {
    hide BodyLength;
    hide StreamId;
    var n := DecodeOne(b).used;
    SameHeader(b + t, b);
    assert (b + t)[HEADER..n] == b[HEADER..n];
  }

  /** One unfolding of `DecodeAll`. */
  lemma DecodeAllStep(b: bytes)
    requires DecodeOne(b).Got?
    ensures var s := DecodeOne(b);
            var p := DecodeAll(b[s.used..]);
            DecodeAll(b) == Parsed([s.frame] + p.frames, p.rest)
  {
    hide DecodeOne;
  }

  predicate DecodesAppended(a: bytes, b: bytes) {
    var p, q := DecodeAll(a), DecodeAll(DecodeAll(a).rest + b);
    DecodeAll(a + b) == Parsed(p.frames + q.frames, q.rest)
  }

  lemma DecodeAppendStep(a: bytes, b: bytes)
    requires DecodeOne(a).Got?
    requires DecodesAppended(a[DecodeOne(a).used..], b)
    ensures DecodesAppended(a, b)
  {
    hide DecodeOne;
    hide DecodeAll;
    var s := DecodeOne(a);
    var t := a[s.used..];
    DecodeOneExtend(a, b);
    assert (a + b)[s.used..] == t + b;
    DecodeAllStep(a);
    DecodeAllStep(a + b);
    var p, q := DecodeAll(t), DecodeAll(DecodeAll(t).rest + b);
    assert ([s.frame] + p.frames) + q.frames == [s.frame] + (p.frames + q.frames);
  }

  /** Decoding does not depend on where the byte stream is cut into reads. */
  lemma {:induction false} DecodeAppend(a: bytes, b: bytes)
    ensures DecodesAppended(a, b)
    decreases |a|
  {
    if DecodeOne(a).Got? {
      DecodeAppend(a[DecodeOne(a).used..], b);
      DecodeAppendStep(a, b);
    } else {
      assert DecodeAll(a) == Parsed([], a);
      assert [] + DecodeAll(a + b).frames == DecodeAll(a + b).frames;
    }
  }

  lemma DecodeAtBoundary(a: bytes, b: bytes)
    requires AtBoundary(a)
    ensures DecodeAll(a + b) == Parsed(DecodeAll(a).frames + DecodeAll(b).frames, DecodeAll(b).rest)
  {
    DecodeAppend(a, b);
    assert [] + b == b;
  }

  /** Round trip: a concatenation of well-formed frames decodes to exactly those frames. */
  lemma {:induction false} RoundTrip(fs: seq<Frame>)
    requires AllWellFormed(fs)
    ensures DecodeAll(EncodeAll(fs)) == Parsed(fs, [])
  {
    if fs != [] {
      var tail := EncodeAll(fs[1..]);
      DecodeOneEncode(fs[0], tail);
      assert (Encode(fs[0]) + tail)[|Encode(fs[0])|..] == tail;
      RoundTrip(fs[1..]);
    }
  }

  lemma RoundTripOne(f: Frame)
    requires WellFormed(f)
    ensures DecodeAll(Encode(f)) == Parsed([f], [])
  {
    RoundTrip([f]);
    assert EncodeAll([f]) == Encode(f);
  }

  lemma PrefixSafetyStep(fs: seq<Frame>, p: Parsed)
    requires fs != [] && |p.frames| < |fs| && p.frames == fs[1..][..|p.frames|]
    ensures var m := |p.frames|;
            && [fs[0]] + p.frames == fs[..m + 1]
            && EncodeAll(fs[..m + 1]) + p.rest == Encode(fs[0]) + (EncodeAll(fs[1..][..m]) + p.rest)
            && (m + 1 < |fs| ==> fs[m + 1] == fs[1..][m])
  {
    var m := |p.frames|;
    assert fs[..m + 1] == [fs[0]] + fs[1..][..m];
    assert fs[..m + 1][1..] == fs[1..][..m];
    assert EncodeAll(fs[..m + 1]) == Encode(fs[0]) + EncodeAll(fs[1..][..m]);
  }

  /** Prefix safety: any byte prefix decodes to a prefix of the frames; the decoder stops at the
      last complete frame boundary, and what is left over is a strict prefix of the next frame. */
  lemma {:induction false} PrefixSafety(fs: seq<Frame>, k: nat)
    requires AllWellFormed(fs) && k <= |EncodeAll(fs)|
    ensures var p := DecodeAll(EncodeAll(fs)[..k]);
            var m := |p.frames|;
            && m <= |fs| && p.frames == fs[..m]
            && EncodeAll(fs)[..k] == EncodeAll(fs[..m]) + p.rest
            && (p.rest != [] ==> m < |fs| && p.rest < Encode(fs[m]))
  {
    if fs == [] {
    } else {
      var e, tail := Encode(fs[0]), EncodeAll(fs[1..]);
      var b := EncodeAll(fs)[..k];
      if k < |e| {
        assert b == e[..k];
        DecodeOneCut(fs[0], k);
        assert DecodeAll(b) == Parsed([], b);
        assert fs[..0] == [];
      } else {
        var c := tail[..k - |e|];
        assert b == e + c;
        DecodeOneEncode(fs[0], c);
        assert b[|e|..] == c;
        DecodeAllStep(b);
        PrefixSafety(fs[1..], k - |e|);
        PrefixSafetyStep(fs, DecodeAll(c));
      }
    }
  }

  /** The payload delivered to stream `sid` by a list of frames. */
  function Payload(fs: seq<Frame>, sid: nat): bytes {
    if fs == [] then []
    else (if fs[0].cmd == CMD_PSH && fs[0].sid == sid then fs[0].data else []) + Payload(fs[1..], sid)
  }

  lemma {:induction false} PayloadAppend(a: seq<Frame>, b: seq<Frame>, sid: nat)
    ensures Payload(a + b, sid) == Payload(a, sid) + Payload(b, sid)
  {
    if a == [] {
      assert a + b == b;
    } else {
      assert (a + b)[1..] == a[1..] + b;
      PayloadAppend(a[1..], b, sid);
    }
  }

  /** Every delivered frame costs a header, so payload never exceeds the bytes left after headers. */
  lemma {:induction false} PayloadCostsHeaders(b: bytes, sid: nat)
    ensures |Payload(DecodeAll(b).frames, sid)| + HEADER * |DecodeAll(b).frames| <= |b|
    decreases |b|
  {
    match DecodeOne(b) {
      case NeedMore =>
      case Got(f, used) =>
        PayloadCostsHeaders(b[used..], sid);
        var p := DecodeAll(b[used..]);
        assert ([f] + p.frames)[1..] == p.frames;
    }
  }

  /** `writeDataFrame` stores `uint16(dataLen)`: a write reaches its stream whole exactly when it
      fits 16 bits. A longer one is cut and its tail is read as frame headers. */
  lemma DataFrameDeliversIff(sid: nat, data: bytes)
    requires sid < U32_LIMIT
    ensures Payload(DecodeAll(Encode(Frame(CMD_PSH, sid, data))).frames, sid) == data <==> |data| < U16_LIMIT
  {
    var f := Frame(CMD_PSH, sid, data);
    if |data| < U16_LIMIT {
      RoundTripOne(f);
    } else {
      HeaderReadsBack(f, []);
      var b := Encode(f);
      assert b + [] == b;
      PayloadCostsHeaders(b, sid);
      var p := DecodeAll(b);
      var used := DecodeOne(b).used;
      assert p.frames == [DecodeOne(b).frame] + DecodeAll(b[used..]).frames;
      var q := DecodeAll(b[used..]);
      PayloadCostsHeaders(b[used..], sid);
      PayloadAppend([DecodeOne(b).frame], q.frames, sid);
      assert |b[used..]| >= HEADER;
      if q.frames == [] {
        assert |Payload(p.frames, sid)| == |data| % U16_LIMIT < |data|;
      }
    }
  }
}
