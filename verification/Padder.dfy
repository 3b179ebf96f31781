/** `Session.writeConn`: buffering of the opening frames, record splitting and padding. */
module Padder {
  import opened Bytes
  import opened Frames
  import opened Text
  import opened Scheme

  /** A waste frame as `writeConn` builds it: the length field is `uint16(n)`, the body is `n` zeros. */
  function Waste(n: nat): (b: bytes)
    ensures |b| == HEADER + n
  {
    Header(CMD_WASTE, 0, n) + Zeros(n)
  }

  /** The write that size `l` governs when the payload still unsent is `b`. */
  function Record(b: bytes, l: nat): bytes {
    if |b| > l then b[..l]
    else if |b| > 0 then b + if l - |b| - HEADER > 0 then Waste(l - |b| - HEADER) else []
    else Waste(l)
  }

  function Unsent(b: bytes, l: nat): bytes {
    if |b| > l then b[l..] else []
  }

  /** The `conn.Write` calls that carry payload `b` under the record sizes `sizes`. */
  function Shape(b: bytes, sizes: seq<int>): seq<bytes>
    requires ValidSizes(sizes)
    decreases |sizes|
  {
    if sizes == [] then
      if b == [] then [] else [b]
    else if sizes[0] == CHECK_MARK then
      if b == [] then [] else Shape(b, sizes[1..])
    else
      [Record(b, sizes[0])] + Shape(Unsent(b, sizes[0]), sizes[1..])
  }

  lemma ShapeStep(b: bytes, sizes: seq<int>)
    requires ValidSizes(sizes) && sizes != []
    ensures Shape(b, sizes) == if sizes[0] != CHECK_MARK then [Record(b, sizes[0])] + Shape(Unsent(b, sizes[0]), sizes[1..])
                               else if b == [] then [] else Shape(b, sizes[1..])
  {
  }

  /** The body length of the waste frame in that write, if there is one. */
  function Injected(n: nat, l: nat): seq<nat> {
    if n > l then []
    else if n > 0 then if l - n - HEADER > 0 then [l - n - HEADER] else []
    else [l]
  }

  /** The body lengths of the waste frames injected behind a payload of `n` bytes. */
  function Wastes(n: nat, sizes: seq<int>): seq<nat>
    requires ValidSizes(sizes)
    decreases |sizes|
  {
    if sizes == [] then []
    else if sizes[0] == CHECK_MARK then
      if n == 0 then [] else Wastes(n, sizes[1..])
    else
      Injected(n, sizes[0]) + Wastes(if n > sizes[0] then n - sizes[0] else 0, sizes[1..])
  }

  function WasteBytes(lengths: seq<nat>): bytes {
    if lengths == [] then [] else Waste(lengths[0]) + WasteBytes(lengths[1..])
  }

  lemma {:induction false} WasteBytesAppend(a: seq<nat>, b: seq<nat>)
    ensures WasteBytes(a + b) == WasteBytes(a) + WasteBytes(b)
  {
    if a == [] {
      assert a + b == b;
    } else {
      assert (a + b)[1..] == a[1..] + b;
      WasteBytesAppend(a[1..], b);
    }
  }

  lemma FlattenCons(a: bytes, parts: seq<bytes>)
    ensures Flatten([a] + parts) == a + Flatten(parts)
  {
    assert ([a] + parts)[1..] == parts;
  }

  lemma RecordIsPayloadThenWaste(b: bytes, l: nat, tail: seq<nat>)
    ensures Record(b, l) + (Unsent(b, l) + WasteBytes(tail)) == b + WasteBytes(Injected(|b|, l) + tail)
  {
    hide Waste;
    var pad := Injected(|b|, l);
    if |b| > l {
      assert pad + tail == tail;
      assert b == b[..l] + b[l..];
    } else {
      WasteBytesAppend(pad, tail);
      assert WasteBytes(pad) == if pad == [] then [] else Waste(pad[0]);
      hide WasteBytes;
      assert Record(b, l) == b + WasteBytes(pad);
    }
  }

  /** What goes on the wire is the payload, untouched, followed by whole waste frames. */
  lemma {:induction false} ShapeIsPayloadThenWaste(b: bytes, sizes: seq<int>)
    requires ValidSizes(sizes)
    ensures Flatten(Shape(b, sizes)) == b + WasteBytes(Wastes(|b|, sizes))
    decreases |sizes|
  {
    if sizes == [] {
      assert Flatten(Shape(b, sizes)) == b;
    } else if sizes[0] == CHECK_MARK {
      if b != [] {
        ShapeIsPayloadThenWaste(b, sizes[1..]);
      }
    } else {
      var c := Unsent(b, sizes[0]);
      ShapeIsPayloadThenWaste(c, sizes[1..]);
      FlattenCons(Record(b, sizes[0]), Shape(c, sizes[1..]));
      RecordIsPayloadThenWaste(b, sizes[0], Wastes(|c|, sizes[1..]));
    }
  }

  // ---- Record shape ----

  function Count(sizes: seq<int>): nat {
    if sizes == [] then 0 else (if sizes[0] == CHECK_MARK then 0 else 1) + Count(sizes[1..])
  }

  function Total(sizes: seq<int>): nat
    requires ValidSizes(sizes)
  {
    if sizes == [] then 0 else (if sizes[0] == CHECK_MARK then 0 else sizes[0]) + Total(sizes[1..])
  }

  /** The payload still unsent when item `j` of the rule is reached. */
  function Remaining(n: nat, sizes: seq<int>, j: nat): nat
    requires ValidSizes(sizes) && j <= |sizes|
  {
    var t := Total(sizes[..j]);
    if t < n then n - t else 0
  }

  /** The length of the write that size `l` governs when `r` payload bytes remain. */
  function RecordLength(r: nat, l: nat): nat {
    if r > l then l
    else if r == 0 then l + HEADER
    else if r + HEADER < l then l
    else r
  }

  predicate StopsAt(n: nat, sizes: seq<int>, j: nat)
    requires ValidSizes(sizes) && j <= |sizes|
  {
    j < |sizes| && sizes[j] == CHECK_MARK && Remaining(n, sizes, j) == 0
  }

  /** The law in closed form, by prefix sums of the rule instead of by running the loop. */
  ghost predicate ShapeLaw(b: bytes, sizes: seq<int>, writes: seq<bytes>)
    requires ValidSizes(sizes)
  {
    && |writes| <= Count(sizes) + 1
    && (forall j :: 0 <= j < |sizes| && sizes[j] != CHECK_MARK && Count(sizes[..j]) < |writes| ==>
          |writes[Count(sizes[..j])]| == RecordLength(Remaining(|b|, sizes, j), sizes[j]))
    && (forall j :: 0 <= j < |sizes| && StopsAt(|b|, sizes, j) ==> |writes| <= Count(sizes[..j]))
    && (|writes| < Count(sizes) ==>
          exists j :: 0 <= j < |sizes| && StopsAt(|b|, sizes, j) && |writes| == Count(sizes[..j]))
    && (|writes| == Count(sizes) + 1 <==> Remaining(|b|, sizes, |sizes|) > 0)
    && (|writes| == Count(sizes) + 1 ==> |writes[Count(sizes)]| == Remaining(|b|, sizes, |sizes|))
  }

  lemma TailSums(n: nat, sizes: seq<int>, j: nat)
    requires ValidSizes(sizes) && sizes != [] && j < |sizes|
    ensures var l, m := sizes[0], if sizes[0] == CHECK_MARK then n else if n > sizes[0] then n - sizes[0] else 0;
            && Count(sizes[..j + 1]) == (if l == CHECK_MARK then 0 else 1) + Count(sizes[1..][..j])
            && Remaining(n, sizes, j + 1) == Remaining(m, sizes[1..], j)
            && (j + 1 < |sizes| ==> StopsAt(n, sizes, j + 1) == StopsAt(m, sizes[1..], j))
  {
    assert sizes[..j + 1][0] == sizes[0];
    assert sizes[..j + 1][1..] == sizes[1..][..j];
  }

  lemma AllTailSums(n: nat, m: nat, sizes: seq<int>)
    requires ValidSizes(sizes) && sizes != []
    requires m == if sizes[0] == CHECK_MARK then n else if n > sizes[0] then n - sizes[0] else 0
    ensures var first := if sizes[0] == CHECK_MARK then 0 else 1;
            && Count(sizes) == first + Count(sizes[1..])
            && Remaining(n, sizes, |sizes|) == Remaining(m, sizes[1..], |sizes| - 1)
            && (forall j :: 1 <= j < |sizes| ==> Count(sizes[..j]) == first + Count(sizes[1..][..j - 1]))
            && (forall j :: 1 <= j < |sizes| ==> Remaining(n, sizes, j) == Remaining(m, sizes[1..], j - 1))
            && (forall j :: 1 <= j < |sizes| ==> StopsAt(n, sizes, j) == StopsAt(m, sizes[1..], j - 1))
  {
    forall j | 1 <= j <= |sizes| ensures
        && Count(sizes[..j]) == (if sizes[0] == CHECK_MARK then 0 else 1) + Count(sizes[1..][..j - 1])
        && Remaining(n, sizes, j) == Remaining(m, sizes[1..], j - 1)
        && (j < |sizes| ==> StopsAt(n, sizes, j) == StopsAt(m, sizes[1..], j - 1))
    {
      TailSums(n, sizes, j - 1);
    }
    assert sizes[1..][..|sizes| - 1] == sizes[1..] && sizes[..|sizes|] == sizes;
  }

  /** Prepending a check mark that does not stop keeps the law; so does prepending a size and its write. */
  lemma ShapeLawStep(b: bytes, sizes: seq<int>, c: bytes, writes: seq<bytes>, all: seq<bytes>)
    requires ValidSizes(sizes) && sizes != []
    requires |c| == if sizes[0] == CHECK_MARK then |b| else if |b| > sizes[0] then |b| - sizes[0] else 0
    requires ShapeLaw(c, sizes[1..], writes)
    requires if sizes[0] == CHECK_MARK then |b| > 0 && all == writes
             else all != [] && all[1..] == writes && |all[0]| == RecordLength(|b|, sizes[0])
    ensures ShapeLaw(b, sizes, all)
  {
    var rest := sizes[1..];
    assert sizes[..0] == [];
    AllTailSums(|b|, |c|, sizes);
    forall j | 0 <= j < |sizes| && sizes[j] != CHECK_MARK && Count(sizes[..j]) < |all|
      ensures |all[Count(sizes[..j])]| == RecordLength(Remaining(|b|, sizes, j), sizes[j])
    {
      if j > 0 {
        assert rest[j - 1] == sizes[j] && Count(rest[..j - 1]) < |writes|;
      }
    }
    forall j | 0 <= j < |sizes| && StopsAt(|b|, sizes, j) ensures |all| <= Count(sizes[..j]) {
      assert j > 0 && StopsAt(|c|, rest, j - 1);
    }
    if |all| < Count(sizes) {
      var j :| 0 <= j < |rest| && StopsAt(|c|, rest, j) && |writes| == Count(rest[..j]);
      assert StopsAt(|b|, sizes, j + 1) && |all| == Count(sizes[..j + 1]);
    }
  }

  lemma {:induction false} ShapeObeysLaw(b: bytes, sizes: seq<int>)
    requires ValidSizes(sizes)
    ensures ShapeLaw(b, sizes, Shape(b, sizes))
    decreases |sizes|
  {
    if sizes == [] {
    } else if sizes[0] == CHECK_MARK && b == [] {
      assert sizes[..0] == [];
      assert StopsAt(|b|, sizes, 0);
    } else {
      var l := sizes[0];
      var c := if l == CHECK_MARK then b else if |b| > l then b[l..] else [];
      ShapeObeysLaw(c, sizes[1..]);
      ShapeLawStep(b, sizes, c, Shape(c, sizes[1..]), Shape(b, sizes));
    }
  }

  // ---- The waste frame's length field ----

  /** `uint16(n)` keeps the stream in step: the overflow is a whole number of empty waste frames. */
  predicate Synchronous(n: nat) { n / U16_LIMIT % 7 == 0 }

  lemma {:induction false} ZerosSpellZero(b: bytes)
    requires forall i :: 0 <= i < |b| ==> b[i] == 0
    ensures BigEndian(b) == 0
  {
    if b != [] {
      ZerosSpellZero(b[..|b| - 1]);
    }
  }

  lemma ZerosHeadIsWaste(n: nat)
    requires HEADER <= n
    ensures DecodeOne(Zeros(n)) == Got(Frame(CMD_WASTE, 0, []), HEADER)
    ensures Zeros(n)[HEADER..] == Zeros(n - HEADER)
  {
    ZerosSpellZero(Zeros(n)[1..5]);
    ZerosSpellZero(Zeros(n)[5..7]);
    hide BigEndian;
  }

  lemma {:induction false} ZerosAreWaste(n: nat)
    ensures DecodeAll(Zeros(n)).rest == Zeros(n % HEADER)
    ensures DropWaste(DecodeAll(Zeros(n)).frames) == []
  {
    hide DecodeOne;
    hide DecodeAll;
    hide Zeros;
    if HEADER <= n {
      ZerosHeadIsWaste(n);
      DecodeAllStep(Zeros(n));
      ZerosAreWaste(n - HEADER);
      var more := DecodeAll(Zeros(n - HEADER)).frames;
      assert ([Frame(CMD_WASTE, 0, [])] + more)[1..] == more;
    } else {
      ShortIsIncomplete(Zeros(n));
    }
  }

  lemma ShortIsIncomplete(b: bytes)
    requires |b| < HEADER
    ensures DecodeAll(b) == Parsed([], b)
  {
  }

  lemma OverflowModHeader(n: nat)
    ensures (n - n % U16_LIMIT) % 7 == 0 <==> Synchronous(n)
  {
    var k := n / U16_LIMIT;
    assert n - n % U16_LIMIT == 7 * (9362 * k) + 2 * k;
    assert 2 * k % 7 == 0 <==> k % 7 == 0;
  }

  lemma WasteHead(n: nat)
    ensures var m := n % U16_LIMIT;
            && DecodeOne(Waste(n)) == Got(Frame(CMD_WASTE, 0, Waste(n)[HEADER..HEADER + m]), HEADER + m)
            && Waste(n)[HEADER + m..] == Zeros(n - m)
  {
    hide Header;
    hide BodyLength;
    hide StreamId;
    var f := Frame(CMD_WASTE, 0, Zeros(n));
    HeaderReadsBack(f, []);
    assert Encode(f) + [] == Waste(n);
  }

  /** How the receiver reads one injected waste frame. */
  lemma WasteReadsAs(n: nat)
    ensures var over := n - n % U16_LIMIT;
            && DecodeAll(Waste(n)).rest == Zeros(over % HEADER)
            && DropWaste(DecodeAll(Waste(n)).frames) == []
  {
    hide DecodeOne;
    hide Waste;
    hide Zeros;
    WasteHead(n);
    DecodeAllStep(Waste(n));
    ZerosAreWaste(n - n % U16_LIMIT);
    DropWasteAppend([DecodeOne(Waste(n)).frame], DecodeAll(Zeros(n - n % U16_LIMIT)).frames);
  }

  /** An injected waste frame leaves the receiver at a frame boundary exactly when its body length
      fits the field, or overflows it by a multiple of 7 * 2^16. */
  lemma WasteBoundaryIff(n: nat)
    ensures AtBoundary(Waste(n)) <==> Synchronous(n)
  {
    WasteReadsAs(n);
    OverflowModHeader(n);
  }

  predicate AllSynchronous(lengths: seq<nat>) {
    forall i :: 0 <= i < |lengths| ==> Synchronous(lengths[i])
  }

  lemma WasteRunStep(init: seq<nat>, last: nat)
    requires AtBoundary(WasteBytes(init))
    ensures AtBoundary(WasteBytes(init + [last])) <==> Synchronous(last)
    ensures DropWaste(DecodeAll(WasteBytes(init + [last])).frames) == DropWaste(DecodeAll(WasteBytes(init)).frames)
  {
    WasteBytesAppend(init, [last]);
    assert WasteBytes([last]) == Waste(last) + [] == Waste(last);
    WasteBoundaryIff(last);
    WasteReadsAs(last);
    DecodeAtBoundary(WasteBytes(init), Waste(last));
    DropWasteAppend(DecodeAll(WasteBytes(init)).frames, DecodeAll(Waste(last)).frames);
  }

  /** The receiver stands at a frame boundary after each of the waste frames. */
  ghost predicate BoundaryAfterEach(lengths: seq<nat>) {
    forall k :: 0 <= k <= |lengths| ==> AtBoundary(WasteBytes(lengths[..k]))
  }

  lemma BoundaryAfterEachStep(init: seq<nat>, last: nat)
    ensures BoundaryAfterEach(init + [last]) <==> BoundaryAfterEach(init) && AtBoundary(WasteBytes(init + [last]))
    ensures BoundaryAfterEach(init) ==> AtBoundary(WasteBytes(init))
  {
    var all := init + [last];
    assert forall k :: 0 <= k <= |init| ==> all[..k] == init[..k];
    assert all[..|all|] == all && init[..|init|] == init;
    if BoundaryAfterEach(all) {
      forall k | 0 <= k <= |init| ensures AtBoundary(WasteBytes(init[..k])) {
        assert all[..k] == init[..k];
      }
      assert AtBoundary(WasteBytes(all[..|all|]));
    }
    if BoundaryAfterEach(init) {
      assert AtBoundary(WasteBytes(init[..|init|]));
    }
  }

  /** ... exactly when all of them are synchronous; and then it drops all of them. */
  lemma {:induction false} WasteRunIff(lengths: seq<nat>)
    ensures BoundaryAfterEach(lengths) <==> AllSynchronous(lengths)
    ensures AllSynchronous(lengths) ==> AtBoundary(WasteBytes(lengths))
    ensures AllSynchronous(lengths) ==> DropWaste(DecodeAll(WasteBytes(lengths)).frames) == []
  {
    if lengths == [] {
      assert lengths[..0] == [];
    } else {
      var n := |lengths| - 1;
      var init, last := lengths[..n], lengths[n];
      assert lengths == init + [last];
      WasteRunIff(init);
      BoundaryAfterEachStep(init, last);
      assert AllSynchronous(lengths) <==> AllSynchronous(init) && Synchronous(last);
      if BoundaryAfterEach(init) {
        WasteRunStep(init, last);
      }
    }
  }

  /** Sizes that fit 16 bits only ever produce synchronous waste. */
  lemma {:induction false} FittingSizesAreSynchronous(n: nat, sizes: seq<int>)
    requires ValidSizes(sizes) && FitU16(sizes)
    ensures AllSynchronous(Wastes(n, sizes))
    decreases |sizes|
  {
    if sizes != [] {
      var l, rest := sizes[0], sizes[1..];
      if l == CHECK_MARK {
        if n != 0 { FittingSizesAreSynchronous(n, rest); }
      } else {
        FittingSizesAreSynchronous(if n > l then n - l else 0, rest);
      }
    }
  }

  /** Splitting and padding are invisible: the receiver sees the payload's frames, then only waste. */
  lemma ShapeTransparent(b: bytes, sizes: seq<int>)
    requires ValidSizes(sizes) && AtBoundary(b) && AllSynchronous(Wastes(|b|, sizes))
    ensures AtBoundary(Flatten(Shape(b, sizes)))
    ensures DropWaste(DecodeAll(Flatten(Shape(b, sizes))).frames) == DropWaste(DecodeAll(b).frames)
  {
    var w := WasteBytes(Wastes(|b|, sizes));
    ShapeIsPayloadThenWaste(b, sizes);
    WasteRunIff(Wastes(|b|, sizes));
    DecodeAtBoundary(b, w);
    DropWasteAppend(DecodeAll(b).frames, DecodeAll(w).frames);
  }

  /** Behind the payload of a padded call the receiver stands at a frame boundary, and so again after each
      injected waste frame, if and only if each of them is synchronous. */
  lemma {:induction false} CallBoundaryIff(p: bytes, sizes: seq<int>, wastes: seq<nat>)
    requires ValidSizes(sizes) && AtBoundary(p) && wastes == Wastes(|p|, sizes)
    ensures Flatten(Shape(p, sizes)) == p + WasteBytes(wastes)
    ensures (forall k :: 0 <= k <= |wastes| ==> AtBoundary(p + WasteBytes(wastes[..k]))) <==> AllSynchronous(wastes)
  {
    hide DecodeAll;
    hide Shape;
    hide Wastes;
    ShapeIsPayloadThenWaste(p, sizes);
    WasteRunIff(wastes);
    forall k | 0 <= k <= |wastes| ensures AtBoundary(p + WasteBytes(wastes[..k])) <==> AtBoundary(WasteBytes(wastes[..k])) {
      DecodeAtBoundary(p, WasteBytes(wastes[..k]));
    }
  }

  // ---- The whole call ----

  datatype Writer = Writer(buffering: bool, buffer: bytes, sendPadding: bool, pkt: nat)

  datatype Outcome = Outcome(w: Writer, writes: seq<bytes>, n: nat)

  /** One `writeConn` call under a scheme with the given stop, drawing `sizes` if it needs any. */
  function OneCall(w: Writer, b: bytes, stop: nat, sizes: seq<int>): Outcome
    requires ValidSizes(sizes)
  {
    if w.buffering then Outcome(w.(buffer := w.buffer + b), [], |b|)
    else
      var p, w' := w.buffer + b, w.(buffer := []);
      if !w.sendPadding then Outcome(w', [p], |p|)
      else
        var pkt := (w.pkt + 1) % U32_LIMIT;
        if pkt < stop then Outcome(w'.(pkt := pkt), Shape(p, sizes), |p|)
        else Outcome(w'.(pkt := pkt, sendPadding := false), [p], |p|)
  }

  /** The write side of a session. `writes` is the log of its `conn.Write` calls. */
  class SessionWriter {
    var buffering: bool
    var buffer: bytes
    var sendPadding: bool
    var pktCounter: nat
    ghost var writes: seq<bytes>

    ghost function State(): Writer
      reads this
    {
      Writer(buffering, buffer, sendPadding, pktCounter)
    }

    constructor (isClient: bool)
      ensures State() == Writer(false, [], isClient, 0) && writes == []
    {
      buffering, buffer, sendPadding, pktCounter := false, [], isClient, 0;
      writes := [];
    }

    method ConnWrite(b: bytes)
      modifies this`writes
      ensures writes == old(writes) + [b]
    {
      writes := writes + [b];
    }

    /** One turn of the padding loop: the write governed by size `l`. */
    method WriteRecord(b: bytes, l: nat) returns (rest: bytes, n: nat)
      modifies this`writes
      ensures writes == old(writes) + [Record(b, l)]
      ensures rest == Unsent(b, l) && n + |rest| == |b|
    {
      if |b| > l {
        ConnWrite(b[..l]);
        return b[l..], l;
      } else if |b| > 0 {
        var paddingLen := l - |b| - HEADER;
        var last := b;
        if paddingLen > 0 {
          last := b + (Header(CMD_WASTE, 0, paddingLen) + Zeros(paddingLen));
        }
        assert last == Record(b, l);
        ConnWrite(last);
        return [], |b|;
      } else {
        ConnWrite(Header(CMD_WASTE, 0, l) + Zeros(l));
        return [], 0;
      }
    }

    /** The padding loop of `writeConn`, and the residual write behind it. */
    method WriteRecords(payload: bytes, pktSizes: seq<int>) returns (n: nat)
      requires ValidSizes(pktSizes)
      modifies this`writes
      ensures writes == old(writes) + Shape(payload, pktSizes)
      ensures n == |payload|
    {
      var b := payload;
      n := 0;
      ghost var done := [];
      for i := 0 to |pktSizes|
        invariant writes == old(writes) + done
        invariant n + |b| == |payload|
        invariant Shape(payload, pktSizes) == done + Shape(b, pktSizes[i..])
      {
        var l := pktSizes[i];
        ShapeStep(b, pktSizes[i..]);
        assert pktSizes[i..][1..] == pktSizes[i + 1..];
        if l == CHECK_MARK {
          if |b| == 0 {
            break;
          } else {
            continue;
          }
        }
        ghost var record := Record(b, l);
        var k;
        b, k := WriteRecord(b, l);
        n := n + k;
        assert done + ([record] + Shape(b, pktSizes[i + 1..])) == done + [record] + Shape(b, pktSizes[i + 1..]);
        done := done + [record];
      }
      assert pktSizes[|pktSizes|..] == [];
      if |b| != 0 {
        ConnWrite(b);
        n := n + |b|;
      }
    }

    method WriteConn(input: bytes, factory: Factory) returns (n: nat, ghost sizes: seq<int>)
      modifies this
      ensures ValidSizes(sizes)
      ensures var o := OneCall(old(State()), input, factory.stop, sizes);
              State() == o.w && writes == old(writes) + o.writes && n == o.n
      ensures old(!buffering && sendPadding) && sendPadding ==> Generated(Items(factory, pktCounter), sizes)
    {
      var b := input;
      sizes := [];
      if buffering {
        buffer := buffer + b;
        return |b|, [];
      } else if |buffer| > 0 {
        b := buffer + b;
        buffer := [];
      }
      assert b == old(buffer) + input;
      if sendPadding {
        pktCounter := (pktCounter + 1) % U32_LIMIT;
        if pktCounter < factory.stop {
          var pktSizes := GenerateRecordPayloadSizes(factory, pktCounter);
          GeneratedAreValid(Items(factory, pktCounter), pktSizes);
          sizes := pktSizes;
          n := WriteRecords(b, pktSizes);
          return;
        } else {
          sendPadding := false;
        }
      }
      ConnWrite(b);
      n := |b|;
    }

    /** `writeDataFrame` and `writeControlFrame`. */
    method WriteFrame(f: Frame, factory: Factory) returns (n: nat, ghost sizes: seq<int>)
      modifies this
      ensures ValidSizes(sizes)
      ensures var o := OneCall(old(State()), Encode(f), factory.stop, sizes);
              State() == o.w && writes == old(writes) + o.writes
      ensures n == |f.data|
    {
      var k;
      k, sizes := WriteConn(Encode(f), factory);
      n := |f.data|;
    }
  }

  lemma PaddedOnce(p: bytes, l: nat)
    requires p != [] && |p| + HEADER < l
    ensures ValidSizes([l]) && Flatten(Shape(p, [l])) == p + Waste(l - |p| - HEADER)
  {
    hide Shape;
    hide Flatten;
    assert [l][1..] == [];
    ShapeStep(p, [l]);
    NothingLeft();
    FlattenCons(Record(p, l), []);
    assert Record(p, l) + [] == Record(p, l);
    assert [Record(p, l)] + [] == [Record(p, l)];
  }

  lemma NothingLeft()
    ensures Shape([], []) == [] && Flatten([]) == []
  {
  }

  /** A waste frame of 2^16 to 2^17 - 1 bytes leaves two bytes that are no frame. */
  lemma TwoLeft(n: nat)
    requires U16_LIMIT <= n < 2 * U16_LIMIT
    ensures DecodeAll(Waste(n)).rest == [0, 0]
  {
    hide DecodeAll;
    hide Waste;
    WasteReadsAs(n);
    assert n - n % U16_LIMIT == U16_LIMIT;
    assert Zeros(2) == [0, 0];
  }

  lemma StrayBytes(p: bytes, l: nat)
    requires p != [] && AtBoundary(p) && |p| + HEADER + U16_LIMIT <= l < |p| + HEADER + 2 * U16_LIMIT
    ensures ValidSizes([l]) && DecodeAll(Flatten(Shape(p, [l]))).rest == [0, 0]
  {
    hide DecodeAll;
    hide Waste;
    hide Shape;
    PaddedOnce(p, l);
    DecodeAtBoundary(p, Waste(l - |p| - HEADER));
    TwoLeft(l - |p| - HEADER);
  }

  /** The failure is real. A scheme whose rule for packet 1 is `l-l`, say `1=70000-70000`: the first write of
      any session, frame `f` behind the buffered frames `buffered`, leaves two stray bytes in front of the
      next frame, if `l` exceeds the payload and a header by 2^16 up to 2^17 - 1. */
  lemma {:induction false} OversizedWasteExample(buffered: seq<Frame>, f: Frame, l: nat, sizes: seq<int>, o: Outcome,
                                                 md5: bytes -> bytes)
    requires AllWellFormed(buffered) && WellFormed(f) && l < INT64_LIMIT
    requires var n := |EncodeAll(buffered)| + |Encode(f)| + HEADER; n + U16_LIMIT <= l < n + 2 * U16_LIMIT
    requires ValidSizes(sizes) && o == OneCall(Writer(false, EncodeAll(buffered), true, 0), Encode(f), 8, sizes)
    ensures var factory := NewFactory(OneRule(8, 1, l), md5);
            && factory.Some? && factory.value.stop == 8
            && (Generated(Items(factory.value, 1), sizes) ==> DecodeAll(Flatten(o.writes)).rest == [0, 0])
  {
    hide DecodeAll;
    hide Shape;
    hide Items;
    hide NewFactory;
    hide OneRule;
    hide Generated;
    hide EncodeAll;
    hide Encode;
    OneRuleMeans(8, 1, l, sizes, md5);
    BehindBuffered(buffered, f);
    StrayBytes(EncodeAll(buffered) + Encode(f), l);
  }

  lemma BehindBuffered(buffered: seq<Frame>, f: Frame)
    requires AllWellFormed(buffered) && WellFormed(f)
    ensures AtBoundary(EncodeAll(buffered) + Encode(f)) && Encode(f) != []
  {
    hide DecodeAll;
    RoundTrip(buffered);
    RoundTripOne(f);
    DecodeAtBoundary(EncodeAll(buffered), Encode(f));
  }

  // ---- Runs of calls ----

  datatype Call = Call(b: bytes, stop: nat, sizes: seq<int>)

  predicate ValidCalls(calls: seq<Call>) {
    forall i :: 0 <= i < |calls| ==> ValidSizes(calls[i].sizes)
  }

  function After(w: Writer, calls: seq<Call>): Writer
    requires ValidCalls(calls)
    decreases |calls|
  {
    if calls == [] then w else After(OneCall(w, calls[0].b, calls[0].stop, calls[0].sizes).w, calls[1..])
  }

  /** The writes of the last of a run of unbuffered calls. */
  function LastWrites(w: Writer, calls: seq<Call>): seq<bytes>
    requires ValidCalls(calls) && calls != []
  {
    var c := calls[|calls| - 1];
    OneCall(After(w, calls[..|calls| - 1]), c.b, c.stop, c.sizes).writes
  }

  lemma {:induction false} AfterInit(w: Writer, calls: seq<Call>)
    requires ValidCalls(calls) && calls != []
    ensures var init, c := calls[..|calls| - 1], calls[|calls| - 1];
            After(w, calls) == OneCall(After(w, init), c.b, c.stop, c.sizes).w
    decreases |calls|
  {
    var init := calls[..|calls| - 1];
    if |calls| > 1 {
      var w' := OneCall(w, calls[0].b, calls[0].stop, calls[0].sizes).w;
      AfterInit(w', calls[1..]);
      assert calls[1..][..|calls| - 2] == init[1..];
    } else {
      assert init == [] && calls[1..] == [];
    }
  }

  lemma AfterNone(w: Writer)
    ensures After(w, []) == w
  {
  }

  /** Calls made while the session buffers only fill the buffer. */
  lemma {:induction false} BufferedCalls(w: Writer, calls: seq<Call>)
    requires ValidCalls(calls) && w.buffering
    ensures After(w, calls) == w.(buffer := w.buffer + Payloads(calls))
    decreases |calls|
  {
    if calls == [] {
      assert w.buffer + [] == w.buffer;
    } else {
      BufferedCalls(w.(buffer := w.buffer + calls[0].b), calls[1..]);
      assert w.buffer + calls[0].b + Payloads(calls[1..]) == w.buffer + Payloads(calls);
    }
  }

  function Payloads(calls: seq<Call>): bytes {
    if calls == [] then [] else calls[0].b + Payloads(calls[1..])
  }

  /** Every call so far came below the stop of its scheme; calls are counted from 1. */
  predicate BelowStop(calls: seq<Call>) {
    forall k :: 0 <= k < |calls| ==> k + 1 < calls[k].stop
  }

  /** Which writes of a client are shaped, once it has stopped buffering with `buf` in the buffer and
      whatever schemes follow each other: that of call i exactly when no call up to i has reached the stop of
      its scheme. The first one takes the buffer with it; the others are one verbatim write. */
  lemma {:induction false} OnlyCallsBelowStopAreShaped(buf: bytes, calls: seq<Call>)
    requires ValidCalls(calls) && calls != [] && forall k :: 0 <= k < |calls| ==> calls[k].stop < U32_LIMIT
    ensures var c := calls[|calls| - 1];
            var p := if |calls| == 1 then buf + c.b else c.b;
            LastWrites(Writer(false, buf, true, 0), calls) == if BelowStop(calls) then Shape(p, c.sizes) else [p]
    ensures var w := After(Writer(false, buf, true, 0), calls);
            && !w.buffering && w.buffer == []
            && w.sendPadding == BelowStop(calls)
            && (w.sendPadding ==> w.pkt == |calls|)
  {
    hide Shape;
    hide After;
    hide BelowStop;
    var w0 := Writer(false, buf, true, 0);
    var init, c := calls[..|calls| - 1], calls[|calls| - 1];
    AfterInit(w0, calls);
    BelowStopStep(calls);
    if init != [] {
      OnlyCallsBelowStopAreShaped(buf, init);
      BelowStopStep(init);
    } else {
      AfterNone(w0);
    }
    var w := After(w0, init);
    assert init != [] ==> w.buffer + c.b == c.b;
    assert w.sendPadding ==> w.pkt == |init|;
  }

  lemma BelowStopStep(calls: seq<Call>)
    requires calls != []
    ensures var n := |calls| - 1;
            BelowStop(calls) <==> BelowStop(calls[..n]) && n + 1 < calls[n].stop
    ensures BelowStop([])
  {
  }

  /** Over any run, whatever schemes follow each other: once padding is off, after `i` calls, it stays off,
      the packet counter stands still, and every later call is one verbatim write. */
  lemma {:induction false} PaddingStaysOff(w: Writer, calls: seq<Call>, i: nat)
    requires ValidCalls(calls) && i <= |calls| && !After(w, calls[..i]).sendPadding && !w.buffering
    ensures !After(w, calls).sendPadding && !After(w, calls).buffering && After(w, calls).pkt == After(w, calls[..i]).pkt
    ensures i < |calls| ==>
              var c := calls[|calls| - 1];
              LastWrites(w, calls) == [After(w, calls[..|calls| - 1]).buffer + c.b] && After(w, calls).buffer == []
    decreases |calls|
  {
    hide After;
    if i == |calls| {
      assert calls[..i] == calls;
      KeepsBuffering(w, calls);
    } else {
      var init := calls[..|calls| - 1];
      assert init[..i] == calls[..i];
      PaddingStaysOff(w, init, i);
      AfterInit(w, calls);
    }
  }

  lemma {:induction false} KeepsBuffering(w: Writer, calls: seq<Call>)
    requires ValidCalls(calls)
    ensures After(w, calls).buffering == w.buffering
    decreases |calls|
  {
    if calls != [] {
      KeepsBuffering(OneCall(w, calls[0].b, calls[0].stop, calls[0].sizes).w, calls[1..]);
    }
  }
}
