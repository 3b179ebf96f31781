/** One direction of a session: the padded writer, the connection as a FIFO of bytes, and the
    receive loop's decoder, which together behave as a FIFO of frames. */
module Channel {
  import opened Bytes
  import opened Frames
  import opened Scheme
  import opened Padder

  /** The padding scheme's stop and the sizes it drew for one call. */
  datatype Draw = Draw(stop: nat, sizes: seq<int>)

  /** `unread` are the bytes that have arrived and that the decoder has not consumed, `flying` those still
      on their way. `submitted` and `received` record the frames given to `writeConn` and the frames, other
      than waste, that the receive loop has read. */
  datatype Chan = Chan(w: Writer, unread: bytes, flying: bytes, submitted: seq<Frame>, received: seq<Frame>)

  function NewChan(isClient: bool): Chan {
    Chan(Writer(false, [], isClient, 0), [], [], [], [])
  }

  /** The session only submits well-formed frames, never waste; and no waste frame its record sizes
      make it inject may overflow its length field out of step. */
  predicate Submittable(ch: Chan, f: Frame, d: Draw) {
    && WellFormed(f) && f.cmd != CMD_WASTE
    && ValidSizes(d.sizes) && AllSynchronous(Wastes(|ch.w.buffer + Encode(f)|, d.sizes))
  }

  function Submit(ch: Chan, f: Frame, d: Draw): Chan
    requires ValidSizes(d.sizes)
  {
    var o := OneCall(ch.w, Encode(f), d.stop, d.sizes);
    ch.(w := o.w, flying := ch.flying + Flatten(o.writes), submitted := ch.submitted + [f])
  }

  function SetBuffering(ch: Chan, on: bool): Chan {
    ch.(w := ch.w.(buffering := on))
  }

  /** The network hands over up to `k` more bytes. */
  function Deliver(ch: Chan, k: nat): Chan {
    var n := if k <= |ch.flying| then k else |ch.flying|;
    ch.(unread := ch.unread + ch.flying[..n], flying := ch.flying[n..])
  }

  /** The frame the receive loop can read now. */
  function Visible(ch: Chan): Reading { DecodeOne(ch.unread) }

  function Receive(ch: Chan): Chan
    requires Visible(ch).Got?
  {
    var s := Visible(ch);
    ch.(unread := ch.unread[s.used..],
        received := ch.received + if s.frame.cmd == CMD_WASTE then [] else [s.frame])
  }

  /** The frames of a byte string that are not padding. */
  function Content(b: bytes): seq<Frame> { DropWaste(DecodeAll(b).frames) }

  /** Padding transparency: what was received, then what is on the connection, waste dropped, then what is
      still buffered, is what was submitted; and connection and buffer end at frame boundaries. */
  predicate Inv(ch: Chan) {
    && AtBoundary(ch.unread + ch.flying) && AtBoundary(ch.w.buffer)
    && ch.submitted == ch.received + Content(ch.unread + ch.flying) + Content(ch.w.buffer)
  }

  lemma ContentAppend(a: bytes, b: bytes)
    requires AtBoundary(a)
    ensures AtBoundary(a + b) <==> AtBoundary(b)
    ensures Content(a + b) == Content(a) + Content(b)
  {
    hide DecodeAll;
    DecodeAtBoundary(a, b);
    DropWasteAppend(DecodeAll(a).frames, DecodeAll(b).frames);
  }

  lemma ContentOfFrame(f: Frame)
    requires WellFormed(f) && f.cmd != CMD_WASTE
    ensures AtBoundary(Encode(f)) && Content(Encode(f)) == [f]
  {
    hide DecodeAll;
    RoundTripOne(f);
    DropWasteKeeps([f]);
  }

  lemma ContentOfNothing()
    ensures AtBoundary([]) && Content([]) == []
  {
  }

  lemma FlattenOne(b: bytes)
    ensures Flatten([b]) == b
  {
    FlattenCons(b, []);
    assert [b] + [] == [b] && b + [] == b;
  }

  /** What one `writeConn` call leaves on the wire and in the buffer. */
  lemma CallContent(ch: Chan, f: Frame, d: Draw)
    requires Submittable(ch, f, d) && AtBoundary(ch.w.buffer)
    ensures var o := OneCall(ch.w, Encode(f), d.stop, d.sizes);
            && AtBoundary(Flatten(o.writes)) && AtBoundary(o.w.buffer)
            && Content(Flatten(o.writes)) + Content(o.w.buffer) == Content(ch.w.buffer) + [f]
  {
    hide DecodeAll;
    hide Shape;
    hide Wastes;
    var p := ch.w.buffer + Encode(f);
    ContentOfFrame(f);
    ContentOfNothing();
    ContentAppend(ch.w.buffer, Encode(f));
    FlattenOne(p);
    ShapeTransparent(p, d.sizes);
    assert Flatten([]) == [];
    var o := OneCall(ch.w, Encode(f), d.stop, d.sizes);
    assert o.writes == [] || o.writes == [p] || o.writes == Shape(p, d.sizes);
    assert Content(p) + [] == Content(p) && [] + Content(p) == Content(p);
  }

  lemma SubmitKeepsInv(ch: Chan, f: Frame, d: Draw)
    requires Inv(ch) && Submittable(ch, f, d)
    ensures Inv(Submit(ch, f, d))
  {
    hide Content;
    hide AtBoundary;
    hide OneCall;
    hide Flatten;
    CallContent(ch, f, d);
    var o := OneCall(ch.w, Encode(f), d.stop, d.sizes);
    var more := Flatten(o.writes);
    ContentAppend(ch.unread + ch.flying, more);
    assert ch.unread + (ch.flying + more) == (ch.unread + ch.flying) + more;
    Reassociate(ch.received + Content(ch.unread + ch.flying), Content(more), Content(o.w.buffer), Content(ch.w.buffer), [f]);
    assert ch.received + Content(ch.unread + ch.flying) + Content(more)
           == ch.received + (Content(ch.unread + ch.flying) + Content(more));
  }

  lemma Reassociate(a: seq<Frame>, b: seq<Frame>, c: seq<Frame>, d: seq<Frame>, e: seq<Frame>)
    requires b + c == d + e
    ensures (a + b) + c == (a + d) + e
  {
    assert (a + b) + c == a + (b + c);
    assert (a + d) + e == a + (d + e);
  }

  lemma DeliverKeepsInv(ch: Chan, k: nat)
    requires Inv(ch)
    ensures Inv(Deliver(ch, k)) && Deliver(ch, k).received == ch.received && Deliver(ch, k).submitted == ch.submitted
  {
    hide DecodeAll;
    var ch' := Deliver(ch, k);
    assert ch'.unread + ch'.flying == ch.unread + ch.flying;
  }

  /** Reading a frame takes it off the front of what is on the connection. */
  lemma ContentStep(b: bytes, s: Reading)
    requires s == DecodeOne(b) && s.Got?
    ensures AtBoundary(b) <==> AtBoundary(b[s.used..])
    ensures Content(b) == (if s.frame.cmd == CMD_WASTE then [] else [s.frame]) + Content(b[s.used..])
  {
    hide DecodeAll;
    hide DecodeOne;
    hide DropWaste;
    DecodeAllStep(b);
    DropWasteAppend([s.frame], DecodeAll(b[s.used..]).frames);
    DropWasteOne(s.frame);
  }

  lemma DropWasteOne(f: Frame)
    ensures DropWaste([f]) == if f.cmd == CMD_WASTE then [] else [f]
  {
  }

  lemma ReceiveKeepsInv(ch: Chan)
    requires Inv(ch) && Visible(ch).Got?
    ensures Inv(Receive(ch))
  {
    hide AtBoundary;
    hide Content;
    hide DecodeOne;
    var s, b := Visible(ch), ch.unread + ch.flying;
    DecodeOneExtend(ch.unread, ch.flying);
    ContentStep(b, s);
    assert b[s.used..] == ch.unread[s.used..] + ch.flying;
  }

  /** When both the connection and the writer's buffer are empty, everything has been received. */
  lemma DrainedMeansReceived(ch: Chan)
    requires Inv(ch) && Drained(ch)
    ensures ch.received == ch.submitted
  {
    hide DecodeAll;
    ContentOfNothing();
    assert ch.unread + ch.flying == [];
  }

  predicate Drained(ch: Chan) { ch.unread == [] && ch.flying == [] && ch.w.buffer == [] }

  /** The decoder never waits for bytes that will not come: once all bytes have arrived it has either
      consumed them all or can read another frame. */
  lemma DecoderNeverStarves(ch: Chan)
    requires Inv(ch) && ch.flying == []
    ensures Visible(ch).Got? <==> ch.unread != []
  {
    assert ch.unread + ch.flying == ch.unread;
  }

  datatype Event =
    | Submitted(f: Frame, d: Draw)
    | Buffering(on: bool)
    | Delivered(k: nat)
    | Received

  /** An event that is not possible changes nothing. */
  function Next(ch: Chan, e: Event): Chan {
    match e
    case Submitted(f, d) => if Submittable(ch, f, d) then Submit(ch, f, d) else ch
    case Buffering(on) => SetBuffering(ch, on)
    case Delivered(k) => Deliver(ch, k)
    case Received => if Visible(ch).Got? then Receive(ch) else ch
  }

  function Run(ch: Chan, events: seq<Event>): Chan {
    if events == [] then ch else Next(Run(ch, events[..|events| - 1]), events[|events| - 1])
  }

  /** Padding transparency over every run: any mix of calls, schemes, draws, buffering, network
      delivery and reads. */
  lemma {:induction false} PaddingTransparentOnEveryRun(isClient: bool, events: seq<Event>, ch: Chan)
    requires ch == Run(NewChan(isClient), events)
    ensures Inv(ch) && ch.received <= ch.submitted
  {
    hide DecodeAll;
    if events == [] {
      ContentOfNothing();
      var none: bytes := [];
      assert none + none == none;
    } else {
      var init := events[..|events| - 1];
      PaddingTransparentOnEveryRun(isClient, init, Run(NewChan(isClient), init));
      NextKeepsInv(Run(NewChan(isClient), init), events[|events| - 1]);
    }
  }

  lemma NextKeepsInv(ch: Chan, e: Event)
    requires Inv(ch)
    ensures Inv(Next(ch, e))
  {
    hide DecodeAll;
    hide Submittable;
    hide Visible;
    match e
    case Submitted(f, d) => if Submittable(ch, f, d) { SubmitKeepsInv(ch, f, d); }
    case Buffering(on) =>
    case Delivered(k) => DeliverKeepsInv(ch, k);
    case Received => if Visible(ch).Got? { ReceiveKeepsInv(ch); }
  }
}
