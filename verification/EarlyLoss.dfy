/** A run of client and server in which data that the server sends early is lost. */
module EarlyLoss {
  import opened Bytes
  import opened Options
  import opened Frames
  import opened SessionSpec
  import opened Logs
  import opened Channel
  import opened W = World
  import Convergence

  // ---- Channels without padding ----

  const PLAIN: Draw := Draw(0, [])

  /** The bytes submitted and not yet read. */
  function Held(ch: Chan): bytes { ch.unread + ch.flying + ch.w.buffer }

  lemma SendPlain(ch: Chan, f: Frame, e: bytes, ch': Chan)
    requires Sendable(f) && e == Encode(f) && ch' == Submit(ch, f, PLAIN)
    ensures Submittable(ch, f, PLAIN)
    ensures Held(ch') == Held(ch) + e && ch'.w.buffering == ch.w.buffering && (!ch.w.buffering ==> ch'.w.buffer == [])
  {
    hide Encode;
    hide WellFormed;
    FlattenOne(ch.w.buffer + e);
    assert Flatten([]) == [];
    if ch.w.buffering {
      assert ch.flying + [] == ch.flying;
      assert ch.unread + ch.flying + (ch.w.buffer + e) == ch.unread + ch.flying + ch.w.buffer + e;
    } else {
      assert ch.unread + (ch.flying + (ch.w.buffer + e)) + [] == ch.unread + ch.flying + ch.w.buffer + e;
    }
  }

  lemma TakePlain(ch: Chan, f: Frame, e: bytes, rest: bytes)
    requires ch.unread == e + rest && e == Encode(f) && Sendable(f)
    ensures Visible(ch) == Got(f, |e|) && Receive(ch) == ch.(unread := rest, received := ch.received + [f])
  {
    DecodeOneEncode(f, rest);
    hide Encode;
    hide DecodeOne;
    assert (e + rest)[|e|..] == rest;
  }

  // ---- Steps ----

  lemma RunNext(w: World, events: seq<W.Event>, e: W.Event)
    ensures W.Run(w, events + [e]) == W.Next(W.Run(w, events), e)
  {
    assert (events + [e])[..|events|] == events;
  }

  /** What a step sends: nothing, or one frame. */
  predicate Sends(s: Session, t: Session, f: Option<Frame>) {
    if f.None? then t.out == s.out else Sendable(f.value) && t.out == s.out + [f.value]
  }

  /** The channel after such a step, without padding. */
  function Sent(ch: Chan, f: Option<Frame>): Chan {
    if f.None? then ch else Submit(ch, f.value, PLAIN)
  }

  lemma SubmitsPlain(ch: Chan, s: Session, t: Session, f: Option<Frame>)
    requires Sends(s, t, f)
    ensures SubmitAll(ch, Fresh(s, t), []) == Some(Sent(ch, f))
  {
    assert SubmitAll(ch, [], []) == Some(ch);
    if f.Some? {
      SendPlain(ch, f.value, Encode(f.value), Submit(ch, f.value, PLAIN));
      hide Submittable;
      hide Submit;
      assert Fresh(s, t) == [f.value] && [f.value][..0] == [];
    } else {
      assert Fresh(s, t) == [];
    }
  }

  lemma ClientActs(w: World, a: Action, c: Session, f: Option<Frame>) returns (t: World)
    requires !a.ARead? && c == SessionSpec.Next(w.c, a) && Sends(w.c, c, f)
    ensures t == W.Next(w, Client(a, [])) && t == w.(c := c, up := Sent(w.up, f))
  {
    hide SessionSpec.Next;
    hide Sent;
    hide Sends;
    SubmitsPlain(w.up, w.c, c, f);
    hide SubmitAll;
    t := w.(c := c, up := Sent(w.up, f));
  }

  lemma ServerActs(w: World, a: Action, s: Session, f: Option<Frame>) returns (t: World)
    requires !a.ARead? && s == SessionSpec.Next(w.s, a) && Sends(w.s, s, f)
    ensures t == W.Next(w, Server(a, [])) && t == w.(s := s, down := Sent(w.down, f))
  {
    hide SessionSpec.Next;
    hide Sent;
    hide Sends;
    SubmitsPlain(w.down, w.s, s, f);
    hide SubmitAll;
    t := w.(s := s, down := Sent(w.down, f));
  }

  /** Everything on its way arrives. */
  lemma ArriveAll(w: World, up: bytes, down: bytes)
    ensures Held(w.up) == up && w.up.w.buffer == [] ==>
              W.Next(w, ArriveUp(|w.up.flying|)) == w.(up := w.up.(unread := up, flying := []))
    ensures Held(w.down) == down && w.down.w.buffer == [] ==>
              W.Next(w, ArriveDown(|w.down.flying|)) == w.(down := w.down.(unread := down, flying := []))
  {
    assert w.up.unread + w.up.flying + [] == w.up.unread + w.up.flying;
    assert w.down.unread + w.down.flying + [] == w.down.unread + w.down.flying;
  }

  /** What acting on frame `f` makes of an endpoint. */
  function Acted(s: Session, f: Frame): Session { HandleFrame(s.(handled := s.handled + [f]), f) }

  lemma HandlingIs(s: Session, f: Frame)
    requires s.pending == None
    ensures SessionSpec.Next(s.(pending := Some(f)), AHandle) == Acted(s, f)
  {
    hide HandleFrame;
    assert s.(pending := Some(f)).(pending := None, handled := s.handled + [f]) == s.(handled := s.handled + [f]);
  }

  predicate CanRead(s: Session, f: Frame) {
    Sendable(f) && !s.closed && s.pending == None && (s.isClient ==> f.cmd != CMD_SYN)
  }

  /** A read of frame `f` and its handling, by the server; `g` is what that sends. */
  lemma ServerRound(w: World, f: Frame, e: bytes, rest: bytes, s: Session, g: Option<Frame>) returns (t: World)
    requires w.up.unread == e + rest && e == Encode(f) && CanRead(w.s, f) && s == Acted(w.s, f) && Sends(w.s, s, g)
    ensures t == W.Next(W.Next(w, ServerReads), Server(AHandle, []))
    ensures t == w.(s := s, up := w.up.(unread := rest, received := w.up.received + [f]), down := Sent(w.down, g))
  {
    hide Encode;
    hide Acted;
    hide Sent;
    TakePlain(w.up, f, e, rest);
    hide Visible;
    HandlingIs(w.s, f);
    t := ServerActs(W.Next(w, ServerReads), AHandle, s, g);
  }

  lemma ClientRound(w: World, f: Frame, e: bytes, rest: bytes, c: Session) returns (t: World)
    requires w.down.unread == e + rest && e == Encode(f) && CanRead(w.c, f) && c == Acted(w.c, f) && Sends(w.c, c, None)
    ensures t == W.Next(W.Next(w, ClientReads), Client(AHandle, []))
    ensures t == w.(c := c, down := w.down.(unread := rest, received := w.down.received + [f]))
  {
    hide Encode;
    hide Acted;
    TakePlain(w.down, f, e, rest);
    hide Visible;
    HandlingIs(w.c, f);
    t := ClientActs(W.Next(w, ClientReads), AHandle, c, None);
  }

  // ---- The endpoints ----

  function SynFrame(sid: nat): Frame { Frame(CMD_SYN, sid, []) }

  function DataFrame(sid: nat, data: bytes): Frame { Frame(CMD_PSH, sid, data) }

  function Hello(): Frame { Frame(CMD_SERVER_SETTINGS, 0, ServerSettingsText()) }

  /** The client has opened its first stream. */
  function OpenedFirst(c: Session, settings: Frame): Session {
    c.(lastId := 1, all := [NewStream(1, Open)], streams := map[1 := 0], out := [settings, SynFrame(1)])
  }

  /** The client has used its first stream and has just written the SYN of its second. */
  function Opening(c: Session, settings: Frame, d: bytes): Session {
    c.(lastId := 2, streams := map[1 := 0],
       all := [NewStream(1, Open).(written := d), NewStream(2, SynWritten)],
       out := [settings, SynFrame(1), DataFrame(1, d), SynFrame(2)])
  }

  lemma OpensFirst(c: Session, settings: Frame)
    requires c == NewSession(true, c.raw, c.md5).(out := [settings])
    ensures var c1 := SessionSpec.Next(c, ABegin);
            var c2 := SessionSpec.Next(c1, ASyn(0));
            && Sends(c, c1, None) && Sends(c1, c2, Some(SynFrame(1)))
            && c2.all == [NewStream(1, SynWritten)] && Sends(c2, OpenedFirst(c, settings), None)
            && SessionSpec.Next(c2, ARegister(0)) == OpenedFirst(c, settings)
  {
    var c1 := SessionSpec.Next(c, ABegin);
    assert c1 == c.(lastId := 1, all := [NewStream(1, Allocated)]);
    var c2 := SessionSpec.Next(c1, ASyn(0));
    assert c2 == c1.(all := [NewStream(1, SynWritten)], out := [settings, SynFrame(1)]);
    assert SessionSpec.Next(c2, ARegister(0)).all == [NewStream(1, Open)];
  }

  lemma UsesFirstOpensSecond(c: Session, settings: Frame, d: bytes)
    requires c == NewSession(true, c.raw, c.md5).(out := [settings]) && |d| < U16_LIMIT
    ensures var c3 := OpenedFirst(c, settings);
            var c4 := SessionSpec.Next(c3, AWrite(0, d));
            var c5 := SessionSpec.Next(c4, ABegin);
            && Sends(c3, c4, Some(DataFrame(1, d))) && Sends(c4, c5, None)
            && Sends(c5, Opening(c, settings, d), Some(SynFrame(2)))
            && SessionSpec.Next(c5, ASyn(1)) == Opening(c, settings, d)
  {
    var none: bytes := [];
    assert none + d == d;
    var c3 := OpenedFirst(c, settings);
    var c4 := SessionSpec.Next(c3, AWrite(0, d));
    assert c4 == c3.(all := [NewStream(1, Open).(written := d)], out := [settings, SynFrame(1), DataFrame(1, d)]);
    var c5 := SessionSpec.Next(c4, ABegin);
    assert c5 == c4.(lastId := 2, all := [NewStream(1, Open).(written := d), NewStream(2, Allocated)]);
    var c6 := SessionSpec.Next(c5, ASyn(1));
    assert c6.all == Opening(c, settings, d).all && c6.out == Opening(c, settings, d).out;
  }

  /** The server after the settings, and after the first four frames. */
  function AfterSettings(s: Session, settings: Frame): Session {
    s.(gotSettings := true, peerVersion := 2, handled := [settings], out := [Hello()])
  }

  function Serving(s: Session, settings: Frame, d: bytes): Session {
    s.(gotSettings := true, peerVersion := 2, streams := map[1 := 0, 2 := 1],
       all := [NewStream(1, Open).(piped := d), NewStream(2, Open)],
       handled := [settings, SynFrame(1), DataFrame(1, d), SynFrame(2)], out := [Hello()])
  }

  lemma HandlesSettings(s: Session, settings: Frame)
    requires s == NewSession(false, s.raw, s.md5) && W.SettingsFrame(settings) && AnnouncedMd5(settings.data) == s.md5
    ensures Acted(s, settings) == AfterSettings(s, settings) && Sends(s, AfterSettings(s, settings), Some(Hello()))
  {
    hide AnnouncedVersion;
    hide AnnouncedMd5;
    assert s.handled + [settings] == [settings] && s.out + [Hello()] == [Hello()];
  }

  lemma HandlesTheRest(s: Session, settings: Frame, d: bytes)
    requires s == NewSession(false, s.raw, s.md5) && d != []
    ensures var s1 := AfterSettings(s, settings);
            var s2 := Acted(s1, SynFrame(1));
            var s3 := Acted(s2, DataFrame(1, d));
            && Acted(s3, SynFrame(2)) == Serving(s, settings, d)
            && s2 == s1.(streams := s2.streams, all := s2.all, handled := s2.handled)
            && s3 == s1.(streams := s3.streams, all := s3.all, handled := s3.handled)
  {
    hide ServerSettingsText;
    var s1 := AfterSettings(s, settings);
    var s2 := Acted(s1, SynFrame(1));
    assert s2 == s1.(streams := map[1 := 0], all := [NewStream(1, Open)], handled := [settings, SynFrame(1)]);
    var s3 := Acted(s2, DataFrame(1, d));
    var none: bytes := [];
    assert none + d == d;
    assert s3 == s2.(all := [NewStream(1, Open).(piped := d)], handled := [settings, SynFrame(1), DataFrame(1, d)]);
    var s4 := Acted(s3, SynFrame(2));
    assert s4.all == Serving(s, settings, d).all && s4.handled == Serving(s, settings, d).handled;
    assert s4.streams == map[1 := 0, 2 := 1];
  }

  lemma ServerWrites(s: Session, settings: Frame, d: bytes, data: bytes)
    requires |data| < U16_LIMIT && s == NewSession(false, s.raw, s.md5)
    ensures var s1 := Serving(s, settings, d);
            var s2 := SessionSpec.Next(s1, AWrite(1, data));
            && Sends(s1, s2, Some(DataFrame(2, data)))
            && s2.all == [NewStream(1, Open).(piped := d), NewStream(2, Open).(written := data)]
  {
    var none: bytes := [];
    assert none + data == data;
    hide ServerSettingsText;
  }

  /** The client acts on the server's settings and on the data for its second stream, and registers it. */
  lemma ClientHandles(c: Session, settings: Frame, d: bytes, data: bytes)
    requires c == NewSession(true, c.raw, c.md5).(out := [settings])
    ensures var c1 := Opening(c, settings, d);
            var c2 := Acted(c1, Hello());
            var c3 := Acted(c2, DataFrame(2, data));
            && c2 == c1.(handled := c2.handled, peerVersion := c2.peerVersion) && c3 == c2.(handled := c3.handled)
            && SessionSpec.Next(c3, ARegister(1)) == c3.(streams := map[1 := 0, 2 := 1],
                                                         all := [NewStream(1, Open).(written := d), NewStream(2, Open)])
  {
    Convergence.ServerAnnouncesTwo();
    hide ServerSettingsText;
    hide AnnouncedVersion;
    var c1 := Opening(c, settings, d);
    var c2 := Acted(c1, Hello());
    assert c2 == c1.(handled := c1.handled + [Hello()], peerVersion := c2.peerVersion);
    var c3 := Acted(c2, DataFrame(2, data));
    assert c3 == c2.(handled := c3.handled);
    assert SessionSpec.Next(c3, ARegister(1)).all == [NewStream(1, Open).(written := d), NewStream(2, Open)];
  }

  // ---- The run ----

  /** The client opens and uses its first stream, and writes the SYN of its second. */
  lemma ClientOpens(settings: Frame, c: Session, s: Session, d: bytes) returns (events: seq<W.Event>, w: World)
    requires GoodStart(settings, c, s) && |d| < U16_LIMIT
    ensures w == W.Run(Start(settings, c, s), events)
    ensures w.c == Opening(c, settings, d) && w.s == s && w.down == NewChan(false) && w.up.w.buffer == []
    ensures Held(w.up) == Encode(settings) + (Encode(SynFrame(1)) + (Encode(DataFrame(1, d)) + Encode(SynFrame(2))))
  {
    OpensFirst(c, settings);
    UsesFirstOpensSecond(c, settings, d);
    var w0 := Start(settings, c, s);
    BufferedSettings(settings, w0.up);
    hide SessionSpec.Next;
    hide Encode;
    hide Held;
    hide Submit;
    hide Sends;
    hide W.Next;
    hide W.Run;
    events, w := [], w0;
    assert W.Run(w0, []) == w0 by { RunNothing(w0); }
    var c1 := SessionSpec.Next(c, ABegin);
    RunNext(w0, events, Client(ABegin, []));
    w := ClientActs(w, ABegin, c1, None);
    events := events + [Client(ABegin, [])];
    SendPlain(w.up, SynFrame(1), Encode(SynFrame(1)), Submit(w.up, SynFrame(1), PLAIN));
    RunNext(w0, events, Client(ASyn(0), []));
    w := ClientActs(w, ASyn(0), SessionSpec.Next(c1, ASyn(0)), Some(SynFrame(1)));
    events := events + [Client(ASyn(0), [])];
    RunNext(w0, events, Unbuffer(0));
    w := Unbuffers(w);
    events := events + [Unbuffer(0)];
    RunNext(w0, events, Client(ARegister(0), []));
    w := ClientActs(w, ARegister(0), OpenedFirst(c, settings), None);
    events := events + [Client(ARegister(0), [])];
    SendPlain(w.up, DataFrame(1, d), Encode(DataFrame(1, d)), Submit(w.up, DataFrame(1, d), PLAIN));
    var c4 := SessionSpec.Next(w.c, AWrite(0, d));
    RunNext(w0, events, Client(AWrite(0, d), []));
    w := ClientActs(w, AWrite(0, d), c4, Some(DataFrame(1, d)));
    events := events + [Client(AWrite(0, d), [])];
    RunNext(w0, events, Client(ABegin, []));
    w := ClientActs(w, ABegin, SessionSpec.Next(c4, ABegin), None);
    events := events + [Client(ABegin, [])];
    SendPlain(w.up, SynFrame(2), Encode(SynFrame(2)), Submit(w.up, SynFrame(2), PLAIN));
    RunNext(w0, events, Client(ASyn(1), []));
    w := ClientActs(w, ASyn(1), Opening(c, settings, d), Some(SynFrame(2)));
    events := events + [Client(ASyn(1), [])];
    Regroup(Encode(settings), Encode(SynFrame(1)), Encode(DataFrame(1, d)), Encode(SynFrame(2)));
  }

  lemma RunNothing(w: World)
    ensures W.Run(w, []) == w
  {
  }

  lemma Regroup(a: bytes, b: bytes, c: bytes, d: bytes)
    ensures a + b + c + d == a + (b + (c + d))
  {
  }

  lemma BufferedSettings(settings: Frame, ch: Chan)
    requires ch == Submit(SetBuffering(NewChan(true), true), settings, PLAIN)
    ensures Held(ch) == Encode(settings) && ch.w.buffering
  {
    hide Encode;
    assert [] + Encode(settings) == Encode(settings);
  }

  lemma Unbuffers(w: World) returns (t: World)
    requires |w.c.all| == 1 && w.c.all[0].phase == SynWritten
    ensures t == W.Next(w, Unbuffer(0)) && t == w.(up := SetBuffering(w.up, false)) && Held(t.up) == Held(w.up)
  {
    t := W.Next(w, Unbuffer(0));
  }

  /** The server hears all of it. */
  lemma ServerHears(w0: World, events0: seq<W.Event>, w: World, settings: Frame, d: bytes)
      returns (events: seq<W.Event>, t: World)
    requires w == W.Run(w0, events0) && d != [] && |d| < U16_LIMIT && w.down == NewChan(false) && w.up.w.buffer == []
    requires w.s == NewSession(false, w.s.raw, w.s.md5) && W.SettingsFrame(settings)
             && AnnouncedMd5(settings.data) == w.s.md5
    requires Held(w.up) == Encode(settings) + (Encode(SynFrame(1)) + (Encode(DataFrame(1, d)) + Encode(SynFrame(2))))
    ensures t == W.Run(w0, events) && t.c == w.c && t.s == Serving(w.s, settings, d)
            && t.down == Sent(NewChan(false), Some(Hello()))
  {
    HandlesSettings(w.s, settings);
    HandlesTheRest(w.s, settings, d);
    var e1, e2, e3 := Encode(SynFrame(1)), Encode(DataFrame(1, d)), Encode(SynFrame(2));
    ArriveAll(w, Encode(settings) + (e1 + (e2 + e3)), []);
    var s1 := AfterSettings(w.s, settings);
    var s2 := Acted(s1, SynFrame(1));
    var s3 := Acted(s2, DataFrame(1, d));
    hide Encode;
    hide Acted;
    hide AnnouncedMd5;
    hide AnnouncedVersion;
    hide ServerSettingsText;
    hide Sent;
    RunNext(w0, events0, ArriveUp(|w.up.flying|));
    events := events0 + [ArriveUp(|w.up.flying|)];
    t := W.Next(w, ArriveUp(|w.up.flying|));
    hide W.Next;
    hide W.Run;
    RunNext(w0, events, ServerReads);
    RunNext(w0, events + [ServerReads], Server(AHandle, []));
    events := events + [ServerReads] + [Server(AHandle, [])];
    t := ServerRound(t, settings, Encode(settings), e1 + (e2 + e3), s1, Some(Hello()));
    RunNext(w0, events, ServerReads);
    RunNext(w0, events + [ServerReads], Server(AHandle, []));
    events := events + [ServerReads] + [Server(AHandle, [])];
    t := ServerRound(t, SynFrame(1), e1, e2 + e3, s2, None);
    assert Sent(t.down, None) == t.down by { SentNothing(t.down); }
    RunNext(w0, events, ServerReads);
    RunNext(w0, events + [ServerReads], Server(AHandle, []));
    events := events + [ServerReads] + [Server(AHandle, [])];
    t := ServerRound(t, DataFrame(1, d), e2, e3, s3, None);
    assert e3 + [] == e3;
    RunNext(w0, events, ServerReads);
    RunNext(w0, events + [ServerReads], Server(AHandle, []));
    events := events + [ServerReads] + [Server(AHandle, [])];
    t := ServerRound(t, SynFrame(2), e3, [], Serving(w.s, settings, d), None);
    SentNothing(Sent(NewChan(false), Some(Hello())));
  }

  lemma SentNothing(ch: Chan)
    ensures Sent(ch, None) == ch
  {
  }

  /** The server writes to the second stream at once. */
  lemma ServerSpeaks(w0: World, events0: seq<W.Event>, w: World, s: Session, settings: Frame, d: bytes, early: Frame)
      returns (events: seq<W.Event>, t: World)
    requires w == W.Run(w0, events0) && s == NewSession(false, s.raw, s.md5) && w.s == Serving(s, settings, d)
    requires w.down == Sent(NewChan(false), Some(Hello())) && early == DataFrame(2, early.data) && |early.data| < U16_LIMIT
    ensures t == W.Run(w0, events) && t.c == w.c
            && t.s.all == [NewStream(1, Open).(piped := d), NewStream(2, Open).(written := early.data)]
    ensures t.down.w.buffer == [] && t.down.unread == Encode(Hello()) + Encode(early) && t.down.flying == []
  {
    hide ServerSettingsText;
    hide SessionSpec.Next;
    hide Encode;
    hide Submit;
    hide Serving;
    hide W.Run;
    hide W.Next;
    ServerWrites(s, settings, d, early.data);
    HelloIsSendable();
    var e1, e2 := Encode(Hello()), Encode(early);
    SendPlain(NewChan(false), Hello(), e1, w.down);
    SendPlain(w.down, early, e2, Submit(w.down, early, PLAIN));
    assert [] + e1 == e1;
    RunNext(w0, events0, Server(AWrite(1, early.data), []));
    t := ServerActs(w, AWrite(1, early.data), SessionSpec.Next(w.s, AWrite(1, early.data)), Some(early));
    events := events0 + [Server(AWrite(1, early.data), [])];
    ArriveAll(t, [], e1 + e2);
    RunNext(w0, events, ArriveDown(|t.down.flying|));
    events, t := events + [ArriveDown(|t.down.flying|)], W.Next(t, ArriveDown(|t.down.flying|));
  }

  /** A run in which early data is lost, for any first bytes `d` and any data. The client has used one
      stream and written the SYN of a second; the server writes to the second at once; the data arrives
      and is handled before the client has registered the stream. In the end the way back is drained and
      the client's stream is open and alive, and has nothing of what was written to it. */
  lemma {:induction false} EarlyDataIsLost(settings: Frame, c: Session, s: Session, d: bytes, data: bytes)
      returns (events: seq<W.Event>, w: World)
    requires GoodStart(settings, c, s) && AnnouncedMd5(settings.data) == s.md5
    requires 0 < |d| < U16_LIMIT && 0 < |data| < U16_LIMIT
    ensures w == W.Run(Start(settings, c, s), events)
    ensures Drained(w.down) && w.c.pending == None && !w.c.closed
    ensures |w.c.all| == 2 == |w.s.all| && w.c.all[1].id == w.s.all[1].id && w.c.all[1].phase == Open && !w.c.all[1].dead
    ensures w.s.all[1].written == data && w.c.all[1].piped == []
  {
    hide W.Next;
    hide W.Run;
    hide AnnouncedMd5;
    hide AnnouncedVersion;
    hide ServerSettingsText;
    hide Encode;
    hide Acted;
    hide SessionSpec.Next;
    hide Submit;
    var w0, early := Start(settings, c, s), DataFrame(2, data);
    var e1, e2 := Encode(Hello()), Encode(early);
    events, w := ClientOpens(settings, c, s, d);
    events, w := ServerHears(w0, events, w, settings, d);
    events, w := ServerSpeaks(w0, events, w, s, settings, d, early);
    ClientHandles(c, settings, d, data);
    HelloIsSendable();
    var c2 := Acted(w.c, Hello());
    var c3 := Acted(c2, early);
    RunNext(w0, events, ClientReads);
    RunNext(w0, events + [ClientReads], Client(AHandle, []));
    events := events + [ClientReads] + [Client(AHandle, [])];
    w := ClientRound(w, Hello(), e1, e2, c2);
    assert e2 + [] == e2;
    RunNext(w0, events, ClientReads);
    RunNext(w0, events + [ClientReads], Client(AHandle, []));
    events := events + [ClientReads] + [Client(AHandle, [])];
    w := ClientRound(w, early, e2, [], c3);
    RunNext(w0, events, Client(ARegister(1), []));
    w := ClientActs(w, ARegister(1), SessionSpec.Next(c3, ARegister(1)), None);
    events := events + [Client(ARegister(1), [])];
  }

  lemma HelloIsSendable()
    ensures Sendable(Hello())
  {
  }
}
