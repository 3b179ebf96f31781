/** The way back, from server to client: what a client gets of what the server writes. */
module Downlink {
  import opened Bytes
  import opened Options
  import opened Frames
  import opened SessionSpec
  import opened Logs
  import opened Channel
  import opened W = World
  import Lifecycle

  // ---- The server's side ----

  /** The payload logged for an id is what was written to its stream, and nothing if there is none. */
  predicate SentAsWritten(s: Session, sid: nat) {
    && (forall k :: 0 <= k < |s.all| && s.all[k].id == sid ==> Payload(s.out, sid) == s.all[k].written)
    && (!HasStream(s, sid) ==> Payload(s.out, sid) == [])
  }

  /** Nothing has been written to a stream before something was heard on it. */
  predicate Polite(s: Session) {
    forall k :: 0 <= k < |s.all| && s.all[k].written != [] ==> s.all[k].piped != []
  }

  /** The server's discipline: it writes to a stream only after bytes were handed to it. */
  predicate HeardFirst(s: Session, a: Action) {
    a.AWrite? && a.h < |s.all| ==> s.all[a.h].piped != []
  }

  predicate SameWritten(r: StreamRec, t: StreamRec) {
    t.id == r.id && t.written == r.written && (r.piped != [] ==> t.piped != [])
  }

  /** A step that writes no data. */
  predicate Mute(s: Session, t: Session, sid: nat) {
    && |t.all| == |s.all| && (forall k :: 0 <= k < |s.all| ==> SameWritten(s.all[k], t.all[k]))
    && Payload(t.out, sid) == Payload(s.out, sid)
  }

  lemma MuteKeepsDown(s: Session, t: Session, sid: nat)
    requires Mute(s, t, sid)
    ensures SentAsWritten(s, sid) ==> SentAsWritten(t, sid)
    ensures Polite(s) ==> Polite(t)
  {
    hide Payload;
    forall k | 0 <= k < |s.all| ensures SameWritten(s.all[k], t.all[k]) {
    }
    if HasStream(s, sid) {
      var k :| 0 <= k < |s.all| && s.all[k].id == sid;
      assert t.all[k].id == sid;
    }
  }

  lemma ControlIsNoPayload(out: seq<Frame>, f: Frame, sid: nat)
    requires f.cmd != CMD_PSH
    ensures Payload(out + [f], sid) == Payload(out, sid)
  {
    PayloadSnoc(out, f, sid);
  }

  lemma CloseWithErrorIsMute(s: Session, h: nat, sid: nat)
    requires h < |s.all|
    ensures Mute(s, CloseWithError(s, h), sid)
  {
    hide Payload;
    ControlIsNoPayload(s.out, Frame(CMD_FIN, s.all[h].id, []), sid);
  }

  lemma SettingsAreMute(s: Session, data: bytes, sid: nat)
    ensures Mute(s, HandleSettings(s, data), sid)
  {
    hide Payload;
    hide AnnouncedMd5;
    hide AnnouncedVersion;
    hide ServerSettingsText;
    var update, hello := Frame(CMD_UPDATE_PADDING_SCHEME, 0, s.raw), Frame(CMD_SERVER_SETTINGS, 0, ServerSettingsText());
    ControlIsNoPayload(s.out, update, sid);
    ControlIsNoPayload(s.out, hello, sid);
    ControlIsNoPayload(s.out + [update], hello, sid);
  }

  lemma SynAckIsMute(s: Session, id: nat, data: bytes, sid: nat)
    ensures Mute(s, HandleSynAck(s, id, data), sid)
  {
    hide Payload;
    hide CloseWithError;
    var u := s.(watchers := CancelWatch(s.watchers, s.synDone), synDone := None);
    if data != [] && id in u.streams && u.streams[id] < |u.all| {
      CloseWithErrorIsMute(u, u.streams[id], sid);
    }
  }

  /** Acting on a frame, other than a SYN, writes no data. */
  lemma HandlingIsMute(s: Session, f: Frame, sid: nat)
    requires f.cmd != CMD_SYN
    ensures Mute(s, HandleFrame(s, f), sid)
  {
    hide Payload;
    hide HandleSettings;
    hide HandleSynAck;
    hide AnnouncedVersion;
    SettingsAreMute(s, f.data, sid);
    SynAckIsMute(s, f.sid, f.data, sid);
    ControlIsNoPayload(s.out, Frame(CMD_HEART_RESPONSE, f.sid, []), sid);
  }

  /** A new stream has had nothing written to it: its id is new. */
  lemma SynKeepsDown(s: Session, id: nat, sid: nat)
    requires Lifecycle.DistinctIds(HandleSyn(s, id).all)
    ensures SentAsWritten(s, sid) ==> SentAsWritten(HandleSyn(s, id), sid)
    ensures Polite(s) ==> Polite(HandleSyn(s, id))
  {
    hide Payload;
    var t, alert := HandleSyn(s, id), Frame(CMD_ALERT, 0, AlertText());
    if !s.isClient && !s.gotSettings {
      ControlIsNoPayload(s.out, alert, sid);
      MuteKeepsDown(s, t, sid);
    } else if id !in s.streams {
      assert t.all == s.all + [NewStream(id, Open)];
      assert forall k :: 0 <= k < |s.all| ==> t.all[k] == s.all[k] && t.all[k].id != t.all[|s.all|].id;
      SameIdsHaveStreams(s, t);
      StreamIsThere(t, |s.all|);
    }
  }

  lemma WriteKeepsDown(s: Session, h: nat, data: bytes, sid: nat)
    requires Lifecycle.DistinctIds(s.all) && h < |s.all|
    ensures SentAsWritten(s, sid) ==> SentAsWritten(Write(s, h, data), sid)
    ensures Polite(s) && s.all[h].piped != [] ==> Polite(Write(s, h, data))
  {
    hide Payload;
    var t := Write(s, h, data);
    PayloadSnoc(s.out, Frame(CMD_PSH, s.all[h].id, data), sid);
    SameIdsHaveStreams(s, t);
    StreamIsThere(s, h);
    assert t == s || Payload(t.out, sid) == Payload(s.out, sid) + if s.all[h].id == sid then data else [];
  }

  lemma LocalIsMute(s: Session, a: Action, sid: nat)
    requires Enabled(s, a) && !a.AWrite? && !a.AHandle? && !a.ABegin?
    ensures Mute(s, Perform(s, a), sid)
  {
    hide Payload;
    hide CloseWithError;
    match a
    case ASyn(h) => ControlIsNoPayload(s.out, Frame(CMD_SYN, s.all[h].id, []), sid);
    case AReport(h, text) => ControlIsNoPayload(s.out, Frame(CMD_SYNACK, s.all[h].id, text), sid);
    case ACloseStream(h) => CloseWithErrorIsMute(s, h, sid);
    case _ =>
  }

  lemma ServerNextDown(s: Session, a: Action, t: Session, sid: nat)
    requires t == SessionSpec.Next(s, a) && !s.isClient && Lifecycle.DistinctIds(s.all) && Lifecycle.DistinctIds(t.all)
    ensures SentAsWritten(s, sid) ==> SentAsWritten(t, sid)
    ensures Polite(s) && HeardFirst(s, a) ==> Polite(t)
  {
    hide SentAsWritten;
    hide Polite;
    hide Lifecycle.DistinctIds;
    hide Mute;
    if Enabled(s, a) {
      match a
      case AWrite(h, data) => WriteKeepsDown(s, h, data, sid);
      case AHandle =>
        if s.pending.Some? {
          var f := s.pending.value;
          var u := s.(pending := None, handled := s.handled + [f]);
          SameRecordsDown(s, u, sid);
          if f.cmd == CMD_SYN {
            SynKeepsDown(u, f.sid, sid);
          } else {
            HandlingIsMute(u, f, sid);
            MuteKeepsDown(u, t, sid);
          }
        }
      case _ =>
        LocalIsMute(s, a, sid);
        MuteKeepsDown(s, t, sid);
    }
  }

  lemma SameRecordsDown(s: Session, t: Session, sid: nat)
    requires t.all == s.all && t.out == s.out
    ensures SentAsWritten(s, sid) ==> SentAsWritten(t, sid)
    ensures Polite(s) ==> Polite(t)
  {
    hide Payload;
    MuteKeepsDown(s, t, sid);
  }

  // ---- The client's side, stream by stream ----

  /** Stream `h` of a client, to which the payload `early` came before it was registered: once returned to
      its user, and as long as it is registered, it has all the payload that came later; ever after, a
      beginning of it. Before that it has nothing either way. */
  predicate StreamDown(c: Session, h: nat, early: bytes) {
    && h < |c.all|
    && var r, p := c.all[h], Payload(c.handled, c.all[h].id);
       if r.phase == Open then early + r.piped <= p && (Lifecycle.Registered(c, h) ==> p == early + r.piped)
       else r.piped == [] == r.written
  }

  predicate IsOpen(c: Session, h: nat) { h < |c.all| && c.all[h].phase == Open }

  /** A step that brings stream `h` no data and does not register it. */
  predicate Tame(c: Session, t: Session, h: nat) {
    && h < |c.all| <= |t.all| && t.all[h].id == c.all[h].id && t.all[h].piped == c.all[h].piped
    && (IsOpen(t, h) <==> IsOpen(c, h)) && (IsOpen(c, h) || t.all[h].written == c.all[h].written)
    && (IsOpen(c, h) && Lifecycle.Registered(t, h) ==> Lifecycle.Registered(c, h))
    && Payload(t.handled, c.all[h].id) == Payload(c.handled, c.all[h].id)
  }

  lemma CloseIsTame(c: Session, k: nat, h: nat)
    requires h < |c.all|
    ensures Tame(c, Close(c), h) && (k < |c.all| ==> Tame(c, CloseWithError(c, k), h))
  {
    hide Payload;
  }

  lemma OpeningIsTame(c: Session, a: Action, h: nat)
    requires Lifecycle.IdsOk(c) && c.isClient && Enabled(c, a) && h < |c.all|
    requires a.ABegin? || a.ASyn? || (a.ARegister? && a.h != h)
    ensures Tame(c, Perform(c, a), h)
  {
    hide Payload;
  }

  lemma LocalIsTame(c: Session, a: Action, h: nat)
    requires Lifecycle.Inv(c) && c.isClient && Enabled(c, a) && h < |c.all| && !a.AHandle? && a != ARegister(h)
    ensures Tame(c, Perform(c, a), h)
  {
    hide Lifecycle.Inv;
    hide Payload;
    hide Close;
    hide CloseWithError;
    hide OpenBegin;
    LifecycleIds(c);
    if a.ABegin? || a.ASyn? || a.ARegister? {
      OpeningIsTame(c, a, h);
    } else {
      match a
      case ACloseStream(k) => CloseIsTame(c, k, h);
      case AClose => CloseIsTame(c, 0, h);
      case AFire(w) => CloseIsTame(c.(watchers := c.watchers[w := Fired]), 0, h);
      case _ =>
    }
  }

  lemma FinIsTame(c: Session, sid: nat, h: nat)
    requires h < |c.all|
    ensures Tame(c, HandleFin(c, sid), h)
  {
    hide Payload;
  }

  lemma HandlingIsTame(c: Session, f: Frame, h: nat)
    requires c.isClient && h < |c.all| && f.cmd != CMD_PSH && f.cmd != CMD_SYN
    ensures Tame(c, HandleFrame(c, f), h)
  {
    hide Payload;
    hide AnnouncedVersion;
    hide Close;
    hide CloseWithError;
    hide HandleFin;
    hide CancelWatch;
    FinIsTame(c, f.sid, h);
    var u := c.(watchers := CancelWatch(c.watchers, c.synDone), synDone := None);
    CloseIsTame(c, 0, h);
    CloseIsTame(u, if f.sid in u.streams then u.streams[f.sid] else 0, h);
  }

  /** Data reaches a stream while it is registered, and no other. */
  lemma PshKeepsDown(c: Session, u: Session, f: Frame, h: nat, early: bytes)
    requires StreamDown(c, h, early) && Lifecycle.MapOk(c) && f.cmd == CMD_PSH
    requires u == c.(pending := None, handled := c.handled + [f])
    ensures StreamDown(HandlePsh(u, f.sid, f.data), h, early) && (IsOpen(HandlePsh(u, f.sid, f.data), h) <==> IsOpen(c, h))
  {
    hide Payload;
    PayloadSnoc(c.handled, f, c.all[h].id);
    var t := HandlePsh(u, f.sid, f.data);
    assert t.all[h].id == c.all[h].id && t.all[h].phase == c.all[h].phase;
    assert Lifecycle.Registered(t, h) <==> Lifecycle.Registered(c, h);
    assert early + (c.all[h].piped + f.data) == early + c.all[h].piped + f.data;
  }

  lemma TameKeepsDown(c: Session, t: Session, h: nat, early: bytes)
    requires StreamDown(c, h, early) && Tame(c, t, h)
    ensures StreamDown(t, h, early)
  {
    hide Payload;
    hide Lifecycle.Registered;
  }

  /** A step of the client; `early` is settled when the stream is registered. */
  lemma ClientNextDown(c: Session, a: Action, t: Session, h: nat, early: bytes)
    requires StreamDown(c, h, early) && Lifecycle.Inv(c) && c.isClient && t == SessionSpec.Next(c, a)
    ensures StreamDown(t, h, if IsOpen(t, h) && !IsOpen(c, h) then Payload(c.handled, c.all[h].id) else early)
    ensures IsOpen(c, h) ==> IsOpen(t, h)
  {
    hide Payload;
    if Enabled(c, a) {
      match a
      case ARegister(k) => if k == h { hide Lifecycle.Inv; } else { LocalIsTame(c, a, h); TameKeepsDown(c, t, h, early); }
      case AHandle =>
        if c.pending.Some? {
          HandleKeepsDown(c, c.pending.value, h, early);
        }
      case _ =>
        LocalIsTame(c, a, h);
        TameKeepsDown(c, t, h, early);
    }
  }

  lemma HandleKeepsDown(c: Session, f: Frame, h: nat, early: bytes)
    requires StreamDown(c, h, early) && Lifecycle.Inv(c) && c.isClient && c.pending == Some(f)
    ensures StreamDown(Handle(c), h, early) && (IsOpen(Handle(c), h) <==> IsOpen(c, h))
  {
    hide Payload;
    assert f.cmd != CMD_SYN && Lifecycle.MapOk(c);
    hide Lifecycle.Inv;
    hide StreamDown;
    var u := c.(pending := None, handled := c.handled + [f]);
    if f.cmd == CMD_PSH {
      PshKeepsDown(c, u, f, h, early);
    } else {
      ControlIsNoPayload(c.handled, f, c.all[h].id);
      HandlingIsTame(u, f, h);
      hide HandleFrame;
      assert Tame(c, HandleFrame(u, f), h);
      TameKeepsDown(c, HandleFrame(u, f), h, early);
    }
  }

  // ---- Whole runs ----

  /** The payload for client stream `h` that the client has handled before it registered the stream. */
  ghost function Early(w: World, events: seq<W.Event>, h: nat): bytes {
    if events == [] then []
    else
      var init := events[..|events| - 1];
      var c := W.Run(w, init).c;
      if IsOpen(c, h) then Early(w, init, h)
      else if IsOpen(W.Run(w, events).c, h) && h < |c.all| then Payload(c.handled, c.all[h].id)
      else []
  }

  lemma ReadsChangeLittle(s: Session, ch: Chan)
    ensures var t := ReadFrom(s, ch).0; t == s.(pending := t.pending)
  {
    hide DecodeOne;
  }

  lemma WorldNextDown(w: World, e: W.Event, w': World, h: nat, early: bytes)
    requires W.Inv(w) && w' == W.Next(w, e)
    requires h < |w.c.all| ==> StreamDown(w.c, h, early)
    ensures h < |w'.c.all| ==>
              StreamDown(w'.c, h,
                         if IsOpen(w'.c, h) && h < |w.c.all| && !IsOpen(w.c, h) then Payload(w.c.handled, w.c.all[h].id)
                         else early)
    ensures IsOpen(w.c, h) ==> IsOpen(w'.c, h)
    ensures IsOpen(w'.c, h) ==> h < |w.c.all|
  {
    ClientLife(w);
    ReadsChangeLittle(w.c, w.down);
    hide W.Inv;
    hide Payload;
    hide ReadFrom;
    if e.Client? && w' != w {
      hide W.Next;
      assert w'.c == SessionSpec.Next(w.c, e.a) by { ClientMoves(w, e); }
      if h < |w.c.all| {
        ClientNextDown(w.c, e.a, w'.c, h, early);
      } else if h < |w'.c.all| {
        NewStreamIsNotOpen(w.c, e.a, h, early);
      }
    }
  }

  lemma ClientMoves(w: World, e: W.Event)
    requires e.Client? && W.Next(w, e) != w
    ensures W.Next(w, e).c == SessionSpec.Next(w.c, e.a)
  {
    hide SessionSpec.Next;
  }

  lemma NewStreamIsNotOpen(c: Session, a: Action, h: nat, early: bytes)
    requires Lifecycle.Inv(c) && c.isClient && |c.all| <= h < |SessionSpec.Next(c, a).all|
    ensures StreamDown(SessionSpec.Next(c, a), h, early) && !IsOpen(SessionSpec.Next(c, a), h)
  {
    hide Payload;
    hide Lifecycle.MapOk;
    hide AnnouncedMd5;
    hide AnnouncedVersion;
  }

  lemma ClientLife(w: World)
    requires W.Inv(w)
    ensures Lifecycle.Inv(w.c) && w.c.isClient
  {
    BothSides(w);
  }

  lemma {:induction false} ClientDownOnEveryRun(settings: Frame, c: Session, s: Session, events: seq<W.Event>,
                                                w: World, h: nat)
    requires GoodStart(settings, c, s) && w == W.Run(Start(settings, c, s), events)
    ensures h < |w.c.all| ==> StreamDown(w.c, h, Early(Start(settings, c, s), events, h))
  {
    hide Payload;
    hide Lifecycle.Registered;
    hide W.Next;
    hide W.Inv;
    if events == [] {
    } else {
      var n := |events| - 1;
      var w0, v := Start(settings, c, s), W.Run(Start(settings, c, s), events[..n]);
      ClientDownOnEveryRun(settings, c, s, events[..n], v, h);
      W.InvOnEveryRun(settings, c, s, events[..n]);
      WorldNextDown(v, events[n], w, h, Early(w0, events[..n], h));
    }
  }

  lemma {:induction false} SentAsWrittenOnEveryRun(settings: Frame, c: Session, s: Session, events: seq<W.Event>,
                                                   w: World, sid: nat)
    requires GoodStart(settings, c, s) && w == W.Run(Start(settings, c, s), events)
    ensures SentAsWritten(w.s, sid)
    ensures DisciplinedRun(Start(settings, c, s), events) ==> Polite(w.s)
  {
    hide W.Next;
    hide W.Inv;
    hide SentAsWritten;
    hide Polite;
    if events == [] {
      NothingSent(s, sid);
    } else {
      var n := |events| - 1;
      var w0, v := Start(settings, c, s), W.Run(Start(settings, c, s), events[..n]);
      SentAsWrittenOnEveryRun(settings, c, s, events[..n], v, sid);
      W.InvOnEveryRun(settings, c, s, events[..n]);
      W.InvOnEveryRun(settings, c, s, events);
      DisciplinedPrefix(w0, events);
      WorldNextSent(v, events[n], w, sid);
    }
  }

  lemma NothingSent(s: Session, sid: nat)
    requires s.all == [] && s.out == []
    ensures SentAsWritten(s, sid) && Polite(s)
  {
  }

  lemma WorldNextSent(w: World, e: W.Event, w': World, sid: nat)
    requires W.Inv(w) && w' == W.Next(w, e) && W.Inv(w')
    ensures SentAsWritten(w.s, sid) ==> SentAsWritten(w'.s, sid)
    ensures Polite(w.s) && Disciplined(w, e) ==> Polite(w'.s)
  {
    ServerIdsDistinct(w);
    ServerIdsDistinct(w');
    ReadsChangeLittle(w.s, w.up);
    hide W.Inv;
    hide SentAsWritten;
    hide Polite;
    hide ReadFrom;
    hide SessionSpec.Next;
    if e.Server? && w' != w {
      ServerNextDown(w.s, e.b, w'.s, sid);
    } else {
      SameRecordsDown(w.s, w'.s, sid);
    }
  }

  lemma ServerIdsDistinct(w: World)
    requires W.Inv(w)
    ensures Lifecycle.DistinctIds(w.s.all) && !w.s.isClient
  {
    BothSides(w);
    hide Linked;
    hide ClientOk;
  }

  /** The client has acted on a beginning of what the server sent: all of it, once the way back is drained. */
  lemma HandledPrefix(w: World)
    requires W.Inv(w)
    ensures w.c.handled <= w.s.out
    ensures Drained(w.down) && w.c.pending == None ==> w.c.handled == w.s.out
  {
    hide Channel.Inv;
    BothSides(w);
    ReceivedBegins(w.down);
    if Drained(w.down) {
      DrainedMeansReceived(w.down);
    }
  }

  lemma PayloadOfPrefix(a: seq<Frame>, b: seq<Frame>, sid: nat)
    requires a <= b
    ensures Payload(a, sid) <= Payload(b, sid)
  {
    PayloadAppend(a, b[|a|..], sid);
    assert a + b[|a|..] == b;
  }

  /** What a client gets, on every run: what the pipe of a stream got, behind the payload that came before
      the stream was registered, begins what was written to the server's stream of its id; and if there is
      no such stream, or the client's is not open yet, it got nothing. */
  lemma {:induction false} DownlinkIntegrity(settings: Frame, c: Session, s: Session, events: seq<W.Event>, w: World,
                                             h: nat, early: bytes)
    requires GoodStart(settings, c, s) && w == W.Run(Start(settings, c, s), events) && h < |w.c.all|
    requires early == Early(Start(settings, c, s), events, h)
    ensures forall k :: 0 <= k < |w.s.all| && w.s.all[k].id == w.c.all[h].id && IsOpen(w.c, h) ==>
              early + w.c.all[h].piped <= w.s.all[k].written
    ensures !IsOpen(w.c, h) || !HasStream(w.s, w.c.all[h].id) ==> w.c.all[h].piped == []
  {
    hide W.Run;
    hide W.Inv;
    hide Payload;
    hide Early;
    hide HasStream;
    ClientDownOnEveryRun(settings, c, s, events, w, h);
    SentAsWrittenOnEveryRun(settings, c, s, events, w, w.c.all[h].id);
    W.InvOnEveryRun(settings, c, s, events);
    HandledPrefix(w);
    PayloadOfPrefix(w.c.handled, w.s.out, w.c.all[h].id);
  }

  /** When nothing is lost, exactly: with the way back drained, an open client stream that is alive has
      received all that was written to it if and only if no payload came before it was registered. */
  lemma {:induction false} DrainedDownlinkIff(settings: Frame, c: Session, s: Session, events: seq<W.Event>, w: World,
                                              h: nat, k: nat, early: bytes)
    requires GoodStart(settings, c, s) && w == W.Run(Start(settings, c, s), events)
    requires early == Early(Start(settings, c, s), events, h)
    requires Drained(w.down) && w.c.pending == None
    requires IsOpen(w.c, h) && !w.c.closed && !w.c.all[h].dead && k < |w.s.all| && w.s.all[k].id == w.c.all[h].id
    ensures w.s.all[k].written == early + w.c.all[h].piped
    ensures w.c.all[h].piped == w.s.all[k].written <==> early == []
  {
    hide W.Run;
    hide W.Inv;
    hide Payload;
    hide Early;
    ClientDownOnEveryRun(settings, c, s, events, w, h);
    SentAsWrittenOnEveryRun(settings, c, s, events, w, w.c.all[h].id);
    W.InvOnEveryRun(settings, c, s, events);
    HandledPrefix(w);
    ClientLife(w);
    RegisteredIndex(w.c, h);
    hide Lifecycle.Inv;
    assert |early + w.c.all[h].piped| == |early| + |w.c.all[h].piped|;
  }

  // ---- The discipline ----

  predicate Disciplined(w: World, e: W.Event) {
    e.Server? ==> HeardFirst(w.s, e.b)
  }

  /** Every step of the run keeps the server's discipline. */
  ghost predicate DisciplinedRun(w: World, events: seq<W.Event>) {
    forall k :: 0 <= k < |events| ==> Disciplined(W.Run(w, events[..k]), events[k])
  }

  lemma DisciplinedPrefix(w: World, events: seq<W.Event>)
    requires events != []
    ensures var n := |events| - 1;
            DisciplinedRun(w, events) ==> DisciplinedRun(w, events[..n]) && Disciplined(W.Run(w, events[..n]), events[n])
  {
    hide W.Run;
    hide Disciplined;
    var init := events[..|events| - 1];
    assert forall k :: 0 <= k < |init| ==> init[..k] == events[..k];
  }

  /** With the discipline, the server has sent no data for a stream that the client is still opening: it
      would have heard from it first. */
  lemma DataOnlyForOpenStreams(w: World, h: nat)
    requires W.Inv(w) && h < |w.c.all| && !IsOpen(w.c, h) && StreamDown(w.c, h, [])
    requires SentAsWritten(w.s, w.c.all[h].id) && Polite(w.s)
    ensures Payload(w.s.out, w.c.all[h].id) == []
  {
    ClientLife(w);
    LifecycleIds(w.c);
    hide W.Inv;
    hide Payload;
    hide Lifecycle.Inv;
    var sid := w.c.all[h].id;
    if HasStream(w.s, sid) {
      var k :| 0 <= k < |w.s.all| && w.s.all[k].id == sid;
      PipedIsPrefix(w, k);
    }
  }

  /** And so no stream loses anything on a disciplined run. */
  lemma {:induction false} DisciplineLosesNothing(settings: Frame, c: Session, s: Session, events: seq<W.Event>, h: nat)
    requires GoodStart(settings, c, s) && DisciplinedRun(Start(settings, c, s), events)
    ensures Early(Start(settings, c, s), events, h) == []
  {
    hide W.Next;
    hide W.Inv;
    hide W.Run;
    hide Payload;
    hide SentAsWritten;
    hide Polite;
    hide DisciplinedRun;
    if events != [] {
      var w0, init := Start(settings, c, s), events[..|events| - 1];
      var v := W.Run(w0, init);
      DisciplinedPrefix(w0, events);
      DisciplineLosesNothing(settings, c, s, init, h);
      if h < |v.c.all| && !IsOpen(v.c, h) {
        ClientDownOnEveryRun(settings, c, s, init, v, h);
        SentAsWrittenOnEveryRun(settings, c, s, init, v, v.c.all[h].id);
        W.InvOnEveryRun(settings, c, s, init);
        DataOnlyForOpenStreams(v, h);
        HandledPrefix(v);
        PayloadOfPrefix(v.c.handled, v.s.out, v.c.all[h].id);
      }
    }
  }
}
