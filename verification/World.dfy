/** A client session and a server session joined by two padded byte channels. */
module World {
  import opened Bytes
  import opened Options
  import opened Frames
  import opened Scheme
  import opened Padder
  import opened SessionSpec
  import opened Channel
  import opened Logs
  import Lifecycle

  /** `up` carries the client's frames to the server, `down` the server's to the client. */
  datatype World = World(c: Session, s: Session, up: Chan, down: Chan)

  /** The padding draw of the i-th frame of a step; a call that draws nothing is unshaped. */
  function Pick(draws: seq<Draw>, i: nat): (d: Draw)
    ensures ValidSizes(d.sizes)
  {
    if i < |draws| && ValidSizes(draws[i].sizes) then draws[i] else Draw(0, [])
  }

  /** The frames of a step go through `writeConn` in order. */
  function SubmitAll(ch: Chan, fs: seq<Frame>, draws: seq<Draw>): Option<Chan> {
    if fs == [] then Some(ch)
    else
      var n := |fs| - 1;
      match SubmitAll(ch, fs[..n], draws)
      case None => None
      case Some(mid) =>
        if Submittable(mid, fs[n], Pick(draws, n)) then Some(Submit(mid, fs[n], Pick(draws, n))) else None
  }

  function Fresh(s: Session, t: Session): seq<Frame> {
    if |s.out| <= |t.out| then t.out[|s.out|..] else []
  }

  datatype Event =
    | Client(a: Action, clientDraws: seq<Draw>)
    | Server(b: Action, serverDraws: seq<Draw>)
    | Unbuffer(h: nat)
    | ClientReads
    | ServerReads
    | ArriveUp(n: nat)
    | ArriveDown(m: nat)

  /** The receive loop reads the next frame, if its session is open and it is not busy. */
  function ReadFrom(s: Session, ch: Chan): (Session, Chan) {
    if s.closed || s.pending.Some? then (s, ch)
    else
      match Visible(ch)
      case NeedMore => (s, ch)
      case Got(f, _) =>
        (if f.cmd == CMD_WASTE then s else SessionSpec.Next(s, ARead(f)), Receive(ch))
  }

  /** `Unbuffer` is the assignment behind the SYN in `OpenStream`. A step whose padding would break
      the stream is not taken: `PaddingNeverBlocks` says which draws are safe. */
  function Next(w: World, e: Event): World {
    match e
    case Client(a, draws) =>
      if a.ARead? then w
      else
        var c := SessionSpec.Next(w.c, a);
        (match SubmitAll(w.up, Fresh(w.c, c), draws)
         case None => w
         case Some(up) => w.(c := c, up := up))
    case Server(a, draws) =>
      if a.ARead? then w
      else
        var s := SessionSpec.Next(w.s, a);
        (match SubmitAll(w.down, Fresh(w.s, s), draws)
         case None => w
         case Some(down) => w.(s := s, down := down))
    case Unbuffer(h) =>
      if h < |w.c.all| && w.c.all[h].phase != Allocated then w.(up := SetBuffering(w.up, false)) else w
    case ClientReads => var r := ReadFrom(w.c, w.down); w.(c := r.0, down := r.1)
    case ServerReads => var r := ReadFrom(w.s, w.up); w.(s := r.0, up := r.1)
    case ArriveUp(n) => w.(up := Deliver(w.up, n))
    case ArriveDown(n) => w.(down := Deliver(w.down, n))
  }

  /** The settings text `Run` writes: not empty, announcing version 2. */
  predicate SettingsFrame(f: Frame) {
    WellFormed(f) && f.cmd == CMD_SETTINGS && f.data != [] && AnnouncedVersion(f.data) == Some(2)
  }

  /** After `Run`: the client has put its settings in the write buffer; nothing has been sent. */
  function Start(settings: Frame, c: Session, s: Session): World
    requires c.out == [settings]
  {
    World(c, s,
          Submit(SetBuffering(NewChan(true), true), settings, Draw(0, [])),
          NewChan(false))
  }

  predicate GoodStart(settings: Frame, c: Session, s: Session) {
    && SettingsFrame(settings)
    && c == NewSession(true, c.raw, c.md5).(out := [settings])
    && s == NewSession(false, s.raw, s.md5)
    && |c.raw| < U16_LIMIT && |s.raw| < U16_LIMIT
  }

  function Run(w: World, events: seq<Event>): World {
    if events == [] then w else Next(Run(w, events[..|events| - 1]), events[|events| - 1])
  }

  // ---- The invariant ----

  function Waiting(s: Session): seq<Frame> {
    if s.pending.Some? then [s.pending.value] else []
  }

  ghost predicate Tallied(s: Session) {
    && (forall sid :: Lifecycle.Tally(s, CMD_FIN, sid))
    && (forall sid :: Lifecycle.Tally(s, CMD_SYNACK, sid))
  }

  lemma NextKeepsTallied(s: Session, a: Action)
    requires Tallied(s)
    ensures Tallied(SessionSpec.Next(s, a))
  {
    hide Lifecycle.Tally;
    hide SessionSpec.Next;
    var t := SessionSpec.Next(s, a);
    forall sid ensures Lifecycle.Tally(t, CMD_FIN, sid) && Lifecycle.Tally(t, CMD_SYNACK, sid) {
      Lifecycle.NextKeepsTally(s, a, CMD_FIN, sid);
      Lifecycle.NextKeepsTally(s, a, CMD_SYNACK, sid);
    }
  }

  /** An endpoint and its outgoing and incoming channels agree. */
  ghost predicate Linked(s: Session, outgoing: Chan, incoming: Chan) {
    && Channel.Inv(outgoing) && outgoing.submitted == s.out
    && incoming.received == s.handled + Waiting(s)
    && Lifecycle.Inv(s) && Sound(s)
    && Tallied(s)
  }

  datatype Side = AtClient | AtServer

  /** The endpoint of a side and its two channels agree. */
  ghost predicate SideOk(w: World, side: Side) {
    if side.AtClient? then Linked(w.c, w.up, w.down) && w.c.isClient else Linked(w.s, w.down, w.up) && !w.s.isClient
  }

  ghost predicate Inv(w: World) {
    && (forall side :: SideOk(w, side))
    && ClientOk(w.c) && ServerOk(w.s) && ServerOutOk(w.s)
    && (w.c.peerVersion >= 2 ==> w.s.peerVersion >= 2)
  }

  lemma BothSides(w: World)
    requires Inv(w)
    ensures SideOk(w, AtClient) && SideOk(w, AtServer)
  {
  }

  lemma {:induction false} SubmitAllKeepsInv(ch: Chan, fs: seq<Frame>, draws: seq<Draw>, ch': Chan)
    requires Channel.Inv(ch) && SubmitAll(ch, fs, draws) == Some(ch')
    ensures Channel.Inv(ch') && ch'.submitted == ch.submitted + fs && ch'.received == ch.received
  {
    hide Channel.Inv;
    hide Submittable;
    if fs != [] {
      var n := |fs| - 1;
      var mid := SubmitAll(ch, fs[..n], draws).value;
      SubmitAllKeepsInv(ch, fs[..n], draws, mid);
      SubmitKeepsInv(mid, fs[n], Pick(draws, n));
      assert fs == fs[..n] + [fs[n]];
    }
  }

  predicate FittingDraws(draws: seq<Draw>) {
    forall i :: 0 <= i < |draws| ==> FitU16(draws[i].sizes)
  }

  /** Sizes that fit 16 bits never stop a step. */
  lemma {:induction false} PaddingNeverBlocks(ch: Chan, fs: seq<Frame>, draws: seq<Draw>)
    requires AllSendable(fs) && FittingDraws(draws)
    ensures SubmitAll(ch, fs, draws).Some?
  {
    if fs != [] {
      var n := |fs| - 1;
      PaddingNeverBlocks(ch, fs[..n], draws);
      var mid, d := SubmitAll(ch, fs[..n], draws).value, Pick(draws, n);
      assert Sendable(fs[n]);
      FittingSizesAreSynchronous(|mid.w.buffer + Encode(fs[n])|, d.sizes);
    }
  }

  /** Acting on a frame moves it from waiting to handled. */
  lemma ReceivedUnmoved(s: Session, a: Action)
    requires !a.ARead?
    ensures var t := SessionSpec.Next(s, a);
            t.handled + Waiting(t) == s.handled + Waiting(s) && s.handled <= t.handled
  {
    hide AnnouncedMd5;
    hide AnnouncedVersion;
    if a.AHandle? && s.pending.Some? {
      HandleFrameLogs(s.(pending := None, handled := s.handled + [s.pending.value]), s.pending.value);
    }
  }

  lemma HandleFrameLogs(s: Session, f: Frame)
    requires s.pending == None
    ensures HandleFrame(s, f).handled == s.handled && HandleFrame(s, f).pending == None
  {
    hide HandleSettings;
    hide HandleServerSettings;
    hide Kill;
    SettingsLogs(s, f);
  }

  lemma SettingsLogs(s: Session, f: Frame)
    ensures HandleSettings(s, f.data).handled == s.handled && HandleSettings(s, f.data).pending == s.pending
    ensures HandleServerSettings(s, f.data).handled == s.handled && HandleServerSettings(s, f.data).pending == s.pending
  {
    hide AnnouncedMd5;
    hide AnnouncedVersion;
  }

  /** A local step of either endpoint keeps it linked to its channels. */
  lemma LocalKeepsLinked(s: Session, outgoing: Chan, incoming: Chan, a: Action, draws: seq<Draw>, t: Session,
                         outgoing': Chan)
    requires Linked(s, outgoing, incoming) && !a.ARead? && t == SessionSpec.Next(s, a)
    requires SubmitAll(outgoing, Fresh(s, t), draws) == Some(outgoing')
    ensures Linked(t, outgoing', incoming) && outgoing'.received == outgoing.received
  {
    hide Channel.Inv;
    hide Lifecycle.Inv;
    hide Sound;
    hide SessionSpec.Next;
    hide Tallied;
    NextSound(s, a);
    Lifecycle.NextKeepsInv(s, a);
    ReceivedUnmoved(s, a);
    SubmitAllKeepsInv(outgoing, Fresh(s, t), draws, outgoing');
    NextKeepsTallied(s, a);
    var fs :| t.out == s.out + fs && AllSendable(fs);
    assert Fresh(s, t) == fs;
  }

  /** What has been received, and then the frame that is read next, begin what was submitted. */
  lemma ReceivedBegins(ch: Chan)
    requires Channel.Inv(ch)
    ensures ch.received <= ch.submitted
  {
    hide DecodeAll;
  }

  /** A read keeps both channels, and the reader linked, provided a client is not sent a SYN. */
  lemma ReadKeepsLinked(s: Session, outgoing: Chan, incoming: Chan)
    requires Linked(s, outgoing, incoming) && Channel.Inv(incoming)
    requires s.isClient ==> forall i :: 0 <= i < |incoming.submitted| ==> incoming.submitted[i].cmd != CMD_SYN
    ensures var r := ReadFrom(s, incoming);
            && Linked(r.0, outgoing, r.1) && Channel.Inv(r.1) && r.1.submitted == incoming.submitted
            && (r.0 == s || (s.pending == None && r.0.pending.Some? && r.0 == s.(pending := r.0.pending)))
  {
    hide Channel.Inv;
    hide Lifecycle.Inv;
    hide Tallied;
    hide DecodeOne;
    if !s.closed && s.pending == None && Visible(incoming).Got? {
      var f := Visible(incoming).frame;
      ReceiveKeepsInv(incoming);
      if f.cmd != CMD_WASTE {
        ReceivedBegins(Receive(incoming));
        assert incoming.submitted[|incoming.received|] == Receive(incoming).received[|incoming.received|] == f;
        DecodedIsWellFormed(incoming.unread);
        Lifecycle.NextKeepsInv(s, ARead(f));
        var t := SessionSpec.Next(s, ARead(f));
        assert t == s.(pending := Some(f));
        NextKeepsTallied(s, ARead(f));
      }
    }
  }

  /** The server's handled frames, then the one it holds, begin the client's log. */
  lemma HandledBeginsLog(w: World)
    requires Inv(w)
    ensures var n := |w.s.handled|;
            && LogOk(w.c.out) && n <= |w.c.out| && w.s.handled == w.c.out[..n]
            && (w.s.pending.Some? ==> n < |w.c.out| && w.s.pending.value == w.c.out[n])
  {
    hide Channel.Inv;
    hide LogOk;
    BothSides(w);
    ReceivedBegins(w.up);
    assert w.s.handled + Waiting(w.s) <= w.c.out;
  }

  /** The client's idea of the peer's version changes only when it acts on the server's settings. */
  lemma ClientVersionChange(c: Session, a: Action)
    requires c.isClient && SessionSpec.Next(c, a).peerVersion != c.peerVersion
    ensures a.AHandle? && c.pending.Some? && c.pending.value.cmd == CMD_SERVER_SETTINGS
  {
    hide AnnouncedMd5;
    hide AnnouncedVersion;
  }

  /** And those the server sends only to a version 2 client. */
  lemma ClientVersionFollows(w: World, a: Action)
    requires Inv(w)
    ensures SessionSpec.Next(w.c, a).peerVersion >= 2 ==> w.s.peerVersion >= 2
  {
    hide Channel.Inv;
    hide Lifecycle.Inv;
    hide ClientOk;
    hide ServerOk;
    hide SessionSpec.Next;
    if SessionSpec.Next(w.c, a).peerVersion != w.c.peerVersion {
      BothSides(w);
      ClientVersionChange(w.c, a);
      ReceivedBegins(w.down);
      var n := |w.c.handled|;
      assert w.s.out[n] == w.down.received[n] == w.c.pending.value;
    }
  }

  lemma ClientKeepsInv(w: World, a: Action, draws: seq<Draw>)
    requires Inv(w)
    ensures Inv(Next(w, Client(a, draws)))
  {
    hide Linked;
    hide ClientOk;
    hide ServerOk;
    hide ServerOutOk;
    hide SessionSpec.Next;
    var c, w' := SessionSpec.Next(w.c, a), Next(w, Client(a, draws));
    if !a.ARead? && SubmitAll(w.up, Fresh(w.c, c), draws).Some? {
      BothSides(w);
      ClientVersionFollows(w, a);
      LocalKeepsLinked(w.c, w.up, w.down, a, draws, c, w'.up);
      LinkedLife(w.c, w.up, w.down);
      Lifecycle.NextKeepsInv(w.c, a);
      ClientNextOk(w.c, a);
      Relinked(w.s, w.down, w.up, w'.up);
    }
  }

  lemma LinkedLife(s: Session, outgoing: Chan, incoming: Chan)
    requires Linked(s, outgoing, incoming)
    ensures Lifecycle.Inv(s)
  {
  }

  /** The reader's end is unmoved by what the peer submits. */
  lemma Relinked(s: Session, outgoing: Chan, incoming: Chan, incoming': Chan)
    requires Linked(s, outgoing, incoming) && incoming'.received == incoming.received
    ensures Linked(s, outgoing, incoming')
  {
    hide Channel.Inv;
    hide Lifecycle.Inv;
    hide Tallied;
  }

  lemma ServerStepOk(s: Session, a: Action, log: seq<Frame>)
    requires ServerOk(s) && Lifecycle.Inv(s) && !s.isClient && !a.ARead?
    requires LogOk(log) && |s.handled| <= |log| && s.handled == log[..|s.handled|]
    requires s.pending.Some? ==> |s.handled| < |log| && s.pending.value == log[|s.handled|]
    ensures ServerOk(SessionSpec.Next(s, a))
  {
    if Enabled(s, a) {
      hide ServerOk;
      hide LogOk;
      hide Lifecycle.Inv;
      if a.AHandle? {
        if s.pending.Some? {
          HandleKeepsServerOk(s, s.pending.value, log);
        }
      } else {
        ServerActionIsIdle(s, a);
        IdleKeepsServerOk(s, Perform(s, a));
      }
    }
  }

  lemma VersionGrows(s: Session, t: Session)
    requires ServerOk(s) && ServerOk(t) && s.handled <= t.handled
    ensures t.peerVersion >= s.peerVersion
  {
  }

  lemma ServerKeepsInv(w: World, a: Action, draws: seq<Draw>)
    requires Inv(w)
    ensures Inv(Next(w, Server(a, draws)))
  {
    hide Linked;
    hide LogOk;
    hide ClientOk;
    hide ServerOk;
    hide ServerOutOk;
    hide SessionSpec.Next;
    var s, w' := SessionSpec.Next(w.s, a), Next(w, Server(a, draws));
    if !a.ARead? && SubmitAll(w.down, Fresh(w.s, s), draws).Some? {
      BothSides(w);
      HandledBeginsLog(w);
      LocalKeepsLinked(w.s, w.down, w.up, a, draws, s, w'.down);
      LinkedLife(w.s, w.down, w.up);
      Lifecycle.NextKeepsInv(w.s, a);
      ServerStepOk(w.s, a, w.c.out);
      ServerNextOut(w.s, a, w.c.out);
      ReceivedUnmoved(w.s, a);
      VersionGrows(w.s, s);
      Relinked(w.c, w.up, w.down, w'.down);
    }
  }

  lemma ReadsKeepInv(w: World, e: Event)
    requires Inv(w) && (e.ClientReads? || e.ServerReads?)
    ensures Inv(Next(w, e))
  {
    hide Channel.Inv;
    hide LogOk;
    hide SynIn;
    hide Payload;
    hide Lifecycle.Inv;
    hide Tallied;
    hide ReadFrom;
    BothSides(w);
    if e.ClientReads? {
      ReadKeepsLinked(w.c, w.up, w.down);
    } else {
      ReadKeepsLinked(w.s, w.down, w.up);
    }
  }

  lemma NextKeepsInv(w: World, e: Event)
    requires Inv(w)
    ensures Inv(Next(w, e))
  {
    hide Next;
    hide Inv;
    match e
    case Client(a, draws) => ClientKeepsInv(w, a, draws);
    case Server(a, draws) => ServerKeepsInv(w, a, draws);
    case ClientReads => ReadsKeepInv(w, e);
    case ServerReads => ReadsKeepInv(w, e);
    case _ => TransportKeepsInv(w, e);
  }

  /** Bytes arriving and the end of the buffering leave both endpoints alone. */
  lemma TransportKeepsInv(w: World, e: Event)
    requires Inv(w) && (e.Unbuffer? || e.ArriveUp? || e.ArriveDown?)
    ensures Inv(Next(w, e))
  {
    hide ClientOk;
    hide ServerOk;
    hide ServerOutOk;
    hide Tallied;
    hide Lifecycle.Inv;
    hide Sound;
    hide Channel.Inv;
    BothSides(w);
    match e
    case Unbuffer(h) => Channel.NextKeepsInv(w.up, Buffering(false));
    case ArriveUp(n) => DeliverKeepsInv(w.up, n);
    case ArriveDown(n) => DeliverKeepsInv(w.down, n);
  }

  lemma StartUp(settings: Frame)
    requires SettingsFrame(settings)
    ensures var ch := Submit(SetBuffering(NewChan(true), true), settings, Draw(0, []));
            Channel.Inv(ch) && ch.submitted == [settings] && ch.received == []
  {
    hide AnnouncedVersion;
    ContentOfNothing();
    ContentOfFrame(settings);
    var ch := Submit(SetBuffering(NewChan(true), true), settings, Draw(0, []));
    assert ch.w.buffer == [] + Encode(settings) == Encode(settings);
    assert ch.unread + ch.flying == [];
  }

  lemma StartDown()
    ensures Channel.Inv(NewChan(false))
  {
    ContentOfNothing();
    var ch := NewChan(false);
    assert ch.unread + ch.flying == [];
  }

  lemma StartLog(settings: Frame, c: Session)
    requires SettingsFrame(settings) && c == NewSession(true, c.raw, c.md5).(out := [settings])
    ensures ClientOk(c)
  {
    hide AnnouncedVersion;
    assert c.out[..0] == [];
  }

  lemma NothingReported(s: Session)
    requires s.all == [] && forall i :: 0 <= i < |s.out| ==> !Lifecycle.Reports(s.out[i].cmd)
    requires |s.out| <= 1
    ensures Tallied(s)
  {
    forall sid, cmd | Lifecycle.Reports(cmd) ensures Lifecycle.Tally(s, cmd, sid) {
      if s.out != [] {
        Lifecycle.CountSnoc([], s.out[0], cmd, sid);
        assert [] + [s.out[0]] == s.out;
      }
    }
  }

  lemma StartClient(settings: Frame, c: Session)
    requires SettingsFrame(settings) && c == NewSession(true, c.raw, c.md5).(out := [settings])
    ensures ClientOk(c) && Tallied(c) && Lifecycle.Inv(c)
  {
    hide ClientOk;
    hide Tallied;
    hide AnnouncedVersion;
    StartLog(settings, c);
    NothingReported(c);
  }

  lemma StartServer(s: Session)
    requires s == NewSession(false, s.raw, s.md5)
    ensures ServerOk(s) && ServerOutOk(s) && Tallied(s) && Lifecycle.Inv(s)
  {
    hide Tallied;
    NothingReported(s);
  }

  lemma StartInv(settings: Frame, c: Session, s: Session)
    requires GoodStart(settings, c, s)
    ensures Inv(Start(settings, c, s))
  {
    hide SettingsFrame;
    hide Channel.Inv;
    hide ClientOk;
    hide ServerOk;
    hide ServerOutOk;
    hide Tallied;
    hide Lifecycle.Inv;
    StartUp(settings);
    StartDown();
    StartClient(settings, c);
    StartServer(s);
  }

  lemma {:induction false} InvOnEveryRun(settings: Frame, c: Session, s: Session, events: seq<Event>)
    requires GoodStart(settings, c, s)
    ensures Inv(Run(Start(settings, c, s), events))
  {
    if events == [] {
      StartInv(settings, c, s);
    } else {
      var n := |events| - 1;
      InvOnEveryRun(settings, c, s, events[..n]);
      NextKeepsInv(Run(Start(settings, c, s), events[..n]), events[n]);
    }
  }

  // ---- What follows from it ----

  /** End-to-end stream integrity: in every reachable state, for every interleaving, scheme and draw,
      the bytes handed to the pipe of a server stream are a prefix of what the client wrote to the
      stream of the same id. */
  lemma {:induction false} StreamIntegrity(settings: Frame, c: Session, s: Session, events: seq<Event>, w: World, h: nat)
    requires GoodStart(settings, c, s) && w == Run(Start(settings, c, s), events) && h < |w.s.all|
    ensures var sid := w.s.all[h].id;
            1 <= sid <= |w.c.all| && w.c.all[sid - 1].id == sid && w.s.all[h].piped <= w.c.all[sid - 1].written
  {
    InvOnEveryRun(settings, c, s, events);
    PipedIsPrefix(w, h);
  }

  lemma PipedIsPrefix(w: World, h: nat)
    requires Inv(w) && h < |w.s.all|
    ensures var sid := w.s.all[h].id;
            1 <= sid <= |w.c.all| && w.c.all[sid - 1].id == sid && w.s.all[h].piped <= w.c.all[sid - 1].written
  {
    hide Channel.Inv;
    hide LogOk;
    hide Payload;
    BothSides(w);
    HandledBeginsLog(w);
    var n, sid := |w.s.handled|, w.s.all[h].id;
    assert SynIn(w.s.handled, sid);
    var i :| 0 <= i < n && w.s.handled[i].cmd == CMD_SYN && w.s.handled[i].sid == sid;
    assert w.c.out[i] == w.s.handled[i];
    LifecycleIds(w.c);
    assert w.c.out == w.s.handled + w.c.out[n..];
    PayloadAppend(w.s.handled, w.c.out[n..], sid);
    assert Prefix(w.s.all[h].piped, Payload(w.s.handled, sid));
    assert Payload(w.c.out, w.c.all[sid - 1].id) == w.c.all[sid - 1].written;
  }

  /** Completeness. Once the client's buffer and the connection are empty and the server has acted on what
      it read, the server has a stream for every stream that the client has opened; and if neither it nor
      its session is closed, it has received everything written to the client's. */
  lemma {:induction false} DrainedStreamsAreComplete(settings: Frame, c: Session, s: Session, events: seq<Event>,
                                                     w: World, k: nat)
    requires GoodStart(settings, c, s) && w == Run(Start(settings, c, s), events)
    requires Drained(w.up) && w.s.pending == None
    requires k < |w.c.all| && w.c.all[k].phase == Open
    ensures HasStream(w.s, w.c.all[k].id)
    ensures forall h :: 0 <= h < |w.s.all| && w.s.all[h].id == w.c.all[k].id ==>
              w.s.closed || w.s.all[h].dead || w.s.all[h].piped == w.c.all[k].written
  {
    hide Run;
    hide Channel.Inv;
    hide LogOk;
    hide SynIn;
    hide Payload;
    InvOnEveryRun(settings, c, s, events);
    BothSides(w);
    DrainedMeansReceived(w.up);
    assert w.s.handled == w.c.out;
    forall h | 0 <= h < |w.s.all| && w.s.all[h].id == w.c.all[k].id && !w.s.closed && !w.s.all[h].dead
      ensures w.s.all[h].piped == w.c.all[k].written
    {
      RegisteredIndex(w.s, h) by { Lifecycle.InvPhases(w.s, h); }
    }
  }

  /** Handshake ordering and version negotiation. The client's wire stream begins with its settings;
      the server never sees a SYN twice and never sends the missing-settings Alert; version 2 is in
      force at the client only if it is at the server; SYNACK and FIN go out at most once a stream. */
  lemma {:induction false} NegotiationOnEveryRun(settings: Frame, c: Session, s: Session, events: seq<Event>,
                                                 w: World, sid: nat)
    requires GoodStart(settings, c, s) && w == Run(Start(settings, c, s), events)
    ensures && (w.up.received != [] ==> w.up.received[0] == settings)
            && (forall i, j :: 0 <= i < j < |w.s.handled| && w.s.handled[i].cmd == CMD_SYN && w.s.handled[j].cmd == CMD_SYN
                  ==> w.s.handled[i].sid != w.s.handled[j].sid)
            && (forall i :: 0 <= i < |w.s.out| ==> w.s.out[i].cmd != CMD_ALERT)
            && (w.c.peerVersion >= 2 ==> w.s.peerVersion >= 2)
            && (forall i :: 0 <= i < |w.s.out| && w.s.out[i].cmd == CMD_SYNACK ==> w.s.peerVersion >= 2)
            && Lifecycle.Count(w.s.out, CMD_SYNACK, sid) <= 1
            && Lifecycle.Count(w.s.out, CMD_FIN, sid) <= 1
            && Lifecycle.Count(w.c.out, CMD_FIN, sid) <= 1
  {
    hide Run;
    hide Inv;
    InvOnEveryRun(settings, c, s, events);
    FirstFrameOnEveryRun(settings, c, s, events);
    ServerSideFacts(w);
    AtMostOnce(w, sid);
  }

  lemma ServerSideFacts(w: World)
    requires Inv(w)
    ensures w.up.received <= w.c.out
    ensures forall i, j :: 0 <= i < j < |w.s.handled| && w.s.handled[i].cmd == CMD_SYN && w.s.handled[j].cmd == CMD_SYN
              ==> w.s.handled[i].sid != w.s.handled[j].sid
    ensures forall i :: 0 <= i < |w.s.out| ==> w.s.out[i].cmd != CMD_ALERT
    ensures w.c.peerVersion >= 2 ==> w.s.peerVersion >= 2
    ensures forall i :: 0 <= i < |w.s.out| && w.s.out[i].cmd == CMD_SYNACK ==> w.s.peerVersion >= 2
  {
    hide Channel.Inv;
    BothSides(w);
    ReceivedBegins(w.up);
    HandledBeginsLog(w);
    forall i, j | 0 <= i < j < |w.s.handled| && w.s.handled[i].cmd == CMD_SYN && w.s.handled[j].cmd == CMD_SYN
      ensures w.s.handled[i].sid != w.s.handled[j].sid
    {
      assert w.c.out[i] == w.s.handled[i] && w.c.out[j] == w.s.handled[j];
    }
  }

  lemma AtMostOnce(w: World, sid: nat)
    requires Inv(w)
    ensures Lifecycle.Count(w.s.out, CMD_SYNACK, sid) <= 1
    ensures Lifecycle.Count(w.s.out, CMD_FIN, sid) <= 1
    ensures Lifecycle.Count(w.c.out, CMD_FIN, sid) <= 1
  {
    hide Channel.Inv;
    hide LogOk;
    hide Lifecycle.Inv;
    hide Sound;
    BothSides(w);
    ReportsAtMostOnce(w.s, sid);
    LifecycleIds(w.c);
    ReportsAtMostOnce(w.c, sid);
    assert Lifecycle.Tally(w.s, CMD_SYNACK, sid) && Lifecycle.Tally(w.s, CMD_FIN, sid) && Lifecycle.Tally(w.c, CMD_FIN, sid);
  }

  lemma ReportsAtMostOnce(s: Session, sid: nat)
    requires Lifecycle.Inv(s) && Lifecycle.DistinctIds(s.all)
    ensures Lifecycle.Sent(s.all, CMD_SYNACK, sid) <= 1 && Lifecycle.Sent(s.all, CMD_FIN, sid) <= 1
  {
    Lifecycle.SentAtMostOnce(s.all, CMD_SYNACK, sid);
    Lifecycle.SentAtMostOnce(s.all, CMD_FIN, sid);
  }

  lemma {:induction false} FirstFrameOnEveryRun(settings: Frame, c: Session, s: Session, events: seq<Event>)
    requires GoodStart(settings, c, s)
    ensures var w := Run(Start(settings, c, s), events);
            w.c.out != [] && w.c.out[0] == settings
  {
    if events != [] {
      var n := |events| - 1;
      FirstFrameOnEveryRun(settings, c, s, events[..n]);
      InvOnEveryRun(settings, c, s, events[..n]);
      FirstFrameStays(Run(Start(settings, c, s), events[..n]), events[n]);
    }
  }

  lemma FirstFrameStays(w: World, e: Event)
    requires Inv(w) && w.c.out != []
    ensures Next(w, e).c.out != [] && Next(w, e).c.out[0] == w.c.out[0]
  {
    hide Channel.Inv;
    hide ClientOk;
    hide ServerOk;
    hide Lifecycle.Inv;
    hide Tallied;
    BothSides(w);
    match e
    case Client(a, draws) =>
      hide SessionSpec.Next;
      NextSound(w.c, a);
    case _ =>
  }
}
