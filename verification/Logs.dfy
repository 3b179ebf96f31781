/** What a client puts on the wire, in what order, and what a server makes of it. */
module Logs {
  import opened Bytes
  import opened Options
  import opened Frames
  import opened SessionSpec
  import Lifecycle

  predicate SynIn(log: seq<Frame>, sid: nat) {
    exists i :: 0 <= i < |log| && log[i].cmd == CMD_SYN && log[i].sid == sid
  }

  predicate FinIn(log: seq<Frame>, sid: nat) {
    exists i :: 0 <= i < |log| && log[i].cmd == CMD_FIN && log[i].sid == sid
  }

  /** The order of a client's frames: settings first and only then, announcing version 2; no id opened
      twice; no data and no FIN before its stream's SYN. */
  predicate LogOk(log: seq<Frame>) {
    && (log != [] ==> log[0].cmd == CMD_SETTINGS && log[0].data != [] && AnnouncedVersion(log[0].data) == Some(2))
    && (forall i :: 1 <= i < |log| ==> log[i].cmd != CMD_SETTINGS)
    && (forall i, j :: 0 <= i < j < |log| && log[i].cmd == CMD_SYN && log[j].cmd == CMD_SYN ==> log[i].sid != log[j].sid)
    && (forall i :: 0 <= i < |log| && OfStream(log[i]) ==> SynIn(log[..i], log[i].sid))
  }

  /** Frames that speak of a stream already opened. */
  predicate OfStream(f: Frame) { f.cmd == CMD_PSH || f.cmd == CMD_FIN }

  lemma SynInExtends(a: seq<Frame>, b: seq<Frame>, sid: nat)
    requires SynIn(a, sid)
    ensures SynIn(a + b, sid)
  {
    var i :| 0 <= i < |a| && a[i].cmd == CMD_SYN && a[i].sid == sid;
    assert (a + b)[i] == a[i];
  }

  /** One more frame keeps the order under the conditions a client meets. */
  lemma LogOkSnoc(log: seq<Frame>, f: Frame)
    requires LogOk(log) && log != [] && f.cmd != CMD_SETTINGS
    requires f.cmd == CMD_SYN ==> !SynIn(log, f.sid)
    requires OfStream(f) ==> SynIn(log, f.sid)
    ensures LogOk(log + [f])
  {
    hide AnnouncedVersion;
    var more := log + [f];
    forall i | 0 <= i < |more| && OfStream(more[i]) ensures SynIn(more[..i], more[i].sid) {
      assert more[..i] == log[..i];
      assert log[..|log|] == log;
    }
    forall i, j | 0 <= i < j < |more| && more[i].cmd == CMD_SYN && more[j].cmd == CMD_SYN
      ensures more[i].sid != more[j].sid
    {
      if j == |log| {
        assert log[i].cmd == CMD_SYN;
      }
    }
  }

  // ---- The client ----

  /** The client's log against its streams: a stream is Open only after its SYN, and the payload
      logged for it is what its writer wrote. */
  predicate ClientOk(c: Session) {
    && LogOk(c.out) && c.out != []
    && (forall h :: 0 <= h < |c.all| && c.all[h].phase == Open ==> SynIn(c.out, c.all[h].id))
    && (forall h :: 0 <= h < |c.all| && c.all[h].phase == Allocated ==> !SynIn(c.out, c.all[h].id))
    && (!c.closed ==> forall h :: 0 <= h < |c.all| && c.all[h].phase == SynWritten ==> SynIn(c.out, c.all[h].id))
    && (forall i :: 0 <= i < |c.out| && (c.out[i].cmd == CMD_SYN || c.out[i].cmd == CMD_PSH) ==>
         1 <= c.out[i].sid <= |c.all|)
    && (forall h :: 0 <= h < |c.all| ==> Payload(c.out, c.all[h].id) == c.all[h].written)
  }

  predicate OtherFrame(f: Frame) { f.cmd != CMD_SETTINGS && f.cmd != CMD_SYN && f.cmd != CMD_PSH }

  predicate SameWriter(r: StreamRec, t: StreamRec) {
    t.id == r.id && t.written == r.written && t.phase == r.phase
  }

  /** Steps that open nothing and write no data. */
  ghost predicate Quiet(c: Session, t: Session) {
    && |t.all| == |c.all|
    && (forall h :: 0 <= h < |c.all| ==> SameWriter(c.all[h], t.all[h]))
    && (c.closed ==> t.closed)
    && (t.out == c.out || exists f :: OtherFrame(f) && t.out == c.out + [f])
  }

  /** A frame that such a step sends speaks of a stream already opened, if of any. */
  predicate Follows(c: Session, t: Session) {
    t.out != c.out ==> t.out != [] && (OfStream(t.out[|t.out| - 1]) ==> SynIn(c.out, t.out[|t.out| - 1].sid))
  }

  lemma PayloadSnoc(log: seq<Frame>, f: Frame, sid: nat)
    ensures Payload(log + [f], sid) == Payload(log, sid) + if f.cmd == CMD_PSH && f.sid == sid then f.data else []
  {
    PayloadAppend(log, [f], sid);
  }

  lemma SynInSnoc(log: seq<Frame>, f: Frame, sid: nat)
    ensures SynIn(log + [f], sid) <==> SynIn(log, sid) || (f.cmd == CMD_SYN && f.sid == sid)
  {
    var more := log + [f];
    assert more[|log|] == f;
    if SynIn(log, sid) {
      SynInExtends(log, [f], sid);
    }
    if SynIn(more, sid) {
      var i :| 0 <= i < |more| && more[i].cmd == CMD_SYN && more[i].sid == sid;
      assert i < |log| ==> log[i] == more[i];
    }
  }

  /** How one more frame changes what is logged for each stream. */
  lemma SnocFacts(log: seq<Frame>, f: Frame)
    ensures forall sid ::
              Payload(log + [f], sid) == Payload(log, sid) + if f.cmd == CMD_PSH && f.sid == sid then f.data else []
    ensures forall sid :: SynIn(log + [f], sid) <==> SynIn(log, sid) || (f.cmd == CMD_SYN && f.sid == sid)
  {
    hide SynIn;
    hide Payload;
    forall sid
      ensures Payload(log + [f], sid) == Payload(log, sid) + if f.cmd == CMD_PSH && f.sid == sid then f.data else []
    {
      PayloadSnoc(log, f, sid);
    }
    forall sid ensures SynIn(log + [f], sid) <==> SynIn(log, sid) || (f.cmd == CMD_SYN && f.sid == sid) {
      SynInSnoc(log, f, sid);
    }
  }

  lemma QuietKeepsClientOk(c: Session, t: Session)
    requires ClientOk(c) && Quiet(c, t) && Follows(c, t)
    ensures ClientOk(t)
  {
    hide LogOk;
    hide SynIn;
    hide Payload;
    if t.out != c.out {
      var f :| OtherFrame(f) && t.out == c.out + [f];
      LogOkSnoc(c.out, f);
      SnocFacts(c.out, f);
    }
    forall h | 0 <= h < |t.all| ensures Payload(t.out, t.all[h].id) == t.all[h].written {
      assert SameWriter(c.all[h], t.all[h]);
    }
  }

  lemma BeginKeepsClientOk(c: Session)
    requires ClientOk(c) && Lifecycle.IdsOk(c) && c.isClient
    ensures ClientOk(OpenBegin(c))
  {
    if !c.closed {
      hide LogOk;
      hide SynIn;
      hide Payload;
      NothingFor(c.out, |c.all| + 1, |c.all|);
      var t := OpenBegin(c);
      assert t.all == c.all + [NewStream(|c.all| + 1, Allocated)];
    }
  }

  lemma LifecycleIds(c: Session)
    requires Lifecycle.Inv(c)
    ensures Lifecycle.IdsOk(c)
  {
  }

  lemma {:induction false} NothingFor(log: seq<Frame>, sid: nat, bound: nat)
    requires sid > bound
    requires forall i :: 0 <= i < |log| && (log[i].cmd == CMD_SYN || log[i].cmd == CMD_PSH) ==> 1 <= log[i].sid <= bound
    ensures Payload(log, sid) == [] && !SynIn(log, sid)
  {
    if log != [] {
      NothingFor(log[1..], sid, bound);
    }
  }

  lemma SynKeepsClientOk(c: Session, h: nat)
    requires ClientOk(c) && Lifecycle.IdsOk(c) && c.isClient && h < |c.all| && c.all[h].phase == Allocated
    ensures ClientOk(OpenSyn(c, h))
  {
    if !c.closed {
      hide LogOk;
      hide SynIn;
      hide Payload;
      var f := Frame(CMD_SYN, h + 1, []);
      LogOkSnoc(c.out, f);
      SnocFacts(c.out, f);
    }
  }

  lemma RegisterKeepsClientOk(c: Session, h: nat)
    requires ClientOk(c) && h < |c.all| && c.all[h].phase == SynWritten
    ensures ClientOk(OpenRegister(c, h))
  {
  }

  lemma WriteKeepsClientOk(c: Session, h: nat, data: bytes)
    requires ClientOk(c) && Lifecycle.IdsOk(c) && c.isClient && h < |c.all| && c.all[h].phase == Open
    ensures ClientOk(Write(c, h, data))
  {
    if !c.closed && !c.all[h].dead {
      hide LogOk;
      hide SynIn;
      hide Payload;
      var f := Frame(CMD_PSH, h + 1, data);
      LogOkSnoc(c.out, f);
      SnocFacts(c.out, f);
    }
  }

  lemma CloseWithErrorIsQuiet(c: Session, h: nat)
    requires h < |c.all|
    ensures Quiet(c, CloseWithError(c, h))
  {
    var f := Frame(CMD_FIN, c.all[h].id, []);
    assert OtherFrame(f);
  }

  lemma ClientHandleIsQuiet(c: Session, f: Frame)
    requires c.isClient && f.cmd != CMD_SYN
    ensures Quiet(c, HandleFrame(c, f))
  {
    hide AnnouncedVersion;
    if f.cmd == CMD_SYNACK {
      var t := c.(watchers := CancelWatch(c.watchers, c.synDone), synDone := None);
      if f.data != [] && f.sid in t.streams && t.streams[f.sid] < |t.all| {
        CloseWithErrorIsQuiet(t, t.streams[f.sid]);
      }
    } else if f.cmd == CMD_HEART_REQUEST {
      assert OtherFrame(Frame(CMD_HEART_RESPONSE, f.sid, []));
    }
  }

  lemma QuietFrom(c: Session, t: Session, u: Session)
    requires t.all == c.all && t.out == c.out && t.closed == c.closed && Quiet(t, u)
    ensures Quiet(c, u)
  {
  }

  lemma ClientNextOk(c: Session, a: Action)
    requires ClientOk(c) && Lifecycle.Inv(c) && c.isClient
    ensures ClientOk(Next(c, a))
  {
    if Enabled(c, a) {
      hide ClientOk;
      hide Follows;
      LifecycleIds(c);
      match a
      case ABegin => BeginKeepsClientOk(c);
      case ASyn(h) => SynKeepsClientOk(c, h);
      case ARegister(h) => RegisterKeepsClientOk(c, h);
      case AWrite(h, data) => WriteKeepsClientOk(c, h, data);
      case ACloseStream(h) =>
        OpenHasSyn(c, h);
        ClosingFollows(c, h);
        CloseWithErrorIsQuiet(c, h);
        QuietKeepsClientOk(c, CloseWithError(c, h));
      case AHandle =>
        if c.pending.Some? {
          var t := c.(pending := None, handled := c.handled + [c.pending.value]);
          HandlingFollows(c);
          ClientHandleIsQuiet(t, c.pending.value);
          QuietFrom(c, t, Handle(c));
          QuietKeepsClientOk(c, Handle(c));
        }
      case AReport(h, text) =>
      case _ =>
        OtherActionIsQuiet(c, a);
        SilentFollows(c, Perform(c, a));
        QuietKeepsClientOk(c, Perform(c, a));
    }
  }

  lemma OpenHasSyn(c: Session, h: nat)
    requires ClientOk(c) && h < |c.all| && c.all[h].phase == Open
    ensures SynIn(c.out, c.all[h].id)
  {
  }

  lemma SilentFollows(c: Session, t: Session)
    requires t.out == c.out
    ensures Follows(c, t)
  {
  }

  lemma ClosingFollows(c: Session, h: nat)
    requires h < |c.all| && SynIn(c.out, c.all[h].id)
    ensures Follows(c, CloseWithError(c, h))
  {
    hide SynIn;
  }

  lemma HandlingFollows(c: Session)
    requires ClientOk(c) && Lifecycle.MapOk(c) && c.isClient && c.pending.Some? && c.pending.value.cmd != CMD_SYN
    ensures Follows(c, Handle(c))
  {
    hide AnnouncedVersion;
    hide LogOk;
    hide SynIn;
    hide Payload;
    var f := c.pending.value;
    if f.cmd == CMD_SYNACK && f.sid in c.streams {
      OpenHasSyn(c, c.streams[f.sid]);
    }
  }

  lemma OtherActionIsQuiet(c: Session, a: Action)
    requires c.isClient && Enabled(c, a) && (a.AHook? || a.AClose? || a.AFire? || a.ARead? || a.AReload?)
    ensures Quiet(c, Perform(c, a))
  {
  }

  // ---- The server ----

  predicate Prefix(a: bytes, b: bytes) { a <= b }

  /** The server's streams against the frames it has acted on: one per SYN, and its pipe got exactly the
      payload handled so far while it is registered, a prefix of it ever after. */
  ghost predicate ServerOk(s: Session) {
    && (if s.handled == [] then s.all == [] && !s.gotSettings && s.peerVersion == 0 else s.gotSettings && s.peerVersion == 2)
    && (forall h :: 0 <= h < |s.all| ==> SynIn(s.handled, s.all[h].id))
    && (forall sid :: SynIn(s.handled, sid) ==> HasStream(s, sid))
    && Lifecycle.DistinctIds(s.all)
    && (forall h :: 0 <= h < |s.all| ==> Prefix(s.all[h].piped, Payload(s.handled, s.all[h].id)))
    && (forall h :: 0 <= h < |s.all| && Lifecycle.Registered(s, h) ==> s.all[h].piped == Payload(s.handled, s.all[h].id))
  }

  predicate HasStream(s: Session, sid: nat) {
    exists h :: 0 <= h < |s.all| && s.all[h].id == sid
  }

  /** Version 2 frames only go out to a version 2 peer; no SYN and no Alert goes out; and the settings that go
      out are the server's own. */
  predicate ServerOutOk(s: Session) {
    forall i :: 0 <= i < |s.out| ==>
      && s.out[i].cmd != CMD_SYN && s.out[i].cmd != CMD_ALERT
      && (s.out[i].cmd == CMD_SYNACK || s.out[i].cmd == CMD_SERVER_SETTINGS ==> s.peerVersion >= 2)
      && (s.out[i].cmd == CMD_SERVER_SETTINGS ==> s.out[i].data == ServerSettingsText())
  }

  /** Steps of the server other than acting on a frame leave what it received alone. */
  predicate Idle(s: Session, t: Session) {
    && t.handled == s.handled && t.gotSettings == s.gotSettings && t.peerVersion == s.peerVersion
    && |t.all| == |s.all|
    && (forall h :: 0 <= h < |s.all| ==> t.all[h].id == s.all[h].id && t.all[h].piped == s.all[h].piped)
    && (forall h :: 0 <= h < |s.all| && Lifecycle.Registered(t, h) ==> Lifecycle.Registered(s, h))
  }

  lemma IdleKeepsServerOk(s: Session, t: Session)
    requires ServerOk(s) && Idle(s, t)
    ensures ServerOk(t)
  {
    forall h | 0 <= h < |t.all|
      ensures SynIn(t.handled, t.all[h].id) && Prefix(t.all[h].piped, Payload(t.handled, t.all[h].id))
    {
      assert SynIn(s.handled, s.all[h].id) && Prefix(s.all[h].piped, Payload(s.handled, s.all[h].id));
    }
    SameIdsHaveStreams(s, t);
  }

  lemma SameIdsHaveStreams(s: Session, t: Session)
    requires |s.all| <= |t.all| && forall h :: 0 <= h < |s.all| ==> t.all[h].id == s.all[h].id
    ensures forall sid :: HasStream(s, sid) ==> HasStream(t, sid)
  {
    forall sid | HasStream(s, sid) ensures HasStream(t, sid) {
      var h :| 0 <= h < |s.all| && s.all[h].id == sid;
      assert t.all[h].id == sid;
    }
  }

  lemma RegisteredIndex(s: Session, h: nat)
    requires Lifecycle.Inv(s) && h < |s.all| && s.all[h].phase == Open && !s.closed && !s.all[h].dead
    ensures Lifecycle.Registered(s, h)
  {
    assert Lifecycle.Registered(s, h) == !s.all[h].dead;
  }

  lemma CloseWithErrorIsIdle(s: Session, h: nat)
    requires h < |s.all|
    ensures Idle(s, CloseWithError(s, h))
  {
  }

  lemma CloseIsIdle(s: Session)
    ensures Idle(s, Close(s))
  {
  }

  lemma ServerActionIsIdle(s: Session, a: Action)
    requires !s.isClient && Lifecycle.Inv(s) && Enabled(s, a) && !a.AHandle?
    ensures Idle(s, Perform(s, a))
  {
    hide Lifecycle.Inv;
    hide Idle;
    match a
    case ASyn(h) => Lifecycle.InvPhases(s, h);
    case ARegister(h) => Lifecycle.InvPhases(s, h);
    case ACloseStream(h) => CloseWithErrorIsIdle(s, h);
    case AClose => CloseIsIdle(s);
    case AFire(w) => FireIsIdle(s, w);
    case _ => RecordActionIsIdle(s, a);
  }

  lemma FireIsIdle(s: Session, w: nat)
    requires w < |s.watchers|
    ensures Idle(s, Fire(s, w))
  {
    CloseIsIdle(s.(watchers := s.watchers[w := Fired]));
  }

  lemma RecordActionIsIdle(s: Session, a: Action)
    requires !s.isClient && Enabled(s, a) && (a.AWrite? || a.AReport? || a.ARead? || a.AReload?)
    ensures Idle(s, Perform(s, a))
  {
    hide Idle;
    match a
    case AWrite(h, data) => OneRecordIsIdle(s, Write(s, h, data), h);
    case AReport(h, text) => OneRecordIsIdle(s, Report(s, h, text), h);
    case ARead(f) => SameStreamsIdle(s, Read(s, f));
    case AReload(raw, md5) => SameStreamsIdle(s, Perform(s, a));
  }

  lemma OneRecordIsIdle(s: Session, t: Session, h: nat)
    requires !s.isClient && h < |s.all| == |t.all| && t.all == s.all[h := t.all[h]]
    requires t == s.(all := t.all, out := t.out)
    requires t.all[h].id == s.all[h].id && t.all[h].piped == s.all[h].piped
    ensures Idle(s, t)
  {
  }

  lemma SameStreamsIdle(s: Session, t: Session)
    requires t == s.(pending := t.pending, raw := t.raw, md5 := t.md5)
    ensures Idle(s, t)
  {
  }

  /** Acting on the next frame of a client's log. */
  lemma HandleKeepsServerOk(s: Session, f: Frame, log: seq<Frame>)
    requires ServerOk(s) && Lifecycle.Inv(s) && !s.isClient && s.pending == Some(f)
    requires LogOk(log) && |s.handled| < |log| && s.handled == log[..|s.handled|] && f == log[|s.handled|]
    ensures ServerOk(Handle(s))
  {
    hide LogOk;
    hide SynIn;
    hide Payload;
    var t := s.(pending := None, handled := s.handled + [f]);
    SnocFacts(s.handled, f);
    if f.cmd == CMD_SETTINGS {
      FirstFrame(s.handled, f, log);
      FirstSettings(t, f);
    } else {
      LaterFrame(s.handled, f, log);
      if f.cmd == CMD_SYN {
        SynMakesStream(s, t, f.sid);
      } else if f.cmd == CMD_PSH {
        PshFeedsPipe(s, t, f);
      } else {
        assert ServerOk(t);
        OtherFrameIsIdle(t, f);
        IdleKeepsServerOk(t, HandleFrame(t, f));
      }
    }
  }

  lemma FirstSettings(t: Session, f: Frame)
    requires t.all == [] && !t.isClient && t.handled == [f]
    requires f.cmd == CMD_SETTINGS && f.data != [] && AnnouncedVersion(f.data) == Some(2)
    ensures ServerOk(HandleFrame(t, f))
  {
    hide AnnouncedMd5;
    hide AnnouncedVersion;
  }

  lemma OtherFrameIsIdle(t: Session, f: Frame)
    requires !t.isClient && f.cmd != CMD_SETTINGS && f.cmd != CMD_SYN && f.cmd != CMD_PSH
    ensures Idle(t, HandleFrame(t, f))
  {
    if f.cmd == CMD_SYNACK {
      var u := t.(watchers := CancelWatch(t.watchers, t.synDone), synDone := None);
      if f.data != [] && f.sid in u.streams && u.streams[f.sid] < |u.all| {
        CloseWithErrorIsIdle(u, u.streams[f.sid]);
      }
    } else if f.cmd == CMD_ALERT {
      CloseIsIdle(t);
    }
  }

  lemma SynMakesStream(s: Session, t: Session, sid: nat)
    requires ServerOk(s) && Lifecycle.MapOk(s) && !s.isClient && s.handled != []
    requires !SynIn(s.handled, sid) && Payload(s.handled, sid) == []
    requires t.all == s.all && t.streams == s.streams && t.gotSettings == s.gotSettings && t.peerVersion == s.peerVersion
    requires !t.isClient && t.handled != []
    requires forall id :: Payload(t.handled, id) == Payload(s.handled, id) + []
    requires forall id :: SynIn(t.handled, id) <==> SynIn(s.handled, id) || id == sid
    ensures ServerOk(HandleSyn(t, sid))
  {
    hide SynIn;
    hide Payload;
    hide HasStream;
    var u := HandleSyn(t, sid);
    forall id | id in s.streams ensures SynIn(s.handled, id) {
      assert s.all[s.streams[id]].id == id;
    }
    assert u.all == s.all + [NewStream(sid, Open)];
    SameIdsHaveStreams(s, u);
    StreamIsThere(u, |s.all|);
    forall h | 0 <= h < |u.all| ensures Prefix(u.all[h].piped, Payload(u.handled, u.all[h].id))
      ensures Lifecycle.Registered(u, h) ==> u.all[h].piped == Payload(u.handled, u.all[h].id)
    {
      if h < |s.all| {
        assert Prefix(s.all[h].piped, Payload(s.handled, s.all[h].id));
        assert Lifecycle.Registered(u, h) ==> Lifecycle.Registered(s, h);
      }
    }
  }

  lemma StreamIsThere(s: Session, h: nat)
    requires h < |s.all|
    ensures HasStream(s, s.all[h].id)
  {
  }

  lemma PshFeedsPipe(s: Session, t: Session, f: Frame)
    requires ServerOk(s) && Lifecycle.MapOk(s) && s.handled != []
    requires t.all == s.all && t.streams == s.streams && t.gotSettings == s.gotSettings && t.peerVersion == s.peerVersion
    requires t.handled != []
    requires forall id :: Payload(t.handled, id) == Payload(s.handled, id) + if f.sid == id then f.data else []
    requires forall id :: SynIn(t.handled, id) <==> SynIn(s.handled, id)
    ensures ServerOk(HandlePsh(t, f.sid, f.data))
  {
    hide SynIn;
    hide Payload;
    hide HasStream;
    var u := HandlePsh(t, f.sid, f.data);
    assert |u.all| == |s.all| && forall h :: 0 <= h < |s.all| ==> u.all[h].id == s.all[h].id;
    SameIdsHaveStreams(s, u);
    forall h | 0 <= h < |u.all| ensures Prefix(u.all[h].piped, Payload(u.handled, u.all[h].id))
      ensures Lifecycle.Registered(u, h) ==> u.all[h].piped == Payload(u.handled, u.all[h].id)
    {
      assert Prefix(s.all[h].piped, Payload(s.handled, s.all[h].id));
      assert Lifecycle.Registered(u, h) <==> Lifecycle.Registered(s, h);
    }
    SameIdsDistinct(s.all, u.all);
  }

  lemma SameIdsDistinct(all: seq<StreamRec>, more: seq<StreamRec>)
    requires Lifecycle.DistinctIds(all) && |more| == |all| && forall h :: 0 <= h < |all| ==> more[h].id == all[h].id
    ensures Lifecycle.DistinctIds(more)
  {
    forall i, j | 0 <= i < j < |more| ensures more[i].id != more[j].id {
      assert all[i].id != all[j].id;
    }
  }

  lemma FirstFrame(handled: seq<Frame>, f: Frame, log: seq<Frame>)
    requires LogOk(log) && |handled| < |log| && handled == log[..|handled|] && f == log[|handled|]
    requires f.cmd == CMD_SETTINGS
    ensures handled == [] && f.data != [] && AnnouncedVersion(f.data) == Some(2)
  {
  }

  lemma LaterFrame(handled: seq<Frame>, f: Frame, log: seq<Frame>)
    requires LogOk(log) && |handled| < |log| && handled == log[..|handled|] && f == log[|handled|]
    requires f.cmd != CMD_SETTINGS
    ensures handled != []
    ensures f.cmd == CMD_SYN ==> !SynIn(handled, f.sid) && Payload(handled, f.sid) == [] && !FinIn(handled, f.sid)
    ensures OfStream(f) ==> SynIn(handled, f.sid)
  {
    var n := |handled|;
    if f.cmd == CMD_SYN {
      forall i | 0 <= i < n && handled[i].cmd == CMD_SYN ensures handled[i].sid != f.sid {
        assert log[i] == handled[i];
      }
      forall i | 0 <= i < n && OfStream(handled[i]) ensures handled[i].sid != f.sid {
        assert log[i] == handled[i];
        var j :| 0 <= j < |log[..i]| && log[..i][j].cmd == CMD_SYN && log[..i][j].sid == log[i].sid;
        assert log[j].sid != log[n].sid;
      }
      NoPayload(handled, f.sid);
    }
  }

  lemma {:induction false} NoPayload(log: seq<Frame>, sid: nat)
    requires forall i :: 0 <= i < |log| && log[i].cmd == CMD_PSH ==> log[i].sid != sid
    ensures Payload(log, sid) == []
  {
    if log != [] {
      NoPayload(log[1..], sid);
    }
  }

  // ---- What any endpoint emits ----

  /** Ids and bodies that fit their fields. */
  predicate Sound(s: Session) {
    && |s.raw| < U16_LIMIT
    && (forall h :: 0 <= h < |s.all| ==> s.all[h].id < U32_LIMIT)
    && (s.pending.Some? ==> WellFormed(s.pending.value))
    && s.lastId < U32_LIMIT
  }

  predicate Sendable(f: Frame) { WellFormed(f) && f.cmd != CMD_WASTE }

  predicate AllSendable(fs: seq<Frame>) {
    forall i :: 0 <= i < |fs| ==> Sendable(fs[i])
  }

  /** A step only appends to the log, and only frames a header can describe. */
  ghost predicate Appends(s: Session, t: Session) {
    exists fs :: t.out == s.out + fs && AllSendable(fs)
  }

  lemma AppendsNothing(s: Session, t: Session)
    requires t.out == s.out
    ensures Appends(s, t)
  {
    assert t.out == s.out + [];
    assert AllSendable([]);
  }

  lemma AppendsOne(s: Session, t: Session, f: Frame)
    requires t.out == s.out + [f] && Sendable(f)
    ensures Appends(s, t)
  {
    assert AllSendable([f]);
  }

  lemma CloseWithErrorSound(s: Session, h: nat)
    requires Sound(s) && h < |s.all|
    ensures Sound(CloseWithError(s, h)) && Appends(s, CloseWithError(s, h))
  {
    var t := CloseWithError(s, h);
    if t.out == s.out {
      AppendsNothing(s, t);
    } else {
      AppendsOne(s, t, Frame(CMD_FIN, s.all[h].id, []));
    }
  }

  lemma SettingsSound(s: Session, data: bytes)
    requires Sound(s)
    ensures Sound(HandleSettings(s, data)) && Appends(s, HandleSettings(s, data))
  {
    hide AnnouncedMd5;
    hide AnnouncedVersion;
    var update, hello := Frame(CMD_UPDATE_PADDING_SCHEME, 0, s.raw), Frame(CMD_SERVER_SETTINGS, 0, ServerSettingsText());
    var t := HandleSettings(s, data);
    assert AllSendable([update]) && AllSendable([hello]) && AllSendable([update] + [hello]) && AllSendable([]);
    assert s.out + [] == s.out && (s.out + [update]) + [hello] == s.out + ([update] + [hello]);
    assert t.out == s.out || t.out == s.out + [update] || t.out == s.out + [hello] || t.out == s.out + ([update] + [hello]);
  }

  lemma HandleSound(s: Session, f: Frame)
    requires Sound(s) && WellFormed(f)
    ensures Sound(HandleFrame(s, f)) && Appends(s, HandleFrame(s, f))
  {
    hide AnnouncedMd5;
    hide AnnouncedVersion;
    hide Appends;
    var t := HandleFrame(s, f);
    if f.cmd == CMD_SYN {
      var alert := Frame(CMD_ALERT, 0, AlertText());
      if t.out == s.out { AppendsNothing(s, t); } else { AppendsOne(s, t, alert); }
    } else if f.cmd == CMD_SYNACK {
      var u := s.(watchers := CancelWatch(s.watchers, s.synDone), synDone := None);
      AppendsNothing(s, u);
      if f.data != [] && f.sid in u.streams && u.streams[f.sid] < |u.all| {
        CloseWithErrorSound(u, u.streams[f.sid]);
        AppendsFrom(s, u, t);
      }
    } else if f.cmd == CMD_SETTINGS {
      SettingsSound(s, f.data);
    } else if f.cmd == CMD_HEART_REQUEST && !s.closed {
      AppendsOne(s, t, Frame(CMD_HEART_RESPONSE, f.sid, []));
    } else {
      SilentSound(s, f);
      AppendsNothing(s, t);
    }
  }

  lemma SilentSound(s: Session, f: Frame)
    requires Sound(s)
    requires f.cmd != CMD_SYN && f.cmd != CMD_SYNACK && f.cmd != CMD_SETTINGS && (f.cmd == CMD_HEART_REQUEST ==> s.closed)
    ensures Sound(HandleFrame(s, f)) && HandleFrame(s, f).out == s.out
  {
    hide AnnouncedVersion;
  }

  lemma AppendsFrom(s: Session, u: Session, t: Session)
    requires u.out == s.out && Appends(u, t)
    ensures Appends(s, t)
  {
  }

  lemma SynSound(s: Session, h: nat)
    requires Sound(s) && h < |s.all|
    ensures Sound(OpenSyn(s, h)) && Appends(s, OpenSyn(s, h))
  {
    hide Appends;
    if s.closed { AppendsNothing(s, OpenSyn(s, h)); } else { AppendsOne(s, OpenSyn(s, h), Frame(CMD_SYN, s.all[h].id, [])); }
  }

  lemma WriteSound(s: Session, h: nat, data: bytes)
    requires Sound(s) && h < |s.all| && |data| < U16_LIMIT
    ensures Sound(Write(s, h, data)) && Appends(s, Write(s, h, data))
  {
    hide Appends;
    var t := Write(s, h, data);
    if t.out == s.out { AppendsNothing(s, t); } else { AppendsOne(s, t, Frame(CMD_PSH, s.all[h].id, data)); }
  }

  lemma ReportSound(s: Session, h: nat, text: bytes)
    requires Sound(s) && h < |s.all| && |text| < U16_LIMIT
    ensures Sound(Report(s, h, text)) && Appends(s, Report(s, h, text))
  {
    hide Appends;
    var t := Report(s, h, text);
    if t.out == s.out { AppendsNothing(s, t); } else { AppendsOne(s, t, Frame(CMD_SYNACK, s.all[h].id, text)); }
  }

  /** The other local steps send nothing. */
  lemma SilentActionSound(s: Session, a: Action)
    requires Sound(s) && Enabled(s, a)
    requires !a.ASyn? && !a.AWrite? && !a.AReport? && !a.ACloseStream? && !a.AHandle?
    ensures Sound(Perform(s, a)) && Appends(s, Perform(s, a))
  {
    AppendsNothing(s, Perform(s, a));
    hide Appends;
  }

  lemma NextSound(s: Session, a: Action)
    requires Sound(s)
    ensures Sound(Next(s, a)) && Appends(s, Next(s, a))
  {
    hide Appends;
    hide Sound;
    hide OpenSyn;
    hide Write;
    hide Report;
    hide CloseWithError;
    hide HandleFrame;
    AppendsNothing(s, s);
    if Enabled(s, a) {
      match a
      case ASyn(h) => SynSound(s, h);
      case AWrite(h, data) => WriteSound(s, h, data);
      case AReport(h, text) => ReportSound(s, h, text);
      case ACloseStream(h) => CloseWithErrorSound(s, h);
      case AHandle => PendingSound(s);
      case _ => SilentActionSound(s, a);
    }
  }

  lemma PendingSound(s: Session)
    requires Sound(s)
    ensures Sound(Handle(s)) && Appends(s, Handle(s))
  {
    hide Appends;
    hide HandleFrame;
    if s.pending.Some? {
      var u := s.(pending := None, handled := s.handled + [s.pending.value]);
      HandleSound(u, s.pending.value);
      AppendsFrom(s, u, Handle(s));
    } else {
      AppendsNothing(s, s);
    }
  }

  // ---- What a server emits ----

  predicate ServerFrame(f: Frame, version: nat) {
    && f.cmd != CMD_SYN && f.cmd != CMD_ALERT
    && (f.cmd == CMD_SYNACK || f.cmd == CMD_SERVER_SETTINGS ==> version >= 2)
    && (f.cmd == CMD_SERVER_SETTINGS ==> f.data == ServerSettingsText())
  }

  lemma ServerOutSnoc(s: Session, t: Session, f: Frame)
    requires ServerOutOk(s) && t.peerVersion >= s.peerVersion
    requires t.out == s.out || (t.out == s.out + [f] && ServerFrame(f, t.peerVersion))
    ensures ServerOutOk(t)
  {
  }

  lemma ServerOutSame(s: Session, t: Session)
    requires ServerOutOk(s) && t.peerVersion == s.peerVersion && t.out == s.out
    ensures ServerOutOk(t)
  {
  }

  lemma ServerSettingsOut(s: Session, data: bytes)
    requires ServerOutOk(s) && s.peerVersion <= 2 && AnnouncedVersion(data) == Some(2)
    ensures ServerOutOk(HandleSettings(s, data))
  {
    hide AnnouncedMd5;
    hide AnnouncedVersion;
    if data != [] && !s.isClient {
      var t := s.(gotSettings := true);
      var update, hello := Frame(CMD_UPDATE_PADDING_SCHEME, 0, s.raw), Frame(CMD_SERVER_SETTINGS, 0, ServerSettingsText());
      var u := if AnnouncedMd5(data) != s.md5 then Emit(t, update) else t;
      ServerOutSnoc(t, u, update);
      ServerOutSnoc(u, HandleSettings(s, data), hello);
    }
  }

  lemma ServerHandleOut(s: Session, f: Frame, log: seq<Frame>)
    requires ServerOk(s) && ServerOutOk(s) && !s.isClient && s.pending == Some(f)
    requires LogOk(log) && |s.handled| < |log| && s.handled == log[..|s.handled|] && f == log[|s.handled|]
    ensures ServerOutOk(Handle(s))
  {
    hide SynIn;
    hide LogOk;
    hide AnnouncedMd5;
    hide AnnouncedVersion;
    var t := s.(pending := None, handled := s.handled + [f]);
    if f.cmd == CMD_SETTINGS {
      FirstFrame(s.handled, f, log);
      ServerSettingsOut(t, f.data);
    } else {
      LaterFrame(s.handled, f, log);
      if f.cmd == CMD_SYNACK {
        var u := t.(watchers := CancelWatch(t.watchers, t.synDone), synDone := None);
        if f.data != [] && f.sid in u.streams && u.streams[f.sid] < |u.all| {
          ServerOutSnoc(u, Handle(s), Frame(CMD_FIN, u.all[u.streams[f.sid]].id, []));
        }
      } else {
        ServerOutSnoc(t, Handle(s), Frame(CMD_HEART_RESPONSE, f.sid, []));
      }
    }
  }

  /** A server facing a client's log never sends an Alert or a SYN, and nothing of version 2 to a peer
      that has not announced it. */
  lemma ServerNextOut(s: Session, a: Action, log: seq<Frame>)
    requires ServerOk(s) && ServerOutOk(s) && Lifecycle.Inv(s) && !s.isClient
    requires LogOk(log) && |s.handled| <= |log| && s.handled == log[..|s.handled|]
    requires s.pending.Some? ==> |s.handled| < |log| && s.pending.value == log[|s.handled|]
    ensures ServerOutOk(Next(s, a))
  {
    hide HandleFrame;
    hide SynIn;
    hide LogOk;
    hide ServerOk;
    hide Lifecycle.Inv;
    hide ServerOutOk;
    if Enabled(s, a) {
      var t := Next(s, a);
      match a
      case ASyn(h) => Lifecycle.InvPhases(s, h);
      case AWrite(h, data) => ServerOutSnoc(s, t, Frame(CMD_PSH, s.all[h].id, data));
      case AReport(h, text) => ServerOutSnoc(s, t, Frame(CMD_SYNACK, s.all[h].id, text));
      case ACloseStream(h) => ServerOutSnoc(s, t, Frame(CMD_FIN, s.all[h].id, []));
      case AHandle => if s.pending.Some? { ServerHandleOut(s, s.pending.value, log); }
      case AClose => ServerOutSame(s, t);
      case AFire(w) => ServerOutSame(s, t);
      case ARead(f) => ServerOutSame(s, t);
      case AReload(raw, md5) => ServerOutSame(s, t);
      case ARegister(h) => Lifecycle.InvPhases(s, h);
      case _ =>
    }
  }
}
