/** What an endpoint must do, whatever its peer sends: what it makes of the frames it acts on, when it closes,
    what it answers, and which FIN it owes. */
module Duties {
  import opened Bytes
  import opened Options
  import opened Frames
  import opened SessionSpec
  import Lifecycle

  // ---- What the frames acted on come to ----

  predicate Tells(f: Frame, cmd: byte) { f.cmd == cmd && f.data != [] }

  /** The version in force after frame `f`: a client takes over any version a server settings frame
      announces, a server one of at least 2 from the client's settings; both keep its low byte. */
  function VersionAfter(isClient: bool, version: nat, f: Frame): nat {
    match AnnouncedVersion(f.data)
    case None => version
    case Some(v) =>
      if isClient && Tells(f, CMD_SERVER_SETTINGS) then v % 0x100
      else if !isClient && Tells(f, CMD_SETTINGS) && v >= 2 then v % 0x100
      else version
  }

  function PeerVersion(isClient: bool, handled: seq<Frame>): nat {
    if handled == [] then 0
    else VersionAfter(isClient, PeerVersion(isClient, handled[..|handled| - 1]), handled[|handled| - 1])
  }

  /** The bodies of the scheme updates, in order. */
  function Schemes(handled: seq<Frame>): seq<bytes> {
    if handled == [] then []
    else
      var f := handled[|handled| - 1];
      Schemes(handled[..|handled| - 1]) + if Tells(f, CMD_UPDATE_PADDING_SCHEME) then [f.data] else []
  }

  predicate Heard(handled: seq<Frame>, cmd: byte) { exists i :: 0 <= i < |handled| && Tells(handled[i], cmd) }

  /** A stream was asked for before any settings had come. */
  predicate Unannounced(handled: seq<Frame>) {
    exists i :: 0 <= i < |handled| && handled[i].cmd == CMD_SYN && !Heard(handled[..i], CMD_SETTINGS)
  }

  /** What an endpoint knows, and whether it must be closed, by the frames it has acted on alone. */
  predicate Obeyed(s: Session) {
    && s.peerVersion == PeerVersion(s.isClient, s.handled)
    && s.gotSettings == (!s.isClient && Heard(s.handled, CMD_SETTINGS))
    && s.schemes == (if s.isClient then Schemes(s.handled) else [])
    && (Heard(s.handled, CMD_ALERT) || (!s.isClient && Unannounced(s.handled)) ==> s.closed)
  }

  lemma HeardSnoc(log: seq<Frame>, f: Frame, cmd: byte)
    ensures Heard(log + [f], cmd) <==> Heard(log, cmd) || Tells(f, cmd)
  {
    var more := log + [f];
    assert more[|log|] == f;
    if Heard(log, cmd) {
      var i :| 0 <= i < |log| && Tells(log[i], cmd);
      assert more[i] == log[i];
    }
  }

  lemma UnannouncedSnoc(log: seq<Frame>, f: Frame)
    ensures Unannounced(log + [f]) <==> Unannounced(log) || (f.cmd == CMD_SYN && !Heard(log, CMD_SETTINGS))
  {
    hide Heard;
    var more := log + [f];
    assert more[|log|] == f && more[..|log|] == log;
    forall i | 0 <= i < |log| ensures more[i] == log[i] && more[..i] == log[..i] {
    }
    if Unannounced(log) {
      var i :| 0 <= i < |log| && log[i].cmd == CMD_SYN && !Heard(log[..i], CMD_SETTINGS);
      assert more[i].cmd == CMD_SYN && !Heard(more[..i], CMD_SETTINGS);
    }
  }

  lemma ToldSnoc(isClient: bool, log: seq<Frame>, f: Frame)
    ensures PeerVersion(isClient, log + [f]) == VersionAfter(isClient, PeerVersion(isClient, log), f)
    ensures Schemes(log + [f]) == Schemes(log) + if Tells(f, CMD_UPDATE_PADDING_SCHEME) then [f.data] else []
  {
    assert (log + [f])[..|log|] == log;
  }

  /** The frames that make an endpoint close: an alert, and on a server a SYN before the settings. */
  predicate Expels(s: Session, f: Frame) {
    Tells(f, CMD_ALERT) || (!s.isClient && f.cmd == CMD_SYN && !s.gotSettings)
  }

  lemma HandlingTells(u: Session, f: Frame)
    requires u.isClient ==> f.cmd != CMD_SYN
    ensures var t := HandleFrame(u, f);
            && t.isClient == u.isClient && t.handled == u.handled
            && t.peerVersion == VersionAfter(u.isClient, u.peerVersion, f)
            && t.gotSettings == (u.gotSettings || (!u.isClient && Tells(f, CMD_SETTINGS)))
            && t.schemes == u.schemes + (if u.isClient && Tells(f, CMD_UPDATE_PADDING_SCHEME) then [f.data] else [])
            && (t.closed <==> u.closed || Expels(u, f))
  {
    hide HandleSettings;
    hide HandleServerSettings;
    hide Kill;
    hide Die;
    hide CancelWatch;
    hide AnnouncedVersion;
    SettingsTell(u, f);
    assert u.schemes + [] == u.schemes;
  }

  lemma SettingsTell(u: Session, f: Frame)
    ensures var t := HandleSettings(u, f.data);
            && t == u.(gotSettings := t.gotSettings, peerVersion := t.peerVersion, out := t.out)
            && t.gotSettings == (u.gotSettings || (!u.isClient && f.data != []))
            && (f.cmd == CMD_SETTINGS ==> t.peerVersion == VersionAfter(u.isClient, u.peerVersion, f))
    ensures var t := HandleServerSettings(u, f.data);
            && t == u.(peerVersion := t.peerVersion)
            && (f.cmd == CMD_SERVER_SETTINGS ==> t.peerVersion == VersionAfter(u.isClient, u.peerVersion, f))
  {
    hide AnnouncedMd5;
    hide AnnouncedVersion;
    hide ServerSettingsText;
  }

  /** The other steps tell an endpoint nothing; they close it exactly if they are a close, or the watcher's
      time running out. */
  lemma LocalTellsNothing(s: Session, a: Action)
    requires Enabled(s, a) && !a.AHandle?
    ensures var t := Perform(s, a);
            && t.isClient == s.isClient && t.handled == s.handled && t.peerVersion == s.peerVersion
            && t.gotSettings == s.gotSettings && t.schemes == s.schemes
            && (t.closed <==> s.closed || a.AClose? || (a.AFire? && s.watchers[a.w] == Armed))
  {
    hide Kill;
    hide Die;
    hide CancelWatch;
    hide CloseWithError;
    if a.ACloseStream? {
      var t := CloseWithError(s, a.h);
      assert t == s.(all := t.all, streams := t.streams, out := t.out) by { ClosingTouches(s, a.h); }
    }
  }

  lemma ClosingTouches(s: Session, h: nat)
    requires h < |s.all|
    ensures var t := CloseWithError(s, h); t == s.(all := t.all, streams := t.streams, out := t.out)
  {
  }

  /** When a step closes a session, exactly. */
  lemma ClosesIff(s: Session, a: Action)
    requires Lifecycle.Inv(s)
    ensures Next(s, a).closed <==>
              || s.closed || a.AClose?
              || (a.AFire? && a.w < |s.watchers| && s.watchers[a.w] == Armed)
              || (a.AHandle? && s.pending.Some? && Expels(s, s.pending.value))
  {
    hide Perform;
    hide HandleFrame;
    if a.AHandle? {
      PendingIsAllowed(s);
      if s.pending.Some? {
        HandlingTells(s.(pending := None, handled := s.handled + [s.pending.value]), s.pending.value);
      }
      HandleIs(s);
    } else if Enabled(s, a) {
      LocalTellsNothing(s, a);
    }
  }

  lemma PendingIsAllowed(s: Session)
    requires Lifecycle.Inv(s)
    ensures s.isClient && s.pending.Some? ==> s.pending.value.cmd != CMD_SYN
  {
  }

  lemma HandleIs(s: Session)
    ensures s.pending.None? ==> Perform(s, AHandle) == s
    ensures s.pending.Some? ==>
              Perform(s, AHandle)
              == HandleFrame(s.(pending := None, handled := s.handled + [s.pending.value]), s.pending.value)
  {
    hide HandleFrame;
  }

  lemma NextKeepsObeyed(s: Session, a: Action)
    requires Lifecycle.Inv(s) && Obeyed(s)
    ensures Obeyed(Next(s, a))
  {
    hide Perform;
    hide HandleFrame;
    hide VersionAfter;
    if Enabled(s, a) {
      if a.AHandle? {
        PendingIsAllowed(s);
        HandleIs(s);
        if s.pending.Some? {
          var f := s.pending.value;
          HandlingTells(s.(pending := None, handled := s.handled + [f]), f);
          HeardSnoc(s.handled, f, CMD_SETTINGS);
          HeardSnoc(s.handled, f, CMD_ALERT);
          UnannouncedSnoc(s.handled, f);
          ToldSnoc(s.isClient, s.handled, f);
          hide Heard;
          hide Unannounced;
          hide PeerVersion;
          hide Schemes;
        }
      } else {
        LocalTellsNothing(s, a);
      }
    }
  }

  /** Over every run against any peer: the peer's version, the settings, the schemes handed to
      `UpdatePaddingScheme` are those of the frames acted on, in order; and an endpoint that has acted on an
      alert, or a server on a SYN before the settings, is closed. */
  lemma {:induction false} ObeyedOnEveryRun(s0: Session, actions: seq<Action>, s: Session)
    requires Starts(s0) && s == Run(s0, actions)
    ensures Obeyed(s) && s.isClient == s0.isClient
  {
    hide Next;
    if actions == [] {
    } else {
      var n := |actions| - 1;
      var u := Run(s0, actions[..n]);
      ObeyedOnEveryRun(s0, actions[..n], u);
      StartIsInv(s0);
      Lifecycle.InvOnEveryRun(s0, actions[..n]);
      hide Obeyed;
      NextKeepsObeyed(u, actions[n]);
      Lifecycle.NextKeepsInv(u, actions[n]);
    }
  }

  /** A new session, or one that has just handed its settings to the connection. */
  predicate Starts(s: Session) {
    && s == NewSession(s.isClient, s.raw, s.md5).(out := s.out)
    && forall i :: 0 <= i < |s.out| ==> s.out[i].cmd == CMD_SETTINGS
  }

  lemma StartIsInv(s: Session)
    requires Starts(s)
    ensures Lifecycle.Inv(s) && FinsSent(s)
  {
  }

  lemma {:induction false} NothingCounts(log: seq<Frame>, cmd: byte, sid: nat)
    requires cmd != CMD_SETTINGS && forall i :: 0 <= i < |log| ==> log[i].cmd == CMD_SETTINGS
    ensures Lifecycle.Count(log, cmd, sid) == 0
  {
    if log != [] {
      NothingCounts(log[..|log| - 1], cmd, sid);
    }
  }

  // ---- What it answers ----

  /** The settings acted on that announce a version of at least 2. */
  function Greetings(handled: seq<Frame>): nat {
    if handled == [] then 0
    else
      var f := handled[|handled| - 1];
      Greetings(handled[..|handled| - 1]) + if Greets(f) then 1 else 0
  }

  predicate Greets(f: Frame) {
    Tells(f, CMD_SETTINGS) && AnnouncedVersion(f.data).Some? && AnnouncedVersion(f.data).value >= 2
  }

  /** While it is open, an endpoint has answered each heartbeat request, and a server each such greeting,
      once. */
  predicate Answered(s: Session, sid: nat) {
    !s.closed ==>
      && Lifecycle.Count(s.out, CMD_HEART_RESPONSE, sid) == Lifecycle.Count(s.handled, CMD_HEART_REQUEST, sid)
      && (!s.isClient ==> Lifecycle.Count(s.out, CMD_SERVER_SETTINGS, 0) == Greetings(s.handled))
  }

  predicate IsAnswer(f: Frame) { f.cmd == CMD_HEART_RESPONSE || f.cmd == CMD_SERVER_SETTINGS }

  lemma OtherFrameCounts(out: seq<Frame>, f: Frame, sid: nat)
    requires !IsAnswer(f)
    ensures Lifecycle.Count(out + [f], CMD_HEART_RESPONSE, sid) == Lifecycle.Count(out, CMD_HEART_RESPONSE, sid)
    ensures Lifecycle.Count(out + [f], CMD_SERVER_SETTINGS, 0) == Lifecycle.Count(out, CMD_SERVER_SETTINGS, 0)
  {
    Lifecycle.CountSnoc(out, f, CMD_HEART_RESPONSE, sid);
    Lifecycle.CountSnoc(out, f, CMD_SERVER_SETTINGS, 0);
  }

  /** Steps that answer nothing. */
  predicate SameAnswers(s: Session, t: Session, sid: nat) {
    && Lifecycle.Count(t.out, CMD_HEART_RESPONSE, sid) == Lifecycle.Count(s.out, CMD_HEART_RESPONSE, sid)
    && Lifecycle.Count(t.out, CMD_SERVER_SETTINGS, 0) == Lifecycle.Count(s.out, CMD_SERVER_SETTINGS, 0)
  }

  lemma CloseAnswersNothing(s: Session, h: nat, sid: nat)
    requires h < |s.all|
    ensures SameAnswers(s, CloseWithError(s, h), sid)
  {
    hide Lifecycle.Count;
    OtherFrameCounts(s.out, Frame(CMD_FIN, s.all[h].id, []), sid);
  }

  lemma LocalAnswersNothing(s: Session, a: Action, sid: nat)
    requires Enabled(s, a) && !a.AHandle?
    ensures SameAnswers(s, Perform(s, a), sid)
  {
    hide Lifecycle.Count;
    hide Kill;
    hide CloseWithError;
    match a
    case ASyn(h) => OtherFrameCounts(s.out, Frame(CMD_SYN, s.all[h].id, []), sid);
    case AWrite(h, data) => OtherFrameCounts(s.out, Frame(CMD_PSH, s.all[h].id, data), sid);
    case ACloseStream(h) => CloseAnswersNothing(s, h, sid);
    case AReport(h, text) => OtherFrameCounts(s.out, Frame(CMD_SYNACK, s.all[h].id, text), sid);
    case _ =>
  }

  lemma SettingsAnswer(u: Session, f: Frame, sid: nat)
    requires f.cmd == CMD_SETTINGS && !u.closed
    ensures var t := HandleSettings(u, f.data);
            && Lifecycle.Count(t.out, CMD_HEART_RESPONSE, sid) == Lifecycle.Count(u.out, CMD_HEART_RESPONSE, sid)
            && Lifecycle.Count(t.out, CMD_SERVER_SETTINGS, 0)
            == Lifecycle.Count(u.out, CMD_SERVER_SETTINGS, 0) + if !u.isClient && Greets(f) then 1 else 0
  {
    hide Lifecycle.Count;
    hide AnnouncedMd5;
    hide AnnouncedVersion;
    hide ServerSettingsText;
    var update, hello := Frame(CMD_UPDATE_PADDING_SCHEME, 0, u.raw), Frame(CMD_SERVER_SETTINGS, 0, ServerSettingsText());
    OtherFrameCounts(u.out, update, sid);
    Lifecycle.CountSnoc(u.out, hello, CMD_SERVER_SETTINGS, 0);
    Lifecycle.CountSnoc(u.out + [update], hello, CMD_SERVER_SETTINGS, 0);
    Lifecycle.CountSnoc(u.out, hello, CMD_HEART_RESPONSE, sid);
    Lifecycle.CountSnoc(u.out + [update], hello, CMD_HEART_RESPONSE, sid);
  }

  lemma OtherHandlingAnswersNothing(u: Session, f: Frame, sid: nat)
    requires f.cmd != CMD_SETTINGS && f.cmd != CMD_HEART_REQUEST && !HandleFrame(u, f).closed
    ensures SameAnswers(u, HandleFrame(u, f), sid)
  {
    hide Lifecycle.Count;
    hide AnnouncedVersion;
    hide Kill;
    hide Die;
    hide CloseWithError;
    if f.cmd == CMD_SYNACK && f.sid in u.streams && u.streams[f.sid] < |u.all| {
      var t := u.(watchers := CancelWatch(u.watchers, u.synDone), synDone := None);
      CloseAnswersNothing(t, t.streams[f.sid], sid);
    }
  }

  /** What an open session answers to one frame. */
  lemma HandlingAdds(u: Session, f: Frame, sid: nat)
    requires !u.closed && !HandleFrame(u, f).closed
    ensures var t := HandleFrame(u, f);
            && Lifecycle.Count(t.out, CMD_HEART_RESPONSE, sid)
            == Lifecycle.Count(u.out, CMD_HEART_RESPONSE, sid)
               + (if f.cmd == CMD_HEART_REQUEST && f.sid == sid then 1 else 0)
            && Lifecycle.Count(t.out, CMD_SERVER_SETTINGS, 0)
            == Lifecycle.Count(u.out, CMD_SERVER_SETTINGS, 0) + if !u.isClient && Greets(f) then 1 else 0
  {
    hide Lifecycle.Count;
    hide AnnouncedVersion;
    hide HandleSettings;
    hide Kill;
    hide Die;
    if f.cmd == CMD_SETTINGS {
      SettingsAnswer(u, f, sid);
    } else if f.cmd == CMD_HEART_REQUEST {
      Lifecycle.CountSnoc(u.out, Frame(CMD_HEART_RESPONSE, f.sid, []), CMD_HEART_RESPONSE, sid);
      Lifecycle.CountSnoc(u.out, Frame(CMD_HEART_RESPONSE, f.sid, []), CMD_SERVER_SETTINGS, 0);
    } else {
      OtherHandlingAnswersNothing(u, f, sid);
      hide HandleFrame;
    }
  }

  lemma HandlingAnswers(s: Session, f: Frame, sid: nat)
    requires Answered(s, sid) && s.pending == Some(f)
    ensures Answered(Handle(s), sid)
  {
    hide Lifecycle.Count;
    hide HandleFrame;
    hide Greets;
    var u := s.(pending := None, handled := s.handled + [f]);
    HandleIs(s);
    StaysClosed(s, f);
    Lifecycle.CountSnoc(s.handled, f, CMD_HEART_REQUEST, sid);
    assert (s.handled + [f])[..|s.handled|] == s.handled;
    HandlingKeepsLog(u, f);
    if !s.closed && !HandleFrame(u, f).closed {
      HandlingAdds(u, f, sid);
    }
  }

  lemma HandlingKeepsLog(u: Session, f: Frame)
    ensures HandleFrame(u, f).handled == u.handled && HandleFrame(u, f).isClient == u.isClient
  {
    hide AnnouncedMd5;
    hide AnnouncedVersion;
    hide Kill;
    hide Die;
  }

  lemma StaysClosed(s: Session, f: Frame)
    requires s.pending == Some(f)
    ensures s.closed ==> Handle(s).closed
  {
    Lifecycle.DeathAndCloseAreFinal(s, AHandle);
    hide HandleFrame;
  }

  lemma {:induction false} AnsweredOnEveryRun(s0: Session, actions: seq<Action>, s: Session, sid: nat)
    requires Starts(s0) && s == Run(s0, actions)
    ensures Answered(s, sid)
  {
    hide Perform;
    hide Handle;
    if actions == [] {
      NothingCounts(s.out, CMD_HEART_RESPONSE, sid);
      NothingCounts(s.out, CMD_SERVER_SETTINGS, 0);
    } else {
      var n := |actions| - 1;
      var u, a := Run(s0, actions[..n]), actions[n];
      AnsweredOnEveryRun(s0, actions[..n], u, sid);
      if a.AHandle? {
        HandlePerforms(u);
        if u.pending.Some? {
          HandlingAnswers(u, u.pending.value, sid);
        }
      } else if Enabled(u, a) {
        LocalAnswersNothing(u, a, sid);
        LocalTellsNothing(u, a);
        hide Lifecycle.Count;
      }
    }
  }

  lemma HandlePerforms(s: Session)
    ensures Perform(s, AHandle) == Handle(s) && (s.pending.None? ==> Handle(s) == s)
  {
    hide HandleFrame;
  }

  // ---- The scheme it answers with ----

  /** The scheme and md5 of the last reload, or else those of the start. */
  function SchemeInForce(s0: Session, actions: seq<Action>): (bytes, bytes) {
    if actions == [] then (s0.raw, s0.md5)
    else
      var a := actions[|actions| - 1];
      if a.AReload? && |a.raw| < U16_LIMIT then (a.raw, a.md5) else SchemeInForce(s0, actions[..|actions| - 1])
  }

  lemma StepKeepsScheme(s: Session, a: Action)
    ensures var t := Next(s, a);
            (t.raw, t.md5) == if a.AReload? && |a.raw| < U16_LIMIT then (a.raw, a.md5) else (s.raw, s.md5)
  {
    hide HandleFrame;
    hide Kill;
    hide CloseWithError;
    if a.AHandle? {
      HandleIs(s);
      if s.pending.Some? {
        HandlingKeepsScheme(s.(pending := None, handled := s.handled + [s.pending.value]), s.pending.value);
      }
    } else if a.ACloseStream? && Enabled(s, a) {
      ClosingTouches(s, a.h);
    }
  }

  lemma HandlingKeepsScheme(u: Session, f: Frame)
    ensures HandleFrame(u, f).raw == u.raw && HandleFrame(u, f).md5 == u.md5
  {
    hide HandleSettings;
    hide HandleServerSettings;
    hide Kill;
    hide Die;
    SettingsTell(u, f);
  }

  lemma {:induction false} SchemeOnEveryRun(s0: Session, actions: seq<Action>, s: Session)
    requires s == Run(s0, actions)
    ensures (s.raw, s.md5) == SchemeInForce(s0, actions)
  {
    hide Next;
    if actions != [] {
      var n := |actions| - 1;
      SchemeOnEveryRun(s0, actions[..n], Run(s0, actions[..n]));
      StepKeepsScheme(Run(s0, actions[..n]), actions[n]);
    }
  }

  /** On every run an open server answers settings with the scheme last loaded if their md5 is another one, and
      then with its own settings if they announce a version of at least 2; and with nothing else. */
  lemma {:induction false} SettingsAreAnswered(s0: Session, actions: seq<Action>, s: Session, f: Frame)
    requires !s.isClient && !s.closed && s == Run(s0, actions)
    requires s.pending == Some(f) && f.cmd == CMD_SETTINGS && f.data != []
    ensures var scheme := SchemeInForce(s0, actions);
            Handle(s).out == s.out
              + (if AnnouncedMd5(f.data) != scheme.1 then [Frame(CMD_UPDATE_PADDING_SCHEME, 0, scheme.0)] else [])
              + if Greets(f) then [Frame(CMD_SERVER_SETTINGS, 0, ServerSettingsText())] else []
  {
    hide Run;
    hide AnnouncedMd5;
    hide AnnouncedVersion;
    hide ServerSettingsText;
    SchemeOnEveryRun(s0, actions, s);
  }

  // ---- The FIN it owes ----

  /** While the session is open, a stream has sent its FIN exactly if it has died otherwise than by the
      peer's. */
  predicate FinSent(s: Session, h: nat)
    requires h < |s.all|
  {
    !s.closed ==> s.all[h].fins == if s.all[h].dead && !s.all[h].peerFin then 1 else 0
  }

  predicate FinsSent(s: Session) { forall h :: 0 <= h < |s.all| ==> FinSent(s, h) }

  /** The streams of this id that have died otherwise than by the peer's FIN. */
  function LocalDeaths(all: seq<StreamRec>, sid: nat): nat {
    if all == [] then 0
    else
      var r := all[|all| - 1];
      LocalDeaths(all[..|all| - 1], sid) + if r.id == sid && r.dead && !r.peerFin then 1 else 0
  }

  /** Closing a live stream of an open session: it dies, its id is forgotten, and one FIN goes out. */
  lemma CloseSendsFin(s: Session, h: nat)
    requires Lifecycle.Inv(s) && !s.closed && h < |s.all| && s.all[h].phase == Open && !s.all[h].dead
    ensures var t := Next(s, ACloseStream(h));
            && t.out == s.out + [Frame(CMD_FIN, s.all[h].id, [])]
            && |t.all| == |s.all| && t.all[h].dead && !t.all[h].peerFin && s.all[h].id !in t.streams
            && forall k :: 0 <= k < |s.all| && k != h ==> t.all[k] == s.all[k]
  {
    assert Lifecycle.StreamOk(s.all[h]);
  }

  predicate SameLife(r: StreamRec, t: StreamRec) {
    t.dead == r.dead && t.fins == r.fins && t.peerFin == r.peerFin
  }

  lemma SameLifeKeepsFins(s: Session, t: Session, h: nat)
    requires h < |s.all| <= |t.all| && FinSent(s, h) && (s.closed ==> t.closed)
    requires t.closed || SameLife(s.all[h], t.all[h])
    ensures FinSent(t, h)
  {
  }

  lemma CloseKeepsFins(s: Session, k: nat, h: nat)
    requires k < |s.all| && h < |s.all| && Lifecycle.StreamOk(s.all[k]) && FinSent(s, h) && FinSent(s, k)
    ensures h < |CloseWithError(s, k).all| && FinSent(CloseWithError(s, k), h)
    ensures CloseWithError(s, k).closed == s.closed
  {
  }

  lemma PeerFinKeepsFins(s: Session, sid: nat, h: nat)
    requires h < |s.all| && FinSent(s, h)
    requires sid in s.streams && s.streams[sid] < |s.all| ==>
               Lifecycle.StreamOk(s.all[s.streams[sid]]) && (!s.closed ==> !s.all[s.streams[sid]].dead)
    ensures h < |HandleFin(s, sid).all| && FinSent(HandleFin(s, sid), h)
  {
  }

  lemma LocalKeepsFins(s: Session, a: Action, h: nat)
    requires Lifecycle.Inv(s) && FinsSent(s) && Enabled(s, a) && !a.AHandle? && h < |s.all|
    ensures h < |Perform(s, a).all| && FinSent(Perform(s, a), h)
  {
    assert FinSent(s, h);
    if a.ACloseStream? {
      Lifecycle.InvPhases(s, a.h);
      CloseKeepsFins(s, a.h, h);
      hide CloseWithError;
    } else {
      hide Lifecycle.Inv;
      hide FinSent;
      QuietActionLives(s, a, h);
      hide Perform;
      SameLifeKeepsFins(s, Perform(s, a), h);
    }
  }

  lemma QuietActionLives(s: Session, a: Action, h: nat)
    requires Enabled(s, a) && !a.AHandle? && !a.ACloseStream? && h < |s.all|
    ensures var t := Perform(s, a);
            && |s.all| <= |t.all| && (s.closed ==> t.closed)
            && (t.closed || SameLife(s.all[h], t.all[h]))
  {
    hide Kill;
    hide CancelWatch;
  }

  lemma HandlingKeepsFins(s: Session, f: Frame, h: nat)
    requires Lifecycle.Inv(s) && FinsSent(s) && s.pending == Some(f) && h < |s.all|
    ensures h < |Handle(s).all| && FinSent(Handle(s), h)
  {
    assert FinSent(s, h);
    if f.sid in s.streams {
      LiveInMap(s, f.sid);
      assert FinSent(s, s.streams[f.sid]);
    }
    hide Lifecycle.Inv;
    hide FinsSent;
    hide Lifecycle.StreamOk;
    var u := s.(pending := None, handled := s.handled + [f]);
    HandleIs(s);
    if f.cmd == CMD_FIN {
      PeerFinKeepsFins(u, f.sid, h);
      hide HandleFin;
    } else if f.cmd == CMD_SYNACK {
      var t := u.(watchers := CancelWatch(u.watchers, u.synDone), synDone := None);
      if f.data != [] && f.sid in t.streams {
        CloseKeepsFins(t, t.streams[f.sid], h);
      }
      hide CloseWithError;
    } else {
      hide FinSent;
      QuietLives(u, f, h);
      hide HandleFrame;
      SameLifeKeepsFins(s, Handle(s), h);
    }
  }

  lemma QuietLives(u: Session, f: Frame, h: nat)
    requires f.cmd != CMD_FIN && f.cmd != CMD_SYNACK && h < |u.all|
    ensures var t := HandleFrame(u, f);
            && |u.all| <= |t.all| && (u.closed ==> t.closed)
            && (t.closed || SameLife(u.all[h], t.all[h]))
  {
    hide AnnouncedMd5;
    hide AnnouncedVersion;
    hide Kill;
  }

  lemma NewStreamOwesNothing(s: Session, a: Action, k: nat)
    requires |s.all| <= k < |Next(s, a).all|
    ensures FinSent(Next(s, a), k)
  {
    hide HandleFrame;
    hide Kill;
    hide Die;
    if a.AHandle? {
      HandleIs(s);
      if s.pending.Some? {
        HandledNewStream(s.(pending := None, handled := s.handled + [s.pending.value]), s.pending.value, k);
      }
    }
  }

  lemma HandledNewStream(u: Session, f: Frame, k: nat)
    requires |u.all| <= k < |HandleFrame(u, f).all|
    ensures FinSent(HandleFrame(u, f), k)
  {
    hide HandleSettings;
    hide HandleServerSettings;
    hide Kill;
    hide Die;
    SettingsTell(u, f);
  }

  lemma {:induction false} FinsOnEveryRun(s0: Session, actions: seq<Action>, s: Session)
    requires Lifecycle.Inv(s0) && FinsSent(s0) && s == Run(s0, actions)
    ensures FinsSent(s)
  {
    hide Next;
    hide FinSent;
    hide Lifecycle.Inv;
    if actions == [] {
    } else {
      var u, a := Run(s0, actions[..|actions| - 1]), actions[|actions| - 1];
      FinsOnEveryRun(s0, actions[..|actions| - 1], u);
      Lifecycle.InvOnEveryRun(s0, actions[..|actions| - 1]);
      forall h | 0 <= h < |s.all| ensures FinSent(s, h) {
        StepKeepsFins(u, a, h);
      }
    }
  }

  lemma StepKeepsFins(s: Session, a: Action, h: nat)
    requires Lifecycle.Inv(s) && FinsSent(s) && h < |Next(s, a).all|
    ensures FinSent(Next(s, a), h)
  {
    hide Lifecycle.Inv;
    hide FinSent;
    hide Handle;
    if h >= |s.all| {
      NewStreamOwesNothing(s, a, h);
    } else if a.AHandle? {
      HandlePerforms(s);
      if s.pending.Some? {
        HandlingKeepsFins(s, s.pending.value, h);
      }
    } else if Enabled(s, a) {
      LocalKeepsFins(s, a, h);
      hide Perform;
    }
  }

  lemma {:induction false} SentIsDeaths(s: Session, n: nat, sid: nat)
    requires FinsSent(s) && !s.closed && n <= |s.all|
    ensures Lifecycle.Sent(s.all[..n], CMD_FIN, sid) == LocalDeaths(s.all[..n], sid)
  {
    if n > 0 {
      assert s.all[..n][..n - 1] == s.all[..n - 1];
      assert FinSent(s, n - 1);
      SentIsDeaths(s, n - 1, sid);
    }
  }

  /** The FINs on the wire, exactly, over every run of either side against any peer: while the session is open
      there is one for each stream of that id that has died otherwise than by the peer's FIN. */
  lemma {:induction false} FinsAreLocalDeaths(s0: Session, actions: seq<Action>, s: Session, sid: nat)
    requires Starts(s0) && s == Run(s0, actions) && !s.closed
    ensures Lifecycle.Count(s.out, CMD_FIN, sid) == LocalDeaths(s.all, sid)
  {
    hide Run;
    StartIsInv(s0);
    FinsOnEveryRun(s0, actions, s);
    NothingCounts(s0.out, CMD_FIN, sid);
    Lifecycle.TallyOnEveryRun(s0, actions, CMD_FIN, sid);
    SentIsDeaths(s, |s.all|, sid);
    assert s.all[..|s.all|] == s.all;
  }

  lemma {:induction false} DeathsOfOne(all: seq<StreamRec>, h: nat)
    requires Lifecycle.DistinctIds(all) && h < |all|
    ensures LocalDeaths(all, all[h].id) == if all[h].dead && !all[h].peerFin then 1 else 0
  {
    var n := |all| - 1;
    if h == n {
      NoDeaths(all[..n], all[h].id);
    } else {
      DeathsOfOne(all[..n], h);
      assert all[h].id != all[n].id;
    }
  }

  lemma {:induction false} NoDeaths(all: seq<StreamRec>, sid: nat)
    requires forall k :: 0 <= k < |all| ==> all[k].id != sid
    ensures LocalDeaths(all, sid) == 0
  {
    if all != [] {
      NoDeaths(all[..|all| - 1], sid);
    }
  }

  /** So a client, whose ids are distinct, has sent exactly one FIN for a stream if it has died otherwise than
      by the peer's FIN, and none if not. */
  lemma {:induction false} ClientFinIff(s0: Session, actions: seq<Action>, s: Session, h: nat)
    requires Starts(s0) && s0.isClient && s == Run(s0, actions) && !s.closed && h < |s.all|
    ensures Lifecycle.Count(s.out, CMD_FIN, s.all[h].id) == if s.all[h].dead && !s.all[h].peerFin then 1 else 0
  {
    hide Run;
    StartIsInv(s0);
    Lifecycle.InvOnEveryRun(s0, actions);
    FinsAreLocalDeaths(s0, actions, s, s.all[h].id);
    DeathsOfOne(s.all, h);
  }

  // ---- The report of a handshake ----

  /** A report that goes out: the first for its stream, to a peer of version 2, on an open session. */
  predicate Reports(s: Session, a: Action) {
    a.AReport? && Enabled(s, a) && !s.all[a.h].reported && s.peerVersion >= 2 && !s.closed
  }

  /** It is one SYNACK with the report's text; any other report sends nothing. */
  lemma ReportSendsIff(s: Session, h: nat, text: bytes)
    requires Enabled(s, AReport(h, text))
    ensures var t, a := Next(s, AReport(h, text)), AReport(h, text);
            && |t.all| == |s.all| && t.all[h].reported
            && t.out == s.out + if Reports(s, a) then [Frame(CMD_SYNACK, s.all[h].id, text)] else []
  {
    assert s.out + [] == s.out;
  }

  function ReportsSent(s0: Session, actions: seq<Action>, sid: nat): nat {
    if actions == [] then 0
    else
      var init, a := actions[..|actions| - 1], actions[|actions| - 1];
      var s := Run(s0, init);
      ReportsSent(s0, init, sid) + if Reports(s, a) && s.all[a.h].id == sid then 1 else 0
  }

  lemma StepReports(s: Session, a: Action, sid: nat)
    ensures Lifecycle.Count(Next(s, a).out, CMD_SYNACK, sid)
         == Lifecycle.Count(s.out, CMD_SYNACK, sid) + if Reports(s, a) && s.all[a.h].id == sid then 1 else 0
  {
    hide Lifecycle.Count;
    hide HandleFrame;
    hide Kill;
    hide CloseWithError;
    if Enabled(s, a) {
      match a
      case ASyn(h) => Lifecycle.CountSnoc(s.out, Frame(CMD_SYN, s.all[h].id, []), CMD_SYNACK, sid);
      case AWrite(h, data) => Lifecycle.CountSnoc(s.out, Frame(CMD_PSH, s.all[h].id, data), CMD_SYNACK, sid);
      case AReport(h, text) => Lifecycle.CountSnoc(s.out, Frame(CMD_SYNACK, s.all[h].id, text), CMD_SYNACK, sid);
      case ACloseStream(h) => ClosingReportsNothing(s, h, sid);
      case AHandle =>
        if s.pending.Some? {
          HandlingReportsNothing(s.(pending := None, handled := s.handled + [s.pending.value]), s.pending.value, sid);
        }
      case _ =>
    }
  }

  lemma ClosingReportsNothing(s: Session, h: nat, sid: nat)
    requires h < |s.all|
    ensures Lifecycle.Count(CloseWithError(s, h).out, CMD_SYNACK, sid) == Lifecycle.Count(s.out, CMD_SYNACK, sid)
  {
    hide Lifecycle.Count;
    Lifecycle.CountSnoc(s.out, Frame(CMD_FIN, s.all[h].id, []), CMD_SYNACK, sid);
  }

  lemma HandlingReportsNothing(u: Session, f: Frame, sid: nat)
    ensures Lifecycle.Count(HandleFrame(u, f).out, CMD_SYNACK, sid) == Lifecycle.Count(u.out, CMD_SYNACK, sid)
  {
    hide Lifecycle.Count;
    hide AnnouncedMd5;
    hide AnnouncedVersion;
    hide ServerSettingsText;
    hide Kill;
    hide Die;
    hide CloseWithError;
    var update, hello := Frame(CMD_UPDATE_PADDING_SCHEME, 0, u.raw), Frame(CMD_SERVER_SETTINGS, 0, ServerSettingsText());
    Lifecycle.CountSnoc(u.out, update, CMD_SYNACK, sid);
    Lifecycle.CountSnoc(u.out, hello, CMD_SYNACK, sid);
    Lifecycle.CountSnoc(u.out + [update], hello, CMD_SYNACK, sid);
    Lifecycle.CountSnoc(u.out, Frame(CMD_ALERT, 0, AlertText()), CMD_SYNACK, sid);
    Lifecycle.CountSnoc(u.out, Frame(CMD_HEART_RESPONSE, f.sid, []), CMD_SYNACK, sid);
    if f.cmd == CMD_SYNACK && f.sid in u.streams && u.streams[f.sid] < |u.all| {
      var t := u.(watchers := CancelWatch(u.watchers, u.synDone), synDone := None);
      ClosingReportsNothing(t, t.streams[f.sid], sid);
    }
  }

  /** The SYNACKs on the wire are those reports, over every run against any peer. */
  lemma {:induction false} SynacksAreReports(s0: Session, actions: seq<Action>, s: Session, sid: nat)
    requires Starts(s0) && s == Run(s0, actions)
    ensures Lifecycle.Count(s.out, CMD_SYNACK, sid) == ReportsSent(s0, actions, sid)
  {
    hide Next;
    hide Reports;
    if actions == [] {
      NothingCounts(s.out, CMD_SYNACK, sid);
    } else {
      var n := |actions| - 1;
      SynacksAreReports(s0, actions[..n], Run(s0, actions[..n]), sid);
      hide Lifecycle.Count;
      StepReports(Run(s0, actions[..n]), actions[n], sid);
    }
  }

  /** The streams of the map of an open session are alive. */
  lemma LiveInMap(s: Session, sid: nat)
    requires Lifecycle.Inv(s) && sid in s.streams
    ensures s.streams[sid] < |s.all| && s.all[s.streams[sid]].id == sid && Lifecycle.StreamOk(s.all[s.streams[sid]])
    ensures !s.closed ==> !s.all[s.streams[sid]].dead
  {
    var h := s.streams[sid];
    assert Lifecycle.Registered(s, h);
    Lifecycle.InvPhases(s, h);
  }

  // ---- The peer's last word on a stream ----

  /** A FIN, or a SYNACK that reports an error. */
  predicate EndsStream(f: Frame) { f.cmd == CMD_FIN || Tells(f, CMD_SYNACK) }

  /** An open endpoint that acts on one has no live stream of that id left, none registered, and has touched no
      other stream; after a FIN it owes none itself, after a SYNACK it has sent its own. */
  lemma EndingKills(s: Session, f: Frame)
    requires Lifecycle.Inv(s) && !s.closed && s.pending == Some(f) && EndsStream(f)
    ensures var t := Handle(s);
            && !t.closed && |t.all| == |s.all| && f.sid !in t.streams
            && (forall h :: 0 <= h < |s.all| && s.all[h].id == f.sid && s.all[h].phase == Open ==> t.all[h].dead)
            && (forall h :: 0 <= h < |s.all| && s.all[h].id != f.sid ==> t.all[h] == s.all[h])
            && t.out == s.out + if f.cmd == CMD_SYNACK && f.sid in s.streams then [Frame(CMD_FIN, f.sid, [])] else []
  {
    assert s.out + [] == s.out;
    if f.sid in s.streams {
      LiveInMap(s, f.sid);
    }
    forall h | 0 <= h < |s.all| && s.all[h].id == f.sid && s.all[h].phase == Open && !s.all[h].dead
      ensures f.sid in s.streams && s.streams[f.sid] == h
    {
      LiveIsRegistered(s, h);
    }
    hide Lifecycle.Inv;
  }

  lemma LiveIsRegistered(s: Session, h: nat)
    requires Lifecycle.Inv(s) && !s.closed && h < |s.all| && s.all[h].phase == Open && !s.all[h].dead
    ensures Lifecycle.Registered(s, h)
  {
    assert Lifecycle.Registered(s, h) == !s.all[h].dead;
  }

  /** A server that is asked for a stream before the settings sends an alert, with a reason, and closes. */
  lemma UnannouncedSynIsRefused(s: Session, f: Frame)
    requires !s.isClient && !s.closed && !s.gotSettings && s.pending == Some(f) && f.cmd == CMD_SYN
    ensures var t := Handle(s);
            && t.closed && |t.out| == |s.out| + 1 && t.out[..|s.out|] == s.out && Tells(t.out[|s.out|], CMD_ALERT)
            && |t.all| == |s.all| && t.streams == map[]
  {
    assert |AlertText()| > 0;
  }

  // ---- The end of a session ----

  /** What the close does to a stream: it dies if it was alive, its hook running if it is set; no FIN is sent. */
  predicate DiesSilently(r: StreamRec, t: StreamRec) {
    t.id == r.id && t.dead && t.fins == r.fins && t.peerFin == r.peerFin
    && t.hookRuns == r.hookRuns + if !r.dead && r.hooked then 1 else 0
  }

  /** The step that closes a session: every stream that was returned to its user is dead, the map is empty, and
      nothing is sent but the alert about a SYN before the settings. */
  lemma ClosingStep(s: Session, a: Action)
    requires Lifecycle.Inv(s) && !s.closed && Next(s, a).closed
    ensures var t := Next(s, a);
            && t.streams == map[] && |t.all| == |s.all|
            && (forall h :: 0 <= h < |s.all| && s.all[h].phase == Open ==> DiesSilently(s.all[h], t.all[h]))
            && (forall h :: 0 <= h < |s.all| && s.all[h].phase != Open ==> t.all[h] == s.all[h])
            && (t.out == s.out
                || (a.AHandle? && s.pending.Some? && s.pending.value.cmd == CMD_SYN && |t.out| == |s.out| + 1))
  {
    ClosesIff(s, a);
    LastStep(s, a);
    hide Next;
    hide Close;
    CloseKills(s);
  }

  /** It is the close, but for the log of that alert, and for what is read or fired. */
  lemma LastStep(s: Session, a: Action)
    requires !s.closed
    requires a.AClose? || (a.AFire? && a.w < |s.watchers| && s.watchers[a.w] == Armed)
             || (a.AHandle? && s.pending.Some? && Expels(s, s.pending.value))
    ensures var t, c := Next(s, a), Close(s);
            && t.streams == c.streams && t.all == c.all
            && (t.out == s.out || (a.AHandle? && s.pending.value.cmd == CMD_SYN && |t.out| == |s.out| + 1))
  {
    hide Kill;
  }

  lemma CloseKills(s: Session)
    requires Lifecycle.Inv(s) && !s.closed
    ensures var t := Close(s);
            && t.streams == map[] && |t.all| == |s.all|
            && (forall h :: 0 <= h < |s.all| && s.all[h].phase == Open ==> DiesSilently(s.all[h], t.all[h]))
            && (forall h :: 0 <= h < |s.all| && s.all[h].phase != Open ==> t.all[h] == s.all[h])
  {
    forall h | 0 <= h < |s.all| && s.all[h].phase == Open && !s.all[h].dead ensures h in s.streams.Values {
      LiveIsRegistered(s, h);
    }
    forall id | id in s.streams ensures s.all[s.streams[id]].phase == Open {
    }
  }

  // ---- What is written ----

  /** A write that is accepted: on a live stream of an open session. */
  predicate Accepts(s: Session, a: Action) {
    a.AWrite? && Enabled(s, a) && !s.all[a.h].dead && !s.closed
  }

  /** It sends one data frame with what was written; any other write sends nothing. */
  lemma WriteSendsIff(s: Session, h: nat, data: bytes)
    requires Enabled(s, AWrite(h, data))
    ensures Next(s, AWrite(h, data)).out
         == s.out + if Accepts(s, AWrite(h, data)) then [Frame(CMD_PSH, s.all[h].id, data)] else []
  {
    assert s.out + [] == s.out;
  }

  /** What the accepted writes to stream `h` add up to. */
  function Accepted(s0: Session, actions: seq<Action>, h: nat): bytes {
    if actions == [] then []
    else
      var init, a := actions[..|actions| - 1], actions[|actions| - 1];
      Accepted(s0, init, h) + if Accepts(Run(s0, init), a) && a.h == h then a.data else []
  }

  lemma StepWrites(s: Session, a: Action, h: nat)
    requires h < |Next(s, a).all|
    ensures h < |s.all| ==>
              Next(s, a).all[h].written == s.all[h].written + if Accepts(s, a) && a.h == h then a.data else []
    ensures h >= |s.all| ==> Next(s, a).all[h].written == []
  {
    hide Perform;
    hide CloseWithError;
    hide HandleFrame;
    if h < |s.all| {
      assert s.all[h].written + [] == s.all[h].written;
    }
    if a.AHandle? {
      HandleIs(s);
      if s.pending.Some? {
        HandlingWrites(s.(pending := None, handled := s.handled + [s.pending.value]), s.pending.value, h);
      }
    } else if Enabled(s, a) {
      LocalWrites(s, a, h);
    }
  }

  lemma LocalWrites(s: Session, a: Action, h: nat)
    requires Enabled(s, a) && !a.AHandle? && h < |Perform(s, a).all|
    ensures h < |s.all| ==>
              Perform(s, a).all[h].written
              == if Accepts(s, a) && a.h == h then s.all[h].written + a.data else s.all[h].written
    ensures h >= |s.all| ==> Perform(s, a).all[h].written == []
  {
    hide CloseWithError;
    hide Close;
    hide Fire;
    hide OpenBegin;
    hide OpenSyn;
    hide OpenRegister;
    match a
    case ACloseStream(k) => ClosingWrites(s, k, h);
    case AClose => CloseWrites(s, h);
    case AFire(w) => FireWrites(s, w, h);
    case ABegin => OpeningWrites(s, a, h);
    case ASyn(_) => OpeningWrites(s, a, h);
    case ARegister(_) => OpeningWrites(s, a, h);
    case _ =>
  }

  lemma OpeningWrites(s: Session, a: Action, h: nat)
    requires Enabled(s, a) && (a.ABegin? || a.ASyn? || a.ARegister?) && h < |Perform(s, a).all|
    ensures h < |s.all| ==> Perform(s, a).all[h].written == s.all[h].written
    ensures h >= |s.all| ==> Perform(s, a).all[h].written == []
  {
    hide CancelWatch;
  }

  lemma CloseWrites(s: Session, h: nat)
    ensures |Close(s).all| == |s.all|
    ensures h < |s.all| ==> Close(s).all[h].written == s.all[h].written
  {
  }

  lemma FireWrites(s: Session, w: nat, h: nat)
    requires w < |s.watchers|
    ensures |Fire(s, w).all| == |s.all|
    ensures h < |s.all| ==> Fire(s, w).all[h].written == s.all[h].written
  {
    hide Close;
    CloseWrites(s.(watchers := s.watchers[w := Fired]), h);
  }

  lemma ClosingWrites(s: Session, k: nat, h: nat)
    requires k < |s.all|
    ensures |CloseWithError(s, k).all| == |s.all|
    ensures h < |s.all| ==> CloseWithError(s, k).all[h].written == s.all[h].written
  {
  }

  lemma HandlingWrites(u: Session, f: Frame, h: nat)
    requires h < |HandleFrame(u, f).all|
    ensures if h < |u.all| then HandleFrame(u, f).all[h].written == u.all[h].written
            else HandleFrame(u, f).all[h].written == []
  {
    hide HandleSettings;
    hide HandleServerSettings;
    hide Close;
    hide CloseWithError;
    SettingsTell(u, f);
    CloseWrites(u, h);
    CloseWrites(Emit(u, Frame(CMD_ALERT, 0, AlertText())), h);
    if f.cmd == CMD_SYNACK && f.sid in u.streams && u.streams[f.sid] < |u.all| {
      var t := u.(watchers := CancelWatch(u.watchers, u.synDone), synDone := None);
      ClosingWrites(t, t.streams[f.sid], h);
    }
  }

  lemma {:induction false} NoneAccepted(s0: Session, actions: seq<Action>, h: nat)
    requires h >= |Run(s0, actions).all|
    ensures Accepted(s0, actions, h) == []
  {
    hide Next;
    if actions != [] {
      var n := |actions| - 1;
      Lifecycle.DeathAndCloseAreFinal(Run(s0, actions[..n]), actions[n]);
      NoneAccepted(s0, actions[..n], h);
    }
  }

  /** Over every run against any peer, what a stream has written is what its accepted writes add up to. */
  lemma {:induction false} WrittenIsAccepted(s0: Session, actions: seq<Action>, s: Session, h: nat)
    requires Starts(s0) && s == Run(s0, actions) && h < |s.all|
    ensures s.all[h].written == Accepted(s0, actions, h)
  {
    hide Next;
    hide Accepts;
    if actions == [] {
    } else {
      var n := |actions| - 1;
      var u := Run(s0, actions[..n]);
      StepWrites(u, actions[n], h);
      if h < |u.all| {
        WrittenIsAccepted(s0, actions[..n], u, h);
      } else {
        NoneAccepted(s0, actions[..n], h);
        AcceptedExists(u, actions[n]);
      }
    }
  }

  lemma AcceptedExists(s: Session, a: Action)
    ensures Accepts(s, a) ==> a.h < |s.all|
  {
  }
}
