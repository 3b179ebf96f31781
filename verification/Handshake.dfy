/** What client and server owe each other over the connection: the version both come to use, the FIN that ends
    a stream on both sides, and the answer to each open. */
module Handshake {
  import opened Bytes
  import opened Options
  import opened Frames
  import opened SessionSpec
  import opened Logs
  import opened Channel
  import opened W = World
  import opened Duties
  import Lifecycle
  import Convergence
  import Downlink

  // ---- Each endpoint's part of a run is a run of its own ----

  lemma {:induction false} EndpointsRun(w0: World, events: seq<W.Event>, w: World) returns (ca: seq<Action>, sa: seq<Action>)
    requires w == W.Run(w0, events)
    ensures w.c == SessionSpec.Run(w0.c, ca) && w.s == SessionSpec.Run(w0.s, sa)
  {
    hide W.Next;
    ca, sa := [], [];
    if events != [] {
      var v := W.Run(w0, events[..|events| - 1]);
      ca, sa := EndpointsRun(w0, events[..|events| - 1], v);
      var e := events[|events| - 1];
      var a, b := EndpointSteps(v, e);
      RunMore(w0.c, ca, a);
      RunMore(w0.s, sa, b);
      ca, sa := ca + [a], sa + [b];
    }
  }

  /** A frame other than waste can be read. */
  predicate Shows(ch: Chan) { Visible(ch).Got? && Visible(ch).frame.cmd != CMD_WASTE }

  /** An action that changes nothing stands for no step. */
  lemma EndpointSteps(w: World, e: W.Event) returns (a: Action, b: Action)
    ensures W.Next(w, e).c == SessionSpec.Next(w.c, a) && W.Next(w, e).s == SessionSpec.Next(w.s, b)
  {
    hide DecodeOne;
    a, b := ASyn(|w.c.all|), ASyn(|w.s.all|);
    match e
    case Client(x, draws) => if W.Next(w, e) != w { a := x; }
    case Server(x, draws) => if W.Next(w, e) != w { b := x; }
    case ClientReads => if Shows(w.down) { a := ARead(Visible(w.down).frame); }
    case ServerReads => if Shows(w.up) { b := ARead(Visible(w.up).frame); }
    case _ =>
  }

  lemma RunMore(s: Session, actions: seq<Action>, a: Action)
    ensures SessionSpec.Run(s, actions + [a]) == SessionSpec.Next(SessionSpec.Run(s, actions), a)
  {
    assert (actions + [a])[..|actions|] == actions;
  }

  lemma GoodStarts(settings: Frame, c: Session, s: Session)
    requires GoodStart(settings, c, s)
    ensures Starts(c) && Starts(s)
  {
    hide AnnouncedVersion;
  }

  // ---- The version both come to use ----

  predicate Settled(log: seq<Frame>) { exists i :: 0 <= i < |log| && log[i].cmd == CMD_SERVER_SETTINGS }

  lemma {:induction false} VersionOfLog(log: seq<Frame>)
    requires forall i :: 0 <= i < |log| && log[i].cmd == CMD_SERVER_SETTINGS ==> log[i].data == ServerSettingsText()
    ensures PeerVersion(true, log) == if Settled(log) then 2 else 0
  {
    hide AnnouncedVersion;
    hide ServerSettingsText;
    if log != [] {
      var init, f := log[..|log| - 1], log[|log| - 1];
      VersionOfLog(init);
      Convergence.ServerAnnouncesTwo();
      TextIsNotEmpty();
      if Settled(init) {
        var i :| 0 <= i < |init| && init[i].cmd == CMD_SERVER_SETTINGS;
        assert log[i].cmd == CMD_SERVER_SETTINGS;
      }
      if Settled(log) && f.cmd != CMD_SERVER_SETTINGS {
        var i :| 0 <= i < |log| && log[i].cmd == CMD_SERVER_SETTINGS;
        assert init[i] == log[i];
      }
    }
  }

  lemma TextIsNotEmpty()
    ensures ServerSettingsText() != []
  {
  }

  /** On every run, version 2 is in force at the client if and only if it has acted on the server's settings;
      before that it is version 0. */
  lemma {:induction false} ClientVersionIff(settings: Frame, c: Session, s: Session, events: seq<W.Event>, w: World)
    requires GoodStart(settings, c, s) && w == W.Run(Start(settings, c, s), events)
    ensures w.c.peerVersion == if Settled(w.c.handled) then 2 else 0
  {
    hide W.Run;
    hide W.Inv;
    hide SessionSpec.Run;
    hide PeerVersion;
    hide ServerSettingsText;
    hide Settled;
    GoodStarts(settings, c, s);
    var ca, sa := EndpointsRun(Start(settings, c, s), events, w);
    ObeyedOnEveryRun(c, ca, w.c);
    InvOnEveryRun(settings, c, s, events);
    Downlink.HandledPrefix(w);
    SettingsAreTheServers(w);
    VersionOfLog(w.c.handled);
  }

  lemma SettingsAreTheServers(w: World)
    requires W.Inv(w) && w.c.handled <= w.s.out
    ensures forall i :: 0 <= i < |w.c.handled| && w.c.handled[i].cmd == CMD_SERVER_SETTINGS ==>
              w.c.handled[i].data == ServerSettingsText()
  {
    assert ServerOutOk(w.s);
    hide W.Inv;
    assert forall i :: 0 <= i < |w.c.handled| ==> w.c.handled[i] == w.s.out[i];
  }

  lemma {:induction false} CountedIsThere(log: seq<Frame>, cmd: byte, sid: nat)
    requires Lifecycle.Count(log, cmd, sid) > 0
    ensures exists i :: 0 <= i < |log| && log[i].cmd == cmd && log[i].sid == sid
  {
    var init, f := log[..|log| - 1], log[|log| - 1];
    if !(f.cmd == cmd && f.sid == sid) {
      CountedIsThere(init, cmd, sid);
      var i :| 0 <= i < |init| && init[i].cmd == cmd && init[i].sid == sid;
      assert log[i] == init[i];
    }
  }

  lemma {:induction false} FirstGreets(log: seq<Frame>)
    requires log != [] && Greets(log[0])
    ensures Greetings(log) > 0
  {
    hide Greets;
    if |log| > 1 {
      FirstGreets(log[..|log| - 1]);
    } else {
      assert log[0] == log[|log| - 1];
    }
  }

  /** Negotiation comes to its end: with both ways drained and the server open, both sides use version 2. */
  lemma {:induction false} VersionsAgree(settings: Frame, c: Session, s: Session, events: seq<W.Event>, w: World)
    requires GoodStart(settings, c, s) && w == W.Run(Start(settings, c, s), events)
    requires Drained(w.up) && w.s.pending == None && Drained(w.down) && w.c.pending == None && !w.s.closed
    ensures w.s.peerVersion == 2 && w.c.peerVersion == 2
  {
    hide W.Run;
    hide W.Inv;
    hide SessionSpec.Run;
    hide AnnouncedVersion;
    hide Greetings;
    hide Lifecycle.Count;
    GoodStarts(settings, c, s);
    var ca, sa := EndpointsRun(Start(settings, c, s), events, w);
    InvOnEveryRun(settings, c, s, events);
    FirstFrameOnEveryRun(settings, c, s, events);
    AllHeard(w);
    FirstGreets(w.s.handled);
    AnsweredOnEveryRun(s, sa, w.s, 0);
    ObeyedOnEveryRun(s, sa, w.s);
    CountedIsThere(w.s.out, CMD_SERVER_SETTINGS, 0);
    Downlink.HandledPrefix(w);
    ClientVersionIff(settings, c, s, events, w);
    assert Settled(w.c.handled);
  }

  lemma AllHeard(w: World)
    requires W.Inv(w) && Drained(w.up) && w.s.pending == None
    ensures w.s.handled == w.c.out && (w.s.handled != [] ==> w.s.peerVersion == 2)
  {
    hide Channel.Inv;
    BothSides(w);
    DrainedMeansReceived(w.up);
  }

  // ---- The FIN that ends a stream on both sides ----

  /** The server's stream for which a FIN has been acted on is dead. */
  predicate FinsHeard(s: Session) {
    forall h :: 0 <= h < |s.all| && FinIn(s.handled, s.all[h].id) ==> s.all[h].dead
  }

  lemma FinInSnoc(log: seq<Frame>, f: Frame, sid: nat)
    ensures FinIn(log + [f], sid) <==> FinIn(log, sid) || (f.cmd == CMD_FIN && f.sid == sid)
  {
    var more := log + [f];
    assert more[|log|] == f;
    if FinIn(log, sid) {
      var i :| 0 <= i < |log| && log[i].cmd == CMD_FIN && log[i].sid == sid;
      assert more[i] == log[i];
    }
    if FinIn(more, sid) && !(f.cmd == CMD_FIN && f.sid == sid) {
      var i :| 0 <= i < |more| && more[i].cmd == CMD_FIN && more[i].sid == sid;
      assert log[i] == more[i];
    }
  }

  /** What acting on a frame does to stream `h`, where a FIN is concerned. */
  lemma HandlingHearsFin(s: Session, f: Frame, h: nat)
    requires Lifecycle.Inv(s) && !s.isClient && s.pending == Some(f)
    requires h < |s.all| && s.all[h].id == f.sid && f.cmd == CMD_FIN
    ensures h < |Handle(s).all| && Handle(s).all[h].dead
  {
    Lifecycle.InvPhases(s, h);
    if s.closed {
      ClosedAreDead(s, h);
      Lifecycle.DeathAndCloseAreFinal(s, AHandle);
      hide Lifecycle.Inv;
      hide HandleFrame;
    } else {
      EndingKills(s, f);
      hide Lifecycle.Inv;
      hide HandleFrame;
    }
  }

  lemma ClosedAreDead(s: Session, h: nat)
    requires Lifecycle.Inv(s) && !s.isClient && s.closed && s.pending.Some? && h < |s.all|
    ensures s.all[h].dead
  {
  }

  lemma HandleKeepsFinsHeard(s: Session, f: Frame)
    requires Lifecycle.Inv(s) && !s.isClient && s.pending == Some(f) && FinsHeard(s)
    requires f.cmd == CMD_SYN ==> !FinIn(s.handled, f.sid)
    ensures FinsHeard(Handle(s))
  {
    hide FinIn;
    hide Lifecycle.Inv;
    hide Handle;
    hide HandleFrame;
    hide Perform;
    var t := Handle(s);
    HandledMore(s, f);
    NewOnlyBySyn(s, f);
    Lifecycle.DeathAndCloseAreFinal(s, AHandle);
    HandlePerforms(s);
    forall h | 0 <= h < |t.all| && FinIn(t.handled, t.all[h].id) ensures t.all[h].dead {
      FinInSnoc(s.handled, f, t.all[h].id);
      if h < |s.all| {
        assert Lifecycle.Outlives(s.all[h], t.all[h]);
        if f.cmd == CMD_FIN && f.sid == s.all[h].id {
          HandlingHearsFin(s, f, h);
        }
      }
    }
  }

  lemma HandledMore(s: Session, f: Frame)
    requires s.pending == Some(f)
    ensures Handle(s).handled == s.handled + [f]
  {
    hide HandleFrame;
    HandlingKeepsLog(s.(pending := None, handled := s.handled + [f]), f);
  }

  lemma NewOnlyBySyn(s: Session, f: Frame)
    requires s.pending == Some(f)
    ensures |s.all| <= |Handle(s).all|
    ensures forall h :: |s.all| <= h < |Handle(s).all| ==> f.cmd == CMD_SYN && Handle(s).all[h].id == f.sid
  {
    hide AnnouncedMd5;
    hide AnnouncedVersion;
    hide Die;
  }

  lemma OtherStepKeepsFinsHeard(s: Session, a: Action)
    requires FinsHeard(s) && !s.isClient && !a.AHandle?
    ensures FinsHeard(SessionSpec.Next(s, a))
  {
    hide FinIn;
    Lifecycle.DeathAndCloseAreFinal(s, a);
    var t := SessionSpec.Next(s, a);
    if Enabled(s, a) {
      LocalTellsNothing(s, a);
      LocalOpensNothing(s, a);
    }
    hide SessionSpec.Next;
    forall h | 0 <= h < |t.all| && FinIn(t.handled, t.all[h].id) ensures t.all[h].dead {
      assert Lifecycle.Outlives(s.all[h], t.all[h]);
    }
  }

  lemma LocalOpensNothing(s: Session, a: Action)
    requires Enabled(s, a) && !s.isClient && !a.AHandle?
    ensures |Perform(s, a).all| == |s.all|
  {
    hide Die;
  }

  lemma WorldNextFins(w: World, e: W.Event, w': World)
    requires W.Inv(w) && w' == W.Next(w, e) && FinsHeard(w.s)
    ensures FinsHeard(w'.s)
  {
    hide FinsHeard;
    hide Handle;
    var a, b := EndpointSteps(w, e);
    hide W.Next;
    BothSides(w);
    HandledBeginsLog(w);
    LinkedLife(w.s, w.down, w.up);
    hide Linked;
    hide LogOk;
    hide W.Inv;
    HandlePerforms(w.s);
    if b.AHandle? {
      if w.s.pending.Some? {
        var f := w.s.pending.value;
        if f.cmd == CMD_SYN {
          LaterFrame(w.s.handled, f, w.c.out);
        }
        HandleKeepsFinsHeard(w.s, f);
      }
    } else {
      OtherStepKeepsFinsHeard(w.s, b);
      hide SessionSpec.Next;
    }
  }

  lemma {:induction false} FinsHeardOnEveryRun(settings: Frame, c: Session, s: Session, events: seq<W.Event>, w: World)
    requires GoodStart(settings, c, s) && w == W.Run(Start(settings, c, s), events)
    ensures FinsHeard(w.s)
  {
    hide W.Next;
    hide W.Inv;
    if events == [] {
    } else {
      var n := |events| - 1;
      var v := W.Run(Start(settings, c, s), events[..n]);
      FinsHeardOnEveryRun(settings, c, s, events[..n], v);
      hide FinsHeard;
      W.InvOnEveryRun(settings, c, s, events[..n]);
      WorldNextFins(v, events[n], w);
    }
  }

  /** A close reaches the other side: once the way to the server is drained and the server has acted on what it
      read, every stream that the client has closed, its session being open, is dead at the server. */
  lemma {:induction false} LocalCloseReachesServer(settings: Frame, c: Session, s: Session, events: seq<W.Event>,
                                                   w: World, k: nat)
    requires GoodStart(settings, c, s) && w == W.Run(Start(settings, c, s), events)
    requires Drained(w.up) && w.s.pending == None && !w.c.closed
    requires k < |w.c.all| && w.c.all[k].phase == Open && w.c.all[k].dead && !w.c.all[k].peerFin
    ensures HasStream(w.s, w.c.all[k].id)
    ensures forall h :: 0 <= h < |w.s.all| && w.s.all[h].id == w.c.all[k].id ==> w.s.all[h].dead
  {
    hide W.Run;
    hide W.Inv;
    hide SessionSpec.Run;
    hide Lifecycle.Count;
    hide HasStream;
    GoodStarts(settings, c, s);
    var ca, sa := EndpointsRun(Start(settings, c, s), events, w);
    DrainedStreamsAreComplete(settings, c, s, events, w, k);
    InvOnEveryRun(settings, c, s, events);
    AllHeard(w);
    ClientFinIff(c, ca, w.c, k);
    CountedIsThere(w.c.out, CMD_FIN, w.c.all[k].id);
    FinsHeardOnEveryRun(settings, c, s, events, w);
    assert FinIn(w.s.handled, w.c.all[k].id);
  }

  // ---- The answer to each open ----

  /** While the session is open, the first report on each stream, and no other, has sent a SYNACK. */
  predicate SynacksSent(s: Session) {
    !s.closed ==> forall h :: 0 <= h < |s.all| ==> s.all[h].synacks == if s.all[h].reported then 1 else 0
  }

  predicate SameReports(r: StreamRec, later: StreamRec) { later.reported == r.reported && later.synacks == r.synacks }

  lemma HandlingReports(s: Session, f: Frame)
    requires s.pending == Some(f)
    ensures var t := Handle(s);
            && |s.all| <= |t.all| && (forall h :: 0 <= h < |s.all| ==> SameReports(s.all[h], t.all[h]))
            && (forall h :: |s.all| <= h < |t.all| ==> !t.all[h].reported && t.all[h].synacks == 0)
  {
    hide HandleFrame;
    hide SameReports;
    var u, t := s.(pending := None, handled := s.handled + [f]), Handle(s);
    StreamsAfter(u, f);
    forall h | 0 <= h < |s.all| ensures SameReports(s.all[h], t.all[h]) {
      OneReport(u, f, h);
    }
  }

  lemma OneReport(u: Session, f: Frame, h: nat)
    requires h < |u.all| <= |HandleFrame(u, f).all|
    ensures SameReports(u.all[h], HandleFrame(u, f).all[h])
  {
    hide HandleSettings;
    hide HandleServerSettings;
    hide HandleSynAck;
    hide HandleFin;
    SettingsTell(u, f);
    EndingReportsNothing(u, f, h);
  }

  lemma EndingReportsNothing(u: Session, f: Frame, h: nat)
    requires h < |u.all|
    ensures |HandleSynAck(u, f.sid, f.data).all| == |u.all| == |HandleFin(u, f.sid).all|
    ensures SameReports(u.all[h], HandleSynAck(u, f.sid, f.data).all[h])
    ensures SameReports(u.all[h], HandleFin(u, f.sid).all[h])
  {
    hide CancelWatch;
  }

  lemma StreamsAfter(u: Session, f: Frame)
    ensures var t := HandleFrame(u, f);
            && |u.all| <= |t.all|
            && (forall h :: |u.all| <= h < |t.all| ==> !t.all[h].reported && t.all[h].synacks == 0)
  {
    hide HandleSettings;
    hide HandleServerSettings;
    hide CancelWatch;
    hide Die;
    SettingsTell(u, f);
  }

  lemma LocalReports(s: Session, a: Action)
    requires Enabled(s, a) && !s.isClient && !a.AHandle? && !a.AReport?
    ensures var t := Perform(s, a);
            && |s.all| == |t.all| && (forall h :: 0 <= h < |s.all| ==> SameReports(s.all[h], t.all[h]))
  {
  }

  lemma NextKeepsSynacks(s: Session, a: Action)
    requires !s.isClient && Lifecycle.Inv(s) && SynacksSent(s) && (s.all != [] ==> s.peerVersion >= 2)
    ensures SynacksSent(SessionSpec.Next(s, a))
  {
    hide Lifecycle.Inv;
    hide Handle;
    hide Close;
    hide CloseWithError;
    Lifecycle.DeathAndCloseAreFinal(s, a);
    if a.AHandle? {
      HandlePerforms(s);
      if s.pending.Some? {
        HandlingReports(s, s.pending.value);
      }
    } else if Enabled(s, a) && !a.AReport? {
      LocalReports(s, a);
      hide Perform;
    }
  }

  lemma WorldNextSynacks(w: World, e: W.Event, w': World)
    requires W.Inv(w) && w' == W.Next(w, e) && SynacksSent(w.s)
    ensures SynacksSent(w'.s)
  {
    hide SynacksSent;
    var a, b := EndpointSteps(w, e);
    hide W.Next;
    BothSides(w);
    LinkedLife(w.s, w.down, w.up);
    SpokenToVersionTwo(w);
    hide W.Inv;
    hide Linked;
    NextKeepsSynacks(w.s, b);
    hide SessionSpec.Next;
  }

  lemma SpokenToVersionTwo(w: World)
    requires W.Inv(w)
    ensures w.s.all != [] ==> w.s.peerVersion >= 2
    ensures Lifecycle.DistinctIds(w.s.all) && !w.s.isClient
    ensures forall sid :: Lifecycle.Tally(w.s, CMD_SYNACK, sid)
  {
    hide Channel.Inv;
    hide Lifecycle.Inv;
    hide Lifecycle.Tally;
    BothSides(w);
  }

  lemma {:induction false} SynacksOnEveryRun(settings: Frame, c: Session, s: Session, events: seq<W.Event>, w: World)
    requires GoodStart(settings, c, s) && w == W.Run(Start(settings, c, s), events)
    ensures SynacksSent(w.s)
  {
    hide W.Next;
    hide W.Inv;
    if events == [] {
    } else {
      var n := |events| - 1;
      var v := W.Run(Start(settings, c, s), events[..n]);
      SynacksOnEveryRun(settings, c, s, events[..n], v);
      hide SynacksSent;
      W.InvOnEveryRun(settings, c, s, events[..n]);
      WorldNextSynacks(v, events[n], w);
    }
  }

  /** On every run, while the server's session is open: it has sent exactly one SYNACK for a stream if its
      handshake has been reported, with or without an error, and none if not. */
  lemma {:induction false} SynackIff(settings: Frame, c: Session, s: Session, events: seq<W.Event>, w: World, h: nat)
    requires GoodStart(settings, c, s) && w == W.Run(Start(settings, c, s), events)
    requires !w.s.closed && h < |w.s.all|
    ensures Lifecycle.Count(w.s.out, CMD_SYNACK, w.s.all[h].id) == if w.s.all[h].reported then 1 else 0
  {
    hide W.Run;
    hide W.Inv;
    W.InvOnEveryRun(settings, c, s, events);
    SpokenToVersionTwo(w);
    SynacksOnEveryRun(settings, c, s, events, w);
    assert Lifecycle.Tally(w.s, CMD_SYNACK, w.s.all[h].id);
    SentOfOne(w.s.all, h);
  }

  lemma {:induction false} SentOfOne(all: seq<StreamRec>, h: nat)
    requires Lifecycle.DistinctIds(all) && h < |all|
    ensures Lifecycle.Sent(all, CMD_SYNACK, all[h].id) == all[h].synacks
  {
    var n := |all| - 1;
    if h == n {
      NothingSent(all[..n], all[h].id);
    } else {
      SentOfOne(all[..n], h);
      assert all[h].id != all[n].id;
    }
  }

  lemma {:induction false} NothingSent(all: seq<StreamRec>, sid: nat)
    requires forall k :: 0 <= k < |all| ==> all[k].id != sid
    ensures Lifecycle.Sent(all, CMD_SYNACK, sid) == 0
  {
    if all != [] {
      NothingSent(all[..|all| - 1], sid);
    }
  }
}
