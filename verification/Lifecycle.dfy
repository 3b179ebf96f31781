/** Close discipline of one endpoint against any peer. */
module Lifecycle {
  import opened Bytes
  import opened Options
  import opened Frames
  import opened SessionSpec

  /** The death body and the hook run at most once; the endpoint's own FIN goes out at most once and
      not for a stream the peer's FIN closed; SYNACK follows a report. */
  predicate StreamOk(r: StreamRec) {
    && r.deaths == (if r.dead then 1 else 0)
    && r.hookRuns + (if r.hooked then 1 else 0) <= 1
    && r.hookRuns <= r.deaths
    && r.fins <= r.deaths
    && (r.peerFin ==> r.dead && r.fins == 0)
    && r.synacks <= (if r.reported then 1 else 0)
    && (r.phase != Open ==> !r.dead)
  }

  predicate Registered(s: Session, h: nat) {
    h < |s.all| && s.all[h].id in s.streams && s.streams[s.all[h].id] == h
  }

  predicate MapOk(s: Session) {
    && (forall id :: id in s.streams ==> s.streams[id] < |s.all| && s.all[s.streams[id]].id == id)
    && (forall id :: id in s.streams ==> s.all[s.streams[id]].phase == Open)
    && (!s.closed ==> forall h :: 0 <= h < |s.all| && s.all[h].phase == Open ==> Registered(s, h) == !s.all[h].dead)
  }

  /** After the close every stream registered before it is dead, and the map is empty but for the one
      SYN that was read before the close and acted on after it. */
  predicate ClosedOk(s: Session) {
    s.closed ==>
      && s.mark <= |s.all| <= s.mark + 1
      && (forall h :: 0 <= h < s.mark && s.all[h].phase == Open ==> s.all[h].dead)
      && (|s.all| == s.mark ==> s.streams == map[])
      && (|s.all| == s.mark + 1 ==> s.pending == None && s.streams == map[s.all[s.mark].id := s.mark])
  }

  /** Client ids are drawn from a counter. */
  predicate IdsOk(s: Session) {
    s.isClient ==> s.lastId == |s.all| && forall h :: 0 <= h < |s.all| ==> s.all[h].id == h + 1
  }

  predicate WatchersOk(s: Session) {
    && (s.synDone.Some? ==> s.synDone.value < |s.watchers|)
    && (forall w :: 0 <= w < |s.watchers| && s.watchers[w] == Armed ==> s.synDone == Some(w))
  }

  predicate Inv(s: Session) {
    && (forall h :: 0 <= h < |s.all| ==> StreamOk(s.all[h]) && (s.all[h].phase == Open || s.isClient))
    && MapOk(s) && ClosedOk(s) && IdsOk(s) && WatchersOk(s)
    && (s.isClient && s.pending.Some? ==> s.pending.value.cmd != CMD_SYN)
  }

  /** Changing a stream's counters or bytes, but not its id, phase or life, keeps the invariant. */
  lemma TouchKeepsInv(s: Session, h: nat, r: StreamRec, out: seq<Frame>)
    requires Inv(s) && h < |s.all| && StreamOk(r)
    requires r.id == s.all[h].id && r.phase == s.all[h].phase && r.dead == s.all[h].dead
    ensures Inv(s.(all := s.all[h := r], out := out))
  {
    var t := s.(all := s.all[h := r], out := out);
    forall k | 0 <= k < |t.all| && t.all[k].phase == Open && !t.closed ensures Registered(t, k) == !t.all[k].dead {
      assert Registered(s, k) == !s.all[k].dead;
    }
  }

  lemma BeginKeepsInv(s: Session)
    requires Inv(s) && s.isClient
    ensures Inv(OpenBegin(s))
  {
    if !s.closed {
      var id := s.lastId + 1;
      var t := s.(lastId := id, all := s.all + [NewStream(id, Allocated)]);
      AllocateKeepsInv(s, t);
      if id >= 2 && s.peerVersion >= 2 {
        WatchersKeepInv(t, CancelWatch(s.watchers, s.synDone) + [Armed], Some(|s.watchers|));
      }
    }
  }

  lemma AllocateKeepsInv(s: Session, t: Session)
    requires Inv(s) && s.isClient && !s.closed
    requires t == s.(lastId := s.lastId + 1, all := s.all + [NewStream(s.lastId + 1, Allocated)])
    ensures Inv(t)
  {
    forall k | 0 <= k < |t.all| && t.all[k].phase == Open ensures Registered(t, k) == !t.all[k].dead {
      assert Registered(s, k) == !s.all[k].dead;
    }
  }

  lemma SynKeepsInv(s: Session, h: nat)
    requires Inv(s) && h < |s.all| && s.all[h].phase == Allocated && s.isClient
    ensures Inv(OpenSyn(s, h))
  {
    var t := OpenSyn(s, h);
    forall k | 0 <= k < |t.all| && t.all[k].phase == Open && !t.closed ensures Registered(t, k) == !t.all[k].dead {
      assert Registered(s, k) == !s.all[k].dead;
    }
  }

  lemma RegisterKeepsInv(s: Session, h: nat)
    requires Inv(s) && h < |s.all| && s.all[h].phase == SynWritten && s.isClient
    ensures Inv(OpenRegister(s, h))
  {
    var t := OpenRegister(s, h);
    assert s.all[h].id !in s.streams;
    forall k | 0 <= k < |t.all| && t.all[k].phase == Open && !t.closed ensures Registered(t, k) == !t.all[k].dead {
      if k != h {
        assert Registered(s, k) == !s.all[k].dead;
      }
    }
  }

  lemma DieIsOk(r: StreamRec)
    requires StreamOk(r) && r.phase == Open
    ensures StreamOk(Die(r)) && Die(r).dead && Die(r).id == r.id && Die(r).phase == Open
  {
  }

  predicate KilledAs(r: StreamRec, was: StreamRec) {
    StreamOk(r) && r.id == was.id && r.phase == was.phase && (r.phase == Open ==> r.dead)
  }

  lemma KillFacts(s: Session, h: nat)
    requires Inv(s) && !s.closed && h < |s.all|
    ensures KilledAs(Kill(s.all, s.streams)[h], s.all[h])
  {
    assert s.all[h].phase == Open ==> Registered(s, h) == !s.all[h].dead;
    if h in s.streams.Values {
      var id :| id in s.streams && s.streams[id] == h;
      DieIsOk(s.all[h]);
    } else {
      var id := s.all[h].id;
      assert id in s.streams ==> s.streams[id] in s.streams.Values;
    }
  }

  lemma CloseKeepsInv(s: Session)
    requires Inv(s)
    ensures Inv(Close(s))
  {
    if !s.closed {
      hide KilledAs;
      forall h | 0 <= h < |s.all| ensures KilledAs(Kill(s.all, s.streams)[h], s.all[h]) {
        KillFacts(s, h);
      }
      KillAllKeepsInv(s, Kill(s.all, s.streams));
    }
  }

  lemma KillAllKeepsInv(s: Session, all: seq<StreamRec>)
    requires Inv(s) && !s.closed
    requires |all| == |s.all| && forall h :: 0 <= h < |all| ==> KilledAs(all[h], s.all[h])
    ensures Inv(s.(closed := true, mark := |s.all|, all := all, streams := map[]))
  {
    hide StreamOk;
    hide Registered;
  }

  /** Killing a registered stream and forgetting its id. */
  lemma KillOneKeepsInv(s: Session, h: nat, r: StreamRec, out: seq<Frame>)
    requires Inv(s) && !s.closed && Registered(s, h) && StreamOk(r)
    requires r.id == s.all[h].id && r.phase == Open && r.dead
    ensures Inv(s.(all := s.all[h := r], streams := s.streams - {r.id}, out := out))
  {
    var t := s.(all := s.all[h := r], streams := s.streams - {r.id}, out := out);
    forall k | 0 <= k < |t.all| && t.all[k].phase == Open ensures Registered(t, k) == !t.all[k].dead {
      if k != h {
        assert Registered(s, k) == !s.all[k].dead;
        assert Registered(s, k) ==> s.all[k].id != r.id;
      }
    }
  }

  lemma CloseWithErrorKeepsInv(s: Session, h: nat)
    requires Inv(s) && h < |s.all| && s.all[h].phase == Open
    ensures Inv(CloseWithError(s, h))
  {
    hide Inv;
    hide Die;
    hide StreamOk;
    if !s.all[h].dead {
      var r := Die(s.all[h]);
      InvPhases(s, h);
      DieIsOk(s.all[h]);
      if s.closed {
        LateDeathKeepsInv(s, h, r);
      } else {
        var r' := r.(fins := r.fins + 1);
        assert s.all[h := r][h := r'] == s.all[h := r'];
        OpenIsRegistered(s, h);
        FinFromDeath(s.all[h]);
        KillOneKeepsInv(s, h, r', s.out + [Frame(CMD_FIN, r.id, [])]);
      }
    }
  }

  lemma FinFromDeath(r: StreamRec)
    requires StreamOk(r) && r.phase == Open && !r.dead
    ensures StreamOk(Die(r).(fins := Die(r).fins + 1))
  {
  }

  lemma OpenIsRegistered(s: Session, h: nat)
    requires Inv(s) && !s.closed && h < |s.all| && s.all[h].phase == Open && !s.all[h].dead
    ensures Registered(s, h)
  {
    assert Registered(s, h) == !s.all[h].dead;
  }

  lemma LateDeathKeepsInv(s: Session, h: nat, r: StreamRec)
    requires Inv(s) && s.closed && h < |s.all| && StreamOk(r)
    requires r.id == s.all[h].id && r.phase == Open == s.all[h].phase && r.dead
    ensures Inv(s.(all := s.all[h := r]))
  {
    hide StreamOk;
  }

  lemma FinKeepsInv(s: Session, sid: nat)
    requires Inv(s) && (s.closed ==> s.streams == map[])
    ensures Inv(HandleFin(s, sid))
  {
    if sid in s.streams {
      var h := s.streams[sid];
      assert Registered(s, h);
      KillOneKeepsInv(s, h, Die(s.all[h]).(peerFin := true), s.out);
    } else {
      assert s.streams - {sid} == s.streams;
    }
  }

  lemma ServerSynKeepsInv(s: Session, sid: nat)
    requires Inv(s) && !s.isClient && s.pending == None && (s.closed ==> |s.all| == s.mark)
    ensures Inv(HandleSyn(s, sid))
  {
    hide Inv;
    hide Close;
    if !s.gotSettings {
      NegotiationKeepsInv(s, Emit(s, Frame(CMD_ALERT, 0, AlertText())));
      CloseKeepsInv(Emit(s, Frame(CMD_ALERT, 0, AlertText())));
    } else if sid !in s.streams {
      AcceptKeepsInv(s, sid);
    }
  }

  lemma AcceptKeepsInv(s: Session, sid: nat)
    requires Inv(s) && !s.isClient && s.pending == None && (s.closed ==> |s.all| == s.mark) && sid !in s.streams
    ensures Inv(s.(streams := s.streams[sid := |s.all|], all := s.all + [NewStream(sid, Open)]))
  {
    var t := s.(streams := s.streams[sid := |s.all|], all := s.all + [NewStream(sid, Open)]);
    forall k | 0 <= k < |t.all| && t.all[k].phase == Open && !t.closed ensures Registered(t, k) == !t.all[k].dead {
      if k < |s.all| {
        assert Registered(s, k) == !s.all[k].dead;
      }
    }
  }

  lemma WatchersKeepInv(s: Session, watchers: seq<Watch>, synDone: Option<nat>)
    requires Inv(s) && WatchersOk(s.(watchers := watchers, synDone := synDone))
    ensures Inv(s.(watchers := watchers, synDone := synDone))
  {
    var t := s.(watchers := watchers, synDone := synDone);
    forall k | 0 <= k < |t.all| && t.all[k].phase == Open && !t.closed ensures Registered(t, k) == !t.all[k].dead {
      assert Registered(s, k) == !s.all[k].dead;
    }
  }

  lemma FireKeepsInv(s: Session, w: nat)
    requires Inv(s) && w < |s.watchers|
    ensures Inv(Fire(s, w))
  {
    if s.watchers[w] == Armed {
      WatchersKeepInv(s, s.watchers[w := Fired], s.synDone);
      CloseKeepsInv(s.(watchers := s.watchers[w := Fired]));
    }
  }

  lemma SynAckKeepsInv(s: Session, sid: nat, data: bytes)
    requires Inv(s)
    ensures Inv(HandleSynAck(s, sid, data))
  {
    WatchersKeepInv(s, CancelWatch(s.watchers, s.synDone), None);
    var t := s.(watchers := CancelWatch(s.watchers, s.synDone), synDone := None);
    if data != [] && sid in t.streams {
      CloseWithErrorKeepsInv(t, t.streams[sid]);
    }
  }

  /** Negotiation state, schemes, and the frame logs play no part in the invariant. */
  lemma NegotiationKeepsInv(s: Session, t: Session)
    requires Inv(s)
    requires t.isClient == s.isClient && t.closed == s.closed && t.streams == s.streams && t.all == s.all
    requires t.mark == s.mark && t.lastId == s.lastId && t.synDone == s.synDone && t.watchers == s.watchers
    requires t.pending == s.pending
             || t.pending == None
             || (!t.closed && t.pending.Some? && (t.isClient ==> t.pending.value.cmd != CMD_SYN))
    ensures Inv(t)
  {
    forall k | 0 <= k < |t.all| && t.all[k].phase == Open && !t.closed ensures Registered(t, k) == !t.all[k].dead {
      assert Registered(s, k) == !s.all[k].dead;
    }
  }

  lemma WriteKeepsInv(s: Session, h: nat, data: bytes)
    requires Inv(s) && h < |s.all|
    ensures Inv(Write(s, h, data))
  {
    InvPhases(s, h);
    hide Inv;
    var r := s.all[h];
    TouchKeepsInv(s, h, r.(written := r.written + data), s.out + [Frame(CMD_PSH, r.id, data)]);
  }

  lemma ReportKeepsInv(s: Session, h: nat, text: bytes)
    requires Inv(s) && h < |s.all|
    ensures Inv(Report(s, h, text))
  {
    hide Inv;
    hide StreamOk;
    InvPhases(s, h);
    var r := s.all[h];
    if !r.reported {
      ReportedIsOk(r);
      if s.peerVersion >= 2 && !s.closed {
        TouchKeepsInv(s, h, r.(reported := true, synacks := r.synacks + 1), s.out + [Frame(CMD_SYNACK, r.id, text)]);
      } else {
        TouchKeepsInv(s, h, r.(reported := true), s.out);
      }
    }
  }

  lemma ReportedIsOk(r: StreamRec)
    requires StreamOk(r) && !r.reported
    ensures StreamOk(r.(reported := true)) && StreamOk(r.(reported := true, synacks := r.synacks + 1))
  {
  }

  lemma HookKeepsInv(s: Session, h: nat)
    requires Inv(s) && Enabled(s, AHook(h))
    ensures Inv(SetHook(s, h))
  {
    InvPhases(s, h);
    hide Inv;
    TouchKeepsInv(s, h, s.all[h].(hooked := true), s.out);
  }

  lemma LocalKeepsInv(s: Session, a: Action)
    requires Inv(s) && Enabled(s, a) && !a.AHandle?
    ensures Inv(Perform(s, a))
  {
    hide Inv;
    hide OpenBegin;
    hide OpenSyn;
    hide OpenRegister;
    hide SetHook;
    hide Write;
    hide Report;
    hide CloseWithError;
    hide Close;
    hide Fire;
    match a
    case ABegin => BeginKeepsInv(s);
    case ASyn(h) => InvPhases(s, h); SynKeepsInv(s, h);
    case ARegister(h) => InvPhases(s, h); RegisterKeepsInv(s, h);
    case AHook(h) => HookKeepsInv(s, h);
    case AWrite(h, data) => WriteKeepsInv(s, h, data);
    case ACloseStream(h) => CloseWithErrorKeepsInv(s, h);
    case AClose => CloseKeepsInv(s);
    case AFire(w) => FireKeepsInv(s, w);
    case ARead(f) => NegotiationKeepsInv(s, Read(s, f));
    case AReport(h, text) => ReportKeepsInv(s, h, text);
    case AReload(raw, md5) => NegotiationKeepsInv(s, Perform(s, a));
  }

  lemma InvPhases(s: Session, h: nat)
    requires Inv(s) && h < |s.all|
    ensures StreamOk(s.all[h])
    ensures s.all[h].phase != Open ==> s.isClient
  {
  }

  lemma HandleFrameKeepsInv(s: Session, f: Frame)
    requires Inv(s) && s.pending == None && (s.isClient ==> f.cmd != CMD_SYN)
    requires s.closed ==> |s.all| == s.mark && s.streams == map[]
    ensures Inv(HandleFrame(s, f))
  {
    hide Inv;
    hide HandlePsh;
    hide HandleSyn;
    hide HandleSynAck;
    hide HandleFin;
    hide HandleSettings;
    hide HandleServerSettings;
    hide Close;
    hide Emit;
    if f.cmd == CMD_PSH {
      PshKeepsInv(s, f.sid, f.data);
    } else if f.cmd == CMD_SYN {
      ServerSynKeepsInv(s, f.sid);
    } else if f.cmd == CMD_SYNACK {
      SynAckKeepsInv(s, f.sid, f.data);
    } else if f.cmd == CMD_FIN {
      FinKeepsInv(s, f.sid);
    } else if f.cmd == CMD_ALERT {
      CloseKeepsInv(s);
    } else {
      OtherFrameKeepsInv(s, f);
    }
  }

  lemma OtherFrameKeepsInv(s: Session, f: Frame)
    requires Inv(s) && s.pending == None
    requires f.cmd != CMD_PSH && f.cmd != CMD_SYN && f.cmd != CMD_SYNACK && f.cmd != CMD_FIN && f.cmd != CMD_ALERT
    ensures Inv(HandleFrame(s, f))
  {
    hide Inv;
    hide AnnouncedMd5;
    hide AnnouncedVersion;
    NegotiationKeepsInv(s, HandleFrame(s, f));
  }

  lemma PshKeepsInv(s: Session, sid: nat, data: bytes)
    requires Inv(s)
    ensures Inv(HandlePsh(s, sid, data))
  {
    if data != [] && sid in s.streams {
      var h := s.streams[sid];
      TouchKeepsInv(s, h, s.all[h].(piped := s.all[h].piped + data), s.out);
    }
  }

  lemma RoleStays(s: Session, f: Frame)
    ensures HandleFrame(s, f).isClient == s.isClient
  {
    hide AnnouncedMd5;
    hide AnnouncedVersion;
  }

  lemma HandleKeepsInv(s: Session)
    requires Inv(s)
    ensures Inv(Handle(s)) && Handle(s).isClient == s.isClient
  {
    if s.pending.Some? {
      var f := s.pending.value;
      var t := s.(pending := None, handled := s.handled + [f]);
      assert (s.isClient ==> f.cmd != CMD_SYN) && (s.closed ==> |s.all| == s.mark && s.streams == map[]);
      hide Inv;
      NegotiationKeepsInv(s, t);
      HandleFrameKeepsInv(t, f);
      RoleStays(t, f);
    }
  }

  lemma NextKeepsInv(s: Session, a: Action)
    requires Inv(s)
    ensures Inv(Next(s, a)) && Next(s, a).isClient == s.isClient
  {
    if Enabled(s, a) {
      if a.AHandle? {
        HandleKeepsInv(s);
      } else {
        LocalKeepsInv(s, a);
      }
    }
  }

  /** The invariant holds in every state any run reaches, whatever the peer sends. */
  lemma {:induction false} InvOnEveryRun(s: Session, actions: seq<Action>)
    requires Inv(s)
    ensures Inv(Run(s, actions)) && Run(s, actions).isClient == s.isClient
  {
    if actions != [] {
      InvOnEveryRun(s, actions[..|actions| - 1]);
      NextKeepsInv(Run(s, actions[..|actions| - 1]), actions[|actions| - 1]);
    }
  }

  /** Close discipline, from the start of a session on either side. */
  lemma {:induction false} CloseDisciplineOnEveryRun(isClient: bool, raw: bytes, md5: bytes, actions: seq<Action>)
    ensures var s := Run(NewSession(isClient, raw, md5), actions);
            && (forall h :: 0 <= h < |s.all| ==> StreamOk(s.all[h]))
            && ClosedOk(s) && WatchersOk(s)
  {
    hide Run;
    var s0 := NewSession(isClient, raw, md5);
    assert Inv(s0);
    InvOnEveryRun(s0, actions);
  }

  // ---- What the frames on the wire say ----

  function Count(fs: seq<Frame>, cmd: byte, sid: nat): nat {
    if fs == [] then 0
    else
      var f := fs[|fs| - 1];
      Count(fs[..|fs| - 1], cmd, sid) + if f.cmd == cmd && f.sid == sid then 1 else 0
  }

  function SentBy(r: StreamRec, cmd: byte): nat {
    if cmd == CMD_FIN then r.fins else if cmd == CMD_SYNACK then r.synacks else 0
  }

  function Sent(all: seq<StreamRec>, cmd: byte, sid: nat): nat {
    if all == [] then 0
    else
      var r := all[|all| - 1];
      Sent(all[..|all| - 1], cmd, sid) + if r.id == sid then SentBy(r, cmd) else 0
  }

  lemma CountSnoc(fs: seq<Frame>, f: Frame, cmd: byte, sid: nat)
    ensures Count(fs + [f], cmd, sid) == Count(fs, cmd, sid) + if f.cmd == cmd && f.sid == sid then 1 else 0
  {
    assert (fs + [f])[..|fs|] == fs;
  }

  lemma SentSnoc(all: seq<StreamRec>, r: StreamRec, cmd: byte, sid: nat)
    ensures Sent(all + [r], cmd, sid) == Sent(all, cmd, sid) + if r.id == sid then SentBy(r, cmd) else 0
  {
    assert (all + [r])[..|all|] == all;
  }

  lemma {:induction false} SentSame(all: seq<StreamRec>, more: seq<StreamRec>, cmd: byte, sid: nat)
    requires |all| == |more|
    requires forall i :: 0 <= i < |all| ==> more[i].id == all[i].id && SentBy(more[i], cmd) == SentBy(all[i], cmd)
    ensures Sent(more, cmd, sid) == Sent(all, cmd, sid)
  {
    if all != [] {
      var n := |all| - 1;
      SentSame(all[..n], more[..n], cmd, sid);
    }
  }

  lemma {:induction false} SentUpdate(all: seq<StreamRec>, h: nat, r: StreamRec, cmd: byte, sid: nat)
    requires h < |all| && r.id == all[h].id
    ensures Sent(all[h := r], cmd, sid) + (if r.id == sid then SentBy(all[h], cmd) else 0)
         == Sent(all, cmd, sid) + (if r.id == sid then SentBy(r, cmd) else 0)
  {
    var n := |all| - 1;
    if h == n {
      assert all[h := r][..n] == all[..n];
    } else {
      SentUpdate(all[..n], h, r, cmd, sid);
      assert all[h := r][..n] == all[..n][h := r];
    }
  }

  /** The FIN (or SYNACK) frames that went out for an id are those its streams say they sent. */
  predicate Tally(s: Session, cmd: byte, sid: nat) {
    Count(s.out, cmd, sid) == Sent(s.all, cmd, sid)
  }

  predicate Reports(cmd: byte) { cmd == CMD_FIN || cmd == CMD_SYNACK }

  lemma EmitKeepsTally(s: Session, f: Frame, cmd: byte, sid: nat)
    requires Tally(s, cmd, sid) && f.cmd != cmd
    ensures Tally(Emit(s, f), cmd, sid)
  {
    CountSnoc(s.out, f, cmd, sid);
  }

  lemma CloseKeepsTally(s: Session, cmd: byte, sid: nat)
    requires Tally(s, cmd, sid)
    ensures Tally(Close(s), cmd, sid)
  {
    SentSame(s.all, Kill(s.all, s.streams), cmd, sid);
  }

  /** One stream's record changes, and the frame it accounts for goes out. */
  lemma StreamKeepsTally(s: Session, h: nat, r: StreamRec, f: Option<Frame>, cmd: byte, sid: nat)
    requires Tally(s, cmd, sid) && h < |s.all| && r.id == s.all[h].id
    requires SentBy(r, cmd) == SentBy(s.all[h], cmd) + if f.Some? && f.value.cmd == cmd then 1 else 0
    requires f.Some? && f.value.cmd == cmd ==> f.value.sid == r.id
    ensures Count(s.out + (if f.Some? then [f.value] else []), cmd, sid) == Sent(s.all[h := r], cmd, sid)
  {
    SentUpdate(s.all, h, r, cmd, sid);
    if f.Some? {
      CountSnoc(s.out, f.value, cmd, sid);
    } else {
      assert s.out + [] == s.out;
    }
  }

  lemma CloseWithErrorKeepsTally(s: Session, h: nat, cmd: byte, sid: nat)
    requires Tally(s, cmd, sid) && h < |s.all| && Reports(cmd)
    ensures Tally(CloseWithError(s, h), cmd, sid)
  {
    hide Count;
    hide Sent;
    var r := Die(s.all[h]);
    if !s.all[h].dead {
      if s.closed {
        StreamKeepsTally(s, h, r, None, cmd, sid);
        assert s.out + [] == s.out;
      } else {
        var r' := r.(fins := r.fins + 1);
        assert s.all[h := r][h := r'] == s.all[h := r'];
        StreamKeepsTally(s, h, r', Some(Frame(CMD_FIN, r.id, [])), cmd, sid);
      }
    }
  }

  lemma HandleKeepsTally(s: Session, f: Frame, cmd: byte, sid: nat)
    requires Tally(s, cmd, sid) && Reports(cmd)
    ensures Tally(HandleFrame(s, f), cmd, sid)
  {
    hide Count;
    hide Sent;
    if f.cmd == CMD_PSH {
      if f.data != [] && f.sid in s.streams && s.streams[f.sid] < |s.all| {
        var h := s.streams[f.sid];
        SentUpdate(s.all, h, s.all[h].(piped := s.all[h].piped + f.data), cmd, sid);
      }
    } else if f.cmd == CMD_SYN {
      var alert := Frame(CMD_ALERT, 0, AlertText());
      EmitKeepsTally(s, alert, cmd, sid);
      CloseKeepsTally(Emit(s, alert), cmd, sid);
      SentSnoc(s.all, NewStream(f.sid, Open), cmd, sid);
    } else if f.cmd == CMD_SYNACK {
      var t := s.(watchers := CancelWatch(s.watchers, s.synDone), synDone := None);
      if f.data != [] && f.sid in t.streams && t.streams[f.sid] < |t.all| {
        CloseWithErrorKeepsTally(t, t.streams[f.sid], cmd, sid);
      }
    } else if f.cmd == CMD_FIN {
      if f.sid in s.streams && s.streams[f.sid] < |s.all| {
        var h := s.streams[f.sid];
        var r := s.all[h];
        SentUpdate(s.all, h, Die(r).(peerFin := r.peerFin || !r.dead), cmd, sid);
      }
    } else if f.cmd == CMD_SETTINGS {
      SettingsKeepTally(s, f.data, cmd, sid);
    } else if f.cmd == CMD_ALERT {
      CloseKeepsTally(s, cmd, sid);
    } else {
      EmitKeepsTally(s, Frame(CMD_HEART_RESPONSE, f.sid, []), cmd, sid);
    }
  }

  lemma SettingsKeepTally(s: Session, data: bytes, cmd: byte, sid: nat)
    requires Tally(s, cmd, sid) && Reports(cmd)
    ensures Tally(HandleSettings(s, data), cmd, sid)
  {
    hide AnnouncedMd5;
    hide AnnouncedVersion;
    hide ServerSettingsText;
    hide Count;
    hide Sent;
    if data != [] && !s.isClient {
      var t := s.(gotSettings := true);
      var update, hello := Frame(CMD_UPDATE_PADDING_SCHEME, 0, s.raw), Frame(CMD_SERVER_SETTINGS, 0, ServerSettingsText());
      EmitKeepsTally(t, update, cmd, sid);
      var u := if AnnouncedMd5(data) != s.md5 then Emit(t, update) else t;
      match AnnouncedVersion(data)
      case Some(v) => EmitKeepsTally(u.(peerVersion := v % 0x100), hello, cmd, sid);
      case None =>
    }
  }

  lemma NextKeepsTally(s: Session, a: Action, cmd: byte, sid: nat)
    requires Tally(s, cmd, sid) && Reports(cmd)
    ensures Tally(Next(s, a), cmd, sid)
  {
    hide Count;
    hide Sent;
    if Enabled(s, a) {
      match a
      case ABegin => SentSnoc(s.all, NewStream(s.lastId + 1, Allocated), cmd, sid);
      case ASyn(h) =>
        EmitKeepsTally(s, Frame(CMD_SYN, s.all[h].id, []), cmd, sid);
        SentUpdate(s.all, h, s.all[h].(phase := SynWritten), cmd, sid);
      case ARegister(h) => SentUpdate(s.all, h, s.all[h].(phase := Open), cmd, sid);
      case AHook(h) => SentUpdate(s.all, h, s.all[h].(hooked := true), cmd, sid);
      case AWrite(h, data) =>
        var r := s.all[h];
        EmitKeepsTally(s, Frame(CMD_PSH, r.id, data), cmd, sid);
        SentUpdate(s.all, h, r.(written := r.written + data), cmd, sid);
      case ACloseStream(h) => CloseWithErrorKeepsTally(s, h, cmd, sid);
      case AClose => CloseKeepsTally(s, cmd, sid);
      case AFire(w) => CloseKeepsTally(s.(watchers := s.watchers[w := Fired]), cmd, sid);
      case ARead(f) =>
      case AHandle =>
        if s.pending.Some? {
          HandleKeepsTally(s.(pending := None, handled := s.handled + [s.pending.value]), s.pending.value, cmd, sid);
        }
      case AReport(h, text) =>
        var r := s.all[h];
        SentUpdate(s.all, h, r.(reported := true), cmd, sid);
        StreamKeepsTally(s, h, r.(reported := true, synacks := r.synacks + 1), Some(Frame(CMD_SYNACK, r.id, text)),
                         cmd, sid);
      case AReload(raw, md5) =>
    }
  }

  predicate DistinctIds(all: seq<StreamRec>) {
    forall i, j :: 0 <= i < j < |all| ==> all[i].id != all[j].id
  }

  lemma {:induction false} SentAtMostOnce(all: seq<StreamRec>, cmd: byte, sid: nat)
    requires DistinctIds(all) && forall h :: 0 <= h < |all| ==> StreamOk(all[h])
    ensures Sent(all, cmd, sid) <= 1
    ensures Sent(all, cmd, sid) == 1 ==> exists h :: 0 <= h < |all| && all[h].id == sid && SentBy(all[h], cmd) == 1
  {
    if all != [] {
      var n := |all| - 1;
      SentAtMostOnce(all[..n], cmd, sid);
      if Sent(all[..n], cmd, sid) == 1 {
        var h :| 0 <= h < n && all[..n][h].id == sid && SentBy(all[..n][h], cmd) == 1;
        assert all[h].id == sid && SentBy(all[h], cmd) == 1;
      }
    }
  }

  lemma {:induction false} TallyOnEveryRun(s: Session, actions: seq<Action>, cmd: byte, sid: nat)
    requires Tally(s, cmd, sid) && Reports(cmd)
    ensures Tally(Run(s, actions), cmd, sid)
  {
    if actions != [] {
      TallyOnEveryRun(s, actions[..|actions| - 1], cmd, sid);
      NextKeepsTally(Run(s, actions[..|actions| - 1]), actions[|actions| - 1], cmd, sid);
    }
  }

  /** Close discipline of a client over every run against any peer: at most one FIN per stream id, and
      one only if the stream died of its own side's doing. */
  lemma OneFinPerClientStream(raw: bytes, md5: bytes, actions: seq<Action>, sid: nat)
    ensures var s := Run(NewSession(true, raw, md5), actions);
            && Count(s.out, CMD_FIN, sid) <= 1
            && (Count(s.out, CMD_FIN, sid) == 1 ==>
                  exists h :: 0 <= h < |s.all| && s.all[h].id == sid && s.all[h].dead && !s.all[h].peerFin)
  {
    hide Run;
    var s0 := NewSession(true, raw, md5);
    assert Inv(s0);
    InvOnEveryRun(s0, actions);
    TallyOnEveryRun(s0, actions, CMD_FIN, sid);
    SentAtMostOnce(Run(s0, actions).all, CMD_FIN, sid);
  }

  /** How a stream may differ later: never resurrected, and once dead its counters stand still. */
  predicate Outlives(r: StreamRec, later: StreamRec) {
    && later.id == r.id
    && (r.dead ==>
          && later.dead && later.deaths == r.deaths && later.hookRuns == r.hookRuns
          && later.fins == r.fins && later.peerFin == r.peerFin)
  }

  /** What is fixed for good: dead streams and, once the session is closed, the frames it sent. */
  predicate Settled(s: Session, t: Session) {
    && |s.all| <= |t.all|
    && (forall h :: 0 <= h < |s.all| ==> Outlives(s.all[h], t.all[h]))
    && (s.closed ==> t.closed && t.out == s.out)
    && (s.closed ==> forall h :: 0 <= h < |s.all| ==>
          t.all[h].fins == s.all[h].fins && t.all[h].synacks == s.all[h].synacks)
  }

  lemma CloseSettles(s: Session)
    ensures Settled(s, Close(s))
  {
  }

  lemma CloseWithErrorSettles(s: Session, h: nat)
    requires h < |s.all|
    ensures Settled(s, CloseWithError(s, h))
  {
  }

  lemma GrowthSettles(s: Session, t: Session)
    requires t.all == s.all || exists r :: t.all == s.all + [r]
    requires s.closed ==> t.closed && t.out == s.out
    ensures Settled(s, t)
  {
  }

  lemma HandleSettles(s: Session, f: Frame)
    ensures Settled(s, HandleFrame(s, f))
  {
    hide Settled;
    var t := HandleFrame(s, f);
    if f.cmd == CMD_PSH {
      PshSettles(s, f.sid, f.data);
    } else if f.cmd == CMD_SYN {
      var e := Emit(s, Frame(CMD_ALERT, 0, AlertText()));
      if !s.isClient && !s.gotSettings {
        CloseSettles(e);
        SettledThrough(s, e, t);
      } else if f.sid !in s.streams {
        assert t.all == s.all + [NewStream(f.sid, Open)];
        GrowthSettles(s, t);
      } else {
        GrowthSettles(s, t);
      }
    } else if f.cmd == CMD_SYNACK {
      var u := s.(watchers := CancelWatch(s.watchers, s.synDone), synDone := None);
      GrowthSettles(s, u);
      if f.data != [] && f.sid in u.streams && u.streams[f.sid] < |u.all| {
        CloseWithErrorSettles(u, u.streams[f.sid]);
        SettledThrough(s, u, t);
      }
    } else if f.cmd == CMD_FIN {
      FinSettles(s, f.sid);
    } else if f.cmd == CMD_ALERT {
      CloseSettles(s);
      GrowthSettles(s, s);
    } else {
      GrowthSettles(s, t);
    }
  }

  lemma PshSettles(s: Session, sid: nat, data: bytes)
    ensures Settled(s, HandlePsh(s, sid, data))
  {
  }

  lemma FinSettles(s: Session, sid: nat)
    ensures Settled(s, HandleFin(s, sid))
  {
  }

  /** Same streams and, if closed, same output: as good as the same state. */
  lemma SettledThrough(s: Session, e: Session, t: Session)
    requires e.all == s.all && e.closed == s.closed && (s.closed ==> e.out == s.out) && Settled(e, t)
    ensures Settled(s, t)
  {
  }

  /** Close discipline: whatever happens next, a dead stream keeps its one death, its one hook run and
      its FIN count, and a closed session sends nothing more, not even attempting a FIN. */
  lemma DeathAndCloseAreFinal(s: Session, a: Action)
    ensures Settled(s, Next(s, a))
  {
    hide Settled;
    hide HandleFrame;
    GrowthSettles(s, s);
    if Enabled(s, a) {
      var t := Perform(s, a);
      match a
      case ABegin => if !s.closed { assert t.all == s.all + [NewStream(s.lastId + 1, Allocated)]; } GrowthSettles(s, t);
      case ACloseStream(h) => CloseWithErrorSettles(s, h);
      case AClose => CloseSettles(s);
      case AFire(w) =>
        var u := s.(watchers := s.watchers[w := Fired]);
        CloseSettles(u);
        SettledThrough(s, u, Close(u));
      case AHandle =>
        if s.pending.Some? {
          var u := s.(pending := None, handled := s.handled + [s.pending.value]);
          HandleSettles(u, s.pending.value);
          SettledThrough(s, u, t);
        }
      case ARead(f) => GrowthSettles(s, t);
      case AReload(raw, md5) => GrowthSettles(s, t);
      case _ => RecordSettles(s, a);
    }
  }

  lemma RecordSettles(s: Session, a: Action)
    requires Enabled(s, a) && (a.ASyn? || a.ARegister? || a.AHook? || a.AWrite? || a.AReport?)
    ensures Settled(s, Perform(s, a))
  {
    hide Settled;
    match a
    case ASyn(h) => OneRecordSettles(s, OpenSyn(s, h), h);
    case ARegister(h) => if s.closed { GrowthSettles(s, s); } else { OneRecordSettles(s, OpenRegister(s, h), h); }
    case AHook(h) => OneRecordSettles(s, SetHook(s, h), h);
    case AWrite(h, data) =>
      if s.closed || s.all[h].dead { GrowthSettles(s, s); } else { OneRecordSettles(s, Write(s, h, data), h); }
    case AReport(h, text) =>
      if s.all[h].reported { GrowthSettles(s, s); } else { OneRecordSettles(s, Report(s, h, text), h); }
  }

  lemma OneRecordSettles(s: Session, t: Session, h: nat)
    requires h < |s.all| == |t.all| && t.all == s.all[h := t.all[h]] && t.closed == s.closed
    requires Outlives(s.all[h], t.all[h])
    requires s.closed ==> t.out == s.out && t.all[h].fins == s.all[h].fins && t.all[h].synacks == s.all[h].synacks
    ensures Settled(s, t)
  {
  }

  /** Is the map empty after a close? The close empties it; then the receive loop acts on the frame it
      had already read. The map ends up non-empty, with a stream nobody will ever close, exactly when
      that frame is a SYN. */
  lemma {:induction false} StrandedStreamIff(s: Session)
    requires Inv(s) && !s.closed
    ensures Close(s).streams == map[]
    ensures var t := Handle(Close(s));
            && (t.streams != map[] <==> s.pending.Some? && s.pending.value.cmd == CMD_SYN && s.gotSettings)
            && (t.streams != map[] ==> !t.all[t.mark].dead && Registered(t, t.mark))
  {
    hide AnnouncedMd5;
    hide AnnouncedVersion;
    hide Kill;
    if s.pending.Some? {
      var f := s.pending.value;
      if f.cmd == CMD_FIN {
        assert Close(s).streams - {f.sid} == map[];
      }
    }
  }

  /** Such a run from the start of a server session: the settings are handled, a SYN is read, the session is
      closed, and then the loop acts on the SYN. */
  lemma {:induction false} StrandedRun(raw: bytes, md5: bytes, settings: Frame)
    requires WellFormed(settings) && settings.cmd == CMD_SETTINGS && settings.data != []
    ensures var s := Run(NewSession(false, raw, md5),
              [ARead(settings), AHandle, ARead(Frame(CMD_SYN, 1, [])), AClose, AHandle]);
            s.closed && s.streams == map[1 := 0] && |s.all| == 1 && !s.all[0].dead
  {
    var s0 := NewSession(false, raw, md5);
    var syn := Frame(CMD_SYN, 1, []);
    var s1 := Next(Next(s0, ARead(settings)), AHandle);
    SettingsHandled(s0, settings);
    var s2 := Next(s1, ARead(syn));
    assert s2 == s1.(pending := Some(syn));
    var s3 := Next(s2, AClose);
    assert s3.closed && s3.pending == Some(syn) && s3.streams == map[] && s3.all == [] && s3.gotSettings;
    var s4 := Next(s3, AHandle);
    assert s4.all == [NewStream(1, Open)];
    hide Next;
    RunFive(s0, ARead(settings), AHandle, ARead(syn), AClose, AHandle);
  }

  lemma SettingsHandled(s: Session, settings: Frame)
    requires s == NewSession(false, s.raw, s.md5)
    requires WellFormed(settings) && settings.cmd == CMD_SETTINGS && settings.data != []
    ensures var t := Next(Next(s, ARead(settings)), AHandle);
            t.gotSettings && !t.closed && t.all == [] && t.streams == map[] && t.pending == None && !t.isClient
  {
    hide AnnouncedMd5;
    hide AnnouncedVersion;
  }

  lemma RunMore(s: Session, actions: seq<Action>, a: Action)
    ensures Run(s, actions + [a]) == Next(Run(s, actions), a)
  {
    assert (actions + [a])[..|actions|] == actions;
  }

  lemma RunFive(s: Session, a: Action, b: Action, c: Action, d: Action, e: Action)
    ensures Run(s, [a, b, c, d, e]) == Next(Next(Next(Next(Next(s, a), b), c), d), e)
  {
    hide Next;
    hide Run;
    var four := [a] + [b] + [c] + [d];
    RunOne(s, a);
    RunMore(s, [a], b);
    RunMore(s, [a] + [b], c);
    RunMore(s, [a] + [b] + [c], d);
    RunMore(s, four, e);
    assert four + [e] == [a, b, c, d, e];
  }

  lemma RunOne(s: Session, a: Action)
    ensures Run(s, [a]) == Next(s, a)
  {
    hide Next;
    assert Run(s, []) == s;
  }

  /** A client's stream gets the data of a frame with its id exactly while it is registered and alive. What
      a server sends between the SYN and the registration is dropped. */
  lemma {:induction false} PshDeliveredIff(s: Session, h: nat, data: bytes)
    requires Inv(s) && s.isClient && !s.closed && h < |s.all| && data != []
    ensures HandlePsh(s, s.all[h].id, data).all[h].piped == s.all[h].piped + data
       <==> s.all[h].phase == Open && !s.all[h].dead
    ensures HandlePsh(s, s.all[h].id, data).all[h].piped == s.all[h].piped
       <==> s.all[h].phase != Open || s.all[h].dead
  {
    hide ClosedOk;
    hide WatchersOk;
    hide StreamOk;
    var piped := s.all[h].piped;
    assert |piped + data| > |piped|;
    if s.all[h].phase == Open {
      assert Registered(s, h) == !s.all[h].dead;
    }
  }
}
