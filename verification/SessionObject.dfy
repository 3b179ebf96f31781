/** `Session` and `Stream` as the objects they are, their methods updating fields in place; each method is
    proved to be the operation of `SessionSpec` on the abstract value `Abs()`. */
module SessionObject {
  import opened Bytes
  import opened Options
  import opened Frames
  import opened Reader
  import Spec = SessionSpec

  class Stream {
    const sess: Session
    const id: nat
    /** The stream's place in `sess.all`. */
    ghost const h: nat
    var dead: bool
    var hooked: bool
    var reported: bool
    /** What the receive loop has handed to the pipe. */
    var pipe: bytes
    ghost var log: Spec.StreamRec

    constructor (sess: Session, id: nat, ghost h: nat, ghost phase: Spec.Phase)
      ensures this.sess == sess && this.id == id && this.h == h && Valid() && Rec() == Spec.NewStream(id, phase)
    {
      this.sess, this.id, this.h := sess, id, h;
      dead, hooked, reported, pipe := false, false, false, [];
      log := Spec.NewStream(id, phase);
    }

    /** The ghost log agrees with the fields. */
    ghost predicate Valid()
      reads this
    {
      log.id == id && log.dead == dead && log.hooked == hooked && log.reported == reported && log.piped == pipe
    }

    ghost function Rec(): Spec.StreamRec
      reads this
    {
      log
    }

    /** The body under `dieOnce`, then the hook. */
    method CloseLocally()
      requires Valid()
      modifies this
      ensures Valid() && Rec() == Spec.Die(old(Rec()))
    {
      if dead {
        return;
      }
      dead := true;
      log := log.(dead := true, deaths := log.deaths + 1);
      if hooked {
        hooked := false;
        log := log.(hookRuns := log.hookRuns + 1, hooked := false);
      }
    }

    method CloseWithError() returns (ok: bool)
      requires sess.Valid() && sess.Owns(this)
      modifies this, sess
      ensures sess.Valid() && sess.all == old(sess.all)
      ensures sess.Abs() == Spec.CloseWithError(old(sess.Abs()), h)
      ensures ok <==> old(!dead && !sess.closed)
    {
      if dead {
        return false;
      }
      sess.CloseOne(this);
      ok := sess.StreamClosed(this);
    }

    /** `expired`: the write deadline has passed. */
    method Write(data: bytes, expired: bool) returns (n: nat, ok: bool)
      requires sess.Valid() && sess.Owns(this)
      modifies this, sess
      ensures sess.Valid() && sess.all == old(sess.all)
      ensures sess.Abs() == if expired then old(sess.Abs()) else Spec.Write(old(sess.Abs()), h, data)
      ensures ok <==> !expired && old(!dead && !sess.closed)
      ensures n == if ok then |data| else 0
    {
      if expired || dead {
        return 0, false;
      }
      ok := sess.WriteFrame(Frame(CMD_PSH, id, data));
      if !ok {
        return 0, false;
      }
      sess.Note(this, log.(written := log.written + data));
      return |data|, true;
    }

    /** The first report alone counts. */
    method ReportOnce() returns (once: bool)
      requires sess.Valid() && sess.Owns(this)
      modifies this`reported, this`log
      ensures sess.Valid() && sess.all == old(sess.all) && once == !old(reported)
      ensures Rec() == old(Rec()).(reported := true)
      ensures sess.Abs() == old(sess.Abs()).(all := old(sess.Abs()).all[h := Rec()])
    {
      hide Recs;
      ghost var was := Recs(sess.all);
      assert forall i :: 0 <= i < |sess.all| && i != h ==> sess.all[i] != this;
      once := !reported;
      reported := true;
      log := log.(reported := true);
      sess.OneChanged(was, h);
    }

    /** The SYNACK, for a peer that understands it. */
    method SendSynAck(text: bytes)
      requires sess.Valid() && sess.Owns(this)
      modifies this, sess
      ensures sess.Valid() && sess.all == old(sess.all)
      ensures old(sess.peerVersion >= 2 && !sess.closed) ==>
                sess.Abs() == Spec.Emit(old(sess.Abs()), Frame(CMD_SYNACK, id, text)).(
                                all := old(sess.Abs()).all[h := old(Rec()).(synacks := old(Rec()).synacks + 1)])
      ensures !old(sess.peerVersion >= 2 && !sess.closed) ==> sess.Abs() == old(sess.Abs())
    {
      hide Recs;
      if sess.peerVersion >= 2 {
        var ok := sess.WriteFrame(Frame(CMD_SYNACK, id, text));
        if ok {
          sess.Note(this, log.(synacks := log.synacks + 1));
        }
      }
    }

    /** `HandshakeSuccess` and, with an error text, `HandshakeFailure`. */
    method Handshake(text: bytes)
      requires sess.Valid() && sess.Owns(this)
      modifies this, sess
      ensures sess.Valid() && sess.all == old(sess.all)
      ensures sess.Abs() == Spec.Report(old(sess.Abs()), h, text)
    {
      hide Recs;
      hide sess.Valid;
      hide Spec.Emit;
      hide Spec.Report;
      ghost var a := sess.Abs();
      OwnRecord();
      ReportInTwo(a, h, text);
      hide sess.Abs;
      var once := ReportOnce();
      if once {
        SendSynAck(text);
      }
    }

    lemma OwnRecord()
      requires sess.Valid() && sess.Owns(this)
      ensures h < |sess.Abs().all| && sess.Abs().all[h] == Rec() && Rec().reported == reported && Rec().id == id
      ensures sess.Abs().peerVersion == sess.peerVersion && sess.Abs().closed == sess.closed
    {
      hide Recs;
    }
  }

  /** `Report` in its two parts: the report is noted, and the SYNACK goes out. */
  lemma ReportInTwo(a: Spec.Session, h: nat, text: bytes)
    requires h < |a.all|
    ensures var r := a.all[h];
            var t := r.(reported := true);
            var noted := a.(all := a.all[h := t]);
            && (r.reported ==> noted == a && Spec.Report(a, h, text) == a)
            && (!r.reported && a.peerVersion >= 2 && !a.closed ==>
                  (Spec.Report(a, h, text)
                   == Spec.Emit(noted, Frame(CMD_SYNACK, r.id, text)).(all := noted.all[h := t.(synacks := t.synacks + 1)])))
            && (!r.reported && !(a.peerVersion >= 2 && !a.closed) ==> Spec.Report(a, h, text) == noted)
  {
    UpdateSame(a.all, h);
    var t := a.all[h].(reported := true);
    UpdateTwice(a.all, h, t, t.(synacks := t.synacks + 1));
  }

  ghost function Recs(streams: seq<Stream>): (r: seq<Spec.StreamRec>)
    reads streams
    ensures |r| == |streams| && forall i :: 0 <= i < |r| ==> r[i] == streams[i].Rec()
  {
    if streams == [] then [] else Recs(streams[..|streams| - 1]) + [streams[|streams| - 1].Rec()]
  }

  class Session {
    const isClient: bool
    var closed: bool
    var streams: map<nat, Stream>
    var streamId: nat
    var peerVersion: nat
    var gotSettings: bool
    var synDone: Option<nat>
    var watchers: seq<Spec.Watch>
    var raw: bytes
    var md5: bytes
    /** Frames handed to `writeConn`, and schemes handed to `UpdatePaddingScheme`. */
    var out: seq<Frame>
    var schemes: seq<bytes>
    /** Every stream ever made, and the frames the receive loop has acted on. */
    ghost var all: seq<Stream>
    ghost var mark: nat
    ghost var handled: seq<Frame>

    /** `NewClientSession` and `NewServerSession`. */
    constructor (isClient: bool, raw: bytes, md5: bytes)
      ensures Valid() && Abs() == Spec.NewSession(isClient, raw, md5) && all == []
    {
      this.isClient, this.raw, this.md5 := isClient, raw, md5;
      closed, streams, streamId, peerVersion, gotSettings := false, map[], 0, 0, false;
      synDone, watchers, out, schemes, all, mark, handled := None, [], [], [], [], 0, [];
      new;
      assert Handles() == map[];
    }

    ghost predicate Valid()
      reads this, all
    {
      && (forall h :: 0 <= h < |all| ==> all[h].h == h && all[h].sess == this && all[h].Valid())
      && (forall sid :: sid in streams ==> Owns(streams[sid]))
    }

    ghost predicate Owns(s: Stream)
      reads this
    {
      s.h < |all| && all[s.h] == s
    }

    ghost function Handles(): map<nat, nat>
      reads this
    {
      map sid | sid in streams :: streams[sid].h
    }

    ghost function Abs(): Spec.Session
      reads this, all
    {
      Spec.Session(isClient, closed, Handles(), Recs(all), mark, streamId, peerVersion, gotSettings, synDone, watchers,
                   None, handled, out, raw, md5, schemes)
    }

    /** If only stream `h` has changed, the records are as before but for its own. */
    lemma OneChanged(was: seq<Spec.StreamRec>, h: nat)
      requires |was| == |all| && h < |all|
      requires forall i :: 0 <= i < |all| && i != h ==> all[i].Rec() == was[i]
      ensures Recs(all) == was[h := all[h].Rec()]
    {
    }

    /** Record what was done for a stream. */
    ghost method Note(s: Stream, r: Spec.StreamRec)
      requires Valid() && Owns(s)
      requires r.id == s.id && r.dead == s.dead && r.hooked == s.hooked && r.reported == s.reported && r.piped == s.pipe
      modifies s`log
      ensures Valid() && s.log == r
      ensures Abs() == old(Abs()).(all := old(Abs()).all[s.h := r])
    {
      hide Recs;
      var was := Recs(all);
      assert forall i :: 0 <= i < |all| && i != s.h ==> all[i] != s;
      s.log := r;
      OneChanged(was, s.h);
    }

    /** `writeControlFrame` and `writeDataFrame`: on a closed session the connection refuses. */
    method WriteFrame(f: Frame) returns (ok: bool)
      requires Valid()
      modifies `out
      ensures Valid() && Abs() == Spec.Emit(old(Abs()), f)
      ensures ok <==> !closed
    {
      hide Recs;
      ok := !closed;
      if ok {
        out := out + [f];
      }
    }

    method Forget(sid: nat)
      requires Valid()
      modifies `streams
      ensures Valid() && Abs() == old(Abs()).(streams := old(Abs()).streams - {sid})
      ensures streams == old(streams) - {sid}
    {
      hide Recs;
      streams := streams - {sid};
      assert Handles() == old(Handles()) - {sid};
    }

    /** `streamClosed`: no FIN once the session is closed. */
    method StreamClosed(s: Stream) returns (ok: bool)
      requires Valid() && Owns(s)
      modifies this, s
      ensures Valid() && all == old(all)
      ensures Abs() == Spec.StreamClosed(old(Abs()), s.h)
      ensures ok <==> !old(closed)
    {
      hide Recs;
      if closed {
        return false;
      }
      ok := WriteFrame(Frame(CMD_FIN, s.id, []));
      Note(s, s.log.(fins := s.log.fins + 1));
      Forget(s.id);
    }

    method CloseOne(s: Stream)
      requires Valid() && Owns(s)
      modifies s
      ensures Valid() && Abs() == Spec.CloseLocally(old(Abs()), s.h)
      ensures s.dead
    {
      hide Recs;
      ghost var was := Recs(all);
      assert forall i :: 0 <= i < |all| && i != s.h ==> all[i] != s;
      s.CloseLocally();
      OneChanged(was, s.h);
    }

    /** `Close`: the map may be ranged over in any order. */
    method Close() returns (once: bool)
      requires Valid()
      modifies this, all
      ensures Valid() && all == old(all)
      ensures Abs() == Spec.Close(old(Abs())) && once == !old(closed)
    {
      hide Recs;
      if closed {
        return false;
      }
      SetClosed();
      CloseAll();
      ForgetAll();
      return true;
    }

    /** `close(s.die)`. */
    method SetClosed()
      requires Valid()
      modifies `closed, `mark
      ensures Valid() && closed && Abs() == old(Abs()).(closed := true, mark := |all|)
    {
      hide Recs;
      closed := true;
      mark := |all|;
    }

    method ForgetAll()
      requires Valid()
      modifies `streams
      ensures Valid() && Abs() == old(Abs()).(streams := map[])
    {
      hide Recs;
      streams := map[];
      assert Handles() == map[];
    }

    method CloseAll()
      requires Valid()
      modifies all
      ensures Valid()
      ensures Abs() == old(Abs()).(all := Spec.Kill(old(Abs()).all, old(Abs()).streams))
    {
      hide Valid;
      hide Abs;
      hide Recs;
      hide Except;
      hide Handles;
      hide Owns;
      hide Spec.Kill;
      ghost var a := Abs();
      var todo := streams.Keys;
      NothingClosed(todo);
      while todo != {}
        invariant Valid() && todo <= streams.Keys && Abs() == a.(all := Spec.Kill(a.all, Except(todo)))
        decreases todo
      {
        var sid :| sid in todo;
        CloseNext(sid, todo, a.all);
        todo := todo - {sid};
      }
      EverythingClosed();
    }

    /** The streams already closed, when those of `todo` are still to be. */
    ghost function Except(todo: set<nat>): map<nat, nat>
      reads this
    {
      map sid | sid in streams && sid !in todo :: streams[sid].h
    }

    lemma NothingClosed(todo: set<nat>)
      requires todo == streams.Keys && Valid()
      ensures Abs().all == Spec.Kill(Abs().all, Except(todo)) && |Abs().all| == |all| && Abs().streams == Handles()
      ensures forall sid :: sid in streams ==> streams[sid] in all
    {
      hide Recs;
      assert Except(todo) == map[];
      KillNone(Abs().all);
    }

    lemma EverythingClosed()
      ensures Except({}) == Handles()
    {
    }

    method CloseNext(sid: nat, ghost todo: set<nat>, ghost was: seq<Spec.StreamRec>)
      requires Valid() && sid in todo && sid in streams && |was| == |all| && Abs().all == Spec.Kill(was, Except(todo))
      modifies streams[sid]
      ensures Valid()
      ensures Abs() == old(Abs()).(all := Spec.Kill(was, Except(todo - {sid})))
    {
      hide Recs;
      hide Spec.Kill;
      hide Spec.Die;
      KillOneMore(was, Except(todo), sid, streams[sid].h);
      assert Except(todo - {sid}) == Except(todo)[sid := streams[sid].h];
      CloseOne(streams[sid]);
    }

    // ---- OpenStream ----

    /** Make a stream and put it at the end of the list of all. */
    method AddStream(id: nat, ghost phase: Spec.Phase) returns (s: Stream)
      requires Valid()
      modifies `all
      ensures Valid() && fresh(s) && all == old(all) + [s] && s.h == |old(all)| && s.id == id && s.sess == this
      ensures Abs() == old(Abs()).(all := old(Abs()).all + [Spec.NewStream(id, phase)])
      ensures s.Rec() == Spec.NewStream(id, phase)
    {
      hide Recs;
      s := new Stream(this, id, |all|, phase);
      all := all + [s];
      assert Handles() == old(Handles());
      assert Recs(all) == old(Recs(all)) + [Spec.NewStream(id, phase)];
    }

    /** Replace the SYNACK watcher. */
    method RearmSynDone()
      requires Valid()
      modifies `watchers, `synDone
      ensures Valid()
      ensures Abs() == old(Abs()).(watchers := Spec.CancelWatch(old(watchers), old(synDone)) + [Spec.Armed],
                                   synDone := Some(|old(watchers)|))
    {
      hide Recs;
      if synDone.Some? && synDone.value < |watchers| && watchers[synDone.value].Armed? {
        watchers := watchers[synDone.value := Spec.Cancelled];
      }
      synDone := Some(|watchers|);
      watchers := watchers + [Spec.Armed];
    }

    method DrawId() returns (id: nat)
      requires Valid()
      modifies `streamId
      ensures Valid() && id == old(streamId) + 1 == streamId && Abs() == old(Abs()).(lastId := id)
    {
      hide Recs;
      streamId := streamId + 1;
      id := streamId;
    }

    method Register(s: Stream)
      requires Valid() && Owns(s)
      modifies `streams
      ensures Valid() && Abs() == old(Abs()).(streams := old(Abs()).streams[s.id := s.h])
    {
      hide Recs;
      streams := streams[s.id := s];
      assert Handles() == old(Handles())[s.id := s.h];
    }

    /** `OpenStream`, with no other goroutine coming between. */
    method OpenStream() returns (stream: Stream?)
      requires Valid()
      modifies this
      ensures Valid()
      ensures old(closed) ==> stream == null && all == old(all) && Abs() == old(Abs())
      ensures !old(closed) ==>
                && stream != null && fresh(stream) && all == old(all) + [stream]
                && Abs() == Spec.OpenRegister(Spec.OpenSyn(Spec.OpenBegin(old(Abs())), |old(all)|), |old(all)|)
    {
      hide Recs;
      if closed {
        return null;
      }
      ghost var a := Abs();
      var s := StreamBegin();
      ghost var b := Abs();
      StreamSyn(s);
      StreamRegister(s);
      return s;
    }

    method StreamBegin() returns (s: Stream)
      requires Valid() && !closed
      modifies this
      ensures Valid() && !closed && fresh(s) && all == old(all) + [s] && s.h == |old(all)|
      ensures s.Rec() == Spec.NewStream(old(streamId) + 1, Spec.Allocated)
      ensures Abs() == Spec.OpenBegin(old(Abs()))
    {
      hide Recs;
      var sid := DrawId();
      s := AddStream(sid, Spec.Allocated);
      if sid >= 2 && peerVersion >= 2 {
        RearmSynDone();
      }
    }

    method StreamSyn(s: Stream)
      requires Valid() && !closed && Owns(s) && s.Rec().phase == Spec.Allocated
      modifies `out, s
      ensures Valid() && !closed && Owns(s) && s.Rec() == old(s.Rec()).(phase := Spec.SynWritten)
      ensures Abs() == Spec.OpenSyn(old(Abs()), s.h)
    {
      hide Recs;
      assert Abs().all[s.h] == s.Rec();
      var ok := WriteFrame(Frame(CMD_SYN, s.id, []));
      Note(s, s.log.(phase := Spec.SynWritten));
    }

    method StreamRegister(s: Stream)
      requires Valid() && !closed && Owns(s)
      modifies `streams, s
      ensures Valid() && all == old(all) && Abs() == Spec.OpenRegister(old(Abs()), s.h)
    {
      hide Recs;
      assert Abs().all[s.h] == s.Rec();
      Note(s, s.log.(phase := Spec.Open));
      Register(s);
    }

    // ---- The receive loop ----

    method PipeWrite(s: Stream, data: bytes)
      requires Valid() && Owns(s)
      modifies s
      ensures Valid()
      ensures Abs() == old(Abs()).(all := old(Abs()).all[s.h := old(s.Rec()).(piped := old(s.Rec()).piped + data)])
    {
      hide Recs;
      ghost var was := Recs(all);
      assert forall i :: 0 <= i < |all| && i != s.h ==> all[i] != s;
      s.pipe := s.pipe + data;
      s.log := s.log.(piped := s.pipe);
      OneChanged(was, s.h);
    }

    method HandlePsh(sid: nat, data: bytes)
      requires Valid()
      modifies all
      ensures Valid() && Abs() == Spec.HandlePsh(old(Abs()), sid, data)
    {
      hide Recs;
      if data != [] && sid in streams {
        PipeWrite(streams[sid], data);
      }
    }

    /** A server that has no settings yet answers with an alert and leaves the loop. */
    method HandleSyn(sid: nat)
      requires Valid() && !closed
      modifies this, all
      ensures Valid() && AllFrom(old(all)) && Abs() == Spec.HandleSyn(old(Abs()), sid)
    {
      hide Recs;
      if !isClient && !gotSettings {
        var ok := WriteFrame(Frame(CMD_ALERT, 0, Spec.AlertText()));
        var once := Close();
        return;
      }
      if sid !in streams {
        var s := AddStream(sid, Spec.Open);
        Register(s);
      }
    }

    method CancelSynDone()
      requires Valid()
      modifies `watchers, `synDone
      ensures Valid() && Abs() == Cancelled(old(Abs()))
    {
      hide Recs;
      if synDone.Some? {
        if synDone.value < |watchers| && watchers[synDone.value].Armed? {
          watchers := watchers[synDone.value := Spec.Cancelled];
        }
        synDone := None;
      }
    }

    /** The rest of a SYNACK, once the watcher has been cancelled. */
    method HandleSynAck(sid: nat, data: bytes)
      requires Valid() && synDone == None
      modifies this, all
      ensures Valid() && all == old(all) && Abs() == Spec.HandleSynAck(old(Abs()), sid, data)
    {
      hide Recs;
      if data != [] && sid in streams {
        var ok := streams[sid].CloseWithError();
      }
    }

    method HandleFin(sid: nat)
      requires Valid()
      modifies `streams, all
      ensures Valid() && all == old(all) && Abs() == Spec.HandleFin(old(Abs()), sid)
    {
      hide Recs;
      hide Spec.Die;
      if sid in streams {
        var s := streams[sid];
        ghost var r := s.Rec();
        assert Abs().all[s.h] == r;
        Forget(sid);
        FinKills(s);
      } else {
        Forget(sid);
      }
    }

    /** The stream dies without telling the peer, which has just told us. */
    method FinKills(s: Stream)
      requires Valid() && Owns(s)
      modifies s
      ensures Valid()
      ensures Abs() == old(Abs()).(all := old(Abs()).all[s.h :=
                Spec.Die(old(s.Rec())).(peerFin := old(s.Rec()).peerFin || !old(s.Rec()).dead)])
    {
      hide Recs;
      ghost var a, r := Abs(), s.Rec();
      assert a.all[s.h] == r;
      CloseOne(s);
      assert s.Rec() == Abs().all[s.h];
      Note(s, s.log.(peerFin := r.peerFin || !r.dead));
      UpdateTwice(a.all, s.h, Spec.Die(r), s.Rec());
    }

    /** A stale scheme is answered with the server's. */
    method AnswerScheme(data: bytes)
      requires Valid() && !closed
      modifies `gotSettings, `out
      ensures Valid() && gotSettings
      ensures var t := old(Abs()).(gotSettings := true);
              Abs() == if Spec.AnnouncedMd5(data) != md5 then Spec.Emit(t, Frame(CMD_UPDATE_PADDING_SCHEME, 0, raw)) else t
    {
      hide Recs;
      hide Spec.Emit;
      hide Spec.AnnouncedMd5;
      gotSettings := true;
      if Spec.AnnouncedMd5(data) != md5 {
        var ok := WriteFrame(Frame(CMD_UPDATE_PADDING_SCHEME, 0, raw));
      }
    }

    method HandleSettings(data: bytes)
      requires Valid() && !closed
      modifies `gotSettings, `peerVersion, `out
      ensures Valid() && Abs() == Spec.HandleSettings(old(Abs()), data)
    {
      hide Recs;
      hide Spec.Emit;
      hide Spec.AnnouncedMd5;
      hide Spec.AnnouncedVersion;
      hide Spec.ServerSettingsText;
      if data == [] || isClient {
        return;
      }
      AnswerScheme(data);
      var v := Spec.AnnouncedVersion(data);
      if v.Some? && v.value >= 2 {
        peerVersion := v.value % 0x100;
        var ok := WriteFrame(Frame(CMD_SERVER_SETTINGS, 0, Spec.ServerSettingsText()));
      }
    }

    method HandleServerSettings(data: bytes)
      requires Valid()
      modifies `peerVersion
      ensures Valid() && Abs() == Spec.HandleServerSettings(old(Abs()), data)
    {
      hide Recs;
      hide Spec.AnnouncedVersion;
      if data == [] || !isClient {
        return;
      }
      var v := Spec.AnnouncedVersion(data);
      if v.Some? {
        peerVersion := v.value % 0x100;
      }
    }

    method TakeScheme(data: bytes)
      requires Valid()
      modifies `schemes
      ensures Valid() && Abs() == old(Abs()).(schemes := old(Abs()).schemes + [data])
    {
      hide Recs;
      schemes := schemes + [data];
    }

    /** Every stream is an old one or new. */
    twostate predicate AllFrom(was: seq<Stream>)
      reads this
    {
      forall i :: 0 <= i < |all| ==> all[i] in was || fresh(all[i])
    }

    /** The switch of `recvLoop`. */
    method Dispatch(f: Frame)
      requires Valid() && !closed && (f.cmd == CMD_SYNACK ==> synDone == None)
      modifies this, all
      ensures Valid() && AllFrom(old(all)) && Abs() == Spec.HandleFrame(old(Abs()), f)
    {
      hide Recs;
      assert Abs().isClient == isClient;
      hide Abs;
      if f.cmd == CMD_PSH {
        HandlePsh(f.sid, f.data);
      } else if f.cmd == CMD_SYN {
        HandleSyn(f.sid);
      } else if f.cmd == CMD_SYNACK {
        HandleSynAck(f.sid, f.data);
      } else if f.cmd == CMD_FIN {
        HandleFin(f.sid);
      } else if f.cmd == CMD_SETTINGS {
        HandleSettings(f.data);
      } else if f.cmd == CMD_ALERT {
        if f.data != [] {
          var once := Close();
        }
      } else if f.cmd == CMD_UPDATE_PADDING_SCHEME {
        if f.data != [] && isClient {
          TakeScheme(f.data);
        }
      } else if f.cmd == CMD_HEART_REQUEST {
        var ok := WriteFrame(Frame(CMD_HEART_RESPONSE, f.sid, []));
      } else if f.cmd == CMD_SERVER_SETTINGS {
        HandleServerSettings(f.data);
      }
    }

    ghost method Handling(f: Frame)
      requires Valid()
      modifies `handled
      ensures Valid() && Abs() == old(Abs()).(handled := old(Abs()).handled + [f])
    {
      hide Recs;
      handled := handled + [f];
    }

    /** One frame, as the bytes of the connection give it: the header, then the body if the command has
        one. No frame: the connection ended first. */
    method ReadFrame(conn: Conn) returns (f: Option<Frame>)
      requires Valid()
      modifies conn, `watchers, `synDone
      ensures Valid()
      ensures var r := DecodeOne(old(conn.Pending()));
              && (r.Got? ==>
                    && f == Some(r.frame) && conn.Pending() == old(conn.Pending())[r.used..]
                    && Abs() == (if r.frame.cmd == CMD_SYNACK then Cancelled(old(Abs())) else old(Abs())))
              && (r.NeedMore? ==> f == None && Abs() == Torn(old(Abs()), old(conn.Pending())))
    {
      hide Abs;
      hide Valid;
      ghost var p := conn.Pending();
      var hdr, ok := conn.ReadFull(HEADER);
      if !ok {
        return None;
      }
      if hdr[0] == CMD_SYNACK {
        CancelSynDone();
      }
      hide DecodeOne;
      hide BodyLength;
      hide StreamId;
      hide Cancelled;
      ghost var rest := conn.Pending();
      assert p[0] == hdr[0];
      var n, body := BodyLength(hdr), [];
      if n > 0 {
        body, ok := conn.ReadFull(n);
        if !ok {
          BodyMissing(p, hdr, rest);
          return None;
        }
      }
      BodyThere(p, hdr, body, conn.Pending());
      return Some(Frame(hdr[0], StreamId(hdr), body));
    }

    /** One round of the loop. It goes on until the connection ends. */
    method ReceiveOne(conn: Conn) returns (more: bool)
      requires Valid() && !closed
      modifies this, all, conn
      ensures Valid() && AllFrom(old(all)) && Abs().closed == closed
      ensures more ==> |conn.Pending()| < |old(conn.Pending())|
      ensures more ==> Received(Abs(), conn.Pending()) == Received(old(Abs()), old(conn.Pending()))
      ensures !more ==> !closed && Abs() == Received(old(Abs()), old(conn.Pending()))
    {
      hide Recs;
      hide Valid;
      ghost var a, p := Abs(), conn.Pending();
      assert !a.closed;
      ReceivedStep(a, p);
      hide DecodeOne;
      hide Received;
      hide Spec.HandleFrame;
      var f := ReadFrame(conn);
      if f == None {
        return false;
      }
      TookAnyway(a, f.value);
      hide Took;
      hide Cancelled;
      Handling(f.value);
      Dispatch(f.value);
      return true;
    }

    /** `recvLoop`, reading the connection to its end or to the first frame that closes the session. What
        it does depends on the bytes alone, not on how reads split them. */
    method RecvLoop(conn: Conn)
      requires Valid()
      modifies this, all, conn
      ensures Valid() && AllFrom(old(all))
      ensures Abs() == Spec.Close(Received(old(Abs()), old(conn.Pending())))
    {
      hide Recs;
      hide Valid;
      hide Spec.Close;
      hide Received;
      assert Abs().closed == closed;
      hide Abs;
      ghost var a, p := Abs(), conn.Pending();
      var more := true;
      while more && !closed
        invariant Valid() && AllFrom(old(all)) && Abs().closed == closed
        invariant if more then Received(Abs(), conn.Pending()) == Received(a, p) else Abs() == Received(a, p)
        decreases if more then |conn.Pending()| + 1 else 0
      {
        more := ReceiveOne(conn);
      }
      if more {
        ClosedReceivesNothing(Abs(), conn.Pending());
      }
      var once := Close();
    }
  }

  /** The receive loop acts on the frame it has read. */
  function Took(s: Spec.Session, f: Frame): Spec.Session {
    Spec.HandleFrame(s.(handled := s.handled + [f]), f)
  }

  /** The connection ended within a frame. A SYNACK header has already cancelled the watcher. */
  function Torn(s: Spec.Session, rest: bytes): Spec.Session {
    if HEADER <= |rest| && rest[0] == CMD_SYNACK then Cancelled(s) else s
  }

  /** The session after the loop has acted on all complete frames, or closed on the way. */
  function Received(s: Spec.Session, b: bytes): Spec.Session
    decreases |b|
  {
    if s.closed then s
    else
      match DecodeOne(b)
      case NeedMore => Torn(s, b)
      case Got(f, used) => Received(Took(s, f), b[used..])
  }

  lemma BodyThere(p: bytes, hdr: bytes, body: bytes, rest: bytes)
    requires |hdr| == HEADER && |body| == BodyLength(hdr) && p == hdr + (body + rest)
    ensures DecodeOne(p) == Got(Frame(hdr[0], StreamId(hdr), body), HEADER + |body|) && p[HEADER + |body|..] == rest
  {
    hide BodyLength;
    hide StreamId;
    SameHeader(p, hdr);
    Slices(hdr, body, rest);
  }

  lemma Slices(a: bytes, b: bytes, c: bytes)
    ensures (a + (b + c))[|a|..|a| + |b|] == b && (a + (b + c))[|a| + |b|..] == c
  {
    var s := a + (b + c);
    assert s[|a|..] == b + c;
    assert s[|a|..|a| + |b|] == s[|a|..][..|b|];
    assert s[|a| + |b|..] == s[|a|..][|b|..];
  }

  lemma BodyMissing(p: bytes, hdr: bytes, more: bytes)
    requires |hdr| == HEADER && |more| < BodyLength(hdr) && p == hdr + more
    ensures DecodeOne(p) == NeedMore
  {
    SameHeader(p, hdr);
  }

  lemma ReceivedStep(s: Spec.Session, b: bytes)
    requires !s.closed
    ensures DecodeOne(b).NeedMore? ==> Received(s, b) == Torn(s, b)
    ensures DecodeOne(b).Got? ==> Received(s, b) == Received(Took(s, DecodeOne(b).frame), b[DecodeOne(b).used..])
  {
  }

  /** Cancelling the watcher when a SYNACK's header is read changes nothing if its body follows. */
  lemma TookAnyway(s: Spec.Session, f: Frame)
    ensures Took(s, f) == Spec.HandleFrame(s.(handled := s.handled + [f]), f)
    ensures f.cmd == CMD_SYNACK ==>
              Took(s, f) == Spec.HandleFrame(Cancelled(s).(handled := Cancelled(s).handled + [f]), f)
                && Cancelled(s).synDone == None
  {
    hide Spec.CloseWithError;
  }

  lemma ClosedReceivesNothing(s: Spec.Session, b: bytes)
    requires s.closed
    ensures Received(s, b) == s
  {
  }

  /** What `synDone()` does. */
  function Cancelled(s: Spec.Session): Spec.Session {
    s.(watchers := Spec.CancelWatch(s.watchers, s.synDone), synDone := None)
  }

  lemma UpdateTwice(all: seq<Spec.StreamRec>, h: nat, r: Spec.StreamRec, t: Spec.StreamRec)
    requires h < |all|
    ensures all[h := r][h := t] == all[h := t]
  {
  }

  lemma UpdateSame(all: seq<Spec.StreamRec>, h: nat)
    requires h < |all|
    ensures all[h := all[h]] == all
  {
  }

  lemma KillNone(all: seq<Spec.StreamRec>)
    ensures Spec.Kill(all, map[]) == all
  {
  }

  lemma KillOneMore(all: seq<Spec.StreamRec>, done: map<nat, nat>, sid: nat, h: nat)
    requires h < |all| && sid !in done
    ensures var some := Spec.Kill(all, done);
            some[h := Spec.Die(some[h])] == Spec.Kill(all, done[sid := h])
  {
    var more := done[sid := h];
    assert sid in more && more[sid] == h;
    forall i | 0 <= i < |all| ensures i in more.Values <==> i in done.Values || i == h {
      if i in done.Values {
        var k :| k in done && done[k] == i;
        assert more[k] == i;
      }
      if i in more.Values {
        var k :| k in more && more[k] == i;
        assert k != sid ==> k in done && done[k] == i;
      }
    }
  }

  // ---- The loop as a run of the session machine ----

  /** The receive loop's actions for a list of frames. */
  function Reads(fs: seq<Frame>): seq<Spec.Action> {
    if fs == [] then [] else [Spec.ARead(fs[0]), Spec.AHandle] + Reads(fs[1..])
  }

  lemma {:induction false} RunAppend(s: Spec.Session, a: seq<Spec.Action>, b: seq<Spec.Action>)
    ensures Spec.Run(s, a + b) == Spec.Run(Spec.Run(s, a), b)
  {
    if b == [] {
      assert a + b == a;
    } else {
      assert (a + b)[..|a + b| - 1] == a + b[..|b| - 1];
      hide Spec.Next;
      RunAppend(s, a, b[..|b| - 1]);
    }
  }

  lemma RunTwo(s: Spec.Session, a: Spec.Action, b: Spec.Action)
    ensures Spec.Run(s, [a, b]) == Spec.Next(Spec.Next(s, a), b)
  {
    hide Spec.Next;
    assert [a, b][..1] == [a] && [a][..0] == [];
    assert Spec.Run(s, []) == s;
    assert Spec.Run(s, [a]) == Spec.Next(s, a);
  }

  lemma HandlingKeepsPending(s: Spec.Session, f: Frame)
    ensures Spec.HandleFrame(s, f).pending == s.pending && Spec.HandleFrame(s, f).isClient == s.isClient
  {
    SettingsKeepPending(s, f.data);
    hide Spec.HandleSettings;
    hide Spec.AnnouncedVersion;
    hide Spec.Kill;
    hide Spec.CancelWatch;
  }

  lemma SettingsKeepPending(s: Spec.Session, data: bytes)
    ensures Spec.HandleSettings(s, data).pending == s.pending && Spec.HandleSettings(s, data).isClient == s.isClient
  {
    hide Spec.AnnouncedMd5;
    hide Spec.AnnouncedVersion;
  }

  /** Reading a frame and acting on it is what the loop does in one round; a closed session does neither. */
  lemma OneRound(s: Spec.Session, f: Frame)
    requires s.pending == None && WellFormed(f) && (s.isClient ==> f.cmd != CMD_SYN)
    ensures var t := Spec.Next(Spec.Next(s, Spec.ARead(f)), Spec.AHandle);
            t == (if s.closed then s else Took(s, f)) && t.pending == None && t.isClient == s.isClient
  {
    hide Spec.HandleFrame;
    HandlingKeepsPending(s.(handled := s.handled + [f]), f);
    assert !s.closed ==>
             s.(pending := Some(f)).(pending := None, handled := s.handled + [f]) == s.(handled := s.handled + [f]);
  }

  /** What `RecvLoop` does with the bytes of a connection is a run of the session machine: it reads and
      handles the complete frames in order; an incomplete one at the end can only cancel the watcher. */
  lemma {:induction false} ReceivedIsARun(s: Spec.Session, b: bytes, p: Parsed, t: Spec.Session)
    requires s.pending == None && p == DecodeAll(b) && t == Spec.Run(s, Reads(p.frames))
    requires s.isClient ==> forall i :: 0 <= i < |p.frames| ==> p.frames[i].cmd != CMD_SYN
    ensures Received(s, b) == if t.closed then t else Torn(t, p.rest)
    decreases |b|
  {
    hide Took;
    hide Spec.Next;
    hide Torn;
    if DecodeOne(b).NeedMore? {
      hide DecodeOne;
    } else {
      DecodedIsWellFormed(b);
      DecodeAllStep(b);
      var f, tail := DecodeOne(b).frame, b[DecodeOne(b).used..];
      var rest := DecodeAll(tail).frames;
      assert p.frames[0] == f;
      assert forall i :: 0 <= i < |rest| ==> rest[i] == p.frames[i + 1];
      OneFrameFirst(s, f, rest);
      if !s.closed {
        ReceivedIsARun(Took(s, f), tail, DecodeAll(tail), t);
      } else {
        ClosedRunsOn(s, p.frames);
      }
    }
  }

  lemma OneFrameFirst(s: Spec.Session, f: Frame, rest: seq<Frame>)
    requires s.pending == None && WellFormed(f) && (s.isClient ==> f.cmd != CMD_SYN)
    ensures var t := if s.closed then s else Took(s, f);
            && Spec.Run(s, Reads([f] + rest)) == Spec.Run(t, Reads(rest))
            && t.pending == None && t.isClient == s.isClient
  {
    hide Spec.Run;
    hide Took;
    assert ([f] + rest)[1..] == rest;
    RunAppend(s, [Spec.ARead(f), Spec.AHandle], Reads(rest));
    RunTwo(s, Spec.ARead(f), Spec.AHandle);
    OneRound(s, f);
  }

  lemma {:induction false} ClosedRunsOn(s: Spec.Session, fs: seq<Frame>)
    requires s.closed && s.pending == None
    ensures Spec.Run(s, Reads(fs)) == s
  {
    if fs == [] {
    } else {
      ClosedRunsOn(s, fs[1..]);
      RunAppend(s, [Spec.ARead(fs[0]), Spec.AHandle], Reads(fs[1..]));
      RunTwo(s, Spec.ARead(fs[0]), Spec.AHandle);
    }
  }
}
