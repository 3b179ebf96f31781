/** One endpoint of a session, client or server: its streams, its negotiation state, and what each
    operation of `Session` and `Stream` does to it. */
module SessionSpec {
  import opened Bytes
  import opened Options
  import opened Text
  import opened Frames
  import opened Scheme

  /** How far `OpenStream` has come with a stream: id drawn, SYN written, registered and returned. */
  datatype Phase = Allocated | SynWritten | Open

  /** A stream. `deaths`, `hookRuns`, `fins` and `synacks` count executions of the death body, of the
      death hook, and of the FIN and SYNACK writes; `peerFin` says that the peer's FIN killed it.
      `piped` is what the receive loop handed to its pipe, `written` what its writer submitted. */
  datatype StreamRec = StreamRec(id: nat, phase: Phase, dead: bool, deaths: nat, hooked: bool, hookRuns: nat,
                                 fins: nat, peerFin: bool, reported: bool, synacks: nat,
                                 piped: bytes, written: bytes)

  function NewStream(id: nat, phase: Phase): StreamRec {
    StreamRec(id, phase, false, 0, false, 0, 0, false, false, 0, [], [])
  }

  datatype Watch = Armed | Cancelled | Fired

  /** `streams` maps a stream id to its index in `all`, the streams ever made. `mark` is the number of
      streams at the moment the session was closed. `pending` is the frame the receive loop has read
      and not yet acted on, `handled` those it has; `out` lists the frames handed to `writeConn` while
      the connection was open. `raw` and `md5` are the process's current padding scheme. */
  datatype Session = Session(isClient: bool, closed: bool, streams: map<nat, nat>, all: seq<StreamRec>, mark: nat,
                             lastId: nat, peerVersion: nat, gotSettings: bool,
                             synDone: Option<nat>, watchers: seq<Watch>,
                             pending: Option<Frame>, handled: seq<Frame>, out: seq<Frame>,
                             raw: bytes, md5: bytes, schemes: seq<bytes>)

  function NewSession(isClient: bool, raw: bytes, md5: bytes): Session {
    Session(isClient, false, map[], [], 0, 0, 0, false, None, [], None, [], [], raw, md5, [])
  }

  /** `writeConn`: on a closed connection the write fails and nothing goes out. */
  function Emit(s: Session, f: Frame): Session {
    if s.closed then s else s.(out := s.out + [f])
  }

  /** The body run under `dieOnce`, then the death hook. */
  function Die(r: StreamRec): StreamRec {
    if r.dead then r
    else r.(dead := true, deaths := r.deaths + 1,
            hooked := false, hookRuns := r.hookRuns + if r.hooked then 1 else 0)
  }

  function Kill(all: seq<StreamRec>, streams: map<nat, nat>): (r: seq<StreamRec>)
    ensures |r| == |all|
  {
    seq(|all|, i requires 0 <= i < |all| => if i in streams.Values then Die(all[i]) else all[i])
  }

  function Close(s: Session): Session {
    if s.closed then s
    else s.(closed := true, mark := |s.all|, all := Kill(s.all, s.streams), streams := map[])
  }

  function CloseLocally(s: Session, h: nat): Session
    requires h < |s.all|
  {
    s.(all := s.all[h := Die(s.all[h])])
  }

  /** `streamClosed`: no FIN once the session is closed. */
  function StreamClosed(s: Session, h: nat): Session
    requires h < |s.all|
  {
    if s.closed then s
    else
      var r := s.all[h];
      Emit(s, Frame(CMD_FIN, r.id, [])).(all := s.all[h := r.(fins := r.fins + 1)], streams := s.streams - {r.id})
  }

  function CloseWithError(s: Session, h: nat): Session
    requires h < |s.all|
  {
    if s.all[h].dead then s else StreamClosed(CloseLocally(s, h), h)
  }

  // ---- OpenStream, in the steps another goroutine can come between ----

  function CancelWatch(watchers: seq<Watch>, w: Option<nat>): (r: seq<Watch>)
    ensures |r| == |watchers|
  {
    if w.Some? && w.value < |watchers| && watchers[w.value] == Armed then watchers[w.value := Cancelled] else watchers
  }

  /** Draw the id; from the second stream on, against a version 2 server, replace the SYNACK watcher. */
  function OpenBegin(s: Session): Session {
    if s.closed then s
    else
      var id := s.lastId + 1;
      var t := s.(lastId := id, all := s.all + [NewStream(id, Allocated)]);
      if id >= 2 && s.peerVersion >= 2 then
        t.(watchers := CancelWatch(s.watchers, s.synDone) + [Armed], synDone := Some(|s.watchers|))
      else t
  }

  function OpenSyn(s: Session, h: nat): Session
    requires h < |s.all|
  {
    Emit(s, Frame(CMD_SYN, s.all[h].id, [])).(all := s.all[h := s.all[h].(phase := SynWritten)])
  }

  /** A stream whose session died meanwhile is not registered and not returned. */
  function OpenRegister(s: Session, h: nat): Session
    requires h < |s.all|
  {
    if s.closed then s
    else s.(streams := s.streams[s.all[h].id := h], all := s.all[h := s.all[h].(phase := Open)])
  }

  function SetHook(s: Session, h: nat): Session
    requires h < |s.all|
  {
    s.(all := s.all[h := s.all[h].(hooked := true)])
  }

  function Write(s: Session, h: nat, data: bytes): Session
    requires h < |s.all|
  {
    var r := s.all[h];
    if r.dead || s.closed then s
    else Emit(s, Frame(CMD_PSH, r.id, data)).(all := s.all[h := r.(written := r.written + data)])
  }

  /** `HandshakeSuccess` (no error text) and `HandshakeFailure`: the first report alone counts. */
  function Report(s: Session, h: nat, text: bytes): Session
    requires h < |s.all|
  {
    var r := s.all[h];
    if r.reported then s
    else if s.peerVersion >= 2 && !s.closed then
      Emit(s, Frame(CMD_SYNACK, r.id, text)).(all := s.all[h := r.(reported := true, synacks := r.synacks + 1)])
    else s.(all := s.all[h := r.(reported := true)])
  }

  /** The SYNACK watcher's timer runs out. */
  function Fire(s: Session, w: nat): Session
    requires w < |s.watchers|
  {
    if s.watchers[w] == Armed then Close(s.(watchers := s.watchers[w := Fired])) else s
  }

  // ---- The receive loop ----

  function ServerSettingsText(): bytes { Ascii("v=2") }

  function AlertText(): bytes { Ascii("client did not send its settings") }

  function AnnouncedVersion(data: bytes): Option<int> { ParseInt(Lookup(FromBytes(data), Ascii("v"))) }

  function AnnouncedMd5(data: bytes): bytes { Lookup(FromBytes(data), Ascii("padding-md5")) }

  function HandleSyn(s: Session, sid: nat): Session {
    if !s.isClient && !s.gotSettings then Close(Emit(s, Frame(CMD_ALERT, 0, AlertText())))
    else if sid in s.streams then s
    else s.(streams := s.streams[sid := |s.all|], all := s.all + [NewStream(sid, Open)])
  }

  function HandleSynAck(s: Session, sid: nat, data: bytes): Session {
    var t := s.(watchers := CancelWatch(s.watchers, s.synDone), synDone := None);
    if data != [] && sid in t.streams && t.streams[sid] < |t.all| then CloseWithError(t, t.streams[sid]) else t
  }

  function HandleFin(s: Session, sid: nat): Session {
    var t := s.(streams := s.streams - {sid});
    if sid in s.streams && s.streams[sid] < |s.all| then
      var h := s.streams[sid];
      var r := s.all[h];
      t.(all := s.all[h := Die(r).(peerFin := r.peerFin || !r.dead)])
    else t
  }

  function HandlePsh(s: Session, sid: nat, data: bytes): Session {
    if data != [] && sid in s.streams && s.streams[sid] < |s.all| then
      var h := s.streams[sid];
      s.(all := s.all[h := s.all[h].(piped := s.all[h].piped + data)])
    else s
  }

  /** The server answers a stale scheme first, then a version of at least 2. The version is kept in
      a byte. */
  function HandleSettings(s: Session, data: bytes): Session {
    if data == [] || s.isClient then s
    else
      var t := s.(gotSettings := true);
      var u := if AnnouncedMd5(data) != s.md5 then Emit(t, Frame(CMD_UPDATE_PADDING_SCHEME, 0, s.raw)) else t;
      match AnnouncedVersion(data)
      case Some(v) =>
        if v >= 2 then Emit(u.(peerVersion := v % 0x100), Frame(CMD_SERVER_SETTINGS, 0, ServerSettingsText())) else u
      case None => u
  }

  function HandleServerSettings(s: Session, data: bytes): Session {
    if data == [] || !s.isClient then s
    else
      match AnnouncedVersion(data)
      case Some(v) => s.(peerVersion := v % 0x100)
      case None => s
  }

  /** The switch of `recvLoop`. Leaving the loop closes the session. */
  function HandleFrame(s: Session, f: Frame): Session {
    if f.cmd == CMD_PSH then HandlePsh(s, f.sid, f.data)
    else if f.cmd == CMD_SYN then HandleSyn(s, f.sid)
    else if f.cmd == CMD_SYNACK then HandleSynAck(s, f.sid, f.data)
    else if f.cmd == CMD_FIN then HandleFin(s, f.sid)
    else if f.cmd == CMD_SETTINGS then HandleSettings(s, f.data)
    else if f.cmd == CMD_ALERT then if f.data != [] then Close(s) else s
    else if f.cmd == CMD_UPDATE_PADDING_SCHEME then
      if f.data != [] && s.isClient then s.(schemes := s.schemes + [f.data]) else s
    else if f.cmd == CMD_HEART_REQUEST then Emit(s, Frame(CMD_HEART_RESPONSE, f.sid, []))
    else if f.cmd == CMD_SERVER_SETTINGS then HandleServerSettings(s, f.data)
    else s
  }

  /** The loop looks at `die` before it reads, not again before it acts. */
  function Read(s: Session, f: Frame): Session {
    if s.closed || s.pending.Some? then s else s.(pending := Some(f))
  }

  function Handle(s: Session): Session {
    match s.pending
    case None => s
    case Some(f) => HandleFrame(s.(pending := None, handled := s.handled + [f]), f)
  }

  // ---- Runs ----

  datatype Action =
    | ABegin
    | ASyn(h: nat)
    | ARegister(h: nat)
    | AHook(h: nat)
    | AWrite(h: nat, data: bytes)
    | ACloseStream(h: nat)
    | AClose
    | AFire(w: nat)
    | ARead(f: Frame)
    | AHandle
    | AReport(h: nat, text: bytes)
    | AReload(raw: bytes, md5: bytes)

  /** What can happen. Streams are opened by clients, fewer than 2^32 of them; a caller holds a stream
      only after `OpenStream` or `onNewStream` returned it; bodies fit their length field; and no peer
      sends a client the server-only SYN. */
  predicate Enabled(s: Session, a: Action) {
    match a
    case ABegin => s.isClient && s.lastId + 1 < U32_LIMIT
    case ASyn(h) => h < |s.all| && s.all[h].phase == Allocated
    case ARegister(h) => h < |s.all| && s.all[h].phase == SynWritten
    case AHook(h) => h < |s.all| && s.all[h].phase == Open && s.isClient && !s.all[h].hooked && s.all[h].hookRuns == 0
    case AWrite(h, data) => h < |s.all| && s.all[h].phase == Open && |data| < U16_LIMIT
    case ACloseStream(h) => h < |s.all| && s.all[h].phase == Open
    case AClose => true
    case AFire(w) => w < |s.watchers|
    case ARead(f) => WellFormed(f) && (s.isClient ==> f.cmd != CMD_SYN)
    case AHandle => true
    case AReport(h, text) => h < |s.all| && s.all[h].phase == Open && !s.isClient && |text| < U16_LIMIT
    case AReload(raw, md5) => |raw| < U16_LIMIT
  }

  function Perform(s: Session, a: Action): Session
    requires Enabled(s, a)
  {
    match a
    case ABegin => OpenBegin(s)
    case ASyn(h) => OpenSyn(s, h)
    case ARegister(h) => OpenRegister(s, h)
    case AHook(h) => SetHook(s, h)
    case AWrite(h, data) => Write(s, h, data)
    case ACloseStream(h) => CloseWithError(s, h)
    case AClose => Close(s)
    case AFire(w) => Fire(s, w)
    case ARead(f) => Read(s, f)
    case AHandle => Handle(s)
    case AReport(h, text) => Report(s, h, text)
    case AReload(raw, md5) => s.(raw := raw, md5 := md5)
  }

  /** An action that is not possible changes nothing. */
  function Next(s: Session, a: Action): Session {
    if Enabled(s, a) then Perform(s, a) else s
  }

  function Run(s: Session, actions: seq<Action>): Session {
    if actions == [] then s else Next(Run(s, actions[..|actions| - 1]), actions[|actions| - 1])
  }
}
