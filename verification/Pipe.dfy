/** The synchronous in-memory pipe: any number of concurrent reads, writes and closes, in the steps
    between which the scheduler can switch. */
module Pipe {
  import opened Bytes
  import opened Options

  datatype Fault = ClosedPipe | Eof | DeadlineExceeded | Custom(code: int)

  datatype Outcome = Fine | Failed(fault: Fault)

  /** A read: before its first select, in its second one, holding a writer's slice, about to send its
      count, about to load `rerr` and then `werr`, returned. */
  datatype ReadPhase = RStart | RWait | RGot(slice: bytes) | RCopied | RLoadOwn | RLoadOther(own: Option<Fault>)
      | RDone(outcome: Outcome)

  /** A write: before its first select, waiting for `wrMu`, in the select of its loop, waiting for the
      count, about to load `werr` and then `rerr`, returned. */
  datatype WritePhase = WStart | WWant | WSelect | WAck | WLoadOwn | WLoadOther(own: Option<Fault>) | WDone(outcome: Outcome)

  datatype Side = ReadSide | WriteSide

  /** One call. A read has room for `cap` bytes and has copied `data`, taken from write `src` at offset
      `at`; a write of `b` has had `n` bytes acknowledged. */
  datatype Thread =
    | Reader(cap: nat, rs: ReadPhase, data: bytes, src: nat, at: nat)
    | Writer(b: bytes, n: nat, ws: WritePhase)
    | Closer(side: Side, err: Fault, stored: bool)

  /** `turns` lists the writes in the order they took `wrMu`, `copies` the reads in the order they
      copied, `active` is the read that last received a slice and has not sent its count. */
  datatype State = State(th: map<nat, Thread>, mutex: Option<nat>, done: bool, rerr: Option<Fault>, werr: Option<Fault>,
                         turns: seq<nat>, copies: seq<nat>, active: Option<nat>)

  const INIT: State := State(map[], None, false, None, None, [], [], None)

  datatype Move =
    | CallRead(t: nat, cap: nat)
    | CallWrite(t: nat, b: bytes)
    | CallClose(t: nat, side: Side, err: Option<Fault>)
    | Pass(t: nat)
    | SeeDone(t: nat)
    | TimeOut(t: nat)
    | Lock(t: nat)
    | Meet(r: nat, w: nat)
    | Copy(r: nat)
    | Ack(r: nat, w: nat)
    | LoadOwn(t: nat)
    | LoadOther(t: nat)
    | Store(t: nat)
    | CloseDone(t: nat)

  function Min(a: nat, b: nat): nat { if a < b then a else b }

  /** `onceError.Store`. */
  function Once(e: Option<Fault>, err: Fault): Option<Fault> { if e.Some? then e else Some(err) }

  /** `closeRead` and `closeWrite` called without an error. */
  function CloseError(side: Side, err: Option<Fault>): Fault {
    match err
    case Some(e) => e
    case None => if side.ReadSide? then ClosedPipe else Eof
  }

  /** `readCloseError` and `writeCloseError`: the other side's error, if this side has none. */
  function Selected(own: Option<Fault>, other: Option<Fault>): Fault {
    if own.None? && other.Some? then other.value else ClosedPipe
  }

  function Released(p: State, t: nat): Option<nat> { if p.mutex == Some(t) then None else p.mutex }

  function Set(p: State, t: nat, c: Thread): State { p.(th := p.th[t := c]) }

  /** The first select lets a call through only while `done` is open. */
  function NextPass(p: State, t: nat): State
    requires t in p.th
  {
    match p.th[t]
    case Reader(_, RStart, _, _, _) => if p.done then p else Set(p, t, p.th[t].(rs := RWait))
    case Writer(_, _, WStart) => if p.done then p else Set(p, t, p.th[t].(ws := WWant))
    case _ => p
  }

  function NextSeeDone(p: State, t: nat): State
    requires t in p.th
  {
    if !p.done then p
    else
      match p.th[t]
      case Reader(_, RStart, _, _, _) => Set(p, t, p.th[t].(rs := RLoadOwn))
      case Reader(_, RWait, _, _, _) => Set(p, t, p.th[t].(rs := RLoadOwn))
      case Writer(_, _, WStart) => Set(p, t, p.th[t].(ws := WLoadOwn))
      case Writer(_, _, WSelect) => Set(p, t, p.th[t].(ws := WLoadOwn))
      case _ => p
  }

  /** A passed deadline is seen in the same selects; whether it has passed is left open. */
  function NextTimeOut(p: State, t: nat): State
    requires t in p.th
  {
    var late := Failed(DeadlineExceeded);
    match p.th[t]
    case Reader(_, RStart, _, _, _) => Set(p, t, p.th[t].(rs := RDone(late)))
    case Reader(_, RWait, _, _, _) => Set(p, t, p.th[t].(rs := RDone(late)))
    case Writer(_, _, WStart) => Set(p, t, p.th[t].(ws := WDone(late)))
    case Writer(_, _, WSelect) => Set(p, t, p.th[t].(ws := WDone(late))).(mutex := Released(p, t))
    case _ => p
  }

  /** A send on `wrCh` meets a receive. */
  function NextMeet(p: State, r: nat, w: nat): State
    requires r in p.th && w in p.th && p.th[r].Reader? && p.th[w].Writer?
  {
    if p.th[r].rs.RWait? && p.th[w].ws.WSelect? && p.th[w].n <= |p.th[w].b| then
      p.(active := Some(r),
         th := p.th[w := p.th[w].(ws := WAck)][r := p.th[r].(rs := RGot(p.th[w].b[p.th[w].n..]), src := w, at := p.th[w].n)])
    else p
  }

  function NextCopy(p: State, r: nat): State
    requires r in p.th && p.th[r].Reader?
  {
    if p.th[r].rs.RGot? then
      var slice := p.th[r].rs.slice;
      Set(p, r, p.th[r].(rs := RCopied, data := slice[..Min(p.th[r].cap, |slice|)])).(copies := p.copies + [r])
    else p
  }

  /** A send of the count on `rdCh` meets a receive; the write goes round its loop or returns. */
  function NextAck(p: State, r: nat, w: nat): State
    requires r in p.th && w in p.th && p.th[r].Reader? && p.th[w].Writer?
  {
    if p.th[r].rs.RCopied? && p.th[w].ws.WAck? then
      var n := p.th[w].n + |p.th[r].data|;
      var over := n >= |p.th[w].b|;
      p.(active := None,
         mutex := if over then Released(p, w) else p.mutex,
         th := p.th[w := p.th[w].(n := n, ws := if over then WDone(Fine) else WSelect)][r := p.th[r].(rs := RDone(Fine))])
    else p
  }

  function NextLoadOwn(p: State, t: nat): State
    requires t in p.th
  {
    match p.th[t]
    case Reader(_, RLoadOwn, _, _, _) => Set(p, t, p.th[t].(rs := RLoadOther(p.rerr)))
    case Writer(_, _, WLoadOwn) => Set(p, t, p.th[t].(ws := WLoadOther(p.werr)))
    case _ => p
  }

  function NextLoadOther(p: State, t: nat): State
    requires t in p.th
  {
    match p.th[t]
    case Reader(_, RLoadOther(own), _, _, _) => Set(p, t, p.th[t].(rs := RDone(Failed(Selected(own, p.werr)))))
    case Writer(_, _, WLoadOther(own)) =>
      Set(p, t, p.th[t].(ws := WDone(Failed(Selected(own, p.rerr))))).(mutex := Released(p, t))
    case _ => p
  }

  function NextStore(p: State, t: nat): State
    requires t in p.th
  {
    match p.th[t]
    case Closer(ReadSide, err, false) => Set(p, t, p.th[t].(stored := true)).(rerr := Once(p.rerr, err))
    case Closer(WriteSide, err, false) => Set(p, t, p.th[t].(stored := true)).(werr := Once(p.werr, err))
    case _ => p
  }

  function Next(p: State, m: Move): State {
    match m
    case CallRead(t, cap) => if t in p.th then p else Set(p, t, Reader(cap, RStart, [], 0, 0))
    case CallWrite(t, b) => if t in p.th then p else Set(p, t, Writer(b, 0, WStart))
    case CallClose(t, side, err) => if t in p.th then p else Set(p, t, Closer(side, CloseError(side, err), false))
    case Pass(t) => if t in p.th then NextPass(p, t) else p
    case SeeDone(t) => if t in p.th then NextSeeDone(p, t) else p
    case TimeOut(t) => if t in p.th then NextTimeOut(p, t) else p
    case Lock(t) =>
      if t in p.th && p.th[t].Writer? && p.th[t].ws.WWant? && p.mutex.None? then
        Set(p, t, p.th[t].(ws := WSelect)).(mutex := Some(t), turns := p.turns + [t])
      else p
    case Meet(r, w) => if r in p.th && w in p.th && p.th[r].Reader? && p.th[w].Writer? then NextMeet(p, r, w) else p
    case Copy(r) => if r in p.th && p.th[r].Reader? then NextCopy(p, r) else p
    case Ack(r, w) => if r in p.th && w in p.th && p.th[r].Reader? && p.th[w].Writer? then NextAck(p, r, w) else p
    case LoadOwn(t) => if t in p.th then NextLoadOwn(p, t) else p
    case LoadOther(t) => if t in p.th then NextLoadOther(p, t) else p
    case Store(t) => if t in p.th then NextStore(p, t) else p
    case CloseDone(t) => if t in p.th && p.th[t].Closer? && p.th[t].stored then p.(done := true) else p
  }

  function Run(moves: seq<Move>): State {
    if moves == [] then INIT else Next(Run(moves[..|moves| - 1]), moves[|moves| - 1])
  }

  // ---- Bytes ----

  /** The bytes a call has moved: what a read copied, the acknowledged prefix of a write. */
  function Piece(th: map<nat, Thread>, t: nat): bytes {
    if t !in th then []
    else
      match th[t]
      case Reader(_, _, data, _, _) => data
      case Writer(b, n, _) => if n <= |b| then b[..n] else []
      case Closer(_, _, _) => []
  }

  function Joined(th: map<nat, Thread>, ids: seq<nat>): bytes {
    if ids == [] then [] else Joined(th, ids[..|ids| - 1]) + Piece(th, ids[|ids| - 1])
  }

  /** What has been copied and not yet acknowledged. */
  function InFlight(p: State): bytes {
    if p.active.Some? && p.active.value in p.th && p.th[p.active.value].Reader? then p.th[p.active.value].data else []
  }

  // ---- The invariant ----

  predicate InLoop(c: Thread) { c.Writer? && (c.ws.WSelect? || c.ws.WAck?) }

  predicate Loading(c: Thread) { c.Writer? && (c.ws.WLoadOwn? || c.ws.WLoadOther?) }

  predicate Busy(c: Thread) { c.Reader? && (c.rs.RGot? || c.rs.RCopied?) }

  /** What one call knows, given where the others are. */
  ghost predicate CallOk(p: State, t: nat)
    requires t in p.th
  {
    match p.th[t]
    case Reader(cap, rs, data, src, at) =>
      && (Busy(p.th[t]) <==> p.active == Some(t))
      && (t in p.copies <==> rs.RCopied? || rs == RDone(Fine))
      && (t !in p.copies ==> data == [])
    case Writer(b, n, ws) =>
      && n <= |b|
      && (InLoop(p.th[t]) ==> p.mutex == Some(t))
      && (t in p.turns ==> InLoop(p.th[t]) || Loading(p.th[t]) || ws.WDone?)
      && (t !in p.turns ==> n == 0 && p.mutex != Some(t))
      && (Loading(p.th[t]) && t in p.turns ==> p.mutex == Some(t))
      && (ws.WDone? ==> p.mutex != Some(t))
      && (ws == WDone(Fine) ==> n == |b| && t in p.turns)
    case Closer(_, _, _) => t !in p.turns && t !in p.copies && p.mutex != Some(t)
  }

  /** A read that has received a slice: which write it came from, and how much of it was taken. */
  ghost predicate TakenOk(p: State, r: nat)
    requires r in p.th && p.th[r].Reader?
  {
    var c := p.th[r];
    (Busy(c) || r in p.copies) ==>
      && c.src in p.turns && c.src in p.th && p.th[c.src].Writer?
      && var w := p.th[c.src];
      && c.at <= |w.b|
      && (c.rs.RGot? ==> c.rs.slice == w.b[c.at..])
      && (r in p.copies ==> |c.data| == Min(c.cap, |w.b| - c.at) && c.data == w.b[c.at..c.at + |c.data|])
      && (Busy(c) ==> p.mutex == Some(c.src) && w.ws.WAck? && w.n == c.at)
      && (!Busy(c) ==> c.at + |c.data| <= w.n)
  }

  ghost predicate QueueOk(p: State) {
    && (forall t :: t in p.turns ==> t in p.th && p.th[t].Writer?)
    && (forall t :: t in p.copies ==> t in p.th && p.th[t].Reader?)
    && (p.mutex.Some? ==> p.turns != [] && p.turns[|p.turns| - 1] == p.mutex.value)
    && (p.active.Some? ==> p.active.value in p.th && p.th[p.active.value].Reader?)
    && (p.active.None? ==> forall t :: t in p.th && p.th[t].Writer? ==> !p.th[t].ws.WAck?)
    && (forall i, j :: 0 <= i < j < |p.turns| ==> p.turns[i] != p.turns[j])
    && (forall i, j :: 0 <= i < j < |p.copies| ==> p.copies[i] != p.copies[j])
  }

  ghost predicate Inv(p: State) {
    && (forall t :: t in p.th ==> CallOk(p, t))
    && (forall r :: r in p.th && p.th[r].Reader? ==> TakenOk(p, r))
    && QueueOk(p)
    && Joined(p.th, p.copies) == Joined(p.th, p.turns) + InFlight(p)
  }

  lemma {:induction false} JoinedFrame(th: map<nat, Thread>, th': map<nat, Thread>, ids: seq<nat>)
    requires forall t :: t in ids ==> Piece(th, t) == Piece(th', t)
    ensures Joined(th, ids) == Joined(th', ids)
  {
    if ids == [] {
    } else {
      JoinedFrame(th, th', ids[..|ids| - 1]);
    }
  }

  lemma JoinedSnoc(th: map<nat, Thread>, ids: seq<nat>, t: nat)
    ensures Joined(th, ids + [t]) == Joined(th, ids) + Piece(th, t)
  {
    assert (ids + [t])[..|ids|] == ids;
  }

  /** A step of one call that moves no bytes and leaves the queues alone. */
  ghost predicate Solo(p: State, p': State, t: nat) {
    && t in p'.th && p' == p.(th := p.th[t := p'.th[t]], mutex := p'.mutex, done := p'.done, rerr := p'.rerr,
         werr := p'.werr)
    && (p'.mutex == p.mutex || (p.mutex == Some(t) && p'.mutex == None))
    && !Busy(p'.th[t]) && !(p'.th[t].Writer? && p'.th[t].ws.WAck?)
    && (t in p.th ==> !Busy(p.th[t]) && !(p.th[t].Writer? && p.th[t].ws.WAck?))
    && (t in p.th && p.th[t].Reader? ==> p'.th[t].Reader? && p'.th[t] == p.th[t].(rs := p'.th[t].rs))
    && (t in p.th && p.th[t].Writer? ==> p'.th[t].Writer? && p'.th[t] == p.th[t].(ws := p'.th[t].ws))
    && (t in p.th && p.th[t].Closer? ==> p'.th[t].Closer?)
    && (t !in p.th ==> t !in p.turns && t !in p.copies && Piece(p'.th, t) == [])
  }

  lemma SoloKeepsInv(p: State, p': State, t: nat)
    requires Inv(p) && Solo(p, p', t) && CallOk(p', t)
    ensures Inv(p')
  {
    SoloKeepsQueue(p, p', t);
    SoloKeepsTaken(p, p', t);
    SoloKeepsBytes(p, p', t);
    hide QueueOk;
    hide TakenOk;
    hide InFlight;
    hide Joined;
    forall u | u in p'.th && u != t ensures CallOk(p', u) {
      assert u in p.th && CallOk(p, u);
      CallFrame(p, p', u);
    }
  }

  lemma CallFrame(p: State, p': State, u: nat)
    requires u in p.th && u in p'.th && p.th[u] == p'.th[u] && CallOk(p, u)
    requires p'.active == p.active && p'.turns == p.turns && p'.copies == p.copies
    requires p'.mutex == p.mutex || (p'.mutex == None && p.mutex != Some(u))
    ensures CallOk(p', u)
  {
  }

  lemma SoloKeepsQueue(p: State, p': State, t: nat)
    requires QueueOk(p) && Solo(p, p', t)
    ensures QueueOk(p')
  {
    hide Piece;
  }

  lemma SoloKeepsTaken(p: State, p': State, t: nat)
    requires Inv(p) && Solo(p, p', t) && CallOk(p', t)
    ensures forall r :: r in p'.th && p'.th[r].Reader? ==> TakenOk(p', r)
  {
    hide Joined;
    hide QueueOk;
    hide Piece;
    hide InFlight;
    forall r | r in p'.th && p'.th[r].Reader? ensures TakenOk(p', r) {
      if r in p.th {
        assert TakenOk(p, r);
      } else {
        assert r == t && r !in p.copies;
      }
    }
  }

  lemma SoloKeepsBytes(p: State, p': State, t: nat)
    requires Inv(p) && Solo(p, p', t)
    ensures Joined(p'.th, p'.copies) == Joined(p'.th, p'.turns) + InFlight(p')
  {
    hide CallOk;
    hide TakenOk;
    forall u | u in p.copies || u in p.turns ensures Piece(p.th, u) == Piece(p'.th, u) {
    }
    JoinedFrame(p.th, p'.th, p.copies);
    JoinedFrame(p.th, p'.th, p.turns);
    hide Joined;
    hide Piece;
  }

  /** Every step but those that lock or exchange bytes is of this kind. */
  lemma SoloMoves(p: State, m: Move)
    requires !m.Lock? && !m.Meet? && !m.Copy? && !m.Ack? && !m.CloseDone?
    requires if m.t in p.th then CallOk(p, m.t)
             else m.t !in p.turns && m.t !in p.copies && p.mutex != Some(m.t) && p.active != Some(m.t)
    ensures var p' := Next(p, m); p' == p || (Solo(p, p', m.t) && CallOk(p', m.t))
  {
    match m
    case CallRead(t, cap) =>
    case CallWrite(t, b) =>
    case CallClose(t, side, err) =>
    case Pass(t) =>
    case SeeDone(t) =>
    case TimeOut(t) => if t in p.th { TimeOutIsSolo(p, t); }
    case LoadOwn(t) =>
    case LoadOther(t) => if t in p.th { LoadOtherIsSolo(p, t); }
    case Store(t) =>
  }

  lemma TimeOutIsSolo(p: State, t: nat)
    requires t in p.th && CallOk(p, t)
    ensures var p' := NextTimeOut(p, t); p' == p || (Solo(p, p', t) && CallOk(p', t))
  {
  }

  lemma LoadOtherIsSolo(p: State, t: nat)
    requires t in p.th && CallOk(p, t)
    ensures var p' := NextLoadOther(p, t); p' == p || (Solo(p, p', t) && CallOk(p', t))
  {
  }

  lemma DoneKeepsInv(p: State)
    requires Inv(p)
    ensures Inv(p.(done := true))
  {
    hide Joined;
    hide CallOk;
    hide TakenOk;
    var p' := p.(done := true);
    forall u | u in p'.th ensures CallOk(p', u) {
      DoneCall(p, u);
    }
    forall r | r in p'.th && p'.th[r].Reader? ensures TakenOk(p', r) {
      DoneTaken(p, r);
    }
  }

  lemma DoneCall(p: State, u: nat)
    requires u in p.th && CallOk(p, u)
    ensures CallOk(p.(done := true), u)
  {
  }

  lemma DoneTaken(p: State, r: nat)
    requires r in p.th && p.th[r].Reader? && TakenOk(p, r)
    ensures TakenOk(p.(done := true), r)
  {
  }

  // ---- The lock ----

  lemma LockKeepsInv(p: State, t: nat)
    requires Inv(p) && t in p.th && p.th[t].Writer? && p.th[t].ws.WWant? && p.mutex.None?
    ensures Inv(Next(p, Lock(t)))
  {
    hide TakenOk;
    hide QueueOk;
    hide Joined;
    hide InFlight;
    assert CallOk(p, t) && t !in p.turns && p.th[t].n == 0;
    hide CallOk;
    var p' := Next(p, Lock(t));
    forall u | u in p'.th ensures CallOk(p', u) {
      LockCall(p, t, u);
    }
    forall r | r in p'.th && p'.th[r].Reader? ensures TakenOk(p', r) {
      LockTaken(p, t, r);
    }
    LockQueue(p, t);
    LockBytes(p, t);
  }

  lemma LockTaken(p: State, t: nat, r: nat)
    requires t in p.th && p.th[t].Writer? && p.th[t].ws.WWant? && p.mutex.None? && r in p.th && p.th[r].Reader?
             && TakenOk(p, r)
    ensures TakenOk(Next(p, Lock(t)), r)
  {
  }

  lemma LockCall(p: State, t: nat, u: nat)
    requires t in p.th && p.th[t].Writer? && p.th[t].ws.WWant? && p.mutex.None? && u in p.th && CallOk(p, u)
    ensures CallOk(Next(p, Lock(t)), u)
  {
  }

  lemma LockQueue(p: State, t: nat)
    requires QueueOk(p) && t in p.th && p.th[t].Writer? && p.th[t].ws.WWant? && p.mutex.None? && t !in p.turns
    ensures QueueOk(Next(p, Lock(t)))
  {
  }

  lemma LockBytes(p: State, t: nat)
    requires t in p.th && p.th[t].Writer? && p.th[t].ws.WWant? && p.mutex.None? && p.th[t].n == 0
    requires Joined(p.th, p.copies) == Joined(p.th, p.turns) + InFlight(p)
    ensures var p' := Next(p, Lock(t)); Joined(p'.th, p'.copies) == Joined(p'.th, p'.turns) + InFlight(p')
  {
    hide Joined;
    var p' := Next(p, Lock(t));
    forall u ensures Piece(p'.th, u) == Piece(p.th, u) {
    }
    assert Piece(p'.th, t) == [];
    hide Piece;
    JoinedFrame(p.th, p'.th, p.copies);
    JoinedFrame(p.th, p'.th, p.turns);
    JoinedSnoc(p'.th, p.turns, t);
  }

  // ---- The rendezvous on wrCh ----

  /** A read between the two rendezvous has its write waiting for the count. */
  lemma ActiveHasPartner(p: State)
    requires Inv(p) && p.active.Some?
    ensures p.mutex.Some? && p.mutex.value in p.th && p.th[p.mutex.value].Writer? && p.th[p.mutex.value].ws.WAck?
  {
    hide Joined;
    assert CallOk(p, p.active.value) && TakenOk(p, p.active.value);
  }

  /** Nobody else is between the two rendezvous. */
  lemma SelectingMeansIdle(p: State, w: nat)
    requires Inv(p) && w in p.th && p.th[w].Writer? && p.th[w].ws.WSelect?
    ensures p.active == None && p.mutex == Some(w) && w in p.turns && p.th[w].n <= |p.th[w].b|
  {
    hide Joined;
    assert CallOk(p, w);
    if p.active.Some? {
      ActiveHasPartner(p);
    }
  }

  lemma MeetKeepsInv(p: State, r: nat, w: nat)
    requires Inv(p) && r in p.th && w in p.th && p.th[r].Reader? && p.th[w].Writer? && p.th[r].rs.RWait?
             && p.th[w].ws.WSelect?
    ensures Inv(NextMeet(p, r, w))
  {
    SelectingMeansIdle(p, w);
    hide TakenOk;
    hide QueueOk;
    hide Joined;
    hide InFlight;
    assert CallOk(p, r) && r !in p.copies && p.th[r].data == [];
    hide CallOk;
    var p' := NextMeet(p, r, w);
    forall u | u in p'.th ensures CallOk(p', u) {
      MeetCall(p, r, w, u);
    }
    forall u | u in p'.th && p'.th[u].Reader? ensures TakenOk(p', u) {
      MeetTaken(p, r, w, u);
    }
    MeetQueue(p, r, w);
    MeetBytes(p, r, w);
  }

  lemma MeetTaken(p: State, r: nat, w: nat, u: nat)
    requires r in p.th && w in p.th && p.th[r].Reader? && p.th[w].Writer? && p.th[r].rs.RWait? && p.th[w].ws.WSelect?
    requires u in p.th && p.th[u].Reader? && TakenOk(p, u) && p.active == None && p.mutex == Some(w) && w in p.turns
    requires r !in p.copies && p.th[w].n <= |p.th[w].b|
    ensures TakenOk(NextMeet(p, r, w), u)
  {
  }

  lemma MeetQueue(p: State, r: nat, w: nat)
    requires r in p.th && w in p.th && p.th[r].Reader? && p.th[w].Writer? && p.th[r].rs.RWait? && p.th[w].ws.WSelect?
    requires QueueOk(p)
    ensures QueueOk(NextMeet(p, r, w))
  {
  }

  lemma MeetCall(p: State, r: nat, w: nat, u: nat)
    requires r in p.th && w in p.th && p.th[r].Reader? && p.th[w].Writer? && p.th[r].rs.RWait? && p.th[w].ws.WSelect?
    requires u in p.th && CallOk(p, u) && p.active == None
    ensures CallOk(NextMeet(p, r, w), u)
  {
  }

  lemma MeetBytes(p: State, r: nat, w: nat)
    requires r in p.th && w in p.th && p.th[r].Reader? && p.th[w].Writer? && p.th[r].rs.RWait? && p.th[w].ws.WSelect?
    requires p.th[r].data == [] && p.active == None && Joined(p.th, p.copies) == Joined(p.th, p.turns) + InFlight(p)
    ensures var p' := NextMeet(p, r, w); Joined(p'.th, p'.copies) == Joined(p'.th, p'.turns) + InFlight(p')
  {
    var p' := NextMeet(p, r, w);
    forall u ensures Piece(p'.th, u) == Piece(p.th, u) {
    }
    JoinedFrame(p.th, p'.th, p.copies);
    JoinedFrame(p.th, p'.th, p.turns);
    hide Joined;
    hide Piece;
  }

  // ---- The copy ----

  lemma CopyKeepsInv(p: State, r: nat)
    requires Inv(p) && r in p.th && p.th[r].Reader? && p.th[r].rs.RGot?
    ensures Inv(NextCopy(p, r))
  {
    hide TakenOk;
    hide QueueOk;
    hide Joined;
    hide InFlight;
    assert CallOk(p, r) && r !in p.copies && p.th[r].data == [] && p.active == Some(r);
    hide CallOk;
    var p' := NextCopy(p, r);
    forall u | u in p'.th ensures CallOk(p', u) {
      CopyCall(p, r, u);
    }
    forall u | u in p'.th && p'.th[u].Reader? ensures TakenOk(p', u) {
      CopyTaken(p, r, u);
    }
    CopyQueue(p, r);
    CopyBytes(p, r);
  }

  lemma CopyTaken(p: State, r: nat, u: nat)
    requires r in p.th && p.th[r].Reader? && p.th[r].rs.RGot? && u in p.th && p.th[u].Reader? && TakenOk(p, u)
    ensures TakenOk(NextCopy(p, r), u)
  {
  }

  lemma CopyCall(p: State, r: nat, u: nat)
    requires r in p.th && p.th[r].Reader? && p.th[r].rs.RGot? && u in p.th && CallOk(p, u) && p.active == Some(r)
    ensures CallOk(NextCopy(p, r), u)
  {
  }

  lemma CopyQueue(p: State, r: nat)
    requires QueueOk(p) && r in p.th && p.th[r].Reader? && p.th[r].rs.RGot? && r !in p.copies
    ensures QueueOk(NextCopy(p, r))
  {
  }

  lemma CopyBytes(p: State, r: nat)
    requires r in p.th && p.th[r].Reader? && p.th[r].rs.RGot? && p.active == Some(r) && p.th[r].data == []
    requires QueueOk(p) && r !in p.copies && Joined(p.th, p.copies) == Joined(p.th, p.turns) + InFlight(p)
    ensures var p' := NextCopy(p, r); Joined(p'.th, p'.copies) == Joined(p'.th, p'.turns) + InFlight(p')
  {
    var p' := NextCopy(p, r);
    JoinedFrame(p.th, p'.th, p.copies);
    JoinedFrame(p.th, p'.th, p.turns);
    JoinedSnoc(p'.th, p.copies, r);
  }

  // ---- The rendezvous on rdCh ----

  lemma AckParties(p: State, r: nat, w: nat)
    requires Inv(p) && r in p.th && w in p.th && p.th[r].Reader? && p.th[w].Writer? && p.th[r].rs.RCopied?
             && p.th[w].ws.WAck?
    ensures p.active == Some(r) && p.mutex == Some(w) && w in p.turns && r in p.copies
    ensures p.th[r].src == w && p.th[r].at == p.th[w].n && p.th[w].n + |p.th[r].data| <= |p.th[w].b|
    ensures p.th[r].data == p.th[w].b[p.th[w].n..p.th[w].n + |p.th[r].data|]
  {
    hide Joined;
    assert CallOk(p, r) && CallOk(p, w) && TakenOk(p, r);
  }

  lemma AckKeepsInv(p: State, r: nat, w: nat)
    requires Inv(p) && r in p.th && w in p.th && p.th[r].Reader? && p.th[w].Writer? && p.th[r].rs.RCopied?
             && p.th[w].ws.WAck?
    ensures Inv(NextAck(p, r, w))
  {
    AckParties(p, r, w);
    hide TakenOk;
    hide QueueOk;
    hide Joined;
    hide InFlight;
    var p' := NextAck(p, r, w);
    forall u | u in p.th && InLoop(p.th[u]) ensures u == w {
      assert CallOk(p, u);
    }
    hide CallOk;
    forall u | u in p'.th ensures CallOk(p', u) {
      AckCall(p, r, w, u);
    }
    forall u | u in p'.th && p'.th[u].Reader? ensures TakenOk(p', u) {
      AckTaken(p, r, w, u);
    }
    AckQueue(p, r, w);
    AckBytes(p, r, w);
  }

  lemma AckCall(p: State, r: nat, w: nat, u: nat)
    requires r in p.th && w in p.th && p.th[r].Reader? && p.th[w].Writer? && p.th[r].rs.RCopied? && p.th[w].ws.WAck?
    requires p.active == Some(r) && p.mutex == Some(w) && w in p.turns && p.th[w].n + |p.th[r].data| <= |p.th[w].b|
    requires u in p.th && CallOk(p, u)
    ensures CallOk(NextAck(p, r, w), u)
  {
  }

  lemma AckTaken(p: State, r: nat, w: nat, u: nat)
    requires r in p.th && w in p.th && p.th[r].Reader? && p.th[w].Writer? && p.th[r].rs.RCopied? && p.th[w].ws.WAck?
    requires p.active == Some(r) && p.th[r].src == w && p.th[r].at == p.th[w].n && r in p.copies
    requires u in p.th && p.th[u].Reader? && CallOk(p, u) && TakenOk(p, u)
    ensures TakenOk(NextAck(p, r, w), u)
  {
  }

  lemma AckQueue(p: State, r: nat, w: nat)
    requires r in p.th && w in p.th && p.th[r].Reader? && p.th[w].Writer? && p.th[r].rs.RCopied? && p.th[w].ws.WAck?
    requires QueueOk(p) && p.mutex == Some(w)
    requires forall u :: u in p.th && InLoop(p.th[u]) ==> u == w
    ensures QueueOk(NextAck(p, r, w))
  {
  }

  lemma AckBytes(p: State, r: nat, w: nat)
    requires r in p.th && w in p.th && p.th[r].Reader? && p.th[w].Writer? && p.th[r].rs.RCopied? && p.th[w].ws.WAck?
    requires QueueOk(p) && p.mutex == Some(w) && p.active == Some(r) && p.th[w].n + |p.th[r].data| <= |p.th[w].b|
    requires p.th[r].data == p.th[w].b[p.th[w].n..p.th[w].n + |p.th[r].data|]
    requires Joined(p.th, p.copies) == Joined(p.th, p.turns) + InFlight(p)
    ensures var p' := NextAck(p, r, w); Joined(p'.th, p'.copies) == Joined(p'.th, p'.turns) + InFlight(p')
  {
    hide Joined;
    var p' := NextAck(p, r, w);
    var earlier := p.turns[..|p.turns| - 1];
    assert p.turns == earlier + [w];
    assert w !in earlier && w !in p.copies;
    forall u | u != w ensures Piece(p'.th, u) == Piece(p.th, u) {
    }
    AckPiece(p, r, w);
    hide Piece;
    hide QueueOk;
    JoinedFrame(p.th, p'.th, p.copies);
    JoinedFrame(p.th, p'.th, earlier);
    JoinedSnoc(p.th, earlier, w);
    JoinedSnoc(p'.th, earlier, w);
  }

  lemma AckPiece(p: State, r: nat, w: nat)
    requires r in p.th && w in p.th && p.th[r].Reader? && p.th[w].Writer? && p.th[r].rs.RCopied? && p.th[w].ws.WAck?
    requires p.th[w].n + |p.th[r].data| <= |p.th[w].b|
    requires p.th[r].data == p.th[w].b[p.th[w].n..p.th[w].n + |p.th[r].data|]
    ensures Piece(NextAck(p, r, w).th, w) == Piece(p.th, w) + p.th[r].data
  {
  }

  lemma NextKeepsInv(p: State, m: Move)
    requires Inv(p)
    ensures Inv(Next(p, m))
  {
    hide Joined;
    hide TakenOk;
    match m
    case Lock(t) => if t in p.th && p.th[t].Writer? && p.th[t].ws.WWant? && p.mutex.None? { LockKeepsInv(p, t); }
    case Meet(r, w) =>
      if r in p.th && w in p.th && p.th[r].Reader? && p.th[w].Writer? && p.th[r].rs.RWait? && p.th[w].ws.WSelect? {
        MeetKeepsInv(p, r, w);
      }
    case Copy(r) => if r in p.th && p.th[r].Reader? && p.th[r].rs.RGot? { CopyKeepsInv(p, r); }
    case Ack(r, w) =>
      if r in p.th && w in p.th && p.th[r].Reader? && p.th[w].Writer? && p.th[r].rs.RCopied? && p.th[w].ws.WAck? {
        AckKeepsInv(p, r, w);
      }
    case CloseDone(t) => DoneKeepsInv(p);
    case _ =>
      SoloMoves(p, m);
      if Next(p, m) != p {
        SoloKeepsInv(p, Next(p, m), m.t);
      }
  }

  lemma {:induction false} InvOnEveryRun(moves: seq<Move>)
    ensures Inv(Run(moves))
  {
    if moves == [] {
    } else {
      InvOnEveryRun(moves[..|moves| - 1]);
      NextKeepsInv(Run(moves[..|moves| - 1]), moves[|moves| - 1]);
    }
  }

  // ---- What follows ----

  /** Exactness. In every reachable state the bytes delivered, in the order they were copied, are the
      acknowledged prefixes of the writes, in the order these took the lock, and then at most one chunk
      that has been copied and not yet acknowledged, taken from the write that holds the lock. */
  lemma {:induction false} Exactness(moves: seq<Move>, p: State)
    requires p == Run(moves)
    ensures Joined(p.th, p.copies) == Joined(p.th, p.turns) + InFlight(p)
    ensures InFlight(p) != [] ==>
              && p.mutex.Some? && p.mutex.value in p.th && p.th[p.mutex.value].Writer?
              && var w := p.th[p.mutex.value]; w.n <= |w.b| && InFlight(p) <= w.b[w.n..]
  {
    hide Run;
    InvOnEveryRun(moves);
    hide Joined;
    if p.active.Some? {
      var r := p.active.value;
      assert CallOk(p, r) && TakenOk(p, r);
    }
  }

  /** The results of calls. A write returns no error only when all its bytes have been acknowledged, and
      never counts more than it has; a read's count is what fits of the rest of one write. */
  lemma Results(moves: seq<Move>, t: nat)
    requires t in Run(moves).th
    ensures var p := Run(moves);
            match p.th[t]
            case Writer(b, n, ws) =>
              && n <= |b|
              && (ws == WDone(Fine) ==> n == |b| && t in p.turns)
              && (t !in p.turns ==> n == 0)
            case Reader(cap, rs, data, src, at) =>
              && (rs.RDone? && rs.outcome != Fine ==> data == [] && t !in p.copies)
              && (rs == RDone(Fine) ==>
                    && t in p.copies && src in p.turns && src in p.th && p.th[src].Writer?
                    && var w := p.th[src];
                    at + |data| <= w.n <= |w.b| && |data| == Min(cap, |w.b| - at) && data == w.b[at..at + |data|])
            case Closer(_, _, _) => t !in p.turns && t !in p.copies
  {
    hide Run;
    InvOnEveryRun(moves);
    hide Joined;
    var p := Run(moves);
    assert CallOk(p, t);
    if p.th[t].Reader? {
      assert TakenOk(p, t);
      assert t in p.copies ==> CallOk(p, p.th[t].src);
    }
  }

  /** Each write's bytes are contiguous in what the reads deliver. */
  lemma {:induction false} Contiguous(moves: seq<Move>, p: State, i: nat)
    requires p == Run(moves) && i < |p.turns|
    ensures var from := |Joined(p.th, p.turns[..i])|;
            var piece := Piece(p.th, p.turns[i]);
            from + |piece| <= |Joined(p.th, p.copies)| && Joined(p.th, p.copies)[from..from + |piece|] == piece
  {
    InvOnEveryRun(moves);
    hide Run;
    hide CallOk;
    hide TakenOk;
    hide QueueOk;
    JoinedSnoc(p.th, p.turns[..i], p.turns[i]);
    assert p.turns[..i + 1] == p.turns[..i] + [p.turns[i]];
    JoinedPrefix(p.th, p.turns, i + 1);
    hide Joined;
    hide Inv;
    PrefixSlice(Joined(p.th, p.turns[..i]), Piece(p.th, p.turns[i]), Joined(p.th, p.turns), InFlight(p));
  }

  lemma PrefixSlice(a: bytes, b: bytes, c: bytes, d: bytes)
    requires a + b <= c
    ensures |a| + |b| <= |c + d| && (c + d)[|a|..|a| + |b|] == b
  {
    assert (a + b)[|a|..] == b;
  }

  lemma {:induction false} JoinedPrefix(th: map<nat, Thread>, ids: seq<nat>, i: nat)
    requires i <= |ids|
    ensures Joined(th, ids[..i]) <= Joined(th, ids)
  {
    if i == |ids| {
      assert ids[..i] == ids;
    } else {
      JoinedPrefix(th, ids[..|ids| - 1], i);
      assert ids[..|ids| - 1][..i] == ids[..i];
    }
  }

  /** At most one read is between receiving a slice and sending its count; until then the write that lent
      the slice has not returned, so its caller may not yet reuse the buffer. */
  lemma {:induction false} SliceIsStillLent(moves: seq<Move>, p: State, r: nat)
    requires p == Run(moves) && r in p.th && Busy(p.th[r])
    ensures forall u :: u in p.th && Busy(p.th[u]) ==> u == r
    ensures var w := p.th[r].src;
            && p.mutex == Some(w) && w in p.th && p.th[w].Writer? && p.th[w].ws.WAck? && p.th[w].n <= |p.th[w].b|
            && (p.th[r].rs.RGot? ==> p.th[r].rs.slice == p.th[w].b[p.th[w].n..])
            && p.th[r].data <= p.th[w].b[p.th[w].n..]
  {
    hide Run;
    InvOnEveryRun(moves);
    hide Joined;
    forall u | u in p.th && Busy(p.th[u]) ensures p.active == Some(u) {
      assert CallOk(p, u);
    }
    assert CallOk(p, r) && TakenOk(p, r);
  }

  // ---- Close errors ----

  /** What a call that failed may have returned: `own` is its own side's error, `other` the other's. */
  predicate FaultOk(f: Fault, own: Option<Fault>, other: Option<Fault>) {
    f == DeadlineExceeded || other == Some(f) || (f == ClosedPipe && own.Some?)
  }

  predicate LoadedOk(loaded: Option<Fault>, own: Option<Fault>, other: Option<Fault>) {
    if loaded.None? then other.Some? else own == loaded
  }

  ghost predicate ErrOk(p: State, t: nat)
    requires t in p.th
  {
    match p.th[t]
    case Reader(_, rs, _, _, _) =>
      && (rs.RLoadOwn? || rs.RLoadOther? ==> p.done)
      && (rs.RLoadOther? ==> LoadedOk(rs.own, p.rerr, p.werr))
      && (rs.RDone? && rs.outcome.Failed? ==> FaultOk(rs.outcome.fault, p.rerr, p.werr))
    case Writer(_, _, ws) =>
      && (ws.WLoadOwn? || ws.WLoadOther? ==> p.done)
      && (ws.WLoadOther? ==> LoadedOk(ws.own, p.werr, p.rerr))
      && (ws.WDone? && ws.outcome.Failed? ==> FaultOk(ws.outcome.fault, p.werr, p.rerr))
    case Closer(side, err, stored) => stored ==> if side.ReadSide? then p.rerr.Some? else p.werr.Some?
  }

  ghost predicate ErrInv(p: State) {
    && (p.done ==> p.rerr.Some? || p.werr.Some?)
    && forall t :: t in p.th ==> ErrOk(p, t)
  }

  predicate Grows(p: State, p': State) {
    && (p.done ==> p'.done) && (p.rerr.Some? ==> p'.rerr == p.rerr) && (p.werr.Some? ==> p'.werr == p.werr)
  }

  /** `onceError` keeps its first error and `done` stays closed. */
  lemma FirstErrorStays(p: State, m: Move)
    ensures Grows(p, Next(p, m))
  {
    hide NextPass;
    hide NextSeeDone;
    hide NextTimeOut;
    OthersKeepErrors(p, m);
  }

  lemma OthersKeepErrors(p: State, m: Move)
    ensures !m.Store? && !m.CloseDone? ==> var p' := Next(p, m); p'.done == p.done && p'.rerr == p.rerr && p'.werr == p.werr
  {
  }

  lemma ErrFrame(p: State, p': State, t: nat)
    requires t in p.th && t in p'.th && p.th[t] == p'.th[t] && Grows(p, p') && ErrOk(p, t)
    ensures ErrOk(p', t)
  {
  }

  /** Which calls a step can change. */
  predicate Moves(m: Move, t: nat) {
    match m
    case Meet(r, w) => t == r || t == w
    case Ack(r, w) => t == r || t == w
    case Copy(r) => t == r
    case _ => t == m.t
  }

  lemma OnlyMovers(p: State, m: Move, t: nat)
    requires !Moves(m, t)
    ensures t in Next(p, m).th <==> t in p.th
    ensures t in p.th ==> Next(p, m).th[t] == p.th[t]
  {
  }

  lemma MoverKeepsErr(p: State, m: Move, t: nat)
    requires (p.done ==> p.rerr.Some? || p.werr.Some?) && (t in p.th ==> ErrOk(p, t)) && Moves(m, t) && t in Next(p, m).th
    ensures ErrOk(Next(p, m), t)
  {
    match m
    case Meet(r, w) =>
    case Ack(r, w) =>
    case SeeDone(_) =>
    case LoadOwn(_) =>
    case LoadOther(_) =>
    case Store(_) =>
    case _ =>
  }

  lemma NextKeepsErrInv(p: State, m: Move)
    requires ErrInv(p)
    ensures ErrInv(Next(p, m))
  {
    FirstErrorStays(p, m);
    DoneNeedsError(p, m);
    hide Next;
    hide ErrOk;
    forall t | t in Next(p, m).th ensures ErrOk(Next(p, m), t) {
      if Moves(m, t) {
        MoverKeepsErr(p, m, t);
      } else {
        OnlyMovers(p, m, t);
        ErrFrame(p, Next(p, m), t);
      }
    }
  }

  lemma DoneNeedsError(p: State, m: Move)
    requires ErrInv(p)
    ensures var p' := Next(p, m); p'.done ==> p'.rerr.Some? || p'.werr.Some?
  {
    OthersKeepErrors(p, m);
    if m.CloseDone? && m.t in p.th {
      assert ErrOk(p, m.t);
    }
  }

  lemma {:induction false} ErrInvOnEveryRun(moves: seq<Move>)
    ensures ErrInv(Run(moves))
  {
    if moves == [] {
    } else {
      ErrInvOnEveryRun(moves[..|moves| - 1]);
      NextKeepsErrInv(Run(moves[..|moves| - 1]), moves[|moves| - 1]);
    }
  }

  /** Close errors. A read that fails because the pipe is closed returns the error the write side was
      closed with, or ErrClosedPipe if the read side has been closed as well; so as long as the read
      side is open it returns the write side's first error. Writes likewise with the sides swapped. */
  lemma {:induction false} CloseErrors(moves: seq<Move>, p: State, t: nat)
    requires p == Run(moves) && t in p.th
    ensures match p.th[t]
            case Reader(_, RDone(Failed(f)), _, _, _) =>
              FaultOk(f, p.rerr, p.werr) && (p.rerr == None && f != DeadlineExceeded ==> p.werr == Some(f))
            case Writer(_, _, WDone(Failed(f))) =>
              FaultOk(f, p.werr, p.rerr) && (p.werr == None && f != DeadlineExceeded ==> p.rerr == Some(f))
            case _ => true
  {
    hide Run;
    ErrInvOnEveryRun(moves);
    assert ErrOk(p, t);
  }
}
