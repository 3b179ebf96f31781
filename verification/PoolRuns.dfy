/** The session pool as a concurrent machine: any number of CreateStream calls, live streams, peers,
    cleanups and the client's close, interleaved. */
module PoolRuns {
  import opened Bytes
  import opened Options
  import opened Frames
  import opened SessionSpec
  import opened Logs
  import opened IdleList
  import opened SynOrder
  import Lifecycle
  import World

  /** One `CreateStream` call: past the check of `die`; found the pool empty and dialling; holding a
      session; or with stream `h` of it on the way. */
  datatype Call = Entered | Dialling | Holding(q: nat) | Opening(q: nat, h: nat)

  /** `made` holds every session ever created, `sessions` the client's map. `doomed` are the sessions a
      cleanup took out to close, `taken` those `Client.Close` took. */
  datatype Pool = Pool(idle: seq<Entry>, sessions: set<nat>, made: map<nat, Session>, counter: nat, dead: bool,
                       calls: map<nat, Call>, doomed: set<nat>, taken: set<nat>)

  const EMPTY: Pool := Pool([], {}, map[], 0, false, map[], {}, {})

  datatype Move =
    | Enter(t: nat)
    | Take(t: nat)
    | Create(t: nat, settings: Frame, raw: bytes, md5: bytes)
    | DialFails(t: nat)
    | Begin(t: nat)
    | Syn(t: nat)
    | Register(t: nat)
    | Hook(t: nat)
    | Act(n: nat, a: Action, now: int)
    | CleanUp(exp: int, minIdle: int, clock: int)
    | CloseClient

  predicate AnyHookRan(e: Session, f: Session) {
    exists h :: 0 <= h < |e.all| && h < |f.all| && f.all[h].hookRuns > e.all[h].hookRuns
  }

  /** What a session's step means to the pool: its own death takes it out; the death of its stream puts
      it back, unless the client is closed. */
  function Update(p: Pool, q: nat, f: Session, now: int): Pool
    requires q in p.made
  {
    var e, p' := p.made[q], p.(made := p.made[q := f]);
    if f.closed && !e.closed then p'.(idle := Remove(p.idle, q), sessions := p.sessions - {q})
    else if AnyHookRan(e, f) && !f.closed && !p.dead then p'.(idle := Insert(p.idle, Entry(q, now)))
    else p'
  }

  predicate Outside(a: Action) { !a.ABegin? && !a.ASyn? && !a.ARegister? && !a.AHook? && !a.AReport? }

  /** Users act on a stream only once `CreateStream` has returned it. */
  predicate Returned(p: Pool, q: nat, a: Action) {
    a.ACloseStream? || a.AWrite? ==> forall t :: t in p.calls ==> p.calls[t] != Opening(q, a.h)
  }

  function NextCreate(p: Pool, t: nat, settings: Frame, raw: bytes, md5: bytes): Pool {
    var q := p.counter + 1;
    p.(counter := q, sessions := p.sessions + {q}, calls := p.calls[t := Holding(q)],
       made := p.made[q := NewSession(true, raw, md5).(out := [settings])])
  }

  function NextBegin(p: Pool, t: nat, q: nat): Pool
    requires q in p.made
  {
    var e := p.made[q];
    if e.closed then p.(calls := p.calls - {t})
    else if !Enabled(e, ABegin) then p
    else p.(made := p.made[q := Next(e, ABegin)], calls := p.calls[t := Opening(q, |e.all|)])
  }

  function NextRegister(p: Pool, t: nat, q: nat, h: nat): Pool
    requires q in p.made
  {
    var e := p.made[q];
    if !Enabled(e, ARegister(h)) then p
    else if e.closed then p.(calls := p.calls - {t})
    else p.(made := p.made[q := Next(e, ARegister(h))])
  }

  function NextHook(p: Pool, t: nat, q: nat, h: nat): Pool
    requires q in p.made
  {
    if !Enabled(p.made[q], AHook(h)) then p
    else p.(made := p.made[q := Next(p.made[q], AHook(h))], calls := p.calls - {t})
  }

  function NextCleanUp(p: Pool, exp: int, minIdle: int, clock: int): Pool {
    var r := Sweep(p.idle, 0, exp, minIdle, clock);
    p.(idle := r.kept, doomed := p.doomed + set q | q in r.removed)
  }

  function NextMove(p: Pool, m: Move): Pool {
    match m
    case Enter(t) => if t !in p.calls && !p.dead then p.(calls := p.calls[t := Entered]) else p
    case Take(t) =>
      if t !in p.calls || p.calls[t] != Entered then p
      else if p.idle == [] then p.(calls := p.calls[t := Dialling])
      else p.(idle := p.idle[1..], calls := p.calls[t := Holding(p.idle[0].seqNo)])
    case Create(t, settings, raw, md5) =>
      if t in p.calls && p.calls[t] == Dialling && World.SettingsFrame(settings) then
        NextCreate(p, t, settings, raw, md5)
      else p
    case DialFails(t) => if t in p.calls && p.calls[t] == Dialling then p.(calls := p.calls - {t}) else p
    case Begin(t) =>
      if t in p.calls && p.calls[t].Holding? && p.calls[t].q in p.made then NextBegin(p, t, p.calls[t].q) else p
    case Syn(t) =>
      if t in p.calls && p.calls[t].Opening? && p.calls[t].q in p.made then
        p.(made := p.made[p.calls[t].q := Next(p.made[p.calls[t].q], ASyn(p.calls[t].h))])
      else p
    case Register(t) =>
      if t in p.calls && p.calls[t].Opening? && p.calls[t].q in p.made then
        NextRegister(p, t, p.calls[t].q, p.calls[t].h)
      else p
    case Hook(t) =>
      if t in p.calls && p.calls[t].Opening? && p.calls[t].q in p.made then NextHook(p, t, p.calls[t].q, p.calls[t].h) else p
    case Act(n, a, now) =>
      if n in p.made && Outside(a) && Returned(p, n, a) then Update(p, n, Next(p.made[n], a), now) else p
    case CleanUp(exp, minIdle, clock) => NextCleanUp(p, exp, minIdle, clock)
    case CloseClient => if p.dead then p else p.(dead := true, taken := p.sessions, sessions := {})
  }

  function Run(moves: seq<Move>): Pool {
    if moves == [] then EMPTY else NextMove(Run(moves[..|moves| - 1]), moves[|moves| - 1])
  }

  // ---- The invariant ----

  predicate InIdle(p: Pool, q: nat) {
    exists i :: 0 <= i < |p.idle| && p.idle[i].seqNo == q
  }

  predicate Uses(c: Call, q: nat) {
    c == Holding(q) || (c.Opening? && c.q == q)
  }

  predicate Held(p: Pool, q: nat) {
    exists t :: t in p.calls && Uses(p.calls[t], q)
  }

  /** The stream's lease is over: it died with its hook in place. */
  predicate Ended(r: StreamRec) { r.dead && r.hookRuns == 1 }

  predicate EndedBefore(e: Session, n: nat) {
    n <= |e.all| && forall h :: 0 <= h < n ==> Ended(e.all[h])
  }

  predicate AllEnded(e: Session) { EndedBefore(e, |e.all|) }

  /** A call's session is otherwise unused; a call's stream is the last one and has no hook yet. */
  predicate CallOk(e: Session, c: Call) {
    match c
    case Opening(_, h) => h + 1 == |e.all| && EndedBefore(e, h) && !e.all[h].hooked && e.all[h].hookRuns == 0
    case _ => AllEnded(e)
  }

  /** The last stream was returned to its user with its hook in place: leased while it lives, leaked if
      it died before the hook was set. */
  predicate LentOut(e: Session) {
    && e.all != [] && EndedBefore(e, |e.all| - 1)
    && var last := e.all[|e.all| - 1]; last.phase == Open && last.hooked
  }

  predicate SessionOk(e: Session) {
    Lifecycle.Inv(e) && e.isClient && ClientOk(e) && InOrder(e)
  }

  /** Where an open session is: in the pool, taken out by a cleanup, with one call, lent out, or, once
      the client is closed, waiting to be closed. */
  predicate Role(p: Pool, q: nat)
    requires q in p.made
  {
    var e := p.made[q];
    !e.closed ==>
      && (InIdle(p, q) || q in p.doomed ==> AllEnded(e))
      && (InIdle(p, q) ==> q !in p.doomed)
      && (forall t :: t in p.calls && Uses(p.calls[t], q) ==> !InIdle(p, q) && q !in p.doomed && CallOk(e, p.calls[t]))
      && (!InIdle(p, q) && q !in p.doomed && !Held(p, q) ==> LentOut(e) || (p.dead && AllEnded(e)))
  }

  ghost predicate CallsOk(p: Pool) {
    && (forall t, q :: t in p.calls && Uses(p.calls[t], q) ==> q in p.made)
    && (forall t, u, q :: t in p.calls && u in p.calls && Uses(p.calls[t], q) && Uses(p.calls[u], q) ==> t == u)
  }

  ghost predicate ListsOk(p: Pool) {
    && Ordered(p.idle)
    && (forall q :: InIdle(p, q) ==> q in p.made && !p.made[q].closed && (p.dead ==> q in p.taken))
    && (forall q :: q in p.made ==> q <= p.counter)
    && (forall q :: q in p.sessions ==> q in p.made && !p.made[q].closed)
    && (forall q :: q in p.made && !p.made[q].closed && !p.dead ==> q in p.sessions)
    && p.doomed <= p.made.Keys
  }

  ghost predicate Inv(p: Pool) {
    && ListsOk(p) && CallsOk(p)
    && (forall q :: q in p.made ==> SessionOk(p.made[q]))
    && (forall q :: q in p.made ==> Role(p, q))
  }

  // ---- Steps of one session ----

  /** How a stream may evolve in a step from outside `CreateStream`: it may die, once, and then its hook,
      if set, has run. */
  predicate Evolves(r: StreamRec, t: StreamRec) {
    && t.phase == r.phase
    && (r.dead ==> t.dead)
    && (r.dead == t.dead ==> t.hooked == r.hooked && t.hookRuns == r.hookRuns)
    && (!r.dead && t.dead ==> !t.hooked && t.hookRuns == r.hookRuns + if r.hooked then 1 else 0)
  }

  predicate AllEvolve(e: Session, f: Session) {
    |f.all| == |e.all| && forall h :: 0 <= h < |e.all| ==> Evolves(e.all[h], f.all[h])
  }

  lemma CloseEvolves(e: Session)
    ensures AllEvolve(e, Close(e))
  {
  }

  lemma CloseWithErrorEvolves(e: Session, h: nat)
    requires h < |e.all|
    ensures AllEvolve(e, CloseWithError(e, h))
  {
  }

  lemma HandleEvolves(e: Session, f: Frame)
    requires e.isClient && f.cmd != CMD_SYN
    ensures AllEvolve(e, HandleFrame(e, f))
  {
    hide AnnouncedMd5;
    hide AnnouncedVersion;
    if f.cmd == CMD_SYNACK {
      var t := e.(watchers := CancelWatch(e.watchers, e.synDone), synDone := None);
      if f.data != [] && f.sid in t.streams && t.streams[f.sid] < |t.all| {
        CloseWithErrorEvolves(t, t.streams[f.sid]);
      }
    } else if f.cmd == CMD_ALERT {
      CloseEvolves(e);
    }
  }

  lemma PendingEvolves(e: Session)
    requires SessionOk(e)
    ensures AllEvolve(e, Handle(e))
  {
    if e.pending.Some? {
      PendingNotSyn(e);
      hide SessionOk;
      hide HandleFrame;
      HandleEvolves(e.(pending := None, handled := e.handled + [e.pending.value]), e.pending.value);
    }
  }

  lemma WriteEvolves(e: Session, h: nat, data: bytes)
    requires h < |e.all|
    ensures AllEvolve(e, Write(e, h, data))
  {
  }

  lemma SameAllEvolve(e: Session, f: Session)
    requires f.all == e.all
    ensures AllEvolve(e, f)
  {
  }

  lemma FireEvolves(e: Session, w: nat)
    requires w < |e.watchers|
    ensures AllEvolve(e, Fire(e, w))
  {
    CloseEvolves(e.(watchers := e.watchers[w := Fired]));
    SameAllEvolve(e, e);
    hide Close;
  }

  lemma OutsideEvolves(e: Session, a: Action)
    requires SessionOk(e) && Outside(a)
    ensures AllEvolve(e, Next(e, a))
  {
    hide SessionOk;
    hide AllEvolve;
    hide CloseWithError;
    hide Close;
    hide Fire;
    hide Write;
    hide Handle;
    SameAllEvolve(e, e);
    if Enabled(e, a) {
      match a
      case ACloseStream(h) => CloseWithErrorEvolves(e, h);
      case AClose => CloseEvolves(e);
      case AFire(w) => FireEvolves(e, w);
      case AHandle => PendingEvolves(e);
      case AWrite(h, data) => WriteEvolves(e, h, data);
      case ARead(f) => SameAllEvolve(e, Read(e, f));
      case AReload(raw, md5) => SameAllEvolve(e, Perform(e, a));
    }
  }

  lemma SessionStepOk(e: Session, a: Action)
    requires SessionOk(e) && (a.ABegin? ==> NoOpenInProgress(e))
    ensures SessionOk(Next(e, a))
  {
    hide ClientOk;
    hide InOrder;
    hide Next;
    Lifecycle.NextKeepsInv(e, a);
    ClientNextOk(e, a);
    NextKeepsOrder(e, a);
  }

  lemma EndedAreOpen(e: Session)
    requires SessionOk(e) && AllEnded(e)
    ensures NoOpenInProgress(e)
  {
    forall h | 0 <= h < |e.all| ensures e.all[h].phase != Allocated {
      assert Ended(e.all[h]) && Lifecycle.StreamOk(e.all[h]);
    }
  }

  lemma EndedStays(e: Session, f: Session, n: nat)
    requires AllEvolve(e, f) && EndedBefore(e, n)
    ensures EndedBefore(f, n)
  {
    forall h | 0 <= h < n ensures Ended(f.all[h]) {
      assert Ended(e.all[h]) && Evolves(e.all[h], f.all[h]);
    }
  }

  /** A session whose streams have all ended, or whose last one has no hook, runs no hook. */
  lemma NoHookRuns(e: Session, f: Session)
    requires AllEvolve(e, f)
    requires AllEnded(e) || (e.all != [] && EndedBefore(e, |e.all| - 1) && !e.all[|e.all| - 1].hooked)
    ensures !AnyHookRan(e, f)
  {
    forall h | 0 <= h < |e.all| ensures f.all[h].hookRuns <= e.all[h].hookRuns {
      assert Evolves(e.all[h], f.all[h]);
      assert h < |e.all| - 1 || AllEnded(e) ==> Ended(e.all[h]);
    }
  }

  lemma LastIsOk(e: Session)
    requires SessionOk(e) && e.all != []
    ensures Lifecycle.StreamOk(e.all[|e.all| - 1])
  {
  }

  lemma EvolvesAt(e: Session, f: Session, h: nat)
    requires AllEvolve(e, f) && h < |e.all|
    ensures |f.all| == |e.all| && Evolves(e.all[h], f.all[h])
  {
  }

  lemma EndedOneMore(f: Session)
    requires f.all != [] && EndedBefore(f, |f.all| - 1) && Ended(f.all[|f.all| - 1])
    ensures AllEnded(f)
  {
  }

  /** A session lent out stays so, or its stream has died and its hook has run. */
  lemma LentOutEvolves(e: Session, f: Session)
    requires SessionOk(e) && AllEvolve(e, f) && LentOut(e)
    ensures if AnyHookRan(e, f) then AllEnded(f) else LentOut(f)
  {
    hide SessionOk;
    hide Lifecycle.StreamOk;
    hide AllEvolve;
    hide Evolves;
    hide EndedBefore;
    hide Ended;
    var n := |e.all| - 1;
    LastIsOk(e);
    EndedStays(e, f, n);
    EvolvesAt(e, f, n);
    LastEvolves(e.all[n], f.all[n]);
    OthersRunNoHook(e, f, n);
    if AnyHookRan(e, f) {
      hide AllEnded;
      var h :| 0 <= h < |e.all| && h < |f.all| && f.all[h].hookRuns > e.all[h].hookRuns;
      assert h == n;
      EndedOneMore(f);
    } else {
      assert !(f.all[n].hookRuns > e.all[n].hookRuns);
    }
  }

  lemma LastEvolves(r: StreamRec, t: StreamRec)
    requires Evolves(r, t) && r.hooked && Lifecycle.StreamOk(r)
    ensures if t.hookRuns > r.hookRuns then Ended(t) else t.hooked && t.phase == r.phase
  {
  }

  lemma OthersRunNoHook(e: Session, f: Session, n: nat)
    requires AllEvolve(e, f) && EndedBefore(e, n) && n + 1 == |e.all|
    ensures forall h :: 0 <= h < n ==> f.all[h].hookRuns <= e.all[h].hookRuns
    ensures |f.all| == |e.all|
  {
    forall h | 0 <= h < n ensures f.all[h].hookRuns <= e.all[h].hookRuns {
      assert Ended(e.all[h]) && Evolves(e.all[h], f.all[h]);
    }
  }

  // ---- Frames ----

  /** Nothing the role of `q` looks at has changed. */
  ghost predicate SameFor(p: Pool, p': Pool, q: nat) {
    && q in p.made && q in p'.made && p'.made[q] == p.made[q]
    && (InIdle(p', q) <==> InIdle(p, q)) && (q in p'.doomed <==> q in p.doomed) && (p.dead ==> p'.dead)
    && (forall t :: t in p'.calls && Uses(p'.calls[t], q) ==> t in p.calls && p.calls[t] == p'.calls[t])
    && (forall t :: t in p.calls && Uses(p.calls[t], q) ==> t in p'.calls && p'.calls[t] == p.calls[t])
  }

  lemma RoleFrame(p: Pool, p': Pool, q: nat)
    requires SameFor(p, p', q) && Role(p, q)
    ensures Role(p', q)
  {
    hide SessionOk;
    hide CallOk;
    hide LentOut;
    hide AllEnded;
    if Held(p, q) {
      var t :| t in p.calls && Uses(p.calls[t], q);
      assert t in p'.calls && Uses(p'.calls[t], q);
    }
  }

  lemma InIdleIff(p: Pool, p': Pool, q: nat)
    requires forall x: Entry :: x.seqNo == q ==> (x in p'.idle <==> x in p.idle)
    ensures InIdle(p', q) <==> InIdle(p, q)
  {
    if InIdle(p, q) {
      var i :| 0 <= i < |p.idle| && p.idle[i].seqNo == q;
      assert p.idle[i] in p'.idle;
    }
    if InIdle(p', q) {
      var i :| 0 <= i < |p'.idle| && p'.idle[i].seqNo == q;
      assert p'.idle[i] in p.idle;
    }
  }

  // ---- CreateStream ----

  /** A call comes, goes or changes phase without touching a session. */
  lemma CallKeepsInv(p: Pool, p': Pool, t: nat)
    requires Inv(p) && p' == p.(calls := p'.calls)
    requires t in p.calls ==> !p.calls[t].Holding? && !p.calls[t].Opening?
    requires p'.calls == p.calls - {t} || (t in p'.calls && p'.calls == p.calls[t := p'.calls[t]])
    requires t in p'.calls ==> !p'.calls[t].Holding? && !p'.calls[t].Opening?
    ensures Inv(p')
  {
    hide SessionOk;
    hide CallOk;
    hide LentOut;
    forall q | q in p'.made ensures Role(p', q) {
      assert SameFor(p, p', q);
      RoleFrame(p, p', q);
    }
  }

  /** Taking the first entry takes just its session out of the pool. */
  lemma TakeMembers(p: Pool, p': Pool)
    requires Ordered(p.idle) && p.idle != [] && p'.idle == p.idle[1..]
    ensures Ordered(p'.idle) && InIdle(p, p.idle[0].seqNo)
    ensures forall q :: InIdle(p', q) <==> InIdle(p, q) && q != p.idle[0].seqNo
  {
    assert p.idle[0] in p.idle;
    Member(p, p.idle[0]);
    forall q ensures InIdle(p', q) <==> InIdle(p, q) && q != p.idle[0].seqNo {
      if InIdle(p', q) {
        var i :| 0 <= i < |p'.idle| && p'.idle[i].seqNo == q;
        assert p.idle[i + 1].seqNo == q && Key(p.idle[0].seqNo) < Key(p.idle[i + 1].seqNo);
      }
      if InIdle(p, q) && q != p.idle[0].seqNo {
        var i :| 0 <= i < |p.idle| && p.idle[i].seqNo == q;
        assert p'.idle[i - 1].seqNo == q;
      }
    }
  }

  lemma TakeKeepsInv(p: Pool, t: nat)
    requires Inv(p) && t in p.calls && p.calls[t] == Entered && p.idle != []
    ensures Inv(NextMove(p, Take(t)))
  {
    hide SessionOk;
    hide InIdle;
    hide Role;
    hide Ordered;
    var n, p' := p.idle[0].seqNo, NextMove(p, Take(t));
    TakeMembers(p, p');
    TakeKeepsCalls(p, p', t, n);
    forall q | q in p'.made ensures Role(p', q) {
      TakeRole(p, p', t, n, q);
    }
  }

  lemma TakeKeepsCalls(p: Pool, p': Pool, t: nat, n: nat)
    requires CallsOk(p) && t in p.calls && p.calls[t] == Entered && InIdle(p, n)
    requires n in p.made && !p.made[n].closed && Role(p, n)
    requires p' == p.(idle := p'.idle, calls := p.calls[t := Holding(n)])
    ensures CallsOk(p')
  {
    hide InIdle;
    hide CallOk;
    hide LentOut;
    hide AllEnded;
    assert forall u :: u in p.calls ==> !Uses(p.calls[u], n);
  }

  lemma TakeRole(p: Pool, p': Pool, t: nat, n: nat, q: nat)
    requires q in p.made && Role(p, q) && t in p.calls && p.calls[t] == Entered && InIdle(p, n)
    requires p' == p.(idle := p'.idle, calls := p.calls[t := Holding(n)])
    requires InIdle(p', q) <==> InIdle(p, q) && q != n
    requires n == q ==> !p.made[n].closed
    ensures Role(p', q)
  {
    hide InIdle;
    hide LentOut;
    hide AllEnded;
    if q == n {
      assert t in p'.calls && Uses(p'.calls[t], n);
      assert Held(p', n);
      EndedCallOk(p.made[n], n);
    } else {
      hide CallOk;
      assert SameFor(p, p', q);
      RoleFrame(p, p', q);
    }
  }

  lemma FreshSessionOk(settings: Frame, raw: bytes, md5: bytes)
    requires World.SettingsFrame(settings)
    ensures SessionOk(NewSession(true, raw, md5).(out := [settings]))
  {
    var e := NewSession(true, raw, md5).(out := [settings]);
    World.StartClient(settings, e);
    SynIdsSnoc([], settings);
    assert [] + [settings] == [settings];
    assert SynIds(e.out) == [] == Upto(0);
  }

  lemma EndedCallOk(e: Session, q: nat)
    requires AllEnded(e)
    ensures CallOk(e, Holding(q))
  {
  }

  lemma FreshIsUnused(e: Session, q: nat)
    requires e.all == []
    ensures CallOk(e, Holding(q))
  {
  }

  lemma CreateKeepsLists(p: Pool, t: nat, settings: Frame, raw: bytes, md5: bytes)
    requires ListsOk(p)
    ensures ListsOk(NextCreate(p, t, settings, raw, md5)) && p.counter + 1 !in p.made && !InIdle(p, p.counter + 1)
  {
    hide Ordered;
    var p' := NextCreate(p, t, settings, raw, md5);
    forall q ensures InIdle(p', q) <==> InIdle(p, q) {
      InIdleIff(p, p', q);
    }
    assert p'.doomed <= p'.made.Keys;
  }

  lemma CreateKeepsCalls(p: Pool, t: nat, settings: Frame, raw: bytes, md5: bytes)
    requires CallsOk(p) && p.counter + 1 !in p.made
    ensures CallsOk(NextCreate(p, t, settings, raw, md5))
    ensures forall u :: u in p.calls ==> !Uses(p.calls[u], p.counter + 1)
  {
  }

  lemma CreateKeepsInv(p: Pool, t: nat, settings: Frame, raw: bytes, md5: bytes)
    requires Inv(p) && t in p.calls && p.calls[t] == Dialling && World.SettingsFrame(settings)
    ensures Inv(NextCreate(p, t, settings, raw, md5))
  {
    hide World.SettingsFrame;
    hide SessionOk;
    hide CallOk;
    hide LentOut;
    hide AllEnded;
    var n, p' := p.counter + 1, NextCreate(p, t, settings, raw, md5);
    FreshSessionOk(settings, raw, md5);
    FreshIsUnused(p'.made[n], n);
    CreateKeepsLists(p, t, settings, raw, md5);
    CreateKeepsCalls(p, t, settings, raw, md5);
    CreateRoles(p, p', t, n);
  }

  lemma CreateRoles(p: Pool, p': Pool, t: nat, n: nat)
    requires Inv(p) && t in p.calls && p.calls[t] == Dialling && n !in p.made && n in p'.made
    requires p' == p.(counter := n, sessions := p.sessions + {n}, calls := p.calls[t := Holding(n)],
               made := p.made[n := p'.made[n]])
    requires CallOk(p'.made[n], Holding(n)) && forall u :: u in p.calls ==> !Uses(p.calls[u], n)
    ensures forall q :: q in p'.made ==> Role(p', q)
  {
    hide SessionOk;
    hide CallOk;
    hide LentOut;
    hide AllEnded;
    assert n !in p.doomed && !InIdle(p, n);
    hide ListsOk;
    hide CallsOk;
    InIdleIff(p, p', n);
    assert Held(p', n) by {
      assert t in p'.calls && Uses(p'.calls[t], n);
    }
    hide InIdle;
    forall q | q in p.made ensures Role(p', q) {
      InIdleIff(p, p', q);
      RoleFrame(p, p', q);
    }
  }

  /** A call that holds `q` advances it, or lets it go; nothing else about the pool changes. */
  lemma CallStepKeepsInv(p: Pool, p': Pool, t: nat, q: nat)
    requires Inv(p) && t in p.calls && Uses(p.calls[t], q) && q in p.made && q in p'.made
    requires p' == p.(made := p.made[q := p'.made[q]], calls := p'.calls)
    requires p'.calls == p.calls - {t} || (t in p'.calls && p'.calls == p.calls[t := p'.calls[t]] && Uses(p'.calls[t], q))
    requires SessionOk(p'.made[q]) && p'.made[q].closed == p.made[q].closed
    requires !p.made[q].closed ==> if t in p'.calls then CallOk(p'.made[q], p'.calls[t]) else LentOut(p'.made[q])
    ensures Inv(p')
  {
    hide SessionOk;
    hide CallOk;
    hide LentOut;
    hide Role;
    hide ListsOk;
    hide CallsOk;
    hide InIdle;
    hide Uses;
    forall k ensures InIdle(p', k) <==> InIdle(p, k) {
      InIdleIff(p, p', k);
    }
    CallStepKeepsLists(p, p', q);
    CallStepKeepsCalls(p, p', t, q);
    CallStepRole(p, p', t, q);
    forall k | k in p'.made && k != q ensures Role(p', k) {
      CallStepFrame(p, p', t, q, k);
    }
  }

  lemma CallStepFrame(p: Pool, p': Pool, t: nat, q: nat, k: nat)
    requires t in p.calls && Uses(p.calls[t], q) && q in p.made && q in p'.made && k in p.made && k != q && Role(p, k)
    requires p' == p.(made := p.made[q := p'.made[q]], calls := p'.calls)
    requires p'.calls == p.calls - {t} || (t in p'.calls && p'.calls == p.calls[t := p'.calls[t]] && Uses(p'.calls[t], q))
    requires InIdle(p', k) <==> InIdle(p, k)
    ensures Role(p', k)
  {
    hide InIdle;
    hide Role;
    assert SameFor(p, p', k);
    RoleFrame(p, p', k);
  }

  lemma CallStepRole(p: Pool, p': Pool, t: nat, q: nat)
    requires CallsOk(p) && t in p.calls && Uses(p.calls[t], q) && q in p.made && q in p'.made && Role(p, q)
    requires p'.calls == p.calls - {t} || (t in p'.calls && p'.calls == p.calls[t := p'.calls[t]] && Uses(p'.calls[t], q))
    requires p'.doomed == p.doomed && p'.dead == p.dead && (InIdle(p', q) <==> InIdle(p, q))
    requires p'.made[q].closed == p.made[q].closed
    requires !p.made[q].closed ==> if t in p'.calls then CallOk(p'.made[q], p'.calls[t]) else LentOut(p'.made[q])
    ensures Role(p', q)
  {
    hide CallOk;
    hide LentOut;
    hide AllEnded;
    hide InIdle;
    assert t in p'.calls ==> Held(p', q);
  }

  lemma CallStepKeepsLists(p: Pool, p': Pool, q: nat)
    requires ListsOk(p) && q in p.made && q in p'.made && p'.made[q].closed == p.made[q].closed
    requires p' == p.(made := p.made[q := p'.made[q]], calls := p'.calls)
    requires forall k :: InIdle(p', k) <==> InIdle(p, k)
    ensures ListsOk(p')
  {
    hide InIdle;
    hide Ordered;
    assert p'.made.Keys == p.made.Keys;
  }

  lemma CallStepKeepsCalls(p: Pool, p': Pool, t: nat, q: nat)
    requires CallsOk(p) && t in p.calls && Uses(p.calls[t], q) && p.made.Keys <= p'.made.Keys
    requires p'.calls == p.calls - {t} || (t in p'.calls && p'.calls == p.calls[t := p'.calls[t]] && Uses(p'.calls[t], q))
    ensures CallsOk(p')
  {
  }

  lemma BeginOk(e: Session, q: nat)
    requires SessionOk(e) && CallOk(e, Holding(q)) && !e.closed && Enabled(e, ABegin)
    ensures var f := Next(e, ABegin);
            SessionOk(f) && CallOk(f, Opening(q, |e.all|)) && !f.closed
  {
    hide SessionOk;
    hide Next;
    hide NoOpenInProgress;
    EndedAreOpen(e);
    SessionStepOk(e, ABegin);
    BeginAdds(e);
    NewestIsOpening(e, Next(e, ABegin), q);
  }

  lemma NewestIsOpening(e: Session, f: Session, q: nat)
    requires AllEnded(e) && f.all == e.all + [NewStream(e.lastId + 1, Allocated)]
    ensures CallOk(f, Opening(q, |e.all|))
  {
    forall h | 0 <= h < |e.all| ensures Ended(f.all[h]) {
      assert Ended(e.all[h]);
    }
  }

  lemma BeginAdds(e: Session)
    requires !e.closed && Enabled(e, ABegin)
    ensures Next(e, ABegin).all == e.all + [NewStream(e.lastId + 1, Allocated)] && !Next(e, ABegin).closed
  {
  }

  lemma BeginKeepsInv(p: Pool, t: nat, q: nat)
    requires Inv(p) && t in p.calls && p.calls[t] == Holding(q) && q in p.made
    ensures Inv(NextBegin(p, t, q))
  {
    hide SessionOk;
    hide CallOk;
    hide LentOut;
    hide AllEnded;
    hide Next;
    hide ListsOk;
    hide CallsOk;
    var e, p' := p.made[q], NextBegin(p, t, q);
    assert Role(p, q);
    hide Inv;
    if e.closed {
      assert p'.made == p.made[q := p.made[q]];
      InvSession(p, q);
      CallStepKeepsInv(p, p', t, q);
    } else if Enabled(e, ABegin) {
      InvSession(p, q);
      BeginOk(e, q);
      CallStepKeepsInv(p, p', t, q);
    }
  }

  lemma InvSession(p: Pool, q: nat)
    requires Inv(p) && q in p.made
    ensures SessionOk(p.made[q]) && Role(p, q)
  {
  }

  lemma CallFacts(p: Pool, t: nat, q: nat)
    requires Inv(p) && t in p.calls && Uses(p.calls[t], q)
    ensures q in p.made && SessionOk(p.made[q])
    ensures !p.made[q].closed ==> CallOk(p.made[q], p.calls[t]) && !InIdle(p, q) && q !in p.doomed
    ensures forall u :: u in p.calls && Uses(p.calls[u], q) ==> u == t
  {
    hide SessionOk;
    hide CallOk;
    hide LentOut;
    hide AllEnded;
    hide InIdle;
    hide ListsOk;
    assert q in p.made && Role(p, q);
  }

  /** Steps of `OpenStream` on the call's own stream `h`. */
  lemma OpeningKeepsCallOk(e: Session, q: nat, h: nat, a: Action)
    requires CallOk(e, Opening(q, h)) && !e.closed && (a == ASyn(h) || a == ARegister(h))
    ensures CallOk(Next(e, a), Opening(q, h)) && !Next(e, a).closed
  {
  }

  lemma OpenStepsKeepClosed(e: Session, a: Action)
    requires a.ASyn? || a.ARegister? || a.AHook?
    ensures Next(e, a).closed == e.closed
  {
  }

  lemma SynRegisterKeepInv(p: Pool, t: nat, q: nat, h: nat, a: Action)
    requires Inv(p) && t in p.calls && p.calls[t] == Opening(q, h) && q in p.made
    requires a == ASyn(h) || a == ARegister(h)
    ensures Inv(p.(made := p.made[q := Next(p.made[q], a)]))
    ensures p.made[q].closed ==> Inv(p.(calls := p.calls - {t}))
  {
    hide SessionOk;
    hide LentOut;
    hide AllEnded;
    hide ListsOk;
    hide CallsOk;
    hide Next;
    hide CallOk;
    var e, p' := p.made[q], p.(made := p.made[q := Next(p.made[q], a)]);
    InvSession(p, q);
    hide Inv;
    SessionStepOk(e, a);
    OpenStepsKeepClosed(e, a);
    if !e.closed {
      OpeningKeepsCallOk(e, q, h, a);
    } else {
      var p2 := p.(calls := p.calls - {t});
      assert p2.made == p.made[q := p.made[q]];
      CallStepKeepsInv(p, p2, t, q);
    }
    assert p'.calls == p.calls[t := p'.calls[t]];
    CallStepKeepsInv(p, p', t, q);
  }

  lemma HookKeepsInv(p: Pool, t: nat, q: nat, h: nat)
    requires Inv(p) && t in p.calls && p.calls[t] == Opening(q, h) && q in p.made
    ensures Inv(NextHook(p, t, q, h))
  {
    hide SessionOk;
    hide LentOut;
    hide AllEnded;
    hide ListsOk;
    hide CallsOk;
    hide Next;
    hide CallOk;
    var e, p' := p.made[q], NextHook(p, t, q, h);
    if Enabled(e, AHook(h)) {
      InvSession(p, q);
      hide Inv;
      SessionStepOk(e, AHook(h));
      OpenStepsKeepClosed(e, AHook(h));
      if !e.closed {
        HookLends(e, q, h);
      }
      CallStepKeepsInv(p, p', t, q);
    }
  }

  lemma HookLends(e: Session, q: nat, h: nat)
    requires CallOk(e, Opening(q, h)) && Enabled(e, AHook(h))
    ensures LentOut(Next(e, AHook(h)))
  {
    var f := Next(e, AHook(h));
    assert forall k :: 0 <= k < h ==> f.all[k] == e.all[k] && Ended(e.all[k]);
  }

  // ---- Everything else ----

  lemma ActKeepsInv(p: Pool, n: nat, a: Action, now: int)
    requires Inv(p) && n in p.made && Outside(a)
    ensures Inv(Update(p, n, Next(p.made[n], a), now))
  {
    hide Next;
    var e, f := p.made[n], Next(p.made[n], a);
    OutsideEvolves(e, a);
    SessionStepOk(e, a);
    ClosedStays(e, a);
    UpdateKeepsInv(p, n, f, now);
  }

  lemma ClosedStays(e: Session, a: Action)
    ensures e.closed ==> Next(e, a).closed
  {
    Lifecycle.DeathAndCloseAreFinal(e, a);
  }

  lemma UpdateKeepsInv(p: Pool, n: nat, f: Session, now: int)
    requires Inv(p) && n in p.made && AllEvolve(p.made[n], f) && SessionOk(f) && (p.made[n].closed ==> f.closed)
    ensures Inv(Update(p, n, f, now))
  {
    hide SessionOk;
    hide AllEvolve;
    hide CallOk;
    hide LentOut;
    hide AllEnded;
    hide ListsOk;
    hide InIdle;
    hide AnyHookRan;
    var e, p' := p.made[n], Update(p, n, f, now);
    UpdateIdle(p, n, f, now);
    hide Update;
    forall k | k in p'.made && k != n ensures Role(p', k) {
      assert SameFor(p, p', k);
      RoleFrame(p, p', k);
    }
    if !f.closed {
      InvSession(p, n);
      RoleAfter(p, p', n, f);
    }
  }

  /** What a session's step does to the lists. */
  lemma UpdateIdle(p: Pool, n: nat, f: Session, now: int)
    requires ListsOk(p) && n in p.made && (p.made[n].closed ==> f.closed)
    ensures var p' := Update(p, n, f, now);
            && ListsOk(p') && p'.calls == p.calls && p'.doomed == p.doomed && p'.dead == p.dead
            && p'.made == p.made[n := f]
            && (forall k :: k != n ==> (InIdle(p', k) <==> InIdle(p, k)))
            && (!f.closed ==> (InIdle(p', n) <==> InIdle(p, n) || (AnyHookRan(p.made[n], f) && !p.dead)))
  {
    hide AnyHookRan;
    var p' := Update(p, n, f, now);
    UpdateMembers(p, n, f, now);
    InsertFacts(p.idle, Entry(n, now));
    RemoveFacts(p.idle, n);
    hide Insert;
    hide Remove;
    hide InIdle;
    hide Ordered;
    UpdateKeepsLists(p, p', n, f);
  }

  lemma UpdateKeepsLists(p: Pool, p': Pool, n: nat, f: Session)
    requires ListsOk(p) && n in p.made && (p.made[n].closed ==> f.closed) && Ordered(p'.idle)
    requires p' == p.(made := p.made[n := f], idle := p'.idle, sessions := p'.sessions)
    requires p'.sessions == if f.closed && !p.made[n].closed then p.sessions - {n} else p.sessions
    requires forall k :: k != n ==> (InIdle(p', k) <==> InIdle(p, k))
    requires InIdle(p', n) ==> !f.closed && (InIdle(p, n) || !p.dead)
    ensures ListsOk(p')
  {
    hide InIdle;
    hide Ordered;
    assert p'.made.Keys == p.made.Keys;
    forall k | InIdle(p', k) ensures k in p'.made && !p'.made[k].closed && (p'.dead ==> k in p'.taken) {
      assert k != n ==> InIdle(p, k);
    }
  }

  lemma UpdateMembers(p: Pool, n: nat, f: Session, now: int)
    requires ListsOk(p) && n in p.made && (p.made[n].closed ==> f.closed)
    ensures var p' := Update(p, n, f, now);
            && (forall k :: k != n ==> (InIdle(p', k) <==> InIdle(p, k)))
            && (InIdle(p', n) <==> !f.closed && (InIdle(p, n) || (AnyHookRan(p.made[n], f) && !p.dead)))
  {
    hide AnyHookRan;
    hide Insert;
    hide Remove;
    var p' := Update(p, n, f, now);
    InsertFacts(p.idle, Entry(n, now));
    RemoveFacts(p.idle, n);
    forall k | k != n ensures InIdle(p', k) <==> InIdle(p, k) {
      hide ListsOk;
      InIdleIff(p, p', k);
    }
    assert InIdle(p, n) ==> !p.made[n].closed;
    hide ListsOk;
    if f.closed && !p.made[n].closed {
      NotMember(p', n);
    } else if AnyHookRan(p.made[n], f) && !f.closed && !p.dead {
      Member(p', Entry(n, now));
    } else {
      InIdleIff(p, p', n);
    }
  }

  lemma NotMember(p: Pool, n: nat)
    requires forall x: Entry :: x in p.idle ==> x.seqNo != n
    ensures !InIdle(p, n)
  {
  }

  lemma Member(p: Pool, x: Entry)
    requires x in p.idle
    ensures InIdle(p, x.seqNo)
  {
  }

  lemma RoleAfter(p: Pool, p': Pool, n: nat, f: Session)
    requires n in p.made && Role(p, n) && CallsOk(p)
    requires AllEvolve(p.made[n], f) && SessionOk(p.made[n]) && SessionOk(f) && !f.closed && !p.made[n].closed
    requires p'.calls == p.calls && p'.doomed == p.doomed && p'.dead == p.dead && p'.made == p.made[n := f]
    requires InIdle(p', n) <==> InIdle(p, n) || (AnyHookRan(p.made[n], f) && !p.dead)
    ensures Role(p', n)
  {
    hide SessionOk;
    hide AllEvolve;
    hide CallOk;
    hide LentOut;
    hide InIdle;
    hide AnyHookRan;
    var e := p.made[n];
    assert Held(p', n) <==> Held(p, n);
    if Held(p, n) {
      var t :| t in p.calls && Uses(p.calls[t], n);
      HeldStays(e, f, p.calls[t]);
      assert forall u :: u in p'.calls && Uses(p'.calls[u], n) ==> u == t;
    } else if LentOut(e) && !InIdle(p, n) && n !in p.doomed {
      LentOutEvolves(e, f);
    } else {
      AllEndedStays(e, f);
    }
  }

  lemma AllEndedStays(e: Session, f: Session)
    requires AllEvolve(e, f) && AllEnded(e)
    ensures AllEnded(f) && !AnyHookRan(e, f)
  {
    EndedStays(e, f, |e.all|);
    NoHookRuns(e, f);
  }

  lemma HeldStays(e: Session, f: Session, c: Call)
    requires AllEvolve(e, f) && CallOk(e, c)
    ensures CallOk(f, c) && !AnyHookRan(e, f)
  {
    match c
    case Opening(_, h) =>
      EndedStays(e, f, h);
      NoHookRuns(e, f);
      assert Evolves(e.all[h], f.all[h]);
    case _ =>
      EndedStays(e, f, |e.all|);
      NoHookRuns(e, f);
  }

  lemma CleanUpKeepsInv(p: Pool, exp: int, minIdle: int, clock: int)
    requires Inv(p)
    ensures Inv(NextCleanUp(p, exp, minIdle, clock))
  {
    hide Role;
    hide SessionOk;
    hide InIdle;
    hide Ordered;
    var p' := NextCleanUp(p, exp, minIdle, clock);
    var removed := Sweep(p.idle, 0, exp, minIdle, clock).removed;
    CleanupCorrect(p.idle, exp, minIdle, clock);
    forall q: nat ensures InIdle(p', q) <==> InIdle(p, q) && q !in removed
                  ensures q in removed ==> InIdle(p, q) {
      SweepParts(p, p', q, exp, minIdle, clock);
    }
    hide Sweep;
    CleanUpLists(p, p', removed);
    CleanUpRoles(p, p', removed);
  }

  /** `removed` moves from the idle list to the sessions to close. */
  ghost predicate Moved(p: Pool, p': Pool, removed: seq<nat>) {
    && p' == p.(idle := p'.idle, doomed := p.doomed + set q | q in removed)
    && (forall q: nat :: InIdle(p', q) <==> InIdle(p, q) && q !in removed)
    && (forall q :: q in removed ==> InIdle(p, q))
  }

  lemma CleanUpLists(p: Pool, p': Pool, removed: seq<nat>)
    requires ListsOk(p) && Ordered(p'.idle) && Moved(p, p', removed)
    ensures ListsOk(p')
  {
    hide InIdle;
    hide Ordered;
    assert forall q :: q in removed ==> q in p.made;
  }

  lemma CleanUpRoles(p: Pool, p': Pool, removed: seq<nat>)
    requires Inv(p) && Moved(p, p', removed)
    ensures CallsOk(p') && forall q :: q in p'.made ==> SessionOk(p'.made[q]) && Role(p', q)
  {
    hide SessionOk;
    hide CallOk;
    hide LentOut;
    hide AllEnded;
    hide InIdle;
    hide ListsOk;
    forall q | q in p'.made ensures Role(p', q) {
      hide CallsOk;
      assert Role(p, q);
      assert Held(p', q) <==> Held(p, q);
    }
  }

  /** What stays in the pool was there and does not go. */
  lemma KeptDoesNotGo(list: seq<Entry>, kept: seq<Entry>, j: nat, exp: int, minIdle: int, clock: int)
    requires Ordered(list) && j < |kept|
    requires forall x :: x in kept <==>
               exists i :: 0 <= i < |list| && !Goes(list, i, exp, minIdle) && x == Refreshed(list[i], exp, clock)
    ensures exists i :: 0 <= i < |list| && list[i].seqNo == kept[j].seqNo
    ensures forall k :: 0 <= k < |list| && Goes(list, k, exp, minIdle) ==> list[k].seqNo != kept[j].seqNo
  {
    hide Goes;
    assert kept[j] in kept;
    var i :| 0 <= i < |list| && !Goes(list, i, exp, minIdle) && kept[j] == Refreshed(list[i], exp, clock);
    assert list[i].seqNo == kept[j].seqNo;
    forall k | 0 <= k < |list| && Goes(list, k, exp, minIdle) ensures list[k].seqNo != kept[j].seqNo {
      assert k < i ==> Key(list[k].seqNo) < Key(list[i].seqNo);
      assert i < k ==> Key(list[i].seqNo) < Key(list[k].seqNo);
    }
  }

  lemma SweepParts(p: Pool, p': Pool, q: nat, exp: int, minIdle: int, clock: int)
    requires Ordered(p.idle) && p' == NextCleanUp(p, exp, minIdle, clock)
    ensures var r := Sweep(p.idle, 0, exp, minIdle, clock);
            && (InIdle(p', q) ==> InIdle(p, q) && q !in r.removed)
            && (InIdle(p, q) ==> InIdle(p', q) || q in r.removed)
            && (q in r.removed ==> InIdle(p, q))
  {
    hide Sweep;
    hide Ordered;
    hide Goes;
    var r := Sweep(p.idle, 0, exp, minIdle, clock);
    CleanupCorrect(p.idle, exp, minIdle, clock);
    if InIdle(p', q) {
      var j :| 0 <= j < |r.kept| && r.kept[j].seqNo == q;
      KeptDoesNotGo(p.idle, r.kept, j, exp, minIdle, clock);
    }
    if InIdle(p, q) {
      var i :| 0 <= i < |p.idle| && p.idle[i].seqNo == q;
      if !Goes(p.idle, i, exp, minIdle) {
        assert Refreshed(p.idle[i], exp, clock) in r.kept;
      }
    }
  }

  lemma CloseClientKeepsInv(p: Pool)
    requires Inv(p)
    ensures Inv(NextMove(p, CloseClient))
  {
    hide SessionOk;
    hide CallOk;
    hide LentOut;
    var p' := NextMove(p, CloseClient);
    forall q ensures InIdle(p', q) <==> InIdle(p, q) {
      InIdleIff(p, p', q);
    }
    forall q | q in p'.made ensures Role(p', q) {
      assert SameFor(p, p', q);
      RoleFrame(p, p', q);
    }
  }

  lemma NextKeepsInv(p: Pool, m: Move)
    requires Inv(p)
    ensures Inv(NextMove(p, m))
  {
    match m
    case Enter(t) =>
      if t !in p.calls && !p.dead { CallKeepsInv(p, NextMove(p, m), t); }
    case Take(t) =>
      if t in p.calls && p.calls[t] == Entered {
        if p.idle == [] { CallKeepsInv(p, NextMove(p, m), t); } else { TakeKeepsInv(p, t); }
      }
    case Create(t, settings, raw, md5) =>
      if t in p.calls && p.calls[t] == Dialling && World.SettingsFrame(settings) {
        CreateKeepsInv(p, t, settings, raw, md5);
      }
    case DialFails(t) =>
      if t in p.calls && p.calls[t] == Dialling { CallKeepsInv(p, NextMove(p, m), t); }
    case CleanUp(exp, minIdle, clock) => CleanUpKeepsInv(p, exp, minIdle, clock);
    case CloseClient => CloseClientKeepsInv(p);
    case _ => SessionMoveKeepsInv(p, m);
  }

  lemma SessionMoveKeepsInv(p: Pool, m: Move)
    requires Inv(p) && (m.Begin? || m.Syn? || m.Register? || m.Hook? || m.Act?)
    ensures Inv(NextMove(p, m))
  {
    hide Inv;
    hide Update;
    hide NextBegin;
    hide NextHook;
    match m
    case Begin(t) =>
      if t in p.calls && p.calls[t].Holding? && p.calls[t].q in p.made { BeginKeepsInv(p, t, p.calls[t].q); }
    case Syn(t) =>
      if t in p.calls && p.calls[t].Opening? && p.calls[t].q in p.made {
        SynRegisterKeepInv(p, t, p.calls[t].q, p.calls[t].h, ASyn(p.calls[t].h));
      }
    case Register(t) =>
      if t in p.calls && p.calls[t].Opening? && p.calls[t].q in p.made {
        SynRegisterKeepInv(p, t, p.calls[t].q, p.calls[t].h, ARegister(p.calls[t].h));
      }
    case Hook(t) =>
      if t in p.calls && p.calls[t].Opening? && p.calls[t].q in p.made { HookKeepsInv(p, t, p.calls[t].q, p.calls[t].h); }
    case Act(n, a, now) =>
      if n in p.made && Outside(a) && Returned(p, n, a) { ActKeepsInv(p, n, a, now); }
  }

  lemma {:induction false} InvOnEveryRun(moves: seq<Move>)
    ensures Inv(Run(moves))
  {
    if moves == [] {
    } else {
      InvOnEveryRun(moves[..|moves| - 1]);
      NextKeepsInv(Run(moves[..|moves| - 1]), moves[|moves| - 1]);
    }
  }

  // ---- What follows ----

  /** The one live stream a session is leased to. */
  predicate Leased(e: Session, h: nat) {
    h < |e.all| && e.all[h].phase == Open && !e.all[h].dead && e.all[h].hooked
  }

  /** The session's last stream died before `CreateStream` installed its hook. */
  predicate Leaked(e: Session) {
    e.all != [] && e.all[|e.all| - 1].dead && e.all[|e.all| - 1].hookRuns == 0
  }

  /** An open session of an open client is in the client's map and in exactly one place: idle, or taken
      out by a cleanup, or with exactly one CreateStream call, or leased to exactly one live stream;
      unless its last stream died before its hook was installed, and then it is in none of them. */
  ghost predicate InOnePlace(p: Pool, q: nat)
    requires q in p.made
  {
    var e := p.made[q];
    && q in p.sessions
    && (InIdle(p, q) ==> q !in p.doomed && !Held(p, q) && forall h :: !Leased(e, h))
    && (q in p.doomed ==> !Held(p, q) && forall h :: !Leased(e, h))
    && (Held(p, q) ==> forall h :: !Leased(e, h))
    && (forall t, u :: t in p.calls && u in p.calls && Uses(p.calls[t], q) && Uses(p.calls[u], q) ==> t == u)
    && (forall h, k :: Leased(e, h) && Leased(e, k) ==> h == k)
    && (!InIdle(p, q) && q !in p.doomed && !Held(p, q) ==> ((exists h :: Leased(e, h)) <==> !Leaked(e)))
  }

  /** The lease invariant, in every reachable state. */
  lemma {:induction false} PoolLease(moves: seq<Move>, p: Pool, q: nat)
    requires p == Run(moves) && q in p.made && !p.made[q].closed && !p.dead
    ensures InOnePlace(p, q)
  {
    hide Run;
    InvOnEveryRun(moves);
    LeaseFacts(p, q);
  }

  /** The idle list has each session once, newest first; all of them are open and, while the client is,
      in its map. */
  lemma IdleSessionsAreOpen(moves: seq<Move>)
    ensures var p := Run(moves);
            && Ordered(p.idle)
            && forall q :: InIdle(p, q) ==> q in p.made && !p.made[q].closed && (!p.dead ==> q in p.sessions)
  {
    hide Run;
    InvOnEveryRun(moves);
    hide SessionOk;
    hide Role;
    hide CallsOk;
    hide InIdle;
    hide Ordered;
  }

  lemma LeaseFacts(p: Pool, q: nat)
    requires Inv(p) && q in p.made && !p.made[q].closed && !p.dead
    ensures InOnePlace(p, q)
  {
    hide SessionOk;
    hide CallOk;
    hide LentOut;
    hide AllEnded;
    hide Leased;
    hide Leaked;
    var e := p.made[q];
    InvSession(p, q);
    forall h | Leased(e, h) ensures !AllEnded(e) && h == |e.all| - 1 {
      if AllEnded(e) {
        EndedNotLeased(e, h);
      } else if LentOut(e) {
        LentOutFacts(e);
      } else {
        assert Held(p, q);
        var t :| t in p.calls && Uses(p.calls[t], q);
        CallNotLeased(e, p.calls[t], h);
      }
    }
    forall h, t | Leased(e, h) && t in p.calls && Uses(p.calls[t], q) ensures false {
      CallNotLeased(e, p.calls[t], h);
    }
    if !InIdle(p, q) && q !in p.doomed && !Held(p, q) {
      LentOutFacts(e);
    }
  }

  lemma EndedNotLeased(e: Session, h: nat)
    requires AllEnded(e)
    ensures !Leased(e, h)
  {
    assert h < |e.all| ==> Ended(e.all[h]);
  }

  lemma CallNotLeased(e: Session, c: Call, h: nat)
    requires CallOk(e, c)
    ensures !Leased(e, h)
  {
    assert h < |e.all| - 1 || (h < |e.all| && !c.Opening?) ==> Ended(e.all[h]);
  }

  lemma LentOutFacts(e: Session)
    requires SessionOk(e) && LentOut(e)
    ensures forall h: nat :: Leased(e, h) ==> h == |e.all| - 1
    ensures (exists h: nat :: Leased(e, h)) <==> !Leaked(e)
    ensures !AllEnded(e)
  {
    var last := |e.all| - 1;
    assert Lifecycle.StreamOk(e.all[last]);
    forall h: nat | Leased(e, h) ensures h == last {
      assert h < last ==> Ended(e.all[h]);
    }
    assert Leased(e, last) <==> !e.all[last].dead;
    assert !Ended(e.all[last]);
  }

  /** A frame by which the peer ends stream `sid`: a FIN, or a SYNACK that reports an error. */
  predicate Kills(f: Frame, sid: nat) {
    WellFormed(f) && f.sid == sid && (f.cmd == CMD_FIN || (f.cmd == CMD_SYNACK && f.data != []))
  }

  /** How a session leaks: the peer ends the stream that a call has just registered, before the call
      installs the hook. The call then returns a dead stream, and the session, still open, is in no
      place from which the pool could ever reuse or clean it up. */
  lemma DeathBeforeHookLeaks(p: Pool, t: nat, q: nat, h: nat, f: Frame, now: int)
    requires Inv(p) && t in p.calls && p.calls[t] == Opening(q, h)
    requires q in p.made && !p.made[q].closed && p.made[q].pending == None
    requires h < |p.made[q].all| && p.made[q].all[h].phase == Open && !p.made[q].all[h].dead && Kills(f, p.made[q].all[h].id)
    ensures var p' := NextMove(NextMove(NextMove(p, Act(q, ARead(f), now)), Act(q, AHandle, now)), Hook(t));
            && q in p'.made && !p'.made[q].closed && Leaked(p'.made[q])
            && !InIdle(p', q) && q !in p'.doomed && !Held(p', q)
  {
    hide NextMove;
    var p1 := NextMove(p, Act(q, ARead(f), now));
    var p2 := NextMove(p1, Act(q, AHandle, now));
    NextKeepsInv(p, Act(q, ARead(f), now));
    NextKeepsInv(p1, Act(q, AHandle, now));
    CallFacts(p, t, q);
    hide Inv;
    DeathArrives(p.made[q], h, f);
    hide SessionOk;
    hide CallOk;
    hide Next;
    ActKeepsCalls(p, q, ARead(f), now);
    ActKeepsCalls(p1, q, AHandle, now);
    HookOnDead(p2, t, q, h);
  }

  /** The calls up to the registration of the first stream of a fresh pool's first session. */
  function OpeningMoves(settings: Frame, raw: bytes, md5: bytes): seq<Move> {
    [Enter(0), Take(0), Create(0, settings, raw, md5), Begin(0), Syn(0), Register(0)]
  }

  /** The user gets that stream and closes it; the pool hands its session to the next call. */
  function ReusingMoves(now: int): seq<Move> {
    [Hook(0), Act(1, ACloseStream(0), now), Enter(0), Take(0), Begin(0), Syn(0), Register(0)]
  }

  /** The leak on a run from the empty pool: a session is used and pooled; the next call writes its SYN and
      registers its stream; the peer's SYNACK reports an error, is read and handled; and only then the
      call installs its hook. */
  lemma {:induction false} ReusedSessionLeaks(settings: Frame, raw: bytes, md5: bytes, now: int, error: bytes, p: Pool)
    requires World.SettingsFrame(settings) && 0 < |error| < U16_LIMIT
    requires var f := Frame(CMD_SYNACK, 2, error);
             p == Run(OpeningMoves(settings, raw, md5) + ReusingMoves(now)
                      + [Act(1, ARead(f), now), Act(1, AHandle, now), Hook(0)])
    ensures 1 in p.made && !p.made[1].closed && Leaked(p.made[1])
    ensures !InIdle(p, 1) && 1 !in p.doomed && !Held(p, 1)
  {
    hide NextMove;
    hide Inv;
    hide Run;
    var f, moves := Frame(CMD_SYNACK, 2, error), OpeningMoves(settings, raw, md5) + ReusingMoves(now);
    InvOnEveryRun(moves);
    OpenedAlone(settings, raw, md5);
    Reused(OpeningMoves(settings, raw, md5), now);
    DeathBeforeHookLeaks(Run(moves), 0, 1, 1, f, now);
    RunMoves(moves, Act(1, ARead(f), now), Act(1, AHandle, now), Hook(0));
  }

  /** One call is opening a stream of session 1, the only one there is; streams before it have ended. */
  predicate OpeningAlone(p: Pool, h: nat) {
    && p.calls == map[0 := Opening(1, h)] && !p.dead && p.idle == []
    && 1 in p.made && !p.made[1].closed && p.made[1].pending == None && p.made[1].isClient && p.made[1].lastId == h + 1
    && |p.made[1].all| == h + 1 && p.made[1].all[h] == NewStream(h + 1, Open)
  }

  lemma Reused(moves: seq<Move>, now: int)
    requires OpeningAlone(Run(moves), 0)
    ensures OpeningAlone(Run(moves + ReusingMoves(now)), 1)
  {
    var p := Run(moves);
    FirstStreamEnds(p, now);
    var p3 := NextMove(NextMove(NextMove(p, Hook(0)), Act(1, ACloseStream(0), now)), Enter(0));
    TakenAgain(p3);
    hide NextMove;
    hide Run;
    hide OpeningAlone;
    RunMoves(moves, Hook(0), Act(1, ACloseStream(0), now), Enter(0));
    var more := moves + [Hook(0), Act(1, ACloseStream(0), now), Enter(0)];
    RunOne(more, Take(0));
    RunMoves(more + [Take(0)], Begin(0), Syn(0), Register(0));
    assert more + [Take(0)] + [Begin(0), Syn(0), Register(0)] == moves + ReusingMoves(now);
  }

  lemma FirstStreamEnds(p: Pool, now: int)
    requires OpeningAlone(p, 0)
    ensures var t := NextMove(NextMove(NextMove(p, Hook(0)), Act(1, ACloseStream(0), now)), Enter(0));
            && t.calls == map[0 := Entered] && !t.dead && t.idle == [Entry(1, now)]
            && 1 in t.made && !t.made[1].closed && t.made[1].pending == None && t.made[1].isClient
            && t.made[1].lastId == 1 && |t.made[1].all| == 1
  {
    hide Next;
    hide NextMove;
    hide Insert;
    hide AnyHookRan;
    HookThenEnd(p.made[1]);
    HookReturns(p, 1);
    StreamReturns(NextMove(p, Hook(0)), Next(Next(p.made[1], AHook(0)), ACloseStream(0)), now);
    CallEnters(NextMove(NextMove(p, Hook(0)), Act(1, ACloseStream(0), now)));
    InsertFirst(Entry(1, now));
  }

  lemma HookReturns(p: Pool, q: nat)
    requires p.calls == map[0 := Opening(q, 0)] && q in p.made && Enabled(p.made[q], AHook(0))
    ensures NextMove(p, Hook(0)) == p.(made := p.made[q := Next(p.made[q], AHook(0))], calls := map[])
  {
    hide Enabled;
    hide Next;
  }

  lemma StreamReturns(p: Pool, f: Session, now: int)
    requires p.calls == map[] && !p.dead && 1 in p.made && f == Next(p.made[1], ACloseStream(0))
    requires !f.closed && AnyHookRan(p.made[1], f)
    ensures NextMove(p, Act(1, ACloseStream(0), now)) == p.(made := p.made[1 := f], idle := Insert(p.idle, Entry(1, now)))
  {
    hide Next;
    hide AnyHookRan;
    hide Insert;
  }

  lemma CallEnters(p: Pool)
    requires p.calls == map[] && !p.dead
    ensures NextMove(p, Enter(0)) == p.(calls := map[0 := Entered])
  {
  }

  lemma HookThenEnd(e: Session)
    requires !e.closed && e.isClient && e.all == [NewStream(1, Open)]
    ensures Enabled(e, AHook(0))
    ensures var f := Next(e, AHook(0));
            var g := Next(f, ACloseStream(0));
            && !f.closed && !g.closed && g.pending == e.pending && g.isClient && g.lastId == e.lastId && |g.all| == 1
            && AnyHookRan(f, g)
  {
    var f := Next(e, AHook(0));
    assert f.all == [NewStream(1, Open).(hooked := true)];
    var g := Next(f, ACloseStream(0));
    assert g.all[0].hookRuns == 1 > f.all[0].hookRuns;
  }

  lemma InsertFirst(x: Entry)
    ensures Insert([], x) == [x]
  {
  }

  lemma TakenAgain(p: Pool)
    requires p.calls == map[0 := Entered] && !p.dead && p.idle != [] && p.idle[0].seqNo == 1 && |p.idle| == 1
    requires 1 in p.made && !p.made[1].closed && p.made[1].pending == None && p.made[1].isClient
    requires p.made[1].lastId == 1 && |p.made[1].all| == 1
    ensures OpeningAlone(NextMove(NextMove(NextMove(NextMove(p, Take(0)), Begin(0)), Syn(0)), Register(0)), 1)
  {
    var p1 := NextMove(p, Take(0));
    assert p1.calls == map[0 := Holding(1)] && p1.idle == [];
    OpensStream(p1, 1);
  }

  lemma RunMoves(moves: seq<Move>, a: Move, b: Move, c: Move)
    ensures Run(moves + [a, b, c]) == NextMove(NextMove(NextMove(Run(moves), a), b), c)
  {
    hide NextMove;
    RunOne(moves, a);
    RunOne(moves + [a], b);
    RunOne(moves + [a] + [b], c);
    assert moves + [a, b, c] == moves + [a] + [b] + [c];
  }

  lemma RunOne(moves: seq<Move>, m: Move)
    ensures Run(moves + [m]) == NextMove(Run(moves), m)
  {
    assert (moves + [m])[..|moves|] == moves;
  }

  lemma OpenedAlone(settings: Frame, raw: bytes, md5: bytes)
    requires World.SettingsFrame(settings)
    ensures OpeningAlone(Run(OpeningMoves(settings, raw, md5)), 0)
  {
    hide World.SettingsFrame;
    var none: seq<Move> := [];
    var m1, m2, m3 := Enter(0), Take(0), Create(0, settings, raw, md5);
    FirstSession(settings, raw, md5);
    OpensStream(NextMove(NextMove(NextMove(EMPTY, m1), m2), m3), 0);
    hide NextMove;
    hide OpeningAlone;
    RunMoves(none, m1, m2, m3);
    RunMoves(none + [m1, m2, m3], Begin(0), Syn(0), Register(0));
    assert Run(none) == EMPTY;
    assert none + [m1, m2, m3] + [Begin(0), Syn(0), Register(0)] == OpeningMoves(settings, raw, md5);
  }

  lemma FirstSession(settings: Frame, raw: bytes, md5: bytes)
    requires World.SettingsFrame(settings)
    ensures var p := NextMove(NextMove(NextMove(EMPTY, Enter(0)), Take(0)), Create(0, settings, raw, md5));
            && p.calls == map[0 := Holding(1)] && !p.dead && p.idle == []
            && p.made == map[1 := NewSession(true, raw, md5).(out := [settings])]
  {
    hide World.SettingsFrame;
    var p1 := NextMove(EMPTY, Enter(0));
    assert p1.calls == map[0 := Entered] && p1.idle == [] && p1.made == map[];
    var p2 := NextMove(p1, Take(0));
    assert p2.calls == map[0 := Dialling] && p2.made == map[] && p2.counter == 0;
  }

  lemma OpensStream(p: Pool, h: nat)
    requires p.calls == map[0 := Holding(1)] && !p.dead && p.idle == [] && h < 2
    requires 1 in p.made && !p.made[1].closed && p.made[1].pending == None && p.made[1].isClient
    requires p.made[1].lastId == h == |p.made[1].all|
    ensures OpeningAlone(NextMove(NextMove(NextMove(p, Begin(0)), Syn(0)), Register(0)), h)
  {
    var p1 := NextMove(p, Begin(0));
    assert p1.calls == map[0 := Opening(1, h)] && p1.made[1].all == p.made[1].all + [NewStream(h + 1, Allocated)];
    var p2 := NextMove(p1, Syn(0));
    assert p2.calls == p1.calls && p2.made[1].all == p.made[1].all + [NewStream(h + 1, SynWritten)];
    var p3 := NextMove(p2, Register(0));
    assert p3.made[1].all == p.made[1].all + [NewStream(h + 1, Open)];
  }

  lemma ActKeepsCalls(p: Pool, q: nat, a: Action, now: int)
    requires q in p.made && (a.ARead? || a.AHandle?)
    ensures var p' := NextMove(p, Act(q, a, now));
            p'.calls == p.calls && q in p'.made && p'.made[q] == Next(p.made[q], a)
  {
    hide Next;
    hide AnyHookRan;
    hide Insert;
    hide Remove;
  }

  lemma HookOnDead(p: Pool, t: nat, q: nat, h: nat)
    requires Inv(p) && t in p.calls && p.calls[t] == Opening(q, h) && q in p.made && !p.made[q].closed
    requires h < |p.made[q].all| && p.made[q].all[h].phase == Open && p.made[q].all[h].dead
    ensures var p' := NextMove(p, Hook(t));
            && q in p'.made && !p'.made[q].closed && Leaked(p'.made[q])
            && !InIdle(p', q) && q !in p'.doomed && !Held(p', q)
  {
    CallFacts(p, t, q);
    hide Inv;
    hide SessionOk;
    HookLeaves(p.made[q], q, h);
    HookMoves(p, t, q, h);
    hide Next;
    hide NextMove;
    hide CallOk;
    hide Leaked;
    InIdleIff(p, NextMove(p, Hook(t)), q);
    hide InIdle;
  }

  lemma HookMoves(p: Pool, t: nat, q: nat, h: nat)
    requires t in p.calls && p.calls[t] == Opening(q, h) && q in p.made && Enabled(p.made[q], AHook(h))
    ensures var p' := NextMove(p, Hook(t));
            && p' == p.(made := p'.made, calls := p.calls - {t})
            && q in p'.made && p'.made[q] == Next(p.made[q], AHook(h))
  {
    hide Next;
  }

  lemma HookLeaves(e: Session, q: nat, h: nat)
    requires SessionOk(e) && CallOk(e, Opening(q, h)) && !e.closed && e.all[h].phase == Open && e.all[h].dead
    ensures Enabled(e, AHook(h)) && Leaked(Next(e, AHook(h))) && !Next(e, AHook(h)).closed
  {
  }

  lemma DeathArrives(e: Session, h: nat, f: Frame)
    requires SessionOk(e) && !e.closed && e.pending == None && h < |e.all| && e.all[h].phase == Open && !e.all[h].dead
    requires Kills(f, e.all[h].id)
    ensures var t := Next(Next(e, ARead(f)), AHandle);
            && !Next(e, ARead(f)).closed && !t.closed
            && h < |t.all| && t.all[h].dead && t.all[h].phase == Open
  {
    hide SessionOk;
    hide HandleFrame;
    hide Lifecycle.Registered;
    OpenIsRegistered(e, h);
    var u := e.(handled := e.handled + [f]);
    SameRegistered(e, u, h);
    HandlesDeath(u, h, f);
  }

  lemma SameRegistered(e: Session, u: Session, h: nat)
    requires Lifecycle.Registered(e, h) && u.all == e.all && u.streams == e.streams
    ensures Lifecycle.Registered(u, h)
  {
  }

  lemma OpenIsRegistered(e: Session, h: nat)
    requires SessionOk(e) && !e.closed && h < |e.all| && e.all[h].phase == Open && !e.all[h].dead
    ensures Lifecycle.Registered(e, h)
  {
    assert Lifecycle.Registered(e, h) == !e.all[h].dead;
  }

  lemma HandlesDeath(e: Session, h: nat, f: Frame)
    requires Lifecycle.Registered(e, h) && Kills(f, e.all[h].id) && !e.closed
    ensures var t := HandleFrame(e, f);
            !t.closed && |t.all| == |e.all| && t.all[h].dead && t.all[h].phase == e.all[h].phase
  {
    hide HandlePsh;
    hide HandleSyn;
    hide HandleSettings;
    hide HandleServerSettings;
    hide Close;
  }

  /** A pooled session handed out is the newest one in the pool, and is open. */
  lemma TakesNewest(moves: seq<Move>, t: nat)
    requires var p := Run(moves); t in p.calls && p.calls[t] == Entered && p.idle != []
    ensures var p, p' := Run(moves), NextMove(Run(moves), Take(t));
            && p'.calls[t].Holding? && p'.calls[t].q in p.made && !p.made[p'.calls[t].q].closed
            && forall q: nat :: InIdle(p, q) ==> q <= p'.calls[t].q
  {
    hide Run;
    hide SessionOk;
    hide Role;
    InvOnEveryRun(moves);
    var p := Run(moves);
    assert InIdle(p, p.idle[0].seqNo);
    forall q: nat | InIdle(p, q) ensures q <= p.idle[0].seqNo {
      var i :| 0 <= i < |p.idle| && p.idle[i].seqNo == q;
      FirstIsNewest(p.idle, p.idle[i]);
    }
  }

  /** After `Client.Close` nothing enters the pool, and it is empty once the sessions it took have been
      closed. */
  lemma ClosedPoolOnlyShrinks(moves: seq<Move>, m: Move)
    requires Run(moves).dead
    ensures var p, p' := Run(moves), NextMove(Run(moves), m);
            && p'.dead
            && (forall q :: InIdle(p', q) ==> InIdle(p, q))
            && ((forall q :: q in p.taken && q in p.made ==> p.made[q].closed) ==> p.idle == [])
  {
    hide Run;
    InvOnEveryRun(moves);
    ShrinkFacts(Run(moves), m);
  }

  lemma ShrinkFacts(p: Pool, m: Move)
    requires Inv(p) && p.dead
    ensures var p' := NextMove(p, m);
            && p'.dead
            && (forall q :: InIdle(p', q) ==> InIdle(p, q))
            && ((forall q :: q in p.taken && q in p.made ==> p.made[q].closed) ==> p.idle == [])
  {
    hide SessionOk;
    hide Role;
    hide CallsOk;
    hide Sweep;
    hide Update;
    hide Next;
    if p.idle != [] {
      assert InIdle(p, p.idle[0].seqNo);
    }
    forall q | InIdle(NextMove(p, m), q) ensures InIdle(p, q) {
      ShrinkMember(p, m, q);
    }
    assert m.Act? && m.n in p.made ==> Update(p, m.n, Next(p.made[m.n], m.a), m.now).dead by {
      UpdateDead(p, m);
    }
  }

  lemma UpdateDead(p: Pool, m: Move)
    requires p.dead
    ensures m.Act? && m.n in p.made ==>
              var p' := Update(p, m.n, Next(p.made[m.n], m.a), m.now);
              p'.dead && (p'.idle == p.idle || p'.idle == Remove(p.idle, m.n))
  {
    hide Next;
    hide AnyHookRan;
    hide Remove;
    hide Insert;
  }

  lemma ShrinkMember(p: Pool, m: Move, q: nat)
    requires ListsOk(p) && p.dead && InIdle(NextMove(p, m), q)
    ensures InIdle(p, q)
  {
    hide Next;
    hide Update;
    hide Remove;
    var p' := NextMove(p, m);
    if m.CleanUp? {
      SweepParts(p, p', q, m.exp, m.minIdle, m.clock);
    } else {
      UpdateDead(p, m);
      if m.Act? {
        RemoveFacts(p.idle, m.n);
      }
      hide ListsOk;
      InIdleMono(p, p', q);
    }
  }

  lemma InIdleMono(p: Pool, p': Pool, q: nat)
    requires InIdle(p', q) && forall x: Entry :: x in p'.idle ==> x in p.idle
    ensures InIdle(p, q)
  {
    var i :| 0 <= i < |p'.idle| && p'.idle[i].seqNo == q;
    assert p'.idle[i] in p.idle;
  }

  /** In every reachable state a cleanup takes out, to be closed, the sessions idle since before `exp` that are not
      among the `minIdle` newest; it leaves the others in the pool, and counts an expired one as idle from now. */
  lemma {:induction false} CleanUpTakesExpired(moves: seq<Move>, p: Pool, i: nat, exp: int, minIdle: int, clock: int)
    requires p == Run(moves) && i < |p.idle|
    ensures var p', e := NextMove(p, CleanUp(exp, minIdle, clock)), p.idle[i];
            if e.since >= exp || i < minIdle then
              e.seqNo !in p'.doomed && (if e.since >= exp then e else Entry(e.seqNo, clock)) in p'.idle
            else e.seqNo in p'.doomed && !InIdle(p', e.seqNo)
  {
    hide Run;
    hide Inv;
    hide Sweep;
    hide InIdle;
    hide Ordered;
    InvOnEveryRun(moves);
    IdleFacts(p, i);
    CleanupPlain(p.idle, i, exp, minIdle, clock);
    NotInIdle(Sweep(p.idle, 0, exp, minIdle, clock).kept, p.idle[i].seqNo, NextMove(p, CleanUp(exp, minIdle, clock)));
  }

  lemma IdleFacts(p: Pool, i: nat)
    requires Inv(p) && i < |p.idle|
    ensures Ordered(p.idle) && p.idle[i].seqNo !in p.doomed
  {
    hide SessionOk;
    hide CallsOk;
    hide Ordered;
    assert InIdle(p, p.idle[i].seqNo);
    assert Role(p, p.idle[i].seqNo);
  }

  lemma NotInIdle(kept: seq<Entry>, q: nat, p: Pool)
    requires p.idle == kept
    ensures (forall x :: x in kept ==> x.seqNo != q) ==> !InIdle(p, q)
  {
  }

  /** In every reachable state of an open client, its close takes every open session, and no other. */
  lemma {:induction false} CloseTakesAll(moves: seq<Move>, p: Pool, q: nat)
    requires p == Run(moves) && !p.dead
    ensures var p' := NextMove(p, CloseClient);
            p'.dead && p'.sessions == {} && (q in p'.taken <==> q in p.made && !p.made[q].closed)
  {
    hide Run;
    InvOnEveryRun(moves);
    hide SessionOk;
    hide Role;
    hide CallsOk;
    hide InIdle;
  }

  lemma SessionsStay(p: Pool, m: Move, q: nat)
    requires ListsOk(p)
    ensures p.dead ==> NextMove(p, m).dead && NextMove(p, m).taken == p.taken
    ensures q in p.made ==> q in NextMove(p, m).made && (p.made[q].closed ==> NextMove(p, m).made[q].closed)
  {
    hide Next;
    hide Sweep;
    hide ListsOk;
    hide Update;
    hide NextBegin;
    hide NextRegister;
    hide NextHook;
    match m
    case Create(t, settings, raw, md5) => NewNumber(p, q);
    case Begin(t) => if t in p.calls && p.calls[t].Holding? && p.calls[t].q in p.made { BeginStays(p, t, p.calls[t].q, q); }
    case Syn(t) => SynStays(p, t, q);
    case Register(t) => RegisterStays(p, t, q);
    case Hook(t) => HookStays(p, t, q);
    case Act(n, a, now) => ActStays(p, n, a, now, q);
    case _ =>
  }

  lemma NewNumber(p: Pool, q: nat)
    requires ListsOk(p)
    ensures q in p.made ==> q <= p.counter
  {
  }

  /** What a step keeps of session `q`. */
  predicate Stays(p: Pool, p': Pool, q: nat) {
    && p'.dead == p.dead && p'.taken == p.taken
    && (q in p.made ==> q in p'.made && (p.made[q].closed ==> p'.made[q].closed))
  }

  lemma BeginStays(p: Pool, t: nat, q: nat, k: nat)
    requires q in p.made
    ensures Stays(p, NextBegin(p, t, q), k)
  {
    hide Next;
    Lifecycle.DeathAndCloseAreFinal(p.made[q], ABegin);
  }

  lemma SynStays(p: Pool, t: nat, k: nat)
    ensures Stays(p, NextMove(p, Syn(t)), k)
  {
    hide Next;
    if t in p.calls && p.calls[t].Opening? && p.calls[t].q in p.made {
      Lifecycle.DeathAndCloseAreFinal(p.made[p.calls[t].q], ASyn(p.calls[t].h));
    }
  }

  lemma RegisterStays(p: Pool, t: nat, k: nat)
    ensures Stays(p, NextMove(p, Register(t)), k)
  {
    hide Next;
    if t in p.calls && p.calls[t].Opening? && p.calls[t].q in p.made {
      Lifecycle.DeathAndCloseAreFinal(p.made[p.calls[t].q], ARegister(p.calls[t].h));
    }
  }

  lemma HookStays(p: Pool, t: nat, k: nat)
    ensures Stays(p, NextMove(p, Hook(t)), k)
  {
    hide Next;
    if t in p.calls && p.calls[t].Opening? && p.calls[t].q in p.made {
      Lifecycle.DeathAndCloseAreFinal(p.made[p.calls[t].q], AHook(p.calls[t].h));
    }
  }

  lemma ActStays(p: Pool, n: nat, a: Action, now: int, k: nat)
    ensures Stays(p, NextMove(p, Act(n, a, now)), k)
  {
    hide Next;
    hide AnyHookRan;
    hide Returned;
    hide Outside;
    if n in p.made {
      Lifecycle.DeathAndCloseAreFinal(p.made[n], a);
    }
  }

  /** Whom the close reaches, exactly, over every run: of the sessions that are open now, it took those made before
      it. A session that a `CreateStream` under way makes later is left to the end of its own stream. */
  lemma {:induction false} TakenIff(moves: seq<Move>, i: nat, before: Pool, p: Pool, q: nat)
    requires i < |moves| && moves[i] == CloseClient && before == Run(moves[..i]) && !before.dead
    requires p == Run(moves) && q in p.made && !p.made[q].closed
    ensures p.dead && (q in p.taken <==> q in before.made)
  {
    hide NextMove;
    hide ListsOk;
    hide SessionOk;
    hide Role;
    hide CallsOk;
    var n := |moves| - 1;
    var init := Run(moves[..n]);
    InvOnEveryRun(moves[..n]);
    SessionsStay(init, moves[n], q);
    if i == n {
      CloseTakesAll(moves[..n], before, q);
      ClosingMakesNone(before);
    } else {
      assert moves[..n][..i] == moves[..i];
      if q in init.made {
        TakenIff(moves[..n], i, before, init, q);
      } else {
        NeverMade(moves[..n], i, before, init, q);
      }
    }
  }

  lemma ClosingMakesNone(p: Pool)
    ensures NextMove(p, CloseClient).made == p.made
  {
  }

  /** A session not made yet had not been made before, nor taken. */
  lemma {:induction false} NeverMade(moves: seq<Move>, i: nat, before: Pool, p: Pool, q: nat)
    requires i < |moves| && moves[i] == CloseClient && before == Run(moves[..i]) && !before.dead
    requires p == Run(moves) && q !in p.made
    ensures p.dead && q !in p.taken && q !in before.made
  {
    hide NextMove;
    hide ListsOk;
    hide SessionOk;
    hide Role;
    hide CallsOk;
    var n := |moves| - 1;
    var init := Run(moves[..n]);
    InvOnEveryRun(moves[..n]);
    SessionsStay(init, moves[n], q);
    if i == n {
      CloseTakesAll(moves[..n], before, q);
    } else {
      assert moves[..n][..i] == moves[..i];
      NeverMade(moves[..n], i, before, init, q);
    }
  }

  /** It happens: a call that has seen the client open and dials while it is closed. */
  lemma {:induction false} LateSessionStaysOpen(settings: Frame, raw: bytes, md5: bytes, p: Pool)
    requires World.SettingsFrame(settings)
    requires p == Run([Enter(0), Take(0), CloseClient, Create(0, settings, raw, md5)])
    ensures p.dead && 1 in p.made && !p.made[1].closed && 1 !in p.taken
  {
    hide World.SettingsFrame;
    var moves := [Enter(0), Take(0), CloseClient, Create(0, settings, raw, md5)];
    assert moves[..3] == [Enter(0), Take(0), CloseClient];
    assert moves[..3][..2] == [Enter(0), Take(0)];
    assert moves[..3][..2][..1] == [Enter(0)];
    assert moves[..3][..2][..1][..0] == [];
    assert Run([Enter(0)]).calls == map[0 := Entered];
    assert Run([Enter(0), Take(0)]).calls == map[0 := Dialling];
  }

  /** In every reachable state of an open client, the death of a stream that has its hook puts its open session
      into the pool, as idle from now. */
  lemma {:induction false} DeathReturnsSession(moves: seq<Move>, p: Pool, q: nat, h: nat, a: Action, now: int, f: Session)
    requires p == Run(moves) && !p.dead && q in p.made && Outside(a) && Returned(p, q, a) && f == Next(p.made[q], a)
    requires h < |p.made[q].all| && h < |f.all| && p.made[q].all[h].hooked && !p.made[q].all[h].dead && f.all[h].dead
    requires !f.closed
    ensures Entry(q, now) in NextMove(p, Act(q, a, now)).idle
  {
    hide Run;
    hide Inv;
    hide Insert;
    hide InIdle;
    hide Returned;
    hide Outside;
    hide Next;
    hide Remove;
    hide Ordered;
    InvOnEveryRun(moves);
    SessionsAreOk(p, q);
    DeathRunsHook(p.made[q], a, h);
    hide SessionOk;
    assert AnyHookRan(p.made[q], f);
    InsertFacts(p.idle, Entry(q, now));
  }

  lemma SessionsAreOk(p: Pool, q: nat)
    requires Inv(p) && q in p.made
    ensures SessionOk(p.made[q]) && Ordered(p.idle)
  {
    hide SessionOk;
    hide Role;
    hide CallsOk;
    hide Ordered;
  }

  lemma DeathRunsHook(e: Session, a: Action, h: nat)
    requires SessionOk(e) && Outside(a) && h < |e.all| && h < |Next(e, a).all|
    requires e.all[h].hooked && !e.all[h].dead && Next(e, a).all[h].dead
    ensures Next(e, a).all[h].hookRuns == e.all[h].hookRuns + 1
  {
    OutsideEvolves(e, a);
    hide Next;
    hide SessionOk;
    assert Evolves(e.all[h], Next(e, a).all[h]);
  }

  /** Handshake order across the pool: every session's wire log begins with its settings, and its SYN
      ids are 1, 2, 3, ... in order, because the pool never lets two calls open a stream on it at once. */
  lemma {:induction false} SynsInOrder(moves: seq<Move>, p: Pool, q: nat)
    requires p == Run(moves) && q in p.made
    ensures var log := p.made[q].out;
            && SynIds(log) == Upto(|SynIds(log)|)
            && log != [] && log[0].cmd == CMD_SETTINGS && log[0].data != []
            && forall i :: 1 <= i < |log| ==> log[i].cmd != CMD_SETTINGS
  {
    hide Run;
    InvOnEveryRun(moves);
    assert SessionOk(p.made[q]);
  }
}
