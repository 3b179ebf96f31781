/** When the pool leaks no session: if the peer ends or answers a stream only after hearing from it. */
module PoolDiscipline {
  import opened Bytes
  import opened Options
  import opened Frames
  import opened SessionSpec
  import opened PoolRuns
  import Lifecycle
  import World
  import opened IdleList

  /** The client has written bytes to the stream with this id, so that the peer can have heard from it. */
  predicate Spoke(e: Session, sid: nat) { 1 <= sid <= |e.all| && e.all[sid - 1].written != [] }

  /** The peer's last word, or its answer, on a stream. */
  predicate Ends(f: Frame) { f.cmd == CMD_FIN || f.cmd == CMD_SYNACK }

  /** The peer's discipline: it ends or answers a stream only after hearing from it. */
  predicate Considerate(p: Pool, m: Move) {
    m.Act? && m.n in p.made && m.a.ARead? && Ends(m.a.f) ==> Spoke(p.made[m.n], m.a.f.sid)
  }

  ghost predicate ConsiderateRun(moves: seq<Move>) {
    forall k :: 0 <= k < |moves| ==> Considerate(PoolRuns.Run(moves[..k]), moves[k])
  }

  /** Stream `h` has been written to only once it had its hook; and if it died while the session was open,
      the hook has run. */
  predicate StreamHeard(e: Session, h: nat)
    requires h < |e.all|
  {
    && (e.all[h].written != [] ==> e.all[h].hooked || e.all[h].hookRuns > 0)
    && (!e.closed && e.all[h].dead ==> e.all[h].hookRuns > 0)
  }

  predicate Heard(e: Session) {
    && (forall h :: 0 <= h < |e.all| ==> StreamHeard(e, h))
    && (e.pending.Some? && Ends(e.pending.value) ==> Spoke(e, e.pending.value.sid))
  }

  // ---- Steps of one session ----

  /** Which streams a handled frame kills, in a session that stays open. */
  lemma HandleKills(e: Session, h: nat)
    requires Lifecycle.MapOk(e) && e.isClient && h < |e.all| && (e.pending.Some? ==> e.pending.value.cmd != CMD_SYN)
    ensures var t := Handle(e);
            && h < |t.all| && t.all[h].written == e.all[h].written
            && (!t.closed && t.all[h].dead && !e.all[h].dead ==>
                  e.pending.Some? && Ends(e.pending.value) && e.pending.value.sid == e.all[h].id)
  {
    hide HandleSettings;
    hide HandleServerSettings;
    if e.pending.Some? {
      SettingsLeaveStreams(e.(pending := None, handled := e.handled + [e.pending.value]), e.pending.value.data);
    }
  }

  lemma SettingsLeaveStreams(e: Session, data: bytes)
    requires e.isClient
    ensures HandleSettings(e, data) == e && HandleServerSettings(e, data).all == e.all
  {
    hide AnnouncedVersion;
  }

  lemma LocalKills(e: Session, a: Action, h: nat)
    requires Enabled(e, a) && Outside(a) && !a.AHandle? && h < |e.all|
    ensures var t := Perform(e, a);
            && h < |t.all| && (t.all[h].written == e.all[h].written || (a.AWrite? && a.h == h))
            && (!t.closed && t.all[h].dead && !e.all[h].dead ==> a == ACloseStream(h))
  {
  }

  /** What a step from outside `CreateStream` does to stream `h`. */
  lemma StepKills(e: Session, a: Action, t: Session, h: nat)
    requires SessionOk(e) && Outside(a) && h < |e.all| && t == Next(e, a)
    ensures h < |t.all| && (t.all[h].written == e.all[h].written || (a.AWrite? && a.h == h && !e.closed))
    ensures !t.closed && t.all[h].dead && !e.all[h].dead ==>
              a == ACloseStream(h) || (e.pending.Some? && Ends(e.pending.value) && e.pending.value.sid == e.all[h].id)
  {
    hide SessionOk;
    hide Handle;
    hide Lifecycle.MapOk;
    SessionFacts(e, h);
    if a.AHandle? {
      HandleKills(e, h);
    } else {
      hide Perform;
      if Enabled(e, a) {
        LocalKills(e, a, h);
        if a.AWrite? && e.closed {
          WriteNeedsOpen(e, a);
        }
      }
    }
  }

  lemma WriteNeedsOpen(e: Session, a: Action)
    requires Enabled(e, a) && a.AWrite? && e.closed
    ensures Perform(e, a) == e
  {
  }

  lemma SessionFacts(e: Session, h: nat)
    requires SessionOk(e) && h < |e.all|
    ensures e.all[h].id == h + 1 && Lifecycle.MapOk(e) && e.isClient
    ensures e.pending.Some? ==> e.pending.value.cmd != CMD_SYN
  {
  }

  /** Steps from outside `CreateStream` keep stream `h` heard; the user holds only streams with a hook. */
  lemma StreamStaysHeard(e: Session, a: Action, t: Session, h: nat)
    requires SessionOk(e) && Heard(e) && Outside(a) && h < |e.all| && t == Next(e, a)
    requires (a.AWrite? || a.ACloseStream?) && a.h == h && !e.closed ==> e.all[h].hooked || e.all[h].hookRuns > 0
    ensures h < |t.all| && StreamHeard(t, h) && (e.all[h].written != [] ==> t.all[h].written != [])
  {
    hide SessionOk;
    hide AllEvolve;
    hide Next;
    OutsideEvolves(e, a);
    ClosedStays(e, a);
    SessionFacts(e, h);
    EvolvesAt(e, t, h);
    StepKills(e, a, t, h);
    assert StreamHeard(e, h);
    if a.AWrite? {
      WriteAdds(e, a, h);
    }
  }

  lemma WriteAdds(e: Session, a: Action, h: nat)
    requires a.AWrite? && h < |e.all|
    ensures h < |Next(e, a).all| && (e.all[h].written != [] ==> Next(e, a).all[h].written != [])
  {
  }

  lemma OutsideStaysHeard(e: Session, a: Action, t: Session)
    requires SessionOk(e) && Heard(e) && Outside(a) && t == Next(e, a)
    requires (a.AWrite? || a.ACloseStream?) && a.h < |e.all| && !e.closed ==> e.all[a.h].hooked || e.all[a.h].hookRuns > 0
    requires a.ARead? && Ends(a.f) ==> Spoke(e, a.f.sid)
    ensures Heard(t)
  {
    hide SessionOk;
    hide StreamHeard;
    hide Next;
    OutsideEvolves(e, a);
    forall h | 0 <= h < |e.all| ensures StreamHeard(t, h) && (e.all[h].written != [] ==> t.all[h].written != []) {
      StreamStaysHeard(e, a, t, h);
    }
    PendingIs(e, a);
  }

  lemma PendingIs(e: Session, a: Action)
    requires Outside(a)
    ensures var t := Next(e, a); t.pending.Some? ==> t.pending == e.pending || (a.ARead? && t.pending == Some(a.f))
  {
    hide HandleFrame;
    if a.AHandle? && e.pending.Some? {
      World.HandleFrameLogs(e.(pending := None, handled := e.handled + [e.pending.value]), e.pending.value);
    }
  }

  /** So do the steps of `CreateStream`. */
  lemma OpenStepStaysHeard(e: Session, a: Action)
    requires Heard(e) && (a.ABegin? || a.ASyn? || a.ARegister? || a.AHook?)
    ensures Heard(Next(e, a))
  {
    var t := Next(e, a);
    forall h | 0 <= h < |t.all| ensures StreamHeard(t, h) {
      assert h < |e.all| ==> StreamHeard(e, h);
    }
  }

  // ---- The pool ----

  predicate AllHeard(p: Pool) { forall q :: q in p.made ==> Heard(p.made[q]) }

  /** A stream that its user holds has, or had, a hook. */
  lemma UserStreamsAreHooked(p: Pool, q: nat, h: nat)
    requires Inv(p) && q in p.made && !p.made[q].closed && h < |p.made[q].all| && p.made[q].all[h].phase == Open
    requires forall t :: t in p.calls ==> p.calls[t] != Opening(q, h)
    ensures p.made[q].all[h].hooked || p.made[q].all[h].hookRuns > 0
  {
    hide SessionOk;
    hide InIdle;
    hide CallOk;
    hide AllEnded;
    hide LentOut;
    InvSession(p, q);
    hide Inv;
    var e := p.made[q];
    if Held(p, q) {
      var t :| t in p.calls && Uses(p.calls[t], q);
      CalledStreamsAreHooked(e, p.calls[t], h);
    } else {
      RestingStreamsAreHooked(e, h);
    }
  }

  lemma CalledStreamsAreHooked(e: Session, c: Call, h: nat)
    requires CallOk(e, c) && h < |e.all| && (c.Opening? ==> c.h != h)
    ensures e.all[h].hookRuns > 0
  {
    assert h < |e.all| - 1 || !c.Opening? ==> Ended(e.all[h]);
  }

  lemma RestingStreamsAreHooked(e: Session, h: nat)
    requires (AllEnded(e) || LentOut(e)) && h < |e.all|
    ensures e.all[h].hooked || e.all[h].hookRuns > 0
  {
    assert h < |e.all| - 1 || AllEnded(e) ==> Ended(e.all[h]);
  }

  lemma ActKeepsHeard(p: Pool, m: Move)
    requires Inv(p) && AllHeard(p) && Considerate(p, m) && m.Act?
    ensures AllHeard(NextMove(p, m))
  {
    hide Inv;
    hide Heard;
    hide Next;
    hide SessionOk;
    hide AnyHookRan;
    hide Insert;
    hide Remove;
    if m.n in p.made && Outside(m.a) && Returned(p, m.n, m.a) {
      var e := p.made[m.n];
      InvSession(p, m.n);
      if (m.a.AWrite? || m.a.ACloseStream?) && m.a.h < |e.all| && !e.closed && e.all[m.a.h].phase == Open {
        UserStreamsAreHooked(p, m.n, m.a.h);
      }
      if (m.a.AWrite? || m.a.ACloseStream?) && !(m.a.h < |e.all| && e.all[m.a.h].phase == Open) {
        assert Next(e, m.a) == e by { NothingToWrite(e, m.a); }
      } else {
        OutsideStaysHeard(e, m.a, Next(e, m.a));
      }
    }
  }

  lemma NothingToWrite(e: Session, a: Action)
    requires (a.AWrite? || a.ACloseStream?) && !(a.h < |e.all| && e.all[a.h].phase == Open)
    ensures Next(e, a) == e
  {
  }

  lemma NextKeepsHeard(p: Pool, m: Move)
    requires Inv(p) && AllHeard(p) && Considerate(p, m)
    ensures AllHeard(NextMove(p, m))
  {
    hide Inv;
    hide Heard;
    hide Next;
    hide World.SettingsFrame;
    match m
    case Act(n, a, now) => ActKeepsHeard(p, m);
    case Create(t, settings, raw, md5) => FreshIsHeard(settings, raw, md5);
    case Begin(t) =>
      if t in p.calls && p.calls[t].Holding? && p.calls[t].q in p.made {
        OpenStepStaysHeard(p.made[p.calls[t].q], ABegin);
      }
    case Syn(t) =>
      if t in p.calls && p.calls[t].Opening? && p.calls[t].q in p.made {
        OpenStepStaysHeard(p.made[p.calls[t].q], ASyn(p.calls[t].h));
      }
    case Register(t) =>
      if t in p.calls && p.calls[t].Opening? && p.calls[t].q in p.made {
        OpenStepStaysHeard(p.made[p.calls[t].q], ARegister(p.calls[t].h));
      }
    case Hook(t) =>
      if t in p.calls && p.calls[t].Opening? && p.calls[t].q in p.made {
        OpenStepStaysHeard(p.made[p.calls[t].q], AHook(p.calls[t].h));
      }
    case _ =>
  }

  lemma FreshIsHeard(settings: Frame, raw: bytes, md5: bytes)
    ensures Heard(NewSession(true, raw, md5).(out := [settings]))
  {
  }

  lemma {:induction false} HeardOnEveryRun(moves: seq<Move>)
    requires ConsiderateRun(moves)
    ensures AllHeard(PoolRuns.Run(moves))
  {
    hide NextMove;
    hide Inv;
    hide Heard;
    hide Considerate;
    if moves == [] {
    } else {
      var n := |moves| - 1;
      var init := moves[..n];
      assert forall k :: 0 <= k < n ==> init[..k] == moves[..k];
      HeardOnEveryRun(init);
      InvOnEveryRun(init);
      NextKeepsHeard(PoolRuns.Run(init), moves[n]);
    }
  }

  /** With such a peer, on every run of the pool, no session leaks: each open session of an open client is
      in exactly one place. */
  lemma {:induction false} NoSessionLeaks(moves: seq<Move>, p: Pool, q: nat)
    requires ConsiderateRun(moves) && p == PoolRuns.Run(moves) && q in p.made && !p.made[q].closed && !p.dead
    ensures InOnePlace(p, q)
    ensures !InIdle(p, q) && q !in p.doomed && !Held(p, q) ==> exists h: nat :: Leased(p.made[q], h)
  {
    hide PoolRuns.Run;
    hide InIdle;
    PoolLease(moves, p, q);
    HeardOnEveryRun(moves);
    var e := p.made[q];
    assert Heard(e);
    assert e.all != [] ==> StreamHeard(e, |e.all| - 1);
  }
}
