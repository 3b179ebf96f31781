/** The failed-login limiter: eleven failures within a minute ban an address for five minutes. */
module RateLimit {
  import opened Options

  const SECOND: int := 1_000_000_000
  const MAX_FAILURES: nat := 10
  const FAIL_WINDOW: int := 60 * SECOND
  const BAN_DURATION: int := 300 * SECOND

  datatype Record = Record(count: nat, firstFail: int, bannedAt: Option<int>)

  type Failures = map<string, Record>

  function Recorded(f: Failures, ip: string, now: int): Failures {
    if ip !in f then f[ip := Record(1, now, None)]
    else
      var rec := f[ip];
      if rec.bannedAt.Some? then f
      else if now - rec.firstFail > FAIL_WINDOW then f[ip := Record(1, now, None)]
      else f[ip := Record(rec.count + 1, rec.firstFail, if rec.count + 1 > MAX_FAILURES then Some(now) else None)]
  }

  predicate ExpiredBan(rec: Record, now: int) { rec.bannedAt.Some? && now - rec.bannedAt.value > BAN_DURATION }

  predicate Stale(rec: Record, now: int) {
    if rec.bannedAt.Some? then ExpiredBan(rec, now) else now - rec.firstFail > FAIL_WINDOW
  }

  predicate Banned(f: Failures, ip: string, now: int) {
    ip in f && f[ip].bannedAt.Some? && !ExpiredBan(f[ip], now)
  }

  /** `IsBanned` forgets an expired ban as it answers. */
  function Checked(f: Failures, ip: string, now: int): Failures {
    if ip in f && ExpiredBan(f[ip], now) then f - {ip} else f
  }

  function Cleaned(f: Failures, now: int): Failures {
    map ip | ip in f && !Stale(f[ip], now) :: f[ip]
  }

  class ConnRateLimiter {
    var failures: Failures

    constructor ()
      ensures failures == map[]
    {
      failures := map[];
    }

    method RecordFailure(ip: string, now: int)
      modifies this
      ensures failures == Recorded(old(failures), ip, now)
    {
      if ip !in failures {
        failures := failures[ip := Record(1, now, None)];
        return;
      }
      var rec := failures[ip];
      if rec.bannedAt.Some? {
        return;
      }
      if now - rec.firstFail > FAIL_WINDOW {
        failures := failures[ip := rec.(count := 1, firstFail := now)];
        return;
      }
      rec := rec.(count := rec.count + 1);
      if rec.count > MAX_FAILURES {
        rec := rec.(bannedAt := Some(now));
      }
      failures := failures[ip := rec];
    }

    method IsBanned(ip: string, now: int) returns (banned: bool)
      modifies this
      ensures banned == Banned(old(failures), ip, now)
      ensures failures == Checked(old(failures), ip, now)
    {
      if ip !in failures || failures[ip].bannedAt.None? {
        return false;
      }
      if now - failures[ip].bannedAt.value > BAN_DURATION {
        failures := failures - {ip};
        return false;
      }
      return true;
    }

    /** The map may be ranged over in any order. */
    method Cleanup(now: int)
      modifies this
      ensures failures == Cleaned(old(failures), now)
    {
      var left := failures.Keys;
      while left != {}
        invariant left <= failures.Keys
        invariant failures.Keys <= old(failures).Keys
        invariant forall ip :: ip in failures ==> failures[ip] == old(failures)[ip]
        invariant forall ip :: ip in left ==> ip in failures
        invariant forall ip :: ip in old(failures) && ip !in left ==> (ip in failures <==> !Stale(old(failures)[ip], now))
        decreases left
      {
        var ip :| ip in left;
        left := left - {ip};
        var rec := failures[ip];
        if rec.bannedAt.Some? {
          if now - rec.bannedAt.value > BAN_DURATION {
            failures := failures - {ip};
          }
        } else if now - rec.firstFail > FAIL_WINDOW {
          failures := failures - {ip};
        }
      }
    }
  }

  // ---- Runs ----

  datatype Event = Fail(ip: string, at: int) | Check(ip: string, at: int) | Clean(at: int)

  function Step(f: Failures, e: Event): Failures {
    match e
    case Fail(ip, at) => Recorded(f, ip, at)
    case Check(ip, at) => Checked(f, ip, at)
    case Clean(at) => Cleaned(f, at)
  }

  function Run(f: Failures, events: seq<Event>): Failures {
    if events == [] then f else Step(Run(f, events[..|events| - 1]), events[|events| - 1])
  }

  /** The clock never goes back. */
  ghost predicate Monotone(events: seq<Event>) {
    forall i, j :: 0 <= i <= j < |events| ==> events[i].at <= events[j].at
  }

  /** Failures of `ip` among the events. */
  function Count(events: seq<Event>, ip: string): nat {
    if events == [] then 0
    else
      var e := events[|events| - 1];
      Count(events[..|events| - 1], ip) + if e.Fail? && e.ip == ip then 1 else 0
  }

  lemma CountSnoc(events: seq<Event>, e: Event, ip: string)
    ensures Count(events + [e], ip) == Count(events, ip) + if e.Fail? && e.ip == ip then 1 else 0
  {
    assert (events + [e])[..|events|] == events;
  }

  // ---- Ban soundness ----

  /** The failures of `ip` from event `i` to event `j`, both of them failures of it, number exactly eleven
      and span at most the window. */
  ghost predicate Burst(events: seq<Event>, ip: string, i: nat, j: nat) {
    && i <= j < |events|
    && events[i] == Fail(ip, events[i].at) && events[j] == Fail(ip, events[j].at)
    && events[j].at - events[i].at <= FAIL_WINDOW
    && Count(events[i..j + 1], ip) == 11
  }

  /** Where a record comes from: all failures since the first one of its burst are counted, until the
      ban. */
  ghost predicate Explained(events: seq<Event>, ip: string, rec: Record) {
    match rec.bannedAt
    case None =>
      1 <= rec.count <= MAX_FAILURES
      && exists i: nat :: i < |events| && events[i] == Fail(ip, rec.firstFail) && Count(events[i..], ip) == rec.count
    case Some(b) => exists i: nat, j: nat :: Burst(events, ip, i, j) && events[j].at == b
  }

  lemma BurstStays(events: seq<Event>, e: Event, ip: string, i: nat, j: nat)
    requires Burst(events, ip, i, j)
    ensures Burst(events + [e], ip, i, j)
  {
    assert (events + [e])[i..j + 1] == events[i..j + 1];
  }

  lemma CountFrom(events: seq<Event>, e: Event, ip: string, i: nat)
    requires i <= |events|
    ensures Count((events + [e])[i..], ip) == Count(events[i..], ip) + if e.Fail? && e.ip == ip then 1 else 0
  {
    assert (events + [e])[i..] == events[i..] + [e];
    CountSnoc(events[i..], e, ip);
  }

  /** A record that a step leaves alone stays explained. */
  lemma ExplainedStays(events: seq<Event>, e: Event, ip: string, rec: Record)
    requires Explained(events, ip, rec) && (rec.bannedAt.None? ==> !(e.Fail? && e.ip == ip))
    ensures Explained(events + [e], ip, rec)
  {
    match rec.bannedAt
    case None =>
      var i: nat :| i < |events| && events[i] == Fail(ip, rec.firstFail) && Count(events[i..], ip) == rec.count;
      CountFrom(events, e, ip, i);
      assert (events + [e])[i] == events[i];
    case Some(b) =>
      var i: nat, j: nat :| Burst(events, ip, i, j) && events[j].at == b;
      BurstStays(events, e, ip, i, j);
      assert (events + [e])[j] == events[j];
  }

  /** The failure that starts a burst. */
  lemma FirstIsExplained(events: seq<Event>, ip: string, at: int)
    ensures Explained(events + [Fail(ip, at)], ip, Record(1, at, None))
  {
    var all := events + [Fail(ip, at)];
    CountFrom(events, Fail(ip, at), ip, |events|);
    assert all[|events|] == Fail(ip, at);
  }

  /** A failure within the window is counted, and the eleventh bans. */
  lemma NextIsExplained(events: seq<Event>, ip: string, rec: Record, at: int)
    requires Explained(events, ip, rec) && rec.bannedAt.None? && at - rec.firstFail <= FAIL_WINDOW
    ensures Explained(events + [Fail(ip, at)], ip,
                      Record(rec.count + 1, rec.firstFail, if rec.count + 1 > MAX_FAILURES then Some(at) else None))
  {
    var all := events + [Fail(ip, at)];
    var i: nat :| i < |events| && events[i] == Fail(ip, rec.firstFail) && Count(events[i..], ip) == rec.count;
    CountFrom(events, Fail(ip, at), ip, i);
    assert all[i] == events[i] && all[|events|] == Fail(ip, at);
    assert all[i..|events| + 1] == all[i..];
    assert rec.count + 1 > MAX_FAILURES ==> Burst(all, ip, i, |events|);
  }

  lemma {:induction false} EveryRecordExplained(events: seq<Event>, ip: string)
    requires ip in Run(map[], events)
    ensures Explained(events, ip, Run(map[], events)[ip])
  {
    if events == [] {
    } else {
      var init, e := events[..|events| - 1], events[|events| - 1];
      assert events == init + [e];
      var f := Run(map[], init);
      if ip in f {
        EveryRecordExplained(init, ip);
        hide Explained;
        if e.Fail? && e.ip == ip && f[ip].bannedAt.None? {
          if e.at - f[ip].firstFail > FAIL_WINDOW {
            FirstIsExplained(init, ip, e.at);
          } else {
            NextIsExplained(init, ip, f[ip], e.at);
          }
        } else {
          ExplainedStays(init, e, ip, f[ip]);
        }
      } else {
        FirstIsExplained(init, ip, e.at);
      }
    }
  }

  /** Ban soundness: an address is banned only if exactly eleven failures of it fell into one span of at
      most 60 s, the last of them at the ban, and at most 5 min have passed since. */
  lemma BanSoundness(events: seq<Event>, ip: string, now: int)
    requires Banned(Run(map[], events), ip, now)
    ensures exists i: nat, j: nat :: Burst(events, ip, i, j) && now - events[j].at <= BAN_DURATION
  {
    EveryRecordExplained(events, ip);
    hide Run;
    var b := Run(map[], events)[ip].bannedAt.value;
    var i: nat, j: nat :| Burst(events, ip, i, j) && events[j].at == b;
    assert Burst(events, ip, i, j) && now - events[j].at <= BAN_DURATION;
  }

  // ---- When a burst bans ----

  /** No record, or one of failures that a failure at `at` makes forgotten. */
  predicate NoRecent(f: Failures, ip: string, at: int) {
    ip in f ==> f[ip].bannedAt.None? && at - f[ip].firstFail > FAIL_WINDOW
  }

  /** In a window that starts with the first failure of an address that has no record, or an outdated one, the
      address is banned if and only if there have been eleven failures, whatever else happens in between. */
  lemma {:induction false} BannedIffElevenFailures(f: Failures, events: seq<Event>, ip: string, now: int)
    requires events != [] && events[0] == Fail(ip, events[0].at) && NoRecent(f, ip, events[0].at)
    requires forall i :: 0 <= i < |events| ==> events[0].at <= events[i].at <= events[0].at + FAIL_WINDOW
    requires events[0].at <= now <= events[0].at + FAIL_WINDOW
    ensures Banned(Run(f, events), ip, now) <==> Count(events, ip) >= 11
  {
    WindowRecord(f, events, ip);
  }

  lemma {:induction false} WindowRecord(f: Failures, events: seq<Event>, ip: string)
    requires events != [] && events[0] == Fail(ip, events[0].at) && NoRecent(f, ip, events[0].at)
    requires forall i :: 0 <= i < |events| ==> events[0].at <= events[i].at <= events[0].at + FAIL_WINDOW
    ensures var g := Run(f, events);
            && ip in g && g[ip].firstFail == events[0].at
            && (Count(events, ip) <= MAX_FAILURES ==> g[ip] == Record(Count(events, ip), events[0].at, None))
            && (Count(events, ip) > MAX_FAILURES ==>
                  g[ip].bannedAt.Some? && events[0].at <= g[ip].bannedAt.value <= events[0].at + FAIL_WINDOW)
  {
    var init, e := events[..|events| - 1], events[|events| - 1];
    assert events == init + [e];
    CountSnoc(init, e, ip);
    if init == [] {
      assert Run(f, init) == f && Count(init, ip) == 0;
    } else {
      WindowRecord(f, init, ip);
    }
  }

  predicate BannedSince(f: Failures, ip: string, at: int) { ip in f && f[ip].bannedAt == Some(at) }

  lemma {:induction false} BanHolds(f: Failures, events: seq<Event>, ip: string, at: int)
    requires BannedSince(f, ip, at)
    requires forall i :: 0 <= i < |events| ==> events[i].at - at <= BAN_DURATION
    ensures BannedSince(Run(f, events), ip, at)
  {
    if events != [] {
      BanHolds(f, events[..|events| - 1], ip, at);
    }
  }

  lemma {:induction false} EleventhBans(f: Failures, events: seq<Event>, ip: string)
    requires events != [] && events[0] == Fail(ip, events[0].at) && NoRecent(f, ip, events[0].at)
    requires forall i :: 0 <= i < |events| ==> events[0].at <= events[i].at <= events[0].at + FAIL_WINDOW
    requires Count(events, ip) == 11 && events[|events| - 1] == Fail(ip, events[|events| - 1].at)
    ensures BannedSince(Run(f, events), ip, events[|events| - 1].at)
  {
    var init, e := events[..|events| - 1], events[|events| - 1];
    assert events == init + [e];
    CountSnoc(init, e, ip);
    if init != [] {
      WindowRecord(f, init, ip);
    }
  }

  /** The ban that the eleventh failure within 60 seconds starts lasts 300 seconds from that failure, no less and
      no more, whatever happens in between; times are in nanoseconds. */
  lemma {:induction false} BanLasts(f: Failures, events: seq<Event>, after: seq<Event>, ip: string, now: int)
    requires events != [] && events[0] == Fail(ip, events[0].at) && NoRecent(f, ip, events[0].at)
    requires forall i :: 0 <= i < |events| ==> events[0].at <= events[i].at <= events[0].at + 60_000_000_000
    requires Count(events, ip) == 11 && events[|events| - 1] == Fail(ip, events[|events| - 1].at)
    requires forall i :: 0 <= i < |after| ==> after[i].at - events[|events| - 1].at <= 300_000_000_000
    ensures Banned(Run(Run(f, events), after), ip, now) <==> now - events[|events| - 1].at <= 300_000_000_000
  {
    hide Run;
    hide Count;
    EleventhBans(f, events, ip);
    BanHolds(Run(f, events), after, ip, events[|events| - 1].at);
  }

  // ---- Cleanup is invisible ----

  /** What a record still means at `now`. */
  function Live(f: Failures, ip: string, now: int): Option<Record> {
    if ip in f && !Stale(f[ip], now) then Some(f[ip]) else None
  }

  ghost predicate Alike(f: Failures, g: Failures, now: int) {
    forall ip :: Live(f, ip, now) == Live(g, ip, now)
  }

  lemma AlikeLater(f: Failures, g: Failures, now: int, later: int)
    requires Alike(f, g, now) && now <= later
    ensures Alike(f, g, later)
  {
    forall ip ensures Live(f, ip, later) == Live(g, ip, later) {
      assert Live(f, ip, now) == Live(g, ip, now);
    }
  }

  lemma CleanedAlike(f: Failures, now: int)
    ensures Alike(Cleaned(f, now), f, now)
  {
  }

  lemma CheckedAlike(f: Failures, g: Failures, ip: string, now: int)
    requires Alike(f, g, now)
    ensures Banned(f, ip, now) <==> Banned(g, ip, now)
    ensures Alike(Checked(f, ip, now), Checked(g, ip, now), now)
  {
    assert Live(f, ip, now) == Live(g, ip, now);
    forall a ensures Live(Checked(f, ip, now), a, now) == Live(Checked(g, ip, now), a, now) {
      assert Live(f, a, now) == Live(g, a, now);
    }
  }

  predicate HasExpiredBan(f: Failures, ip: string, now: int) { ip in f && ExpiredBan(f[ip], now) }

  lemma RecordedAlike(f: Failures, g: Failures, ip: string, now: int)
    requires Alike(f, g, now) && !HasExpiredBan(f, ip, now) && !HasExpiredBan(g, ip, now)
    ensures Alike(Recorded(f, ip, now), Recorded(g, ip, now), now)
  {
    assert Live(f, ip, now) == Live(g, ip, now);
    forall a ensures Live(Recorded(f, ip, now), a, now) == Live(Recorded(g, ip, now), a, now) {
      assert Live(f, a, now) == Live(g, a, now);
    }
  }

  /** A cleanup just before a failure changes what the failure does exactly when the address has an
      expired ban: without the cleanup the failure is then not counted. */
  lemma CleanupBeforeFailureVisibleIff(f: Failures, ip: string, now: int)
    ensures Alike(Recorded(Cleaned(f, now), ip, now), Recorded(f, ip, now), now) <==> !HasExpiredBan(f, ip, now)
  {
    var g := Cleaned(f, now);
    CleanedAlike(f, now);
    if HasExpiredBan(f, ip, now) {
      assert Live(Recorded(g, ip, now), ip, now) == Some(Record(1, now, None));
      assert Live(Recorded(f, ip, now), ip, now) == None;
    } else {
      RecordedAlike(g, f, ip, now);
    }
  }

  function Failing(ip: string, now: int, n: nat): (r: seq<Event>)
    ensures |r| == n && forall i :: 0 <= i < n ==> r[i] == Fail(ip, now)
  {
    seq(n, i => Fail(ip, now))
  }

  lemma {:induction false} FailingCount(ip: string, now: int, n: nat)
    ensures Count(Failing(ip, now, n), ip) == n
  {
    if n > 0 {
      assert Failing(ip, now, n)[..n - 1] == Failing(ip, now, n - 1);
      FailingCount(ip, now, n - 1);
    }
  }

  lemma {:induction false} ExpiredBanCountsNothing(f: Failures, ip: string, now: int, n: nat)
    requires HasExpiredBan(f, ip, now)
    ensures Run(f, Failing(ip, now, n)) == f
  {
    if n > 0 {
      assert Failing(ip, now, n)[..n - 1] == Failing(ip, now, n - 1);
      ExpiredBanCountsNothing(f, ip, now, n - 1);
    }
  }

  /** So an answer of `IsBanned` can depend on whether the cleanup came: eleven failures that nobody
      preceded with a check ban the address after it, and go uncounted without it. */
  lemma CleanupCanBeSeen(f: Failures, ip: string, now: int)
    requires HasExpiredBan(f, ip, now)
    ensures Banned(Run(Cleaned(f, now), Failing(ip, now, 11)), ip, now)
    ensures !Banned(Run(f, Failing(ip, now, 11)), ip, now)
  {
    FailingCount(ip, now, 11);
    BannedIffElevenFailures(Cleaned(f, now), Failing(ip, now, 11), ip, now);
    ExpiredBanCountsNothing(f, ip, now, 11);
  }

  /** The events without the cleanups. */
  function Strip(events: seq<Event>): seq<Event> {
    if events == [] then []
    else
      var e := events[|events| - 1];
      Strip(events[..|events| - 1]) + if e.Clean? then [] else [e]
  }

  lemma StripRun(events: seq<Event>, e: Event)
    ensures Run(map[], Strip(events + [e]))
         == if e.Clean? then Run(map[], Strip(events)) else Step(Run(map[], Strip(events)), e)
  {
    assert (events + [e])[..|events|] == events;
    if e.Clean? {
      assert Strip(events) + [] == Strip(events);
    } else {
      assert (Strip(events) + [e])[..|Strip(events)|] == Strip(events);
    }
  }

  /** How the server calls the limiter: each failure follows, by at most the ban's length, a check of the
      same address that found it not banned. */
  ghost predicate Guarded(events: seq<Event>, k: nat)
    requires k < |events|
  {
    events[k].Fail? ==>
      exists j: nat :: GuardedBy(events, j, k)
  }

  predicate GuardedBy(events: seq<Event>, j: nat, k: nat)
    requires k < |events|
  {
    && events[k].Fail? && j < k && events[j] == Check(events[k].ip, events[j].at)
    && events[k].at - events[j].at <= BAN_DURATION
    && !Banned(Run(map[], events[..j]), events[k].ip, events[j].at)
  }

  ghost predicate Disciplined(events: seq<Event>) {
    forall k :: 0 <= k < |events| ==> Guarded(events, k)
  }

  predicate NoBanBefore(f: Failures, ip: string, at: int) {
    ip in f && f[ip].bannedAt.Some? ==> f[ip].bannedAt.value >= at
  }

  lemma StepAddsNoOldBan(f: Failures, e: Event, ip: string, at: int)
    requires NoBanBefore(f, ip, at) && at <= e.at
    ensures NoBanBefore(Step(f, e), ip, at)
  {
  }

  lemma FalseCheckMeansNoBan(f: Failures, ip: string, at: int)
    requires !Banned(f, ip, at)
    ensures NoBanBefore(Checked(f, ip, at), ip, at)
  {
  }

  /** From a check that found no ban until event `n`, every ban there is, with the cleanups or without
      them, is younger than the check. */
  lemma {:induction false} BansAreYounger(events: seq<Event>, j: nat, n: nat)
    requires Monotone(events) && j < n <= |events| && events[j].Check?
    requires !Banned(Run(map[], events[..j]), events[j].ip, events[j].at)
    requires !Banned(Run(map[], Strip(events[..j])), events[j].ip, events[j].at)
    ensures NoBanBefore(Run(map[], events[..n]), events[j].ip, events[j].at)
    ensures NoBanBefore(Run(map[], Strip(events[..n])), events[j].ip, events[j].at)
  {
    hide Run;
    hide Strip;
    hide Step;
    hide Monotone;
    hide Banned;
    hide NoBanBefore;
    var e := events[n - 1];
    PrefixSnoc(events, n);
    StripRun(events[..n - 1], e);
    RunSnoc(map[], events[..n - 1], e);
    var f, g := Run(map[], events[..n - 1]), Run(map[], Strip(events[..n - 1]));
    if n == j + 1 {
      CheckStep(f, e);
      CheckStep(g, e);
    } else {
      NotBefore(events, j, n - 1);
      BansAreYounger(events, j, n - 1);
      StepAddsNoOldBan(f, e, events[j].ip, events[j].at);
      StepAddsNoOldBan(g, e, events[j].ip, events[j].at);
    }
  }

  lemma PrefixSnoc(events: seq<Event>, n: nat)
    requires 0 < n <= |events|
    ensures events[..n] == events[..n - 1] + [events[n - 1]]
  {
  }

  lemma NotBefore(events: seq<Event>, j: nat, k: nat)
    requires Monotone(events) && j <= k < |events|
    ensures events[j].at <= events[k].at
  {
  }

  lemma CheckStep(f: Failures, e: Event)
    requires e.Check? && !Banned(f, e.ip, e.at)
    ensures NoBanBefore(Step(f, e), e.ip, e.at)
  {
    FalseCheckMeansNoBan(f, e.ip, e.at);
  }

  /** The simulation: with and without the cleanups, the states mean the same. */
  lemma {:induction false} CleanupSimulation(events: seq<Event>, n: nat, now: int)
    requires Monotone(events) && Disciplined(events) && n <= |events|
    requires n > 0 ==> events[n - 1].at <= now
    ensures Alike(Run(map[], events[..n]), Run(map[], Strip(events[..n])), now)
    decreases n, 1
  {
    hide Run;
    hide Strip;
    hide Monotone;
    hide Disciplined;
    hide Alike;
    hide HasExpiredBan;
    if n == 0 {
      NothingAlike(events, now);
    } else {
      var e := events[n - 1];
      if n > 1 {
        NotBefore(events, n - 2, n - 1);
      }
      CleanupSimulation(events, n - 1, e.at);
      var f, g := Run(map[], events[..n - 1]), Run(map[], Strip(events[..n - 1]));
      PrefixSnoc(events, n);
      StripRun(events[..n - 1], e);
      RunSnoc(map[], events[..n - 1], e);
      match e {
        case Clean(at) =>
          CleanedAlike(f, at);
          AlikeChain(Cleaned(f, at), f, g, at);
        case Check(ip, at) =>
          CheckedAlike(f, g, ip, at);
        case Fail(ip, at) =>
          GuardKeepsExpiredBansAway(events, n - 1);
          RecordedAlike(f, g, ip, at);
      }
      AlikeLater(Run(map[], events[..n]), Run(map[], Strip(events[..n])), e.at, now);
    }
  }

  lemma NothingAlike(events: seq<Event>, now: int)
    ensures Alike(Run(map[], events[..0]), Run(map[], Strip(events[..0])), now)
  {
  }

  lemma AlikeChain(f: Failures, g: Failures, h: Failures, now: int)
    requires Alike(f, g, now) && Alike(g, h, now)
    ensures Alike(f, h, now)
  {
    forall ip ensures Live(f, ip, now) == Live(h, ip, now) {
      assert Live(f, ip, now) == Live(g, ip, now) == Live(h, ip, now);
    }
  }

  lemma {:induction false} GuardKeepsExpiredBansAway(events: seq<Event>, k: nat)
    requires Monotone(events) && Disciplined(events) && k < |events| && events[k].Fail?
    ensures !HasExpiredBan(Run(map[], events[..k]), events[k].ip, events[k].at)
    ensures !HasExpiredBan(Run(map[], Strip(events[..k])), events[k].ip, events[k].at)
    decreases k, 0
  {
    assert Guarded(events, k);
    var j: nat :| GuardedBy(events, j, k);
    CleanupSimulation(events, j, events[j].at);
    CheckedAlike(Run(map[], events[..j]), Run(map[], Strip(events[..j])), events[j].ip, events[j].at);
    BansAreYounger(events, j, k);
  }

  /** Invisible cleanup: when failures follow checks as in the server, the answer of every `IsBanned` is
      what it would be without any cleanup, so inserting or deleting cleanups changes none. */
  lemma CleanupIsInvisible(events: seq<Event>, k: nat)
    requires Monotone(events) && Disciplined(events) && k < |events| && events[k].Check?
    ensures Banned(Run(map[], events[..k]), events[k].ip, events[k].at)
       <==> Banned(Run(map[], Strip(events[..k])), events[k].ip, events[k].at)
  {
    CleanupSimulation(events, k, events[k].at);
    CheckedAlike(Run(map[], events[..k]), Run(map[], Strip(events[..k])), events[k].ip, events[k].at);
  }

  // ---- The five minutes are the boundary ----

  /** Failure `k` follows a check of the same address that found no ban, however long before: all that the
      order of the server's steps guarantees. */
  predicate Looked(events: seq<Event>, j: nat, k: nat)
    requires k < |events|
  {
    && events[k].Fail? && j < k && events[j] == Check(events[k].ip, events[j].at)
    && !Banned(Run(map[], events[..j]), events[k].ip, events[j].at)
  }

  ghost predicate ServerOrder(events: seq<Event>) {
    forall k: nat :: k < |events| && events[k].Fail? ==> exists j: nat :: Looked(events, j, k)
  }

  lemma LookedStays(events: seq<Event>, more: seq<Event>, j: nat, k: nat)
    requires k < |events| && Looked(events, j, k)
    ensures Looked(events + more, j, k)
  {
    assert (events + more)[..j] == events[..j];
  }

  /** One more event in the server's order: not a failure, or one that a check before it allows. */
  lemma OrderSnoc(events: seq<Event>, e: Event, j: nat)
    requires ServerOrder(events)
    requires e.Fail? ==>
               j < |events| && events[j] == Check(e.ip, events[j].at) && !Banned(Run(map[], events[..j]), e.ip, events[j].at)
    ensures ServerOrder(events + [e])
  {
    var all := events + [e];
    forall k: nat | k < |all| && all[k].Fail? ensures exists i: nat :: Looked(all, i, k) {
      if k < |events| {
        var i: nat :| Looked(events, i, k);
        LookedStays(events, [e], i, k);
      } else {
        assert all[..j] == events[..j];
        assert Looked(all, j, k);
      }
    }
  }

  lemma RunSnoc(f: Failures, events: seq<Event>, e: Event)
    ensures Run(f, events + [e]) == Step(Run(f, events), e)
  {
    assert (events + [e])[..|events|] == events;
  }

  /** `n` connections that fail at one instant, each after its check. */
  function Attempts(ip: string, at: int, n: nat): seq<Event> {
    if n == 0 then [] else Attempts(ip, at, n - 1) + [Check(ip, at), Fail(ip, at)]
  }

  /** An unbanned record with room for more failures at `at`. */
  predicate Room(f: Failures, ip: string, at: int, count: nat) {
    if count == 0 then ip !in f
    else ip in f && f[ip] == Record(count, f[ip].firstFail, None) && 0 <= at - f[ip].firstFail <= FAIL_WINDOW
  }

  lemma OneAttempt(es: seq<Event>, ip: string, at: int, count: nat)
    requires ServerOrder(es) && Room(Run(map[], es), ip, at, count) && count <= 10
    ensures ServerOrder(es + [Check(ip, at), Fail(ip, at)])
    ensures var f := Run(map[], es + [Check(ip, at), Fail(ip, at)]);
            if count < 10 then Room(f, ip, at, count + 1) else BannedSince(f, ip, at)
  {
    var check, fail := Check(ip, at), Fail(ip, at);
    RunSnoc(map[], es, check);
    RunSnoc(map[], es + [check], fail);
    hide ServerOrder;
    hide Run;
    OrderSnoc(es, check, 0);
    assert (es + [check])[..|es|] == es;
    OrderSnoc(es + [check], fail, |es|);
    assert es + [check] + [fail] == es + [check, fail];
  }

  /** From `count` failures on, `n` more attempts are counted one by one; the eleventh failure bans. */
  lemma {:induction false} AttemptsCount(before: seq<Event>, ip: string, at: int, count: nat, n: nat)
    requires ServerOrder(before) && Room(Run(map[], before), ip, at, count) && count + n <= 11
    ensures ServerOrder(before + Attempts(ip, at, n))
    ensures count + n <= 10 ==> Room(Run(map[], before + Attempts(ip, at, n)), ip, at, count + n)
    ensures count <= 10 && count + n == 11 ==> BannedSince(Run(map[], before + Attempts(ip, at, n)), ip, at)
  {
    hide ServerOrder;
    hide Run;
    hide Room;
    hide BannedSince;
    hide Attempts;
    if n == 0 {
      NoAttempts(before, ip, at);
    } else {
      AttemptsCount(before, ip, at, count, n - 1);
      AttemptsSnoc(before, ip, at, n);
      OneAttempt(before + Attempts(ip, at, n - 1), ip, at, count + n - 1);
    }
  }

  lemma NoAttempts(before: seq<Event>, ip: string, at: int)
    ensures before + Attempts(ip, at, 0) == before
  {
    assert Attempts(ip, at, 0) == [];
  }

  lemma AttemptsSnoc(before: seq<Event>, ip: string, at: int, n: nat)
    requires n > 0
    ensures before + Attempts(ip, at, n) == before + Attempts(ip, at, n - 1) + [Check(ip, at), Fail(ip, at)]
  {
  }

  lemma {:induction false} AttemptsAreClean(ip: string, at: int, n: nat)
    ensures forall i :: 0 <= i < |Attempts(ip, at, n)| ==> Attempts(ip, at, n)[i].at == at && !Attempts(ip, at, n)[i].Clean?
    ensures |Attempts(ip, at, n)| == 2 * n
  {
    if n > 0 {
      AttemptsAreClean(ip, at, n - 1);
    }
  }

  /** A connection is let in; eleven others fail and the address is banned; the ban runs out; with or
      without a cleanup, the first connection fails, and ten more after it. */
  function LateFailure(ip: string, at: int, cleanup: bool): seq<Event> {
    var late := at + BAN_DURATION + 1;
    [Check(ip, at)] + Attempts(ip, at, 11)
    + (if cleanup then [Clean(late)] else []) + [Fail(ip, late)] + Attempts(ip, late, 10)
  }

  /** Every failure follows its check, and yet the next check depends on the cleanup: the late failure came
      more than five minutes after its check. */
  lemma {:induction false} LateFailureSeesCleanup(ip: string, at: int)
    ensures var late := at + BAN_DURATION + 1;
            && ServerOrder(LateFailure(ip, at, true)) && ServerOrder(LateFailure(ip, at, false))
            && Banned(Run(map[], LateFailure(ip, at, true)), ip, late)
            && !Banned(Run(map[], LateFailure(ip, at, false)), ip, late)
  {
    WithCleanup(ip, at);
    WithoutCleanup(ip, at);
  }

  /** The ban that eleven attempts have led to, and the connection that was let in before it. */
  lemma UntilTheBan(ip: string, at: int)
    ensures var es := [Check(ip, at)] + Attempts(ip, at, 11);
            ServerOrder(es) && BannedSince(Run(map[], es), ip, at)
  {
    var first := [Check(ip, at)];
    var none: seq<Event> := [];
    assert none + first == first && Run(map[], none) == map[];
    RunSnoc(map[], none, Check(ip, at));
    AttemptsCount(first, ip, at, 0, 11);
  }

  lemma LateIsAllowed(es: seq<Event>, ip: string, at: int, late: int)
    requires ServerOrder(es) && es != [] && es[0] == Check(ip, at)
    ensures ServerOrder(es + [Fail(ip, late)])
  {
    assert es[..0] == [];
    OrderSnoc(es, Fail(ip, late), 0);
  }

  lemma WithCleanup(ip: string, at: int)
    ensures ServerOrder(LateFailure(ip, at, true))
    ensures Banned(Run(map[], LateFailure(ip, at, true)), ip, at + BAN_DURATION + 1)
  {
    var late := at + BAN_DURATION + 1;
    var es := [Check(ip, at)] + Attempts(ip, at, 11);
    hide Attempts;
    hide Looked;
    hide Run;
    hide ServerOrder;
    UntilTheBan(ip, at);
    RunSnoc(map[], es, Clean(late));
    OrderSnoc(es, Clean(late), 0);
    RunSnoc(map[], es + [Clean(late)], Fail(ip, late));
    LateIsAllowed(es + [Clean(late)], ip, at, late);
    AttemptsCount(es + [Clean(late)] + [Fail(ip, late)], ip, late, 1, 10);
  }

  lemma {:induction false} WithoutCleanup(ip: string, at: int)
    ensures ServerOrder(LateFailure(ip, at, false))
    ensures !Banned(Run(map[], LateFailure(ip, at, false)), ip, at + BAN_DURATION + 1)
  {
    hide Attempts;
    hide ServerOrder;
    hide Run;
    hide BannedSince;
    hide Room;
    hide LateFailure;
    hide Banned;
    var late := at + BAN_DURATION + 1;
    var es := [Check(ip, at)] + Attempts(ip, at, 11);
    var es2 := es + [Fail(ip, late)];
    UntilTheBan(ip, at);
    LateIsAllowed(es, ip, at, late);
    FailureWhileBanned(es, ip, at, late);
    FirstAttemptForgets(es2, ip, at, late);
    AttemptsCount(es2 + Attempts(ip, late, 1), ip, late, 1, 9);
    LateFailureParts(ip, at);
    RoomMeansNoBan(Run(map[], LateFailure(ip, at, false)), ip, late);
  }

  lemma FailureWhileBanned(es: seq<Event>, ip: string, at: int, late: int)
    requires BannedSince(Run(map[], es), ip, at)
    ensures BannedSince(Run(map[], es + [Fail(ip, late)]), ip, at)
  {
    RunSnoc(map[], es, Fail(ip, late));
  }

  lemma RoomMeansNoBan(f: Failures, ip: string, at: int)
    requires Room(f, ip, at, 10)
    ensures !Banned(f, ip, at)
  {
  }

  lemma LateFailureParts(ip: string, at: int)
    ensures var late := at + BAN_DURATION + 1;
            LateFailure(ip, at, false) ==
            [Check(ip, at)] + Attempts(ip, at, 11) + [Fail(ip, late)] + Attempts(ip, late, 1) + Attempts(ip, late, 9)
  {
    hide Attempts;
    var late := at + BAN_DURATION + 1;
    AttemptsFromOne(ip, late, 10);
    var es := [Check(ip, at)] + Attempts(ip, at, 11);
    assert es + [] == es;
    Regroup(es + [Fail(ip, late)], Attempts(ip, late, 1), Attempts(ip, late, 9));
  }

  lemma Regroup(a: seq<Event>, b: seq<Event>, c: seq<Event>)
    ensures a + (b + c) == a + b + c
  {
  }

  /** The check of the first attempt after the ban has run out forgets it. */
  lemma FirstAttemptForgets(es: seq<Event>, ip: string, at: int, late: int)
    requires ServerOrder(es) && BannedSince(Run(map[], es), ip, at) && late - at > BAN_DURATION
    ensures ServerOrder(es + Attempts(ip, late, 1)) && Room(Run(map[], es + Attempts(ip, late, 1)), ip, late, 1)
  {
    var check, fail := Check(ip, late), Fail(ip, late);
    RunSnoc(map[], es, check);
    RunSnoc(map[], es + [check], fail);
    hide ServerOrder;
    OrderSnoc(es, check, 0);
    assert (es + [check])[..|es|] == es;
    OrderSnoc(es + [check], fail, |es|);
    assert Attempts(ip, late, 0) == [] && Attempts(ip, late, 1) == [check, fail];
    assert es + [check] + [fail] == es + [check, fail];
  }

  /** Attempts may be counted from either end. */
  lemma {:induction false} AttemptsFromOne(ip: string, at: int, n: nat)
    requires n > 0
    ensures Attempts(ip, at, n) == Attempts(ip, at, 1) + Attempts(ip, at, n - 1)
  {
    if n > 1 {
      AttemptsFromOne(ip, at, n - 1);
    } else {
      assert Attempts(ip, at, 1) + [] == Attempts(ip, at, 1);
    }
  }
}
