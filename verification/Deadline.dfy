/** The pipe's deadline: concurrent `Set` calls and timer callbacks, in the steps between which the
    scheduler can switch. Channels are numbered in the order they are made. */
module Deadline {
  import opened Options

  /** A timer is armed, has expired so that its callback is about to run, has its callback holding the
      channel it is about to close, has run, or was stopped in time. */
  datatype TimerPhase = Armed | Expired | Loaded(ch: nat) | Ran | Stopped

  datatype Timer = Timer(at: int, phase: TimerPhase)

  /** A `Set` waits for `mu`, holds it, waits for the callback it could not stop, has cleared the timer's
      way, or has looked whether `cancel` is closed. */
  datatype SetPhase = Waiting | Locked | Draining(ch: nat) | Drained | Observed(closed: bool)

  datatype SetCall = SetCall(t: Option<int>, phase: SetPhase)

  /** What the last `Set` to return was asked for: no deadline, a timer, a time already past. */
  datatype Setting = Never | At(timer: nat) | Already(t: int)

  datatype State = State(now: int, mu: Option<nat>, calls: map<nat, SetCall>, timer: Option<nat>, timers: seq<Timer>,
                         cancel: nat, closed: set<nat>, panicked: bool, latest: Setting)

  const INIT: State := State(0, None, map[], None, [], 0, {}, false, Never)

  datatype Move =
    | Tick(dt: nat)
    | CallSet(s: nat, t: Option<int>)
    | Lock(s: nat)
    | StopTimer(s: nat)
    | Drain(s: nat)
    | Observe(s: nat)
    | Finish(s: nat)
    | Expire(i: nat)
    | Load(i: nat)
    | CloseLoaded(i: nat)

  /** Closing a closed channel panics. */
  function CloseChannel(d: State, ch: nat): State {
    d.(closed := d.closed + {ch}, panicked := d.panicked || ch in d.closed)
  }

  function SetTimer(d: State, i: nat, phase: TimerPhase): State
    requires i < |d.timers|
  {
    d.(timers := d.timers[i := d.timers[i].(phase := phase)])
  }

  function SetSet(d: State, s: nat, phase: SetPhase): State
    requires s in d.calls
  {
    d.(calls := d.calls[s := d.calls[s].(phase := phase)])
  }

  /** `d.timer != nil && !d.timer.Stop()`: a timer that has expired must be waited for. */
  function NextStop(d: State, s: nat): State
    requires s in d.calls
  {
    if d.timer.None? || d.timer.value >= |d.timers| then SetSet(d, s, Drained)
    else if d.timers[d.timer.value].phase.Armed? then SetTimer(SetSet(d, s, Drained), d.timer.value, Stopped)
    else SetSet(d, s, Draining(d.cancel))
  }

  /** The rest of `Set` after it has looked at `cancel`. */
  function NextFinish(d: State, s: nat): State
    requires s in d.calls && d.calls[s].phase.Observed?
  {
    var wasClosed, t := d.calls[s].phase.closed, d.calls[s].t;
    var e := d.(calls := d.calls - {s}, mu := None);
    match t
    case None => e.(cancel := if wasClosed then d.cancel + 1 else d.cancel, latest := Never)
    case Some(at) =>
      if at > d.now then
        e.(cancel := if wasClosed then d.cancel + 1 else d.cancel, timer := Some(|d.timers|),
           timers := d.timers + [Timer(at, Armed)], latest := At(|d.timers|))
      else
        (if wasClosed then e else CloseChannel(e, d.cancel)).(latest := Already(at))
  }

  predicate In(d: State, s: nat, phase: SetPhase) { s in d.calls && d.calls[s].phase == phase }

  function Next(d: State, m: Move): State {
    match m
    case Tick(dt) => d.(now := d.now + dt)
    case CallSet(s, t) => if s in d.calls then d else d.(calls := d.calls[s := SetCall(t, Waiting)])
    case Lock(s) => if In(d, s, Waiting) && d.mu.None? then SetSet(d, s, Locked).(mu := Some(s)) else d
    case StopTimer(s) => if In(d, s, Locked) then NextStop(d, s) else d
    case Drain(s) =>
      if s in d.calls && d.calls[s].phase.Draining? && d.calls[s].phase.ch in d.closed then SetSet(d, s, Drained) else d
    case Observe(s) => if In(d, s, Drained) then SetSet(d, s, Observed(d.cancel in d.closed)).(timer := None) else d
    case Finish(s) => if s in d.calls && d.calls[s].phase.Observed? then NextFinish(d, s) else d
    case Expire(i) =>
      if i < |d.timers| && d.timers[i].phase.Armed? && d.timers[i].at <= d.now then SetTimer(d, i, Expired) else d
    case Load(i) => if i < |d.timers| && d.timers[i].phase.Expired? then SetTimer(d, i, Loaded(d.cancel)) else d
    case CloseLoaded(i) =>
      if i < |d.timers| && d.timers[i].phase.Loaded? then SetTimer(CloseChannel(d, d.timers[i].phase.ch), i, Ran) else d
  }

  function Run(moves: seq<Move>): State {
    if moves == [] then INIT else Next(Run(moves[..|moves| - 1]), moves[|moves| - 1])
  }

  // ---- The invariant ----

  /** The callback is pending or running. */
  predicate Pending(t: Timer) { t.phase.Expired? || t.phase.Loaded? }

  predicate Over(t: Timer) { t.phase.Ran? || t.phase.Stopped? }

  predicate TimersOk(d: State) {
    && (d.timer.Some? ==> d.timer.value < |d.timers|)
    && (forall i :: 0 <= i < |d.timers| && d.timer != Some(i) ==> Over(d.timers[i]))
    && (forall i :: 0 <= i < |d.timers| && (Pending(d.timers[i]) || d.timers[i].phase.Ran?) ==> d.timers[i].at <= d.now)
    && (d.timer.Some? ==>
          var t := d.timers[d.timer.value];
          && (t.phase.Loaded? ==> t.phase.ch == d.cancel)
          && (t.phase.Ran? ==> d.cancel in d.closed)
          && (t.phase.Armed? || Pending(t) ==> d.cancel !in d.closed))
  }

  predicate ChannelsOk(d: State) {
    && !d.panicked
    && (forall c :: 0 <= c < d.cancel ==> c in d.closed)
    && (forall c :: c in d.closed ==> c <= d.cancel)
  }

  /** With nothing half done, the channel tells whether the deadline last set has passed. */
  predicate LatestOk(d: State) {
    match d.latest
    case Never => d.timer == None && d.cancel !in d.closed
    case At(i) => d.timer == Some(i) && i < |d.timers| && !d.timers[i].phase.Stopped?
    case Already(t) => d.timer == None && d.cancel in d.closed && t <= d.now
  }

  ghost predicate CallsOk(d: State) {
    && (forall s :: s in d.calls && !d.calls[s].phase.Waiting? ==> d.mu == Some(s))
    && (d.mu.Some? ==> d.mu.value in d.calls && !d.calls[d.mu.value].phase.Waiting?)
    && (d.mu.Some? ==>
          match d.calls[d.mu.value].phase
          case Waiting => true
          case Locked => LatestOk(d)
          case Draining(ch) =>
            && ch == d.cancel && d.timer.Some? && d.timer.value < |d.timers|
            && (Pending(d.timers[d.timer.value]) || d.timers[d.timer.value].phase.Ran?)
          case Drained => d.timer.Some? && d.timer.value < |d.timers| ==> Over(d.timers[d.timer.value])
          case Observed(wasClosed) => d.timer == None && wasClosed == (d.cancel in d.closed))
    && (d.mu.None? ==> LatestOk(d))
  }

  ghost predicate Inv(d: State) {
    TimersOk(d) && ChannelsOk(d) && CallsOk(d)
  }

  /** With the lock held and the timer's way cleared, no callback is pending. */
  lemma FinishKeepsInv(d: State, s: nat)
    requires Inv(d) && s in d.calls && d.calls[s].phase.Observed?
    ensures Inv(NextFinish(d, s))
  {
    assert d.mu == Some(s);
  }

  lemma StopKeepsInv(d: State, s: nat)
    requires Inv(d) && In(d, s, Locked)
    ensures Inv(NextStop(d, s))
  {
    assert d.mu == Some(s);
  }

  lemma SetStepsKeepInv(d: State, m: Move)
    requires Inv(d) && (m.CallSet? || m.Lock? || m.Drain? || m.Observe? || m.Tick?)
    ensures Inv(Next(d, m))
  {
  }

  /** A step of timer `i`'s callback, or its expiry. */
  lemma TimerStepKeepsInv(d: State, m: Move)
    requires Inv(d) && (m.Expire? || m.Load? || m.CloseLoaded?)
    ensures Inv(Next(d, m))
  {
    if Next(d, m) != d {
      assert d.timer == Some(m.i);
      TimerStepKeepsTimers(d, m);
      TimerStepKeepsCalls(d, m);
    }
  }

  lemma TimerStepKeepsTimers(d: State, m: Move)
    requires Inv(d) && (m.Expire? || m.Load? || m.CloseLoaded?) && d.timer == Some(m.i)
    ensures TimersOk(Next(d, m)) && ChannelsOk(Next(d, m))
  {
  }

  lemma TimerStepKeepsCalls(d: State, m: Move)
    requires Inv(d) && (m.Expire? || m.Load? || m.CloseLoaded?) && d.timer == Some(m.i)
    ensures CallsOk(Next(d, m))
  {
  }

  lemma NextKeepsInv(d: State, m: Move)
    requires Inv(d)
    ensures Inv(Next(d, m))
  {
    hide Inv;
    hide NextFinish;
    hide NextStop;
    match m
    case Finish(s) => if s in d.calls && d.calls[s].phase.Observed? { FinishKeepsInv(d, s); }
    case StopTimer(s) => if In(d, s, Locked) { StopKeepsInv(d, s); }
    case Expire(i) => TimerStepKeepsInv(d, m);
    case Load(i) => TimerStepKeepsInv(d, m);
    case CloseLoaded(i) => TimerStepKeepsInv(d, m);
    case _ => SetStepsKeepInv(d, m);
  }

  lemma {:induction false} InvOnEveryRun(moves: seq<Move>)
    ensures Inv(Run(moves))
  {
    if moves == [] {
    } else {
      InvOnEveryRun(moves[..|moves| - 1]);
      NextKeepsInv(Run(moves[..|moves| - 1]), moves[|moves| - 1]);
    }
  }

  // ---- What follows ----

  /** No channel is ever closed twice. */
  lemma NoDoubleClose(moves: seq<Move>)
    ensures !Run(moves).panicked
  {
    hide Run;
    InvOnEveryRun(moves);
  }

  /** At most one callback is pending or running; it belongs to the current timer, whose time has come,
      and the channel it closes is the current one, still open. */
  lemma OneCallback(moves: seq<Move>, i: nat)
    requires i < |Run(moves).timers| && Pending(Run(moves).timers[i])
    ensures var d := Run(moves);
            && d.timer == Some(i) && d.timers[i].at <= d.now && d.cancel !in d.closed
            && (d.timers[i].phase.Loaded? ==> d.timers[i].phase.ch == d.cancel)
            && forall j :: 0 <= j < |d.timers| && Pending(d.timers[j]) ==> j == i
  {
    hide Run;
    InvOnEveryRun(moves);
    hide CallsOk;
  }

  /** Whenever the lock is free, so at every `Wait` and once a `Set` has returned, the channel is closed
      exactly when the deadline last set was already past, or its timer has fired; and never before
      that deadline. */
  lemma WaitIsExact(moves: seq<Move>)
    requires Run(moves).mu == None
    ensures var d := Run(moves);
            match d.latest
            case Never => d.cancel !in d.closed
            case Already(t) => d.cancel in d.closed && t <= d.now
            case At(i) =>
              && i < |d.timers| && (d.cancel in d.closed <==> d.timers[i].phase.Ran?)
              && (d.cancel in d.closed ==> d.timers[i].at <= d.now)
  {
    hide Run;
    InvOnEveryRun(moves);
  }

  /** A channel is given up only once it is closed: whoever waits on an older one has been woken. */
  lemma OldChannelsAreClosed(moves: seq<Move>, c: nat)
    requires c < Run(moves).cancel
    ensures c in Run(moves).closed
  {
    hide Run;
    InvOnEveryRun(moves);
  }

  /** A `Set` that waits for a callback is never stuck: the channel it waits for is closed, or the
      callback that will close it is pending. */
  lemma DrainIsNeverStuck(moves: seq<Move>, s: nat)
    requires s in Run(moves).calls && Run(moves).calls[s].phase.Draining?
    ensures var d := Run(moves);
            && d.calls[s].phase.ch == d.cancel && d.timer.Some? && d.timer.value < |d.timers|
            && (d.cancel in d.closed || Pending(d.timers[d.timer.value]))
  {
    hide Run;
    InvOnEveryRun(moves);
  }

  /** What a `Set` has done once it returns: its own deadline is now the one in force, whatever callbacks
      and earlier calls were under way. */
  lemma {:induction false} SetTakesEffect(moves: seq<Move>, d: State, s: nat)
    requires d == Run(moves) && s in d.calls && d.calls[s].phase.Observed?
    ensures var d' := Next(d, Finish(s));
            && d'.mu == None && s !in d'.calls && !d'.panicked
            && match d.calls[s].t
               case None => d'.latest == Never && d'.timer == None && d'.cancel !in d'.closed
               case Some(at) =>
                 if at > d.now then
                   d'.timer.Some? && d'.timer.value < |d'.timers| && d'.timers[d'.timer.value] == Timer(at, Armed)
                   && d'.latest == At(d'.timer.value) && d'.cancel !in d'.closed
                 else d'.latest == Already(at) && d'.timer == None && d'.cancel in d'.closed
  {
    hide Run;
    InvOnEveryRun(moves);
    assert d.mu == Some(s);
  }
}
