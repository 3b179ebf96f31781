/** The SYNACK watcher: when one is armed, and what its running out does. */
module Watchers {
  import opened Options
  import opened Frames
  import opened SessionSpec
  import Lifecycle
  import Duties

  /** Some watcher's time is running. */
  predicate Watched(s: Session) { exists w :: 0 <= w < |s.watchers| && s.watchers[w] == Armed }

  /** An open that is to be answered: any but the first, on a session whose server has announced version 2. */
  predicate Arms(s: Session, a: Action) {
    a.ABegin? && Enabled(s, a) && !s.closed && s.lastId + 1 >= 2 && s.peerVersion >= 2
  }

  /** A SYNACK is acted on. */
  predicate Settles(s: Session, a: Action) { a.AHandle? && s.pending.Some? && s.pending.value.cmd == CMD_SYNACK }

  predicate RunsOut(s: Session, a: Action) { a.AFire? && a.w < |s.watchers| && s.watchers[a.w] == Armed }

  /** `OpenStream` arms a new watcher, the one `synDone` names and the only one, if and only if the id drawn is
      at least 2 and the server has announced at least version 2; if not, the old one stays as it is. */
  lemma BeginArmsIff(s: Session)
    requires Lifecycle.WatchersOk(s) && Enabled(s, ABegin) && !s.closed
    ensures var t, w := Next(s, ABegin), |s.watchers|;
            && (s.lastId + 1 >= 2 && s.peerVersion >= 2 <==>
                 t.synDone == Some(w) && |t.watchers| == w + 1 && t.watchers[w] == Armed)
            && (!(s.lastId + 1 >= 2 && s.peerVersion >= 2) ==> t.watchers == s.watchers && t.synDone == s.synDone)
            && (Arms(s, ABegin) ==> forall v :: 0 <= v < w ==> t.watchers[v] != Armed)
  {
  }

  /** A watcher whose time runs out closes the session. */
  lemma RunningOutCloses(s: Session, a: Action)
    requires RunsOut(s, a)
    ensures Next(s, a).closed
  {
    hide Kill;
  }

  lemma HandlingWatches(s: Session, f: Frame)
    requires Lifecycle.WatchersOk(s) && s.pending == Some(f)
    ensures Watched(Handle(s)) <==> Watched(s) && f.cmd != CMD_SYNACK
  {
    hide AnnouncedMd5;
    hide AnnouncedVersion;
    hide Kill;
    hide Die;
  }

  lemma LocalWatches(s: Session, a: Action)
    requires Lifecycle.WatchersOk(s) && Enabled(s, a) && !a.AHandle?
    ensures Watched(Perform(s, a)) <==> Arms(s, a) || (Watched(s) && !RunsOut(s, a))
  {
    hide Kill;
    hide Die;
    if Arms(s, a) {
      var t := OpenBegin(s);
      assert t.watchers[|s.watchers|] == Armed;
    }
  }

  /** One step: a watched open, or a watcher from before that is neither answered nor has run out. */
  lemma StepWatchedIff(s: Session, a: Action)
    requires Lifecycle.Inv(s)
    ensures Watched(Next(s, a)) <==> Arms(s, a) || (Watched(s) && !Settles(s, a) && !RunsOut(s, a))
  {
    WatchersAreOk(s);
    hide Lifecycle.Inv;
    hide Handle;
    hide Watched;
    if a.AHandle? {
      Duties.HandlePerforms(s);
      if s.pending.Some? {
        HandlingWatches(s, s.pending.value);
      }
    } else if Enabled(s, a) {
      LocalWatches(s, a);
      hide Perform;
    }
  }

  lemma WatchersAreOk(s: Session)
    requires Lifecycle.Inv(s)
    ensures Lifecycle.WatchersOk(s)
  {
  }

  /** Open `i` is to be answered, and has been neither answered nor timed out since. */
  ghost predicate Pending(s0: Session, actions: seq<Action>, i: nat) {
    && i < |actions| && Arms(Run(s0, actions[..i]), actions[i])
    && forall j :: i < j < |actions| ==>
                     !Settles(Run(s0, actions[..j]), actions[j]) && !RunsOut(Run(s0, actions[..j]), actions[j])
  }

  lemma PendingSnoc(s0: Session, actions: seq<Action>)
    requires actions != []
    ensures var n := |actions| - 1;
            var s, a := Run(s0, actions[..n]), actions[n];
            (exists i: nat :: Pending(s0, actions, i)) <==>
              (Arms(s, a) || ((exists i: nat :: Pending(s0, actions[..n], i)) && !Settles(s, a) && !RunsOut(s, a)))
  {
    hide Run;
    hide Arms;
    hide Settles;
    hide RunsOut;
    var n := |actions| - 1;
    var init := actions[..n];
    assert forall j :: 0 <= j <= n ==> init[..j] == actions[..j];
    if i: nat :| Pending(s0, actions, i) {
      assert i < n ==> Pending(s0, init, i);
    }
    if Arms(Run(s0, init), actions[n]) {
      assert Pending(s0, actions, n);
    }
    if i: nat :| Pending(s0, init, i) {
      if !Settles(Run(s0, init), actions[n]) && !RunsOut(Run(s0, init), actions[n]) {
        assert Pending(s0, actions, i);
      }
    }
  }

  /** When a watcher is armed, exactly, over every run of either side against any peer. */
  lemma {:induction false} WatchedIff(s0: Session, actions: seq<Action>, s: Session)
    requires Duties.Starts(s0) && s == Run(s0, actions)
    ensures Watched(s) <==> exists i: nat :: Pending(s0, actions, i)
  {
    hide Next;
    hide Watched;
    hide Pending;
    if actions == [] {
      NobodyWaits(s0);
    } else {
      var n := |actions| - 1;
      var u := Run(s0, actions[..n]);
      WatchedIff(s0, actions[..n], u);
      Duties.StartIsInv(s0);
      Lifecycle.InvOnEveryRun(s0, actions[..n]);
      StepWatchedIff(u, actions[n]);
      PendingSnoc(s0, actions);
    }
  }

  lemma NobodyWaits(s: Session)
    requires s.watchers == []
    ensures !Watched(s) && forall i: nat :: !Pending(s, [], i)
  {
  }

  lemma {:induction false} ClosedStaysClosed(s0: Session, actions: seq<Action>, j: nat)
    requires j <= |actions| && Run(s0, actions[..j]).closed
    ensures Run(s0, actions).closed
  {
    if j == |actions| {
      assert actions[..j] == actions;
    } else {
      var n := |actions| - 1;
      assert actions[..n][..j] == actions[..j];
      ClosedStaysClosed(s0, actions[..n], j);
      hide Next;
      Lifecycle.DeathAndCloseAreFinal(Run(s0, actions[..n]), actions[n]);
    }
  }

  /** So on an open session a watcher is armed, the one `synDone` names, if and only if since the last open
      that is to be answered no SYNACK has been acted on; and when its time runs out, the session closes. */
  lemma {:induction false} UnansweredIsWatched(s0: Session, actions: seq<Action>, s: Session)
    requires Duties.Starts(s0) && s == Run(s0, actions) && !s.closed
    ensures Watched(s) <==>
              exists i: nat :: WatchedOpen(s0, actions, i) && UnansweredSince(s0, actions, i)
    ensures Watched(s) ==> s.synDone.Some? && Next(s, AFire(s.synDone.value)).closed
  {
    hide Next;
    hide Arms;
    hide Settles;
    hide RunsOut;
    hide Run;
    WatchedIff(s0, actions, s);
    forall j | 0 <= j < |actions| ensures !RunsOut(Run(s0, actions[..j]), actions[j]) {
      NotRunOut(s0, actions, j);
    }
    if i: nat :| Pending(s0, actions, i) {
      assert WatchedOpen(s0, actions, i) && UnansweredSince(s0, actions, i);
    }
    if i: nat :| WatchedOpen(s0, actions, i) && UnansweredSince(s0, actions, i) {
      assert Pending(s0, actions, i);
    }
    Duties.StartIsInv(s0);
    Lifecycle.InvOnEveryRun(s0, actions);
    if Watched(s) {
      FiringCloses(s);
    }
  }

  ghost predicate UnansweredSince(s0: Session, actions: seq<Action>, i: nat) {
    forall j :: i < j < |actions| ==> !Settles(Run(s0, actions[..j]), actions[j])
  }

  ghost predicate WatchedOpen(s0: Session, actions: seq<Action>, i: nat) {
    i < |actions| && Arms(Run(s0, actions[..i]), actions[i])
  }

  lemma NotRunOut(s0: Session, actions: seq<Action>, j: nat)
    requires j < |actions| && !Run(s0, actions).closed
    ensures !RunsOut(Run(s0, actions[..j]), actions[j])
  {
    if RunsOut(Run(s0, actions[..j]), actions[j]) {
      RunningOutCloses(Run(s0, actions[..j]), actions[j]);
      assert actions[..j + 1][..j] == actions[..j];
      hide Next;
      ClosedStaysClosed(s0, actions, j + 1);
    }
  }

  lemma FiringCloses(s: Session)
    requires Lifecycle.Inv(s) && Watched(s)
    ensures s.synDone.Some? && Next(s, AFire(s.synDone.value)).closed
  {
    WatchersAreOk(s);
    RunningOutCloses(s, AFire(s.synDone.value));
  }
}
