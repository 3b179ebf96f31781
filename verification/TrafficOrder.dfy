/** When a run keeps its books: the order of calls that suffices, and what goes wrong without it. */
module TrafficOrder {
  import opened Traffic
  import opened TrafficRuns

  /** No `Add` lies between its lookup and its last addition. */
  predicate AddsDone(s: State) { forall k :: 0 <= k < |s.calls| ==> s.calls[k].left == ZERO_AMOUNT }

  /** Nothing under way: no snapshot, no `Add`, nothing pushed and unanswered or still to be rolled back. */
  predicate AtRest(s: State) {
    s.snap.Idle? && AddsDone(s) && forall b :: 0 <= b < |s.batches| ==> s.batches[b].data == map[]
  }

  /** The order of calls: a snapshot waits for the `Add`s under way, and the process restarts right after a
      save, at rest. */
  predicate Orderly(moves: seq<Move>, k: nat)
    requires k < |moves|
  {
    && (moves[k].SnapBegin? ==> AddsDone(Run(moves[..k])))
    && (moves[k].Restart? ==> k > 0 && moves[k - 1].Save? && AtRest(Run(moves[..k])))
  }

  ghost predicate OrderlyRun(moves: seq<Move>) { forall k :: 0 <= k < |moves| ==> Orderly(moves, k) }

  /** Every `Add` under way still has its user's cell, and none is under way during a snapshot. */
  predicate AddsHaveCells(s: State) {
    && (!s.snap.Idle? ==> AddsDone(s))
    && (forall k :: 0 <= k < |s.calls| && s.calls[k].left != ZERO_AMOUNT ==> Attached(s, s.calls[k]))
  }

  // ---- An orderly run does no harm ----

  lemma EnterKeepsCells(s: State, uid: UserId, a: Amount)
    requires AddsHaveCells(s) && s.snap.Idle?
    ensures AddsHaveCells(Enter(s, uid, a))
  {
  }

  lemma RollbackKeepsCells(s: State, b: nat, uid: UserId)
    requires AddsHaveCells(s)
    ensures AddsHaveCells(Next(s, Rollback(b, uid)))
  {
    hide AddsHaveCells;
    if Next(s, Rollback(b, uid)) != s {
      assert s.snap.Idle?;
      var t := Enter(s, uid, s.batches[b].data[uid]);
      EnterKeepsCells(s, uid, s.batches[b].data[uid]);
      SamePlaces(t, SetData(t, b, s.batches[b].data - {uid}));
    }
  }

  lemma SamePlaces(s: State, t: State)
    requires AddsHaveCells(s) && t.calls == s.calls && t.counters == s.counters
    requires !t.snap.Idle? ==> !s.snap.Idle? || AddsDone(s)
    ensures AddsHaveCells(t)
  {
  }

  lemma AddKeepsCells(s: State, m: Move)
    requires AddsHaveCells(s) && (m.AddUp? || m.AddDown?)
    ensures AddsHaveCells(Next(s, m))
  {
  }

  lemma PruneKeepsCells(s: State, uid: UserId)
    requires AddsHaveCells(s)
    ensures AddsHaveCells(Next(s, Prune(uid)))
  {
  }

  /** The steps of pushes, of saves, and of snapshots as long as they take counts. */
  predicate LeavesPlaces(m: Move) {
    m.SnapBegin? || m.SwapUp? || m.SwapDown? || m.SnapTurn? || m.SnapEnd? || m.PushOk? || m.PushFails? || m.Save?
  }

  lemma PlacesStay(s: State, m: Move)
    requires LeavesPlaces(m)
    ensures Next(s, m).calls == s.calls && Next(s, m).counters == s.counters
    ensures !Next(s, m).snap.Idle? ==> m.SnapBegin? || !s.snap.Idle?
  {
    hide Content;
    hide Nonzero;
    hide Merged;
  }

  lemma SnapKeepsCells(s: State, m: Move)
    requires AddsHaveCells(s) && LeavesPlaces(m)
    requires m.SnapBegin? ==> AddsDone(s)
    ensures AddsHaveCells(Next(s, m))
  {
    hide AddsHaveCells;
    hide AddsDone;
    hide Next;
    PlacesStay(s, m);
    SamePlaces(s, Next(s, m));
  }

  lemma NextKeepsCells(s: State, m: Move)
    requires AddsHaveCells(s)
    requires m.SnapBegin? ==> AddsDone(s)
    ensures AddsHaveCells(Next(s, m))
  {
    hide Next;
    hide AddsHaveCells;
    match m
    case Begin(uid, up, down) => BeginKeepsCells(s, uid, up, down);
    case AddUp(k) => AddKeepsCells(s, m);
    case AddDown(k) => AddKeepsCells(s, m);
    case Prune(uid) => PruneKeepsCells(s, uid);
    case Rollback(b, uid) => RollbackKeepsCells(s, b, uid);
    case Restart(order) => RestartKeepsCells(s, order);
    case _ => SnapKeepsCells(s, m);
  }

  lemma BeginKeepsCells(s: State, uid: UserId, up: nat, down: nat)
    requires AddsHaveCells(s)
    ensures AddsHaveCells(Next(s, Begin(uid, up, down)))
  {
    hide AddsHaveCells;
    if s.snap.Idle? {
      EnterKeepsCells(s, uid, Amount(up, down));
      SamePlaces(Enter(s, uid, Amount(up, down)), Next(s, Begin(uid, up, down)));
    }
  }

  lemma RestartKeepsCells(s: State, order: seq<UserId>)
    requires AddsHaveCells(s)
    ensures AddsHaveCells(Next(s, Restart(order)))
  {
  }

  lemma OrderlyPrefix(moves: seq<Move>)
    requires OrderlyRun(moves) && moves != []
    ensures OrderlyRun(moves[..|moves| - 1])
  {
    var init := moves[..|moves| - 1];
    forall k | 0 <= k < |init| ensures Orderly(init, k) {
      assert Orderly(moves, k);
      assert init[..k] == moves[..k];
    }
  }

  lemma {:induction false} CellsOnEveryRun(moves: seq<Move>)
    requires OrderlyRun(moves)
    ensures AddsHaveCells(Run(moves))
  {
    if moves == [] {
    } else {
      var n := |moves| - 1;
      OrderlyPrefix(moves);
      CellsOnEveryRun(moves[..n]);
      hide Next;
      hide AddsHaveCells;
      assert Orderly(moves, n);
      NextKeepsCells(Run(moves[..n]), moves[n]);
    }
  }

  lemma {:induction false} NothingFlying(calls: seq<Call>, uid: UserId, d: Direction)
    requires forall k :: 0 <= k < |calls| ==> calls[k].left == ZERO_AMOUNT
    ensures Flying(calls, uid, d) == 0
  {
    if calls != [] {
      NothingFlying(calls[..|calls| - 1], uid, d);
    }
  }

  lemma {:induction false} NothingWaiting(batches: seq<Batch>, uid: UserId, d: Direction)
    requires forall b :: 0 <= b < |batches| ==> batches[b].data == map[]
    ensures Waiting(batches, uid, d) == 0
  {
    if batches != [] {
      NothingWaiting(batches[..|batches| - 1], uid, d);
    }
  }

  lemma RestsAlike(s: State, uid: UserId, d: Direction)
    requires AtRest(Next(s, Save))
    ensures AtRest(s) && Waiting(s.batches, uid, d) == 0 && Flying(s.calls, uid, d) == 0
  {
    hide Content;
    hide Nonzero;
    NothingFlying(s.calls, uid, d);
    NothingWaiting(s.batches, uid, d);
  }

  lemma OrderlyStepIsHarmless(moves: seq<Move>, k: nat, uid: UserId, d: Direction)
    requires k < |moves| && Orderly(moves, k) && AddsHaveCells(Run(moves[..k]))
    ensures Harmless(Run(moves[..k]), moves[k], uid, d)
  {
    hide Next;
    hide Run;
    if moves[k].Restart? {
      SavedBefore(moves, k);
      ShapeOnEveryRun(moves[..k - 1]);
      RestsAlike(Run(moves[..k - 1]), uid, d);
      hide Harmless;
      hide Shape;
      SaveThenRestart(Run(moves[..k - 1]), moves[k].order, uid, d);
    }
  }

  lemma SavedBefore(moves: seq<Move>, k: nat)
    requires 0 < k < |moves| && moves[k - 1].Save?
    ensures Run(moves[..k]) == Next(Run(moves[..k - 1]), Save)
  {
    assert moves[..k][..k - 1] == moves[..k - 1];
  }

  /** Traffic conservation over whole runs. If snapshots do not begin while an `Add` is between its lookup
      and its last addition, and restarts come right after a save and at rest, then after any such run, so
      after each step of one, all that was ever added for a user is acknowledged, in a snapshot, in an
      `Add` under way, or in the counter; at rest it is acknowledged or in the counter. */
  lemma {:induction false} OrderlyRunsConserve(moves: seq<Move>, s: State, uid: UserId, d: Direction)
    requires OrderlyRun(moves) && s == Run(moves)
    ensures Conserved(s, uid, d)
    ensures AtRest(s) ==> PartOf(s.added, uid, d) == PartOf(s.acked, uid, d) + InCounter(s, uid, d)
  {
    hide Next;
    hide Run;
    hide Harmless;
    hide AddsHaveCells;
    forall k | 0 <= k < |moves| ensures Harmless(Run(moves[..k]), moves[k], uid, d) {
      OrderlyCut(moves, k);
      CellsOnEveryRun(moves[..k]);
      assert Orderly(moves, k);
      OrderlyStepIsHarmless(moves, k, uid, d);
    }
    ConservedOnEveryRun(moves, uid, d);
    if AtRest(s) {
      NothingFlying(s.calls, uid, d);
      NothingWaiting(s.batches, uid, d);
    }
  }

  lemma OrderlyCut(moves: seq<Move>, n: nat)
    requires OrderlyRun(moves) && n <= |moves|
    ensures OrderlyRun(moves[..n])
  {
    forall k | 0 <= k < n ensures Orderly(moves[..n], k) {
      assert Orderly(moves, k);
      assert moves[..n][..k] == moves[..k];
    }
  }

  // ---- Which Add is lost ----

  /** The step by which a snapshot drops a user's cell. */
  predicate Drops(s: State, m: Move, uid: UserId) {
    m == Prune(uid) && s.snap.Pruning? && uid in s.snap.todo && Empty(s, uid)
  }

  predicate SameCall(s: State, t: State, k: nat)
    requires k < |s.calls|
  {
    k < |t.calls| && t.calls[k].uid == s.calls[k].uid && t.calls[k].cell == s.calls[k].cell
  }

  lemma EnterDropsNone(s: State, t: State, uid: UserId, a: Amount, k: nat)
    requires k < |s.calls| && s.calls[k].cell < |s.cells|
    requires t.calls == Enter(s, uid, a).calls && t.counters == Enter(s, uid, a).counters
    ensures SameCall(s, t, k) && (Attached(t, t.calls[k]) <==> Attached(s, s.calls[k]))
  {
  }

  lemma AddDropsNone(s: State, m: Move, k: nat)
    requires k < |s.calls| && (m.AddUp? || m.AddDown?)
    ensures SameCall(s, Next(s, m), k) && (Attached(Next(s, m), Next(s, m).calls[k]) <==> Attached(s, s.calls[k]))
  {
  }

  lemma PruneDropsIff(s: State, uid: UserId, k: nat)
    requires k < |s.calls|
    ensures var t := Next(s, Prune(uid));
            && SameCall(s, t, k)
            && (Attached(t, t.calls[k]) <==> Attached(s, s.calls[k]) && !Drops(s, Prune(uid), s.calls[k].uid))
  {
  }

  lemma CallsHaveCells(s: State, k: nat)
    requires Shape(s) && k < |s.calls|
    ensures s.calls[k].cell < |s.cells|
  {
  }

  /** A call stays with its user's cell exactly until a snapshot drops that cell; it never gets it back. */
  lemma DroppedForGood(s: State, m: Move, k: nat)
    requires Shape(s) && k < |s.calls| && !m.Restart?
    ensures SameCall(s, Next(s, m), k)
    ensures Attached(Next(s, m), Next(s, m).calls[k]) <==> Attached(s, s.calls[k]) && !Drops(s, m, s.calls[k].uid)
  {
    CallsHaveCells(s, k);
    hide Shape;
    if LeavesPlaces(m) {
      PlacesStay(s, m);
      hide Next;
    } else if m.Prune? {
      PruneDropsIff(s, m.uid, k);
      hide Next;
    } else if m.AddUp? || m.AddDown? {
      AddDropsNone(s, m, k);
      hide Next;
    } else {
      LookupDropsNone(s, m, k);
    }
  }

  lemma LookupDropsNone(s: State, m: Move, k: nat)
    requires k < |s.calls| && s.calls[k].cell < |s.cells| && (m.Begin? || m.Rollback?)
    ensures SameCall(s, Next(s, m), k) && (Attached(Next(s, m), Next(s, m).calls[k]) <==> Attached(s, s.calls[k]))
  {
    hide Enter;
    hide Attached;
    if Next(s, m) != s {
      var a := if m.Begin? then Amount(m.up, m.down) else s.batches[m.b].data[m.uid];
      EnterDropsNone(s, Next(s, m), m.uid, a, k);
    }
  }

  /** After move `i` no snapshot has found the user's cell empty and dropped it. */
  predicate KeptSince(moves: seq<Move>, i: nat, uid: UserId) {
    forall j :: i < j < |moves| ==> !Drops(Run(moves[..j]), moves[j], uid)
  }

  lemma KeptStep(moves: seq<Move>, i: nat, uid: UserId)
    requires i < |moves| - 1
    ensures var n := |moves| - 1;
            KeptSince(moves, i, uid) <==> KeptSince(moves[..n], i, uid) && !Drops(Run(moves[..n]), moves[n], uid)
  {
    hide Drops;
    hide Run;
    PrefixesOfInit(moves, i);
  }

  /** An `Add` reaches the counter if and only if, since its lookup, no snapshot has found its user's cell
      empty and dropped it. `i` is the move that looks the cell up, for call `k`. */
  lemma {:induction false} AddReachesCounterIff(moves: seq<Move>, i: nat, k: nat)
    requires i < |moves| && (moves[i].Begin? || moves[i].Rollback?)
    requires |Run(moves[..i]).calls| == k && |Run(moves[..i + 1]).calls| == k + 1
    requires forall j :: i < j < |moves| ==> !moves[j].Restart?
    ensures var s := Run(moves);
            && k < |s.calls| && s.calls[k].uid == moves[i].uid
            && (Attached(s, s.calls[k]) <==> KeptSince(moves, i, moves[i].uid))
    decreases |moves|
  {
    hide Next;
    hide Run;
    hide Attached;
    hide Drops;
    hide KeptSince;
    hide Shape;
    RunLast(moves);
    var n := |moves| - 1;
    if n == i {
      assert moves[..i + 1] == moves;
      NothingSince(moves, moves[i].uid);
      LookupAttaches(Run(moves[..i]), moves[i]);
    } else {
      assert moves[..n][..i] == moves[..i] && moves[..n][..i + 1] == moves[..i + 1];
      AddReachesCounterIff(moves[..n], i, k);
      ShapeOnEveryRun(moves[..n]);
      KeptStep(moves, i, moves[i].uid);
      DroppedForGood(Run(moves[..n]), moves[n], k);
    }
  }

  lemma NothingSince(moves: seq<Move>, uid: UserId)
    requires moves != []
    ensures KeptSince(moves, |moves| - 1, uid)
  {
  }

  lemma RunLast(moves: seq<Move>)
    requires moves != []
    ensures Run(moves) == Next(Run(moves[..|moves| - 1]), moves[|moves| - 1])
  {
  }

  lemma PrefixesOfInit(moves: seq<Move>, i: nat)
    requires i < |moves| - 1
    ensures var init := moves[..|moves| - 1];
            forall j :: 0 <= j <= |init| ==> init[..j] == moves[..j]
  {
  }

  lemma LookupAttaches(s: State, m: Move)
    requires (m.Begin? || m.Rollback?) && |Next(s, m).calls| == |s.calls| + 1
    ensures var c := Next(s, m).calls[|s.calls|]; c.uid == m.uid && Attached(Next(s, m), c)
  {
  }

  // ---- Which restart is out of date ----

  lemma OnlySaveWrites(s: State, m: Move)
    requires !m.Save?
    ensures Next(s, m).file == s.file
  {
    hide Merged;
    hide Credit;
    hide Enumerates;
    hide LoadedCells;
  }

  lemma {:induction false} FileStays(moves: seq<Move>, i: nat)
    requires i <= |moves| && forall j :: i <= j < |moves| ==> !moves[j].Save?
    ensures Run(moves).file == Run(moves[..i]).file
  {
    var n := |moves| - 1;
    if i == |moves| {
      assert moves[..i] == moves;
    } else {
      assert moves[..n][..i] == moves[..i];
      FileStays(moves[..n], i);
      hide Next;
      OnlySaveWrites(Run(moves[..n]), moves[n]);
    }
  }

  lemma SaveWrites(moves: seq<Move>, i: nat)
    requires i < |moves| && moves[i].Save? && Run(moves[..i]).snap.Idle?
    ensures Run(moves[..i + 1]).file == Nonzero(Content(Run(moves[..i])))
  {
    hide Content;
    hide Nonzero;
    assert moves[..i + 1][..i] == moves[..i];
    RunLast(moves[..i + 1]);
  }

  lemma FileIsAsSaved(moves: seq<Move>, i: nat, uid: UserId, d: Direction)
    requires i < |moves| && moves[i].Save? && forall j :: i < j < |moves| ==> !moves[j].Save?
    requires Run(moves[..i]).snap.Idle?
    ensures PartOf(Run(moves).file, uid, d) == InCounter(Run(moves[..i]), uid, d)
  {
    hide Next;
    hide Run;
    hide Shape;
    hide PartOf;
    hide InCounter;
    hide Content;
    hide Nonzero;
    SaveWrites(moves, i);
    ShapeOnEveryRun(moves[..i]);
    FileStays(moves, i + 1);
    SavedCounter(Run(moves[..i]), uid, d);
  }

  /** When a restart is harmless, by what came after the last save, move `i`: the panel has acknowledged
      since then exactly what was under way at the save or has been added since. */
  lemma {:induction false} RestartAfterSaveIff(moves: seq<Move>, i: nat, saved: State, s: State, order: seq<UserId>,
                                               uid: UserId, d: Direction)
    requires i < |moves| && moves[i].Save? && forall j :: i < j < |moves| ==> !moves[j].Save?
    requires saved == Run(moves[..i]) && saved.snap.Idle? && s == Run(moves) && Enumerates(order, s.file)
    requires Conserved(saved, uid, d) && Conserved(s, uid, d)
    ensures Conserved(Next(s, Restart(order)), uid, d) <==>
            (PartOf(s.acked, uid, d) - PartOf(saved.acked, uid, d)
             == PartOf(s.added, uid, d) - PartOf(saved.added, uid, d)
                + Waiting(saved.batches, uid, d) + Flying(saved.calls, uid, d))
  {
    hide Enumerates;
    hide Shape;
    hide Next;
    hide Run;
    hide InCounter;
    hide PartOf;
    hide Waiting;
    hide Flying;
    FileIsAsSaved(moves, i, uid, d);
    ShapeOnEveryRun(moves);
    StepConservesIff(s, Restart(order), uid, d);
  }

  // ---- Restarts that repeat and lose traffic ----

  /** A counter holding `up` bytes of one user, and nothing else going on. */
  predicate Holding(s: State, uid: UserId, up: nat, file: Amounts) {
    && s.cells == [Cell(uid, Amount(up, 0))] && s.counters == map[uid := 0]
    && s.batches == [] && s.snap == Idle && s.file == file && s.added == map[uid := Amount(up, 0)] && s.acked == map[]
  }

  lemma AddedAndDone(uid: UserId, up: nat)
    ensures Holding(Next(Next(Next(INIT, Begin(uid, up, 0)), AddUp(0)), AddDown(0)), uid, up, map[])
  {
    LookedUp(uid, up);
    var s := Next(INIT, Begin(uid, up, 0));
    assert s.file == map[] && s.added == map[uid := Amount(up, 0)];
    var t := Next(s, AddUp(0));
    assert t.cells == [Cell(uid, Amount(up, 0))] && t.calls == [Call(uid, 0, ZERO_AMOUNT, true)];
  }

  /** A process that dies without a save loses what its counter held. */
  lemma RestartLoses(uid: UserId, up: nat)
    ensures var s := Next(Next(Next(Next(INIT, Begin(uid, up, 0)), AddUp(0)), AddDown(0)), Restart([]));
            PartOf(s.added, uid, Upload) == up && PartOf(s.acked, uid, Upload) == 0 && Unacked(s, uid, Upload) == 0
  {
    AddedAndDone(uid, up);
    var s := Next(Next(Next(INIT, Begin(uid, up, 0)), AddUp(0)), AddDown(0));
    hide Next;
    LosesAll(s, uid, up);
  }

  lemma LosesAll(s: State, uid: UserId, up: nat)
    requires Holding(s, uid, up, map[])
    ensures var t := Next(s, Restart([]));
            PartOf(t.added, uid, Upload) == up && PartOf(t.acked, uid, Upload) == 0 && Unacked(t, uid, Upload) == 0
  {
    var t := Next(s, Restart([]));
    assert t.counters == map[];
    EmptyPlaces(uid, Upload);
  }

  /** A restart from a save that a push has overtaken: the panel has acknowledged the traffic, and the
      counter holds it again. */
  lemma RestartRepeats(uid: UserId, up: nat)
    requires up > 0
    ensures var s := Next(Next(Next(Next(INIT, Begin(uid, up, 0)), AddUp(0)), AddDown(0)), Save);
            var t := Next(Next(Next(Next(Next(Next(s, SnapBegin), SwapUp(uid)), SwapDown), SnapTurn), Prune(uid)), SnapEnd);
            var r := Next(Next(t, PushOk(0)), Restart([uid]));
            PartOf(r.added, uid, Upload) == up && PartOf(r.acked, uid, Upload) == up && InCounter(r, uid, Upload) == up
  {
    AddedAndDone(uid, up);
    var s0 := Next(Next(Next(INIT, Begin(uid, up, 0)), AddUp(0)), AddDown(0));
    hide Next;
    Saved(s0, uid, up);
    var s := Next(s0, Save);
    AllTaken(s, uid, up);
    var s2 := Next(Next(Next(s, SnapBegin), SwapUp(uid)), SwapDown);
    AllSent(s2, uid, up);
    Repeated(Next(Next(Next(s2, SnapTurn), Prune(uid)), SnapEnd), uid, up);
  }

  lemma Saved(s: State, uid: UserId, up: nat)
    requires Holding(s, uid, up, map[]) && up > 0
    ensures Holding(Next(s, Save), uid, up, map[uid := Amount(up, 0)])
  {
    assert Content(s) == map[uid := Amount(up, 0)];
    assert Nonzero(Content(s)) == map[uid := Amount(up, 0)];
  }

  /** The books of a user whose `up` bytes are in the file and, according to `data`, in the one snapshot. */
  predicate Filed(s: State, uid: UserId, up: nat) {
    s.file == map[uid := Amount(up, 0)] && s.added == map[uid := Amount(up, 0)] && s.acked == map[]
  }

  lemma AllTaken(s: State, uid: UserId, up: nat)
    requires Holding(s, uid, up, map[uid := Amount(up, 0)]) && up > 0
    ensures var t := Next(Next(Next(s, SnapBegin), SwapUp(uid)), SwapDown);
            && t.cells == [Cell(uid, ZERO_AMOUNT)] && t.counters == map[uid := 0] && Filed(t, uid, up)
            && t.batches == [Batch(map[uid := Amount(up, 0)], Filling)] && t.snap == Taking(0, {})
  {
    var s1 := Next(s, SnapBegin);
    assert s1 == s.(batches := [Batch(map[], Filling)], snap := s1.snap) && s1.snap == Taking(0, {uid});
    var s2 := Next(s1, SwapUp(uid));
    assert s2.cells == [Cell(uid, ZERO_AMOUNT)] && s2.batches == [Batch(map[uid := Amount(up, 0)], Filling)];
    assert s2 == s1.(cells := s2.cells, batches := s2.batches, snap := s2.snap) && s2.snap == HalfTaken(0, uid, {});
    LastTaken(s2, uid, up);
  }

  lemma LastTaken(s: State, uid: UserId, up: nat)
    requires s.cells == [Cell(uid, ZERO_AMOUNT)] && s.counters == map[uid := 0] && up > 0
    requires s.batches == [Batch(map[uid := Amount(up, 0)], Filling)] && s.snap == HalfTaken(0, uid, {})
    ensures Next(s, SwapDown) == s.(snap := Taking(0, {}))
  {
    var t := Next(s, SwapDown);
    assert Reported(Amount(up, 0));
    assert t.batches[0].data == map[uid := Amount(up, 0)];
    assert t.cells == s.cells && t.batches == s.batches;
  }

  lemma AllSent(s: State, uid: UserId, up: nat)
    requires s.cells == [Cell(uid, ZERO_AMOUNT)] && s.counters == map[uid := 0] && Filed(s, uid, up)
    requires s.batches == [Batch(map[uid := Amount(up, 0)], Filling)] && s.snap == Taking(0, {})
    ensures var t := Next(Next(Next(s, SnapTurn), Prune(uid)), SnapEnd);
            Filed(t, uid, up) && t.batches == [Batch(map[uid := Amount(up, 0)], Sent)]
  {
    var s1 := Next(s, SnapTurn);
    assert s1 == s.(snap := s1.snap) && s1.snap == Pruning(0, {uid});
    var s2 := Next(s1, Prune(uid));
    assert s2 == s1.(counters := map[], snap := s2.snap) && s2.snap == Pruning(0, {});
  }

  lemma Repeated(s: State, uid: UserId, up: nat)
    requires Filed(s, uid, up) && s.batches == [Batch(map[uid := Amount(up, 0)], Sent)]
    ensures var r := Next(Next(s, PushOk(0)), Restart([uid]));
            PartOf(r.added, uid, Upload) == up && PartOf(r.acked, uid, Upload) == up && InCounter(r, uid, Upload) == up
  {
    var t := Next(s, PushOk(0));
    assert t.acked == map[uid := Amount(up, 0)];
    assert Enumerates([uid], t.file);
    hide Next;
    RestartKeepsBooks(t, [uid]);
    ReloadedCounter(t, [uid], uid, Upload);
  }

  lemma RestartKeepsBooks(s: State, order: seq<UserId>)
    requires Enumerates(order, s.file)
    ensures Next(s, Restart(order)) == NextRestart(s, order)
    ensures NextRestart(s, order).added == s.added && NextRestart(s, order).acked == s.acked
  {
  }
}
