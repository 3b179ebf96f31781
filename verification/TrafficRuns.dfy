/** Where every reported byte is: the counter under concurrent adds, snapshots, pushes, rollbacks, saves
    and restarts, in the steps between which another goroutine can come. */
module TrafficRuns {
  import opened Traffic

  /** A cell is one `UserTraffic`; it stays in `cells` after the counter has dropped it. */
  datatype Cell = Cell(uid: UserId, amount: Amount)

  /** An `Add` that has looked up its cell: what it has still to add there, upload first. */
  datatype Call = Call(uid: UserId, cell: nat, left: Amount, upDone: bool)

  datatype BatchPhase = Filling | Sent | Failed | Over

  /** A snapshot, until the push that carries it is acknowledged or its entries are rolled back. */
  datatype Batch = Batch(data: Amounts, phase: BatchPhase)

  /** `Snapshot` under its lock: users whose counts are to be taken, one user's download count to be
      taken, users whose cells are to be dropped if empty. */
  datatype Snap = Idle | Taking(b: nat, todo: set<UserId>) | HalfTaken(b: nat, uid: UserId, todo: set<UserId>)
      | Pruning(b: nat, todo: set<UserId>)

  /** `added` is what callers have added, `acked` what the panel has acknowledged. */
  datatype State = State(cells: seq<Cell>, counters: map<UserId, nat>, calls: seq<Call>, batches: seq<Batch>, snap: Snap,
                         file: Amounts, added: Amounts, acked: Amounts)

  const INIT: State := State([], map[], [], [], Idle, map[], map[], map[])

  datatype Move =
    | Begin(uid: UserId, up: nat, down: nat)
    | AddUp(k: nat)
    | AddDown(k: nat)
    | SnapBegin
    | SwapUp(uid: UserId)
    | SwapDown
    | SnapTurn
    | Prune(uid: UserId)
    | SnapEnd
    | PushOk(b: nat)
    | PushFails(b: nat)
    | Rollback(b: nat, uid: UserId)
    | Save
    | Restart(order: seq<UserId>)

  /** The locked lookup of `Add`, and the call that goes on from there. */
  function Enter(s: State, uid: UserId, a: Amount): State {
    if uid in s.counters then s.(calls := s.calls + [Call(uid, s.counters[uid], a, false)])
    else
      s.(cells := s.cells + [Cell(uid, ZERO_AMOUNT)], counters := s.counters[uid := |s.cells|],
         calls := s.calls + [Call(uid, |s.cells|, a, false)])
  }

  function Credit(m: Amounts, uid: UserId, a: Amount): Amounts { m[uid := if uid in m then Plus(m[uid], a) else a] }

  function AddTo(s: State, i: nat, up: int, down: int): State
    requires i < |s.cells|
  {
    s.(cells := s.cells[i := s.cells[i].(amount := Amount(s.cells[i].amount.up + up, s.cells[i].amount.down + down))])
  }

  function SetData(s: State, b: nat, data: Amounts): State
    requires b < |s.batches|
  {
    s.(batches := s.batches[b := s.batches[b].(data := data)])
  }

  function SetPhase(s: State, b: nat, phase: BatchPhase): State
    requires b < |s.batches|
  {
    s.(batches := s.batches[b := s.batches[b].(phase := phase)])
  }

  function NextAddUp(s: State, k: nat): State
    requires k < |s.calls| && s.calls[k].cell < |s.cells|
  {
    var c := s.calls[k];
    if c.upDone then s
    else AddTo(s, c.cell, c.left.up, 0).(calls := s.calls[k := c.(left := Amount(0, c.left.down), upDone := true)])
  }

  function NextAddDown(s: State, k: nat): State
    requires k < |s.calls| && s.calls[k].cell < |s.cells|
  {
    var c := s.calls[k];
    if !c.upDone then s
    else AddTo(s, c.cell, 0, c.left.down).(calls := s.calls[k := c.(left := ZERO_AMOUNT)])
  }

  /** Take the upload count of a user. */
  function NextSwapUp(s: State, b: nat, todo: set<UserId>, uid: UserId): State
    requires b < |s.batches| && uid in s.counters && s.counters[uid] < |s.cells|
  {
    var i := s.counters[uid];
    var a := s.cells[i].amount;
    SetData(s, b, s.batches[b].data[uid := Amount(a.up, 0)]).(
      cells := s.cells[i := s.cells[i].(amount := Amount(0, a.down))], snap := HalfTaken(b, uid, todo - {uid}))
  }

  /** Take the download count; a user with neither count positive is left out of the snapshot. */
  function NextSwapDown(s: State, b: nat, todo: set<UserId>, uid: UserId): State
    requires b < |s.batches| && uid in s.counters && s.counters[uid] < |s.cells|
  {
    var i := s.counters[uid];
    var a := s.cells[i].amount;
    var data := s.batches[b].data;
    var taken := Amount(if uid in data then data[uid].up else 0, a.down);
    SetData(s, b, if Reported(taken) then data[uid := taken] else data - {uid}).(
      cells := s.cells[i := s.cells[i].(amount := Amount(a.up, 0))], snap := Taking(b, todo))
  }

  function Content(s: State): Amounts {
    map uid | uid in s.counters && s.counters[uid] < |s.cells| :: s.cells[s.counters[uid]].amount
  }

  predicate Empty(s: State, uid: UserId) {
    uid in s.counters && s.counters[uid] < |s.cells|
      && s.cells[s.counters[uid]].amount.up == 0 == s.cells[s.counters[uid]].amount.down
  }

  predicate Enumerates(order: seq<UserId>, m: Amounts) {
    && (forall i :: 0 <= i < |order| ==> order[i] in m)
    && (forall uid :: uid in m ==> uid in order)
    && (forall i, j :: 0 <= i < j < |order| ==> order[i] != order[j])
  }

  function LoadedCells(order: seq<UserId>, file: Amounts): (r: seq<Cell>)
    ensures |r| == |order| && forall i :: 0 <= i < |r| ==> r[i] == Cell(order[i], Get(file, order[i]))
  {
    seq(|order|, i requires 0 <= i < |order| => Cell(order[i], Get(file, order[i])))
  }

  function IndexIn(order: seq<UserId>, uid: UserId): (i: nat)
    requires uid in order
    ensures i < |order| && order[i] == uid
  {
    if order[0] == uid then 0 else 1 + IndexIn(order[1..], uid)
  }

  /** A new process with the counter loaded from the file. */
  function NextRestart(s: State, order: seq<UserId>): State {
    s.(cells := LoadedCells(order, s.file), counters := map uid | uid in order :: IndexIn(order, uid),
       calls := [], batches := [], snap := Idle)
  }

  function Next(s: State, m: Move): State {
    match m
    case Begin(uid, up, down) =>
      if s.snap.Idle? then Enter(s, uid, Amount(up, down)).(added := Credit(s.added, uid, Amount(up, down))) else s
    case AddUp(k) => if k < |s.calls| && s.calls[k].cell < |s.cells| then NextAddUp(s, k) else s
    case AddDown(k) => if k < |s.calls| && s.calls[k].cell < |s.cells| then NextAddDown(s, k) else s
    case SnapBegin =>
      if s.snap.Idle? then
        s.(batches := s.batches + [Batch(map[], Filling)], snap := Taking(|s.batches|, s.counters.Keys))
      else s
    case SwapUp(uid) =>
      if s.snap.Taking? && s.snap.b < |s.batches| && uid in s.snap.todo && uid in s.counters
        && s.counters[uid] < |s.cells| then
        NextSwapUp(s, s.snap.b, s.snap.todo, uid)
      else s
    case SwapDown =>
      if s.snap.HalfTaken? && s.snap.b < |s.batches| && s.snap.uid in s.counters && s.counters[s.snap.uid] < |s.cells| then
        NextSwapDown(s, s.snap.b, s.snap.todo, s.snap.uid)
      else s
    case SnapTurn => if s.snap.Taking? && s.snap.todo == {} then s.(snap := Pruning(s.snap.b, s.counters.Keys)) else s
    case Prune(uid) =>
      if s.snap.Pruning? && uid in s.snap.todo then
        s.(snap := Pruning(s.snap.b, s.snap.todo - {uid}),
           counters := if Empty(s, uid) then s.counters - {uid} else s.counters)
      else s
    case SnapEnd =>
      if s.snap.Pruning? && s.snap.todo == {} && s.snap.b < |s.batches| then
        SetPhase(s, s.snap.b, Sent).(snap := Idle)
      else s
    case PushOk(b) =>
      if b < |s.batches| && s.batches[b].phase.Sent? then
        s.(acked := Merged(s.acked, s.batches[b].data), batches := s.batches[b := Batch(map[], Over)])
      else s
    case PushFails(b) => if b < |s.batches| && s.batches[b].phase.Sent? then SetPhase(s, b, Failed) else s
    case Rollback(b, uid) =>
      if b < |s.batches| && s.batches[b].phase.Failed? && uid in s.batches[b].data && s.snap.Idle? then
        SetData(Enter(s, uid, s.batches[b].data[uid]), b, s.batches[b].data - {uid})
      else s
    case Save => if s.snap.Idle? then s.(file := Nonzero(Content(s))) else s
    case Restart(order) => if Enumerates(order, s.file) then NextRestart(s, order) else s
  }

  function Run(moves: seq<Move>): State {
    if moves == [] then INIT else Next(Run(moves[..|moves| - 1]), moves[|moves| - 1])
  }

  // ---- Where a user's traffic is ----

  /** The upload or the download count. */
  datatype Direction = Upload | Download

  function Part(a: Amount, d: Direction): int { if d.Upload? then a.up else a.down }

  function PartOf(m: Amounts, uid: UserId, d: Direction): int { if uid in m then Part(m[uid], d) else 0 }

  /** Looked up and not yet added. */
  function Flying(calls: seq<Call>, uid: UserId, d: Direction): int {
    if calls == [] then 0 else Flying(calls[..|calls| - 1], uid, d) + LeftFor(calls[|calls| - 1], uid, d)
  }

  function LeftFor(c: Call, uid: UserId, d: Direction): int { if c.uid == uid then Part(c.left, d) else 0 }

  /** In snapshots that are neither acknowledged nor rolled back. */
  function Waiting(batches: seq<Batch>, uid: UserId, d: Direction): int {
    if batches == [] then 0 else Waiting(batches[..|batches| - 1], uid, d) + PartOf(batches[|batches| - 1].data, uid, d)
  }

  function InCounter(s: State, uid: UserId, d: Direction): int {
    if uid in s.counters && s.counters[uid] < |s.cells| then Part(s.cells[s.counters[uid]].amount, d) else 0
  }

  function Unacked(s: State, uid: UserId, d: Direction): int {
    Waiting(s.batches, uid, d) + Flying(s.calls, uid, d) + InCounter(s, uid, d)
  }

  /** Everything added is acknowledged, or waits in a snapshot, an `Add` or the counter. */
  predicate Conserved(s: State, uid: UserId, d: Direction) {
    PartOf(s.added, uid, d) == PartOf(s.acked, uid, d) + Unacked(s, uid, d)
  }

  predicate Shape(s: State) {
    && (forall k :: 0 <= k < |s.calls| ==> s.calls[k].cell < |s.cells| && s.cells[s.calls[k].cell].uid == s.calls[k].uid)
    && (forall k :: 0 <= k < |s.calls| && s.calls[k].upDone ==> s.calls[k].left.up == 0)
    && (forall uid :: uid in s.counters ==> s.counters[uid] < |s.cells| && s.cells[s.counters[uid]].uid == uid)
    && (!s.snap.Idle? ==> s.snap.b < |s.batches| && s.batches[s.snap.b].phase.Filling?)
    && (s.snap.HalfTaken? ==> s.snap.uid in s.batches[s.snap.b].data && s.batches[s.snap.b].data[s.snap.uid].down == 0)
    && (s.snap.Taking? || s.snap.HalfTaken? ==> forall uid :: uid in s.snap.todo ==> uid !in s.batches[s.snap.b].data)
    && (s.snap.HalfTaken? ==> s.snap.uid !in s.snap.todo)
    && NonNegative(s)
  }

  predicate NonNegative(s: State) {
    && (forall i :: 0 <= i < |s.cells| ==> s.cells[i].amount.up >= 0 && s.cells[i].amount.down >= 0)
    && (forall k :: 0 <= k < |s.calls| ==> s.calls[k].left.up >= 0 && s.calls[k].left.down >= 0)
    && (forall b, uid :: 0 <= b < |s.batches| && uid in s.batches[b].data ==>
          s.batches[b].data[uid].up >= 0 && s.batches[b].data[uid].down >= 0)
    && (forall uid :: uid in s.file ==> s.file[uid].up >= 0 && s.file[uid].down >= 0)
  }

  // ---- The shape is kept ----

  lemma EnterKeepsShape(s: State, uid: UserId, a: Amount)
    requires Shape(s) && a.up >= 0 && a.down >= 0
    ensures Shape(Enter(s, uid, a))
  {
    EnterNotNegative(s, uid, a);
    hide NonNegative;
  }

  lemma EnterNotNegative(s: State, uid: UserId, a: Amount)
    requires NonNegative(s) && a.up >= 0 && a.down >= 0
    ensures NonNegative(Enter(s, uid, a))
  {
  }

  lemma AddUpKeepsShape(s: State, k: nat)
    requires Shape(s) && k < |s.calls|
    ensures Shape(NextAddUp(s, k))
  {
  }

  lemma AddDownKeepsShape(s: State, k: nat)
    requires Shape(s) && k < |s.calls|
    ensures Shape(NextAddDown(s, k))
  {
  }

  lemma SwapNotNegative(s: State, m: Move)
    requires NonNegative(s) && (m.SwapUp? || m.SwapDown?)
    ensures NonNegative(Next(s, m))
  {
  }

  lemma SwapUpKeepsShape(s: State, uid: UserId)
    requires Shape(s)
    ensures Shape(Next(s, SwapUp(uid)))
  {
    SwapNotNegative(s, SwapUp(uid));
    hide NonNegative;
  }

  lemma SwapDownKeepsShape(s: State)
    requires Shape(s)
    ensures Shape(Next(s, SwapDown))
  {
    SwapNotNegative(s, SwapDown);
    hide NonNegative;
  }

  lemma SaveKeepsShape(s: State)
    requires Shape(s)
    ensures Shape(Next(s, Save))
  {
  }

  lemma RestartKeepsShape(s: State, order: seq<UserId>)
    requires Shape(s)
    ensures Shape(Next(s, Restart(order)))
  {
  }

  lemma SnapNotNegative(s: State, m: Move)
    requires NonNegative(s) && (m.SnapBegin? || m.SnapTurn? || m.SnapEnd? || m.Prune?)
    ensures NonNegative(Next(s, m))
  {
  }

  lemma PushNotNegative(s: State, m: Move)
    requires NonNegative(s) && (m.PushOk? || m.PushFails?)
    ensures NonNegative(Next(s, m))
  {
    hide Merged;
  }

  lemma SnapKeepsShape(s: State, m: Move)
    requires Shape(s) && (m.SnapBegin? || m.SnapTurn? || m.SnapEnd? || m.Prune?)
    ensures Shape(Next(s, m))
  {
    SnapNotNegative(s, m);
    hide NonNegative;
  }

  lemma PushKeepsShape(s: State, m: Move)
    requires Shape(s) && (m.PushOk? || m.PushFails?)
    ensures Shape(Next(s, m))
  {
    PushNotNegative(s, m);
    hide NonNegative;
    hide Merged;
  }

  lemma DropEntryKeepsShape(s: State, b: nat, uid: UserId)
    requires Shape(s) && s.snap.Idle? && b < |s.batches|
    ensures Shape(SetData(s, b, s.batches[b].data - {uid}))
  {
  }

  lemma BeginKeepsShape(s: State, uid: UserId, up: nat, down: nat)
    requires Shape(s)
    ensures Shape(Next(s, Begin(uid, up, down)))
  {
    EnterKeepsShape(s, uid, Amount(up, down));
    hide Enter;
    hide Credit;
  }

  lemma RollbackKeepsShape(s: State, b: nat, uid: UserId)
    requires Shape(s)
    ensures Shape(Next(s, Rollback(b, uid)))
  {
    if Next(s, Rollback(b, uid)) != s {
      EntryNotNegative(s, b, uid);
      hide Shape;
      EnterKeepsShape(s, uid, s.batches[b].data[uid]);
      DropEntryKeepsShape(Enter(s, uid, s.batches[b].data[uid]), b, uid);
    }
  }

  lemma EntryNotNegative(s: State, b: nat, uid: UserId)
    requires NonNegative(s) && b < |s.batches| && uid in s.batches[b].data
    ensures s.batches[b].data[uid].up >= 0 && s.batches[b].data[uid].down >= 0
  {
  }

  lemma AddKeepsShape(s: State, m: Move)
    requires Shape(s) && (m.AddUp? || m.AddDown?)
    ensures Shape(Next(s, m))
  {
    hide Shape;
    hide NextAddUp;
    hide NextAddDown;
    if Next(s, m) != s {
      if m.AddUp? {
        AddUpKeepsShape(s, m.k);
      } else {
        AddDownKeepsShape(s, m.k);
      }
    }
  }

  lemma NextKeepsShape(s: State, m: Move)
    requires Shape(s)
    ensures Shape(Next(s, m))
  {
    hide Next;
    hide Shape;
    match m
    case Begin(uid, up, down) => BeginKeepsShape(s, uid, up, down);
    case AddUp(k) => AddKeepsShape(s, m);
    case AddDown(k) => AddKeepsShape(s, m);
    case Rollback(b, uid) => RollbackKeepsShape(s, b, uid);
    case SwapUp(uid) => SwapUpKeepsShape(s, uid);
    case SwapDown => SwapDownKeepsShape(s);
    case Save => SaveKeepsShape(s);
    case Restart(order) => RestartKeepsShape(s, order);
    case PushOk(b) => PushKeepsShape(s, m);
    case PushFails(b) => PushKeepsShape(s, m);
    case _ => SnapKeepsShape(s, m);
  }

  // ---- Sums ----

  lemma {:induction false} FlyingUpdate(calls: seq<Call>, k: nat, c: Call, uid: UserId, d: Direction)
    requires k < |calls|
    ensures Flying(calls[k := c], uid, d) == Flying(calls, uid, d) - LeftFor(calls[k], uid, d) + LeftFor(c, uid, d)
  {
    hide LeftFor;
    var n := |calls| - 1;
    if k < n {
      FlyingUpdate(calls[..n], k, c, uid, d);
      assert calls[k := c][..n] == calls[..n][k := c];
    } else {
      assert calls[k := c][..n] == calls[..n];
    }
  }

  lemma FlyingSnoc(calls: seq<Call>, c: Call, uid: UserId, d: Direction)
    ensures Flying(calls + [c], uid, d) == Flying(calls, uid, d) + LeftFor(c, uid, d)
  {
    hide LeftFor;
    assert (calls + [c])[..|calls|] == calls;
  }

  lemma {:induction false} WaitingUpdate(batches: seq<Batch>, b: nat, x: Batch, uid: UserId, d: Direction)
    requires b < |batches|
    ensures Waiting(batches[b := x], uid, d)
         == Waiting(batches, uid, d) - PartOf(batches[b].data, uid, d) + PartOf(x.data, uid, d)
  {
    hide PartOf;
    var n := |batches| - 1;
    if b < n {
      WaitingUpdate(batches[..n], b, x, uid, d);
      assert batches[b := x][..n] == batches[..n][b := x];
    } else {
      assert batches[b := x][..n] == batches[..n];
    }
  }

  lemma WaitingSnoc(batches: seq<Batch>, x: Batch, uid: UserId, d: Direction)
    ensures Waiting(batches + [x], uid, d) == Waiting(batches, uid, d) + PartOf(x.data, uid, d)
  {
    hide PartOf;
    assert (batches + [x])[..|batches|] == batches;
  }

  // ---- Conservation, step by step ----

  /** The cell is still the user's: no snapshot has dropped it since the lookup. */
  predicate Attached(s: State, c: Call) { c.uid in s.counters && s.counters[c.uid] == c.cell }

  /** What a step must not do: add to a cell that a snapshot has dropped, or restart from a file that does
      not hold just what is not yet acknowledged. */
  predicate Harmless(s: State, m: Move, uid: UserId, d: Direction) {
    match m
    case AddUp(k) =>
      d.Upload? && k < |s.calls| && !s.calls[k].upDone && s.calls[k].uid == uid ==>
        Attached(s, s.calls[k]) || s.calls[k].left.up == 0
    case AddDown(k) =>
      d.Download? && k < |s.calls| && s.calls[k].upDone && s.calls[k].uid == uid ==>
        Attached(s, s.calls[k]) || s.calls[k].left.down == 0
    case Restart(order) => Enumerates(order, s.file) ==> PartOf(s.file, uid, d) == Unacked(s, uid, d)
    case _ => true
  }

  predicate SameBooks(s: State, t: State) { t.added == s.added && t.acked == s.acked }

  lemma SameCounter(s: State, t: State, uid: UserId, d: Direction)
    requires t.cells == s.cells && t.counters == s.counters
    ensures InCounter(t, uid, d) == InCounter(s, uid, d)
  {
  }

  function For(u: UserId, uid: UserId, a: Amount, d: Direction): int { if u == uid then Part(a, d) else 0 }

  lemma CreditPart(m: Amounts, u: UserId, a: Amount, uid: UserId, d: Direction)
    ensures PartOf(Credit(m, u, a), uid, d) == PartOf(m, uid, d) + For(u, uid, a, d)
  {
  }

  lemma EnterMoves(s: State, u: UserId, a: Amount, uid: UserId, d: Direction)
    requires Shape(s)
    ensures var t := Enter(s, u, a);
            && Flying(t.calls, uid, d) == Flying(s.calls, uid, d) + For(u, uid, a, d)
            && InCounter(t, uid, d) == InCounter(s, uid, d) && SameBooks(s, t) && t.batches == s.batches
  {
    EnterKeepsCounter(s, u, a, uid, d);
    hide Shape;
    hide InCounter;
    hide Flying;
    var t := Enter(s, u, a);
    FlyingSnoc(s.calls, t.calls[|s.calls|], uid, d);
  }

  lemma EnterKeepsCounter(s: State, u: UserId, a: Amount, uid: UserId, d: Direction)
    requires Shape(s)
    ensures InCounter(Enter(s, u, a), uid, d) == InCounter(s, uid, d)
  {
  }

  lemma BeginConserves(s: State, u: UserId, a: Amount, uid: UserId, d: Direction)
    requires Shape(s) && Conserved(s, uid, d)
    ensures Conserved(Enter(s, u, a).(added := Credit(s.added, u, a)), uid, d)
  {
    hide Shape;
    hide Flying;
    hide Waiting;
    hide InCounter;
    hide Enter;
    hide Credit;
    hide PartOf;
    hide For;
    EnterMoves(s, u, a, uid, d);
    SameCounter(Enter(s, u, a), Enter(s, u, a).(added := Credit(s.added, u, a)), uid, d);
    CreditPart(s.added, u, a, uid, d);
  }

  /** What reaches the counter when an amount is added to a call's cell. */
  function Reaches(s: State, c: Call, uid: UserId, a: int): int {
    if c.uid == uid && Attached(s, c) then a else 0
  }

  lemma AddToCounter(s: State, k: nat, uid: UserId, d: Direction, up: int, down: int)
    requires k < |s.calls| && s.calls[k].cell < |s.cells| && s.cells[s.calls[k].cell].uid == s.calls[k].uid
    requires uid in s.counters ==> s.counters[uid] < |s.cells| && s.cells[s.counters[uid]].uid == uid
    ensures InCounter(AddTo(s, s.calls[k].cell, up, down), uid, d)
         == InCounter(s, uid, d) + Reaches(s, s.calls[k], uid, if d.Upload? then up else down)
  {
  }

  lemma AddUpConservesIff(s: State, k: nat, uid: UserId, d: Direction)
    requires Shape(s) && Conserved(s, uid, d) && k < |s.calls| && s.calls[k].cell < |s.cells| && !s.calls[k].upDone
    ensures Conserved(NextAddUp(s, k), uid, d) <==> Harmless(s, AddUp(k), uid, d)
  {
    var c := s.calls[k];
    var t, e := NextAddUp(s, k), AddTo(s, c.cell, c.left.up, 0);
    AddToCounter(s, k, uid, d, c.left.up, 0);
    hide Shape;
    hide Flying;
    hide Waiting;
    hide PartOf;
    FlyingUpdate(s.calls, k, t.calls[k], uid, d);
    SameCounter(e, t, uid, d);
    hide InCounter;
  }

  lemma AddDownConservesIff(s: State, k: nat, uid: UserId, d: Direction)
    requires Shape(s) && Conserved(s, uid, d) && k < |s.calls| && s.calls[k].cell < |s.cells| && s.calls[k].upDone
    ensures Conserved(NextAddDown(s, k), uid, d) <==> Harmless(s, AddDown(k), uid, d)
  {
    var c := s.calls[k];
    assert c.left.up == 0;
    var t, e := NextAddDown(s, k), AddTo(s, c.cell, 0, c.left.down);
    AddToCounter(s, k, uid, d, 0, c.left.down);
    hide Shape;
    hide Flying;
    hide Waiting;
    hide PartOf;
    FlyingUpdate(s.calls, k, t.calls[k], uid, d);
    SameCounter(e, t, uid, d);
    hide InCounter;
  }

  /** Taking part of user `u`'s count into snapshot `b`. */
  lemma SwapConserves(s: State, t: State, b: nat, u: UserId, uid: UserId, a: Amount, a': Amount, d: Direction)
    requires Shape(s) && Conserved(s, uid, d) && b < |s.batches| && b < |t.batches| && u in s.counters
    requires a == s.cells[s.counters[u]].amount
    requires t.cells == s.cells[s.counters[u] := s.cells[s.counters[u]].(amount := a')] && t.counters == s.counters
    requires SameBooks(s, t) && t.calls == s.calls && t.batches == s.batches[b := t.batches[b]]
    requires PartOf(t.batches[b].data, uid, d) == PartOf(s.batches[b].data, uid, d) + For(u, uid, a, d) - For(u, uid, a', d)
    ensures Conserved(t, uid, d)
  {
    SwapCounter(s, t, u, uid, a, a', d);
    hide Shape;
    hide Flying;
    hide Waiting;
    hide InCounter;
    hide PartOf;
    WaitingUpdate(s.batches, b, t.batches[b], uid, d);
  }

  lemma SwapCounter(s: State, t: State, u: UserId, uid: UserId, a: Amount, a': Amount, d: Direction)
    requires Shape(s) && u in s.counters && a == s.cells[s.counters[u]].amount && t.counters == s.counters
    requires t.cells == s.cells[s.counters[u] := s.cells[s.counters[u]].(amount := a')]
    ensures InCounter(t, uid, d) == InCounter(s, uid, d) - For(u, uid, a, d) + For(u, uid, a', d)
  {
    CellsApart(s, u, uid);
    hide Shape;
  }

  lemma CellsApart(s: State, u: UserId, uid: UserId)
    requires Shape(s) && u in s.counters
    ensures s.counters[u] < |s.cells|
    ensures uid in s.counters ==> s.counters[uid] < |s.cells| && (uid != u ==> s.counters[uid] != s.counters[u])
  {
  }

  lemma SwapUpConserves(s: State, b: nat, todo: set<UserId>, u: UserId, uid: UserId, d: Direction)
    requires Shape(s) && Conserved(s, uid, d) && b < |s.batches| && u in s.counters && u !in s.batches[b].data
    ensures Conserved(NextSwapUp(s, b, todo, u), uid, d)
  {
    CellsApart(s, u, uid);
    hide Shape;
    hide Conserved;
    var a := s.cells[s.counters[u]].amount;
    SwapConserves(s, NextSwapUp(s, b, todo, u), b, u, uid, a, Amount(0, a.down), d);
  }

  lemma SwapDownConserves(s: State, b: nat, todo: set<UserId>, u: UserId, uid: UserId, d: Direction)
    requires Shape(s) && Conserved(s, uid, d) && b < |s.batches| && u in s.counters
    requires u in s.batches[b].data && s.batches[b].data[u].down == 0
    ensures Conserved(NextSwapDown(s, b, todo, u), uid, d)
  {
    CellsApart(s, u, uid);
    NotNegative(s, b, u);
    hide Shape;
    hide Conserved;
    var a := s.cells[s.counters[u]].amount;
    SwapConserves(s, NextSwapDown(s, b, todo, u), b, u, uid, a, Amount(a.up, 0), d);
  }

  lemma NotNegative(s: State, b: nat, u: UserId)
    requires Shape(s) && b < |s.batches| && u in s.counters && u in s.batches[b].data
    ensures s.batches[b].data[u].up >= 0 && s.counters[u] < |s.cells| && s.cells[s.counters[u]].amount.down >= 0
  {
  }

  lemma PushOkConserves(s: State, b: nat, uid: UserId, d: Direction)
    requires Conserved(s, uid, d) && b < |s.batches|
    ensures Conserved(s.(acked := Merged(s.acked, s.batches[b].data), batches := s.batches[b := Batch(map[], Over)]), uid, d)
  {
    hide Flying;
    hide Waiting;
    hide InCounter;
    hide Merged;
    hide PartOf;
    var data := s.batches[b].data;
    WaitingUpdate(s.batches, b, Batch(map[], Over), uid, d);
    SameCounter(s, s.(acked := Merged(s.acked, data), batches := s.batches[b := Batch(map[], Over)]), uid, d);
    MergedPart(s.acked, data, uid, d);
  }

  lemma MergedPart(m: Amounts, data: Amounts, uid: UserId, d: Direction)
    ensures PartOf(Merged(m, data), uid, d) == PartOf(m, uid, d) + PartOf(data, uid, d) && PartOf(map[], uid, d) == 0
  {
  }

  /** Changing a snapshot's phase, or the counter but not a user's count, keeps the books. */
  lemma SamePlacesConserve(s: State, t: State, uid: UserId, d: Direction)
    requires Conserved(s, uid, d) && t.calls == s.calls && SameBooks(s, t)
    requires InCounter(t, uid, d) == InCounter(s, uid, d) && Waiting(t.batches, uid, d) == Waiting(s.batches, uid, d)
    ensures Conserved(t, uid, d)
  {
    hide Flying;
    hide Waiting;
    hide InCounter;
    hide PartOf;
  }

  lemma PhaseConserves(s: State, b: nat, phase: BatchPhase, snap: Snap, uid: UserId, d: Direction)
    requires Conserved(s, uid, d) && b < |s.batches|
    ensures Conserved(SetPhase(s, b, phase).(snap := snap), uid, d)
  {
    hide Conserved;
    hide Waiting;
    hide InCounter;
    hide PartOf;
    WaitingUpdate(s.batches, b, s.batches[b].(phase := phase), uid, d);
    SameCounter(s, SetPhase(s, b, phase).(snap := snap), uid, d);
    SamePlacesConserve(s, SetPhase(s, b, phase).(snap := snap), uid, d);
  }

  lemma SnapBeginConserves(s: State, snap: Snap, uid: UserId, d: Direction)
    requires Conserved(s, uid, d)
    ensures Conserved(s.(batches := s.batches + [Batch(map[], Filling)], snap := snap), uid, d)
  {
    hide Conserved;
    hide Waiting;
    hide InCounter;
    var t := s.(batches := s.batches + [Batch(map[], Filling)], snap := snap);
    WaitingSnoc(s.batches, Batch(map[], Filling), uid, d);
    SameCounter(s, t, uid, d);
    SamePlacesConserve(s, t, uid, d);
  }

  lemma PruneConserves(s: State, u: UserId, snap: Snap, uid: UserId, d: Direction)
    requires Conserved(s, uid, d)
    ensures Conserved(s.(snap := snap, counters := if Empty(s, u) then s.counters - {u} else s.counters), uid, d)
  {
    hide Conserved;
    hide Waiting;
    SamePlacesConserve(s, s.(snap := snap, counters := if Empty(s, u) then s.counters - {u} else s.counters), uid, d);
  }

  lemma QuietConserves(s: State, m: Move, uid: UserId, d: Direction)
    requires Conserved(s, uid, d) && (m.SnapTurn? || m.Save?)
    ensures Conserved(Next(s, m), uid, d)
  {
    hide Conserved;
    hide Waiting;
    hide Content;
    hide Nonzero;
    SameCounter(s, Next(s, m), uid, d);
    hide InCounter;
    SamePlacesConserve(s, Next(s, m), uid, d);
  }

  lemma RollbackConserves(s: State, b: nat, u: UserId, uid: UserId, d: Direction)
    requires Shape(s) && Conserved(s, uid, d) && b < |s.batches| && u in s.batches[b].data
    ensures Enter(s, u, s.batches[b].data[u]).batches == s.batches
    ensures Conserved(SetData(Enter(s, u, s.batches[b].data[u]), b, s.batches[b].data - {u}), uid, d)
  {
    var a, x := s.batches[b].data[u], s.batches[b].(data := s.batches[b].data - {u});
    DropPart(s.batches[b].data, u, uid, d);
    hide Shape;
    hide Flying;
    hide Waiting;
    hide Enter;
    hide InCounter;
    hide PartOf;
    hide For;
    EnterMoves(s, u, a, uid, d);
    WaitingUpdate(s.batches, b, x, uid, d);
    SameCounter(Enter(s, u, a), SetData(Enter(s, u, a), b, x.data), uid, d);
  }

  lemma DropPart(m: Amounts, u: UserId, uid: UserId, d: Direction)
    requires u in m
    ensures PartOf(m, uid, d) == PartOf(m - {u}, uid, d) + For(u, uid, m[u], d)
  {
  }

  lemma ReloadedCounter(s: State, order: seq<UserId>, uid: UserId, d: Direction)
    requires Enumerates(order, s.file)
    ensures InCounter(NextRestart(s, order), uid, d) == PartOf(s.file, uid, d)
  {
  }

  lemma RestartConservesIff(s: State, order: seq<UserId>, uid: UserId, d: Direction)
    requires Conserved(s, uid, d) && Enumerates(order, s.file)
    ensures Conserved(NextRestart(s, order), uid, d) <==> Harmless(s, Restart(order), uid, d)
  {
    hide Enumerates;
    hide PartOf;
    hide InCounter;
    ReloadedCounter(s, order, uid, d);
    EmptyPlaces(uid, d);
    hide Waiting;
    hide Flying;
    var t := NextRestart(s, order);
    assert t.added == s.added && t.acked == s.acked && t.calls == [] && t.batches == [];
    hide NextRestart;
  }

  lemma EmptyPlaces(uid: UserId, d: Direction)
    ensures Waiting([], uid, d) == 0 && Flying([], uid, d) == 0
  {
  }

  /** Which steps keep a user's traffic conserved, exactly: all but an `Add` that reaches a cell which a
      snapshot has dropped meanwhile, and a restart from a file that is out of date. */
  lemma StepConservesIff(s: State, m: Move, uid: UserId, d: Direction)
    requires Shape(s) && Conserved(s, uid, d)
    ensures Conserved(Next(s, m), uid, d) <==> Harmless(s, m, uid, d)
  {
    hide Conserved;
    hide NextSwapUp;
    hide NextSwapDown;
    hide Enter;
    hide Credit;
    hide NextRestart;
    hide Merged;
    hide InCounter;
    hide AddTo;
    hide Enumerates;
    hide Empty;
    hide PartOf;
    match m
    case AddUp(k) => if k < |s.calls| && !s.calls[k].upDone { AddUpConservesIff(s, k, uid, d); }
    case AddDown(k) => if k < |s.calls| && s.calls[k].upDone { AddDownConservesIff(s, k, uid, d); }
    case Begin(u, up, down) => BeginConserves(s, u, Amount(up, down), uid, d);
    case Rollback(b, u) => if b < |s.batches| && u in s.batches[b].data { RollbackConserves(s, b, u, uid, d); }
    case SwapUp(u) =>
      if s.snap.Taking? && u in s.snap.todo && u in s.counters { SwapUpConserves(s, s.snap.b, s.snap.todo, u, uid, d); }
    case SwapDown =>
      if s.snap.HalfTaken? && s.snap.uid in s.counters { SwapDownConserves(s, s.snap.b, s.snap.todo, s.snap.uid, uid, d); }
    case Restart(order) => if Enumerates(order, s.file) { RestartConservesIff(s, order, uid, d); }
    case PushOk(b) => if b < |s.batches| { PushOkConserves(s, b, uid, d); }
    case SnapBegin => SnapBeginConserves(s, Taking(|s.batches|, s.counters.Keys), uid, d);
    case SnapEnd => if s.snap.Pruning? { PhaseConserves(s, s.snap.b, Sent, Idle, uid, d); }
    case PushFails(b) => if b < |s.batches| { PhaseConserves(s, b, Failed, s.snap, uid, d); }
    case Prune(u) => if s.snap.Pruning? { PruneConserves(s, u, Pruning(s.snap.b, s.snap.todo - {u}), uid, d); }
    case _ => QuietConserves(s, m, uid, d);
  }

  lemma {:induction false} ShapeOnEveryRun(moves: seq<Move>)
    ensures Shape(Run(moves))
  {
    if moves == [] {
    } else {
      ShapeOnEveryRun(moves[..|moves| - 1]);
      hide Next;
      hide Shape;
      NextKeepsShape(Run(moves[..|moves| - 1]), moves[|moves| - 1]);
    }
  }

  /** The steps chained: if none is harmful to a user, all that was ever added for the user is
      acknowledged, or in a snapshot, in an `Add` under way, or in the counter. Which runs are free of
      harmful steps is the subject of `TrafficOrder`. */
  lemma {:induction false} ConservedOnEveryRun(moves: seq<Move>, uid: UserId, d: Direction)
    requires forall k :: 0 <= k < |moves| ==> Harmless(Run(moves[..k]), moves[k], uid, d)
    ensures Conserved(Run(moves), uid, d)
  {
    if moves == [] {
      EmptyPlaces(uid, d);
    } else {
      hide Next;
      hide Harmless;
      hide Shape;
      hide Conserved;
      var init := moves[..|moves| - 1];
      forall k | 0 <= k < |init| ensures Harmless(Run(init[..k]), init[k], uid, d) {
        assert init[..k] == moves[..k];
      }
      ConservedOnEveryRun(init, uid, d);
      ShapeOnEveryRun(init);
      StepConservesIff(Run(init), moves[|moves| - 1], uid, d);
    }
  }

  /** Saving and then restarting with nothing under way is harmless, and the counter comes back as it was. */
  lemma SaveThenRestart(s: State, order: seq<UserId>, uid: UserId, d: Direction)
    requires Shape(s) && s.snap.Idle? && Waiting(s.batches, uid, d) == 0 && Flying(s.calls, uid, d) == 0
    ensures Harmless(Next(s, Save), Restart(order), uid, d)
    ensures Enumerates(order, Nonzero(Content(s))) ==>
              InCounter(Next(Next(s, Save), Restart(order)), uid, d) == InCounter(s, uid, d)
  {
    SavedCounter(s, uid, d);
    hide Enumerates;
    hide Shape;
    hide Waiting;
    hide Flying;
    hide Content;
    hide PartOf;
    var t := Next(s, Save);
    SameCounter(s, t, uid, d);
    hide InCounter;
    hide NextRestart;
    if Enumerates(order, t.file) {
      ReloadedCounter(t, order, uid, d);
    }
  }

  lemma SavedCounter(s: State, uid: UserId, d: Direction)
    requires Shape(s)
    ensures PartOf(Nonzero(Content(s)), uid, d) == InCounter(s, uid, d)
  {
    assert NonNegative(s);
  }

  /** One call under way, its cell empty. */
  predicate OnlyCall(s: State, uid: UserId, up: nat) {
    && s.cells == [Cell(uid, ZERO_AMOUNT)] && s.calls == [Call(uid, 0, Amount(up, 0), false)]
    && PartOf(s.added, uid, Upload) == up && s.acked == map[]
  }

  lemma LookedUp(uid: UserId, up: nat)
    ensures var s := Next(INIT, Begin(uid, up, 0));
            OnlyCall(s, uid, up) && s.counters == map[uid := 0] && s.batches == [] && s.snap == Idle
  {
  }

  /** How an `Add` is lost: it looks up its cell, a snapshot comes and drops the cell, which is still
      empty, and the add goes there. */
  lemma AddIsLost(uid: UserId, up: nat)
    ensures var s := Next(INIT, Begin(uid, up, 0));
            var u := Next(Next(Next(Next(s, SnapBegin), SwapUp(uid)), SwapDown), SnapTurn);
            var t := Next(Next(Next(u, Prune(uid)), SnapEnd), AddUp(0));
            PartOf(t.added, uid, Upload) == up && PartOf(t.acked, uid, Upload) == 0 && Unacked(t, uid, Upload) == 0
  {
    hide Next;
    hide PartOf;
    hide Unacked;
    LookedUp(uid, up);
    var s := Next(INIT, Begin(uid, up, 0));
    CountsTaken(s, uid, up);
    CellDropped(Next(Next(Next(s, SnapBegin), SwapUp(uid)), SwapDown), uid, up);
  }

  lemma CountsTaken(s: State, uid: UserId, up: nat)
    requires OnlyCall(s, uid, up) && s.counters == map[uid := 0] && s.batches == [] && s.snap == Idle
    ensures var t := Next(Next(Next(s, SnapBegin), SwapUp(uid)), SwapDown);
            OnlyCall(t, uid, up) && t.counters == map[uid := 0] && t.batches == [Batch(map[], Filling)]
              && t.snap == Taking(0, {})
  {
    var s1 := Next(s, SnapBegin);
    assert s1 == s.(batches := [Batch(map[], Filling)], snap := s1.snap) && s1.snap == Taking(0, {uid});
    var s2 := Next(s1, SwapUp(uid));
    assert s2.cells == s.cells && s2.batches == [Batch(map[uid := ZERO_AMOUNT], Filling)];
    assert s2 == s1.(batches := s2.batches, snap := s2.snap) && s2.snap == HalfTaken(0, uid, {});
    var t := Next(s2, SwapDown);
    assert t.cells == s.cells && t.batches == [Batch(map[], Filling)];
  }

  lemma CellDropped(s: State, uid: UserId, up: nat)
    requires OnlyCall(s, uid, up) && s.counters == map[uid := 0] && s.batches == [Batch(map[], Filling)]
             && s.snap == Taking(0, {})
    ensures var t := Next(Next(Next(Next(s, SnapTurn), Prune(uid)), SnapEnd), AddUp(0));
            PartOf(t.added, uid, Upload) == up && PartOf(t.acked, uid, Upload) == 0 && Unacked(t, uid, Upload) == 0
  {
    var s1 := Next(s, SnapTurn);
    assert s1 == s.(snap := s1.snap) && s1.snap == Pruning(0, {uid});
    var s2 := Next(s1, Prune(uid));
    assert s2 == s1.(counters := map[], snap := s2.snap) && s2.snap == Pruning(0, {});
    var s3 := Next(s2, SnapEnd);
    assert s3 == s2.(batches := [Batch(map[], Sent)], snap := Idle);
    AddGoesNowhere(s3, uid, up);
  }

  lemma AddGoesNowhere(s: State, uid: UserId, up: nat)
    requires OnlyCall(s, uid, up) && s.counters == map[] && s.batches == [Batch(map[], Sent)]
    ensures var t := Next(s, AddUp(0));
            PartOf(t.added, uid, Upload) == up && PartOf(t.acked, uid, Upload) == 0 && Unacked(t, uid, Upload) == 0
  {
    var t := Next(s, AddUp(0));
    assert t.calls == [Call(uid, 0, ZERO_AMOUNT, true)] && t.batches == s.batches && t.counters == map[];
    FlyingSnoc([], t.calls[0], uid, Upload);
    WaitingSnoc([], t.batches[0], uid, Upload);
    assert [] + [t.calls[0]] == t.calls && [] + [t.batches[0]] == t.batches;
  }
}
