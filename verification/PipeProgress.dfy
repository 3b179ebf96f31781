/** What the pipe's calls wait for, and what the ones that return have met with. */
module PipeProgress {
  import opened Options
  import opened Pipe

  // ---- No call is stuck ----

  predicate Finished(p: State, t: nat)
    requires t in p.th
  {
    match p.th[t]
    case Reader(_, rs, _, _, _) => rs.RDone?
    case Writer(_, _, ws) => ws.WDone?
    case Closer(_, _, stored) => stored && p.done
  }

  predicate Selecting(p: State, w: nat) { w in p.th && p.th[w].Writer? && p.th[w].ws.WSelect? }

  predicate Receiving(p: State, r: nat) { r in p.th && p.th[r].Reader? && p.th[r].rs.RWait? }

  /** What a call may wait for: a read for a write, a write for a read, as long as the pipe is open, and a
      write for another write, not yet finished, that holds the lock. */
  ghost predicate Waits(p: State, t: nat)
    requires t in p.th
  {
    || (Receiving(p, t) && !p.done && forall w :: !Selecting(p, w))
    || (Selecting(p, t) && !p.done && forall r :: !Receiving(p, r))
    || (p.th[t].Writer? && p.th[t].ws.WWant? && p.mutex.Some? && p.mutex.value != t && p.mutex.value in p.th
        && !Finished(p, p.mutex.value))
  }

  /** Not a new call and not a deadline. */
  predicate Internal(m: Move) { !m.CallRead? && !m.CallWrite? && !m.CallClose? && !m.TimeOut? }

  /** In every reachable state a call has returned, or waits for one of these things, or can be moved: by a step
      of its own, or of the read whose count it is waiting for. */
  lemma {:induction false} NeverStuck(moves: seq<Move>, p: State, t: nat) returns (m: Move)
    requires p == Run(moves) && t in p.th
    ensures Finished(p, t) || Waits(p, t)
            || (Internal(m) && Next(p, m) != p && (Moves(m, t) || (m.Copy? && p.active == Some(m.r))))
  {
    hide Run;
    hide Joined;
    InvOnEveryRun(moves);
    match p.th[t] {
      case Reader(_, _, _, _, _) => m := ReaderMoves(p, t);
      case Writer(_, _, _) => m := WriterMoves(p, t);
      case Closer(_, _, stored) => m := if stored then CloseDone(t) else Store(t);
    }
  }

  lemma ReaderMoves(p: State, t: nat) returns (m: Move)
    requires Inv(p) && t in p.th && p.th[t].Reader?
    ensures Finished(p, t) || Waits(p, t) || (Internal(m) && Next(p, m) != p && Moves(m, t))
  {
    hide Joined;
    hide NextMeet;
    hide NextAck;
    hide TakenOk;
    m := Pass(t);
    match p.th[t].rs {
      case RStart => if p.done { m := SeeDone(t); }
      case RWait =>
        if p.done {
          m := SeeDone(t);
        } else if w :| Selecting(p, w) {
          m := Meet(t, w);
          MeetMoves(p, t, w);
        }
      case RGot(_) => m := Copy(t);
      case RCopied =>
        m := Ack(t, p.th[t].src);
        CopiedMoves(p, t);
      case RLoadOwn => m := LoadOwn(t);
      case RLoadOther(_) => m := LoadOther(t);
      case RDone(_) =>
    }
  }

  lemma MeetMoves(p: State, r: nat, w: nat)
    requires Inv(p) && Receiving(p, r) && Selecting(p, w)
    ensures Next(p, Meet(r, w)) != p
  {
    SelectingMeansIdle(p, w);
    hide Inv;
    assert Next(p, Meet(r, w)).th[w].ws == WAck;
  }

  lemma CopiedMoves(p: State, r: nat)
    requires Inv(p) && r in p.th && p.th[r].Reader? && p.th[r].rs.RCopied?
    ensures Next(p, Ack(r, p.th[r].src)) != p
  {
    hide Joined;
    assert CallOk(p, r) && TakenOk(p, r);
    assert Next(p, Ack(r, p.th[r].src)).th[r].rs == RDone(Fine);
  }

  lemma WriterMoves(p: State, t: nat) returns (m: Move)
    requires Inv(p) && t in p.th && p.th[t].Writer?
    ensures Finished(p, t) || Waits(p, t)
            || (Internal(m) && Next(p, m) != p && (Moves(m, t) || (m.Copy? && p.active == Some(m.r))))
  {
    hide Joined;
    hide NextMeet;
    hide NextAck;
    hide TakenOk;
    m := Pass(t);
    match p.th[t].ws {
      case WStart => if p.done { m := SeeDone(t); }
      case WWant => if p.mutex.None? { m := Lock(t); } else { HolderIsBusy(p, t); }
      case WSelect =>
        if p.done {
          m := SeeDone(t);
        } else if r :| Receiving(p, r) {
          m := Meet(r, t);
          MeetMoves(p, r, t);
        }
      case WAck => m := AckMoves(p, t);
      case WLoadOwn => m := LoadOwn(t);
      case WLoadOther(_) => m := LoadOther(t);
      case WDone(_) =>
    }
  }

  lemma HolderIsBusy(p: State, t: nat)
    requires Inv(p) && t in p.th && p.th[t].Writer? && p.th[t].ws.WWant? && p.mutex.Some?
    ensures var w := p.mutex.value; w != t && w in p.th && !Finished(p, w)
  {
    hide Joined;
    hide TakenOk;
    var w := p.mutex.value;
    assert CallOk(p, t) && w in p.turns && CallOk(p, w);
  }

  lemma AckMoves(p: State, t: nat) returns (m: Move)
    requires Inv(p) && t in p.th && p.th[t].Writer? && p.th[t].ws.WAck?
    ensures Internal(m) && Next(p, m) != p && (Moves(m, t) || (m.Copy? && p.active == Some(m.r)))
  {
    hide Joined;
    assert CallOk(p, t);
    var r := p.active.value;
    assert CallOk(p, r) && TakenOk(p, r);
    m := if p.th[r].rs.RGot? then Copy(r) else Ack(r, t);
  }

  // ---- A write that returns has been read ----

  /** Read `r` has returned what it took from write `w`. */
  predicate TookFrom(p: State, r: nat, w: nat) {
    r in p.th && p.th[r].Reader? && p.th[r].rs == RDone(Fine) && p.th[r].src == w
  }

  ghost predicate Met(p: State, w: nat)
    requires w in p.th
  {
    p.th[w].Writer? && p.th[w].ws == WDone(Fine) ==> exists r :: TookFrom(p, r, w)
  }

  lemma TakenStays(p: State, m: Move, r: nat, w: nat)
    requires TookFrom(p, r, w)
    ensures TookFrom(Next(p, m), r, w)
  {
  }

  lemma NewlyFine(p: State, m: Move, w: nat)
    requires w in Next(p, m).th && Next(p, m).th[w].Writer? && Next(p, m).th[w].ws == WDone(Fine)
    ensures (w in p.th && p.th[w] == Next(p, m).th[w])
            || (m.Ack? && m.w == w && m.r in p.th && w in p.th && p.th[m.r].Reader? && p.th[w].Writer?
                && p.th[m.r].rs.RCopied? && p.th[w].ws.WAck?)
  {
    if !Moves(m, w) {
      OnlyMovers(p, m, w);
    }
  }

  lemma NextKeepsMet(p: State, m: Move, w: nat)
    requires Inv(p) && (w in p.th ==> Met(p, w)) && w in Next(p, m).th
    ensures Met(Next(p, m), w)
  {
    hide Inv;
    hide Next;
    var p' := Next(p, m);
    if p'.th[w].Writer? && p'.th[w].ws == WDone(Fine) {
      NewlyFine(p, m, w);
      if w in p.th && p.th[w] == p'.th[w] {
        var r :| TookFrom(p, r, w);
        TakenStays(p, m, r, w);
      } else {
        AckParties(p, m.r, w);
        AckTakes(p, m.r, w);
      }
    }
  }

  lemma AckTakes(p: State, r: nat, w: nat)
    requires r in p.th && w in p.th && p.th[r].Reader? && p.th[w].Writer? && p.th[r].rs.RCopied? && p.th[w].ws.WAck?
    requires p.th[r].src == w
    ensures TookFrom(Next(p, Ack(r, w)), r, w)
  {
  }

  /** A write that returns without an error, an empty one too, has met a read. */
  lemma {:induction false} FineWritesWereRead(moves: seq<Move>, p: State, w: nat)
    requires p == Run(moves) && w in p.th && p.th[w].Writer? && p.th[w].ws == WDone(Fine)
    ensures exists r :: TookFrom(p, r, w)
  {
    hide Next;
    if moves == [] {
    } else {
      var init, m := moves[..|moves| - 1], moves[|moves| - 1];
      var before := Run(init);
      InvOnEveryRun(init);
      hide Inv;
      if w in before.th && before.th[w].Writer? && before.th[w].ws == WDone(Fine) {
        FineWritesWereRead(init, before, w);
      }
      NextKeepsMet(before, m, w);
    }
  }

  // ---- Where the errors come from ----

  /** One of the moves begins a close of this side, and `f` is its error: the one given, or EOF for the write
      side and ErrClosedPipe for the read side. */
  predicate GivenBy(moves: seq<Move>, side: Side, f: Fault) {
    exists i :: 0 <= i < |moves| && Gives(moves[i], side, f)
  }

  predicate Gives(m: Move, side: Side, f: Fault) {
    m.CallClose? && m.side == side
    && (if m.err.Some? then f == m.err.value else f == if side == WriteSide then Eof else ClosedPipe)
  }

  /** The errors stored, and those still to be stored, are those given. */
  ghost predicate Given(p: State, moves: seq<Move>) {
    && (p.rerr.Some? ==> GivenBy(moves, ReadSide, p.rerr.value))
    && (p.werr.Some? ==> GivenBy(moves, WriteSide, p.werr.value))
    && forall t :: t in p.th && p.th[t].Closer? ==> GivenBy(moves, p.th[t].side, p.th[t].err)
  }

  lemma GivenSnoc(moves: seq<Move>, m: Move, side: Side, f: Fault)
    requires GivenBy(moves, side, f) || Gives(m, side, f)
    ensures GivenBy(moves + [m], side, f)
  {
    hide Gives;
    if Gives(m, side, f) {
      assert (moves + [m])[|moves|] == m;
    } else {
      var i :| 0 <= i < |moves| && Gives(moves[i], side, f);
      assert (moves + [m])[i] == moves[i];
    }
  }

  lemma CloserIsOld(p: State, m: Move, t: nat)
    requires t in Next(p, m).th && Next(p, m).th[t].Closer?
    ensures var c := Next(p, m).th[t];
            Gives(m, c.side, c.err) || (t in p.th && p.th[t].Closer? && p.th[t].side == c.side && p.th[t].err == c.err)
  {
    if !Moves(m, t) {
      OnlyMovers(p, m, t);
    }
  }

  lemma StoresACloser(p: State, m: Move)
    ensures var p' := Next(p, m);
            && (p'.rerr != p.rerr ==>
                  && m.Store? && m.t in p.th && p.th[m.t].Closer? && p.th[m.t].side == ReadSide
                  && p'.rerr == Some(p.th[m.t].err))
            && (p'.werr != p.werr ==>
                  && m.Store? && m.t in p.th && p.th[m.t].Closer? && p.th[m.t].side == WriteSide
                  && p'.werr == Some(p.th[m.t].err))
  {
    OthersKeepErrors(p, m);
  }

  lemma {:induction false} GivenOnEveryRun(moves: seq<Move>, p: State)
    requires p == Run(moves)
    ensures Given(p, moves)
  {
    hide Next;
    hide GivenBy;
    if moves == [] {
    } else {
      var init, m := moves[..|moves| - 1], moves[|moves| - 1];
      var before := Run(init);
      assert moves == init + [m];
      GivenOnEveryRun(init, before);
      StoresACloser(before, m);
      forall side, f | GivenBy(init, side, f) ensures GivenBy(moves, side, f) {
        GivenSnoc(init, m, side, f);
      }
      forall t | t in p.th && p.th[t].Closer? ensures GivenBy(moves, p.th[t].side, p.th[t].err) {
        CloserIsOld(before, m, t);
        GivenSnoc(init, m, p.th[t].side, p.th[t].err);
      }
    }
  }

  predicate ClosesSide(m: Move, side: Side) { m.CallClose? && m.side == side }

  lemma NobodyGives(moves: seq<Move>, side: Side)
    requires forall i :: 0 <= i < |moves| ==> !ClosesSide(moves[i], side)
    ensures forall f :: !GivenBy(moves, side, f)
  {
    forall f ensures !GivenBy(moves, side, f) {
      if i :| 0 <= i < |moves| && Gives(moves[i], side, f) {
        assert ClosesSide(moves[i], side);
      }
    }
  }

  /** Where one side alone is ever closed, a call of the other side that fails does so by its deadline or with an
      error that one of those closes gave: without any error given, EOF for reads and ErrClosedPipe for writes. */
  lemma {:induction false} FailuresAreGiven(moves: seq<Move>, p: State, t: nat)
    requires p == Run(moves) && t in p.th
    ensures match p.th[t]
            case Reader(_, RDone(Failed(f)), _, _, _) =>
              f == DeadlineExceeded || GivenBy(moves, WriteSide, f)
              || (f == ClosedPipe && exists i :: 0 <= i < |moves| && ClosesSide(moves[i], ReadSide))
            case Writer(_, _, WDone(Failed(f))) =>
              f == DeadlineExceeded || GivenBy(moves, ReadSide, f)
              || (f == ClosedPipe && exists i :: 0 <= i < |moves| && ClosesSide(moves[i], WriteSide))
            case _ => true
  {
    hide Run;
    hide GivenBy;
    CloseErrors(moves, p, t);
    GivenOnEveryRun(moves, p);
    if forall i :: 0 <= i < |moves| ==> !ClosesSide(moves[i], ReadSide) {
      NobodyGives(moves, ReadSide);
    }
    if forall i :: 0 <= i < |moves| ==> !ClosesSide(moves[i], WriteSide) {
      NobodyGives(moves, WriteSide);
    }
  }
}
