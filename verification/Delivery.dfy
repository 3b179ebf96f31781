/** What the client has put on the connection gets to the server: from every reachable state the network and the
    server's receive loop alone can bring the server up to date. */
module Delivery {
  import opened Options
  import opened Frames
  import opened SessionSpec
  import opened Channel
  import opened Logs
  import opened W = World
  import Lifecycle

  lemma {:induction false} RunAppend(w: World, first: seq<W.Event>, more: seq<W.Event>)
    ensures W.Run(w, first + more) == W.Run(W.Run(w, first), more)
  {
    hide W.Next;
    if more == [] {
      assert first + more == first;
    } else {
      var n := |more| - 1;
      RunAppend(w, first, more[..n]);
      assert (first + more)[..|first| + n] == first + more[..n];
    }
  }

  /** What is left to do, once all bytes have arrived. */
  function Backlog(w: World): nat { 2 * |w.up.unread| + if w.s.pending.Some? then 1 else 0 }

  /** The client and its writer have not moved. */
  predicate ClientRests(v: World, w: World) { v.c == w.c && v.up.w == w.up.w }

  lemma HandleSubmits(w: World)
    requires W.Inv(w) && w.s.pending.Some?
    ensures var v := W.Next(w, Server(AHandle, []));
            v.s == SessionSpec.Next(w.s, AHandle) && v.c == w.c && v.up == w.up
  {
    hide Channel.Inv;
    hide Lifecycle.Inv;
    hide SessionSpec.Next;
    hide Submittable;
    BothSides(w);
    NextSound(w.s, AHandle);
    var t := SessionSpec.Next(w.s, AHandle);
    var fs :| t.out == w.s.out + fs && AllSendable(fs);
    assert Fresh(w.s, t) == fs;
    PaddingNeverBlocks(w.down, fs, []);
  }

  lemma HandleEmpties(s: Session)
    ensures SessionSpec.Next(s, AHandle).pending == None
  {
    hide HandleFrame;
    if s.pending.Some? {
      HandleFrameLogs(s.(pending := None, handled := s.handled + [s.pending.value]), s.pending.value);
    }
  }

  lemma ReadsOne(w: World)
    requires W.Inv(w) && !w.s.closed && w.s.pending == None && w.up.flying == [] && w.up.unread != []
    ensures var v := W.Next(w, ServerReads);
            ClientRests(v, w) && v.up.flying == [] && |v.up.unread| < |w.up.unread|
  {
    hide Channel.Inv;
    hide DecodeOne;
    hide Lifecycle.Inv;
    hide ClientOk;
    hide ServerOk;
    hide ServerOutOk;
    hide Sound;
    hide Tallied;
    BothSides(w);
    DecoderNeverStarves(w.up);
  }

  lemma OneMore(w: World) returns (e: W.Event)
    requires W.Inv(w) && !w.s.closed && w.up.flying == [] && Backlog(w) > 0
    ensures var v := W.Next(w, e); W.Inv(v) && ClientRests(v, w) && v.up.flying == [] && Backlog(v) < Backlog(w)
  {
    hide W.Next;
    hide W.Inv;
    hide SessionSpec.Next;
    if w.s.pending.Some? {
      e := Server(AHandle, []);
      HandleSubmits(w);
      HandleEmpties(w.s);
    } else {
      e := ServerReads;
      ReadsOne(w);
    }
    W.NextKeepsInv(w, e);
  }

  lemma {:induction false} CatchUp(w: World) returns (more: seq<W.Event>)
    requires W.Inv(w) && w.up.flying == []
    ensures var v := W.Run(w, more);
            ClientRests(v, w) && v.up.flying == [] && (v.s.closed || Backlog(v) == 0)
    decreases Backlog(w)
  {
    hide W.Inv;
    hide W.Next;
    more := [];
    if !w.s.closed && Backlog(w) > 0 {
      var e := OneMore(w);
      var rest := CatchUp(W.Next(w, e));
      var none: seq<W.Event> := [];
      assert [e][..0] == none && W.Run(w, none) == w && W.Run(w, [e]) == W.Next(w, e);
      RunAppend(w, [e], rest);
      more := [e] + rest;
    }
  }

  lemma Arrive(w: World) returns (e: W.Event)
    requires W.Inv(w)
    ensures var v := W.Next(w, e); W.Inv(v) && ClientRests(v, w) && v.up.flying == []
  {
    e := ArriveUp(|w.up.flying|);
    W.NextKeepsInv(w, e);
    hide W.Inv;
  }

  /** From every reachable state in which the client's write buffer is empty, a continuation without any step of
      the client ends with the server's session closed, or with everything the client has written to an open
      stream in the pipe of the server's stream, unless that stream is dead. So nothing that was put on the
      connection can stay there for want of a step. */
  lemma {:induction false} EverythingCanArrive(settings: Frame, c: Session, s: Session, events: seq<W.Event>, w: World)
    returns (more: seq<W.Event>, t: World)
    requires GoodStart(settings, c, s) && w == W.Run(Start(settings, c, s), events) && w.up.w.buffer == []
    ensures t == W.Run(Start(settings, c, s), events + more) && t.c == w.c
    ensures t.s.closed || (Drained(t.up) && t.s.pending == None)
    ensures forall k, h ::
              (&& 0 <= k < |w.c.all| && w.c.all[k].phase == Open && 0 <= h < |t.s.all|
               && t.s.all[h].id == w.c.all[k].id && !t.s.closed && !t.s.all[h].dead) ==>
                t.s.all[h].piped == w.c.all[k].written
  {
    hide W.Next;
    hide W.Inv;
    W.InvOnEveryRun(settings, c, s, events);
    var e := Arrive(w);
    var rest := CatchUp(W.Next(w, e));
    var none: seq<W.Event> := [];
    assert [e][..0] == none && W.Run(w, none) == w && W.Run(w, [e]) == W.Next(w, e);
    RunAppend(w, [e], rest);
    RunAppend(Start(settings, c, s), events, [e] + rest);
    hide W.Run;
    more := [e] + rest;
    t := W.Run(w, more);
    if !t.s.closed {
      forall k, h | 0 <= k < |w.c.all| && w.c.all[k].phase == Open && 0 <= h < |t.s.all|
          && t.s.all[h].id == w.c.all[k].id && !t.s.all[h].dead
        ensures t.s.all[h].piped == w.c.all[k].written
      {
        DrainedStreamsAreComplete(settings, c, s, events + more, t, k);
      }
    }
  }
}
