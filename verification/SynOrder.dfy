/** The stream ids a client session opens, in wire order. */
module SynOrder {
  import opened Bytes
  import opened Options
  import opened Frames
  import opened SessionSpec
  import opened Logs
  import Lifecycle

  function SynIds(log: seq<Frame>): seq<nat> {
    if log == [] then []
    else
      var f := log[|log| - 1];
      SynIds(log[..|log| - 1]) + if f.cmd == CMD_SYN then [f.sid] else []
  }

  /** 1, 2, ..., n. */
  function Upto(n: nat): (r: seq<nat>)
    ensures |r| == n && forall i :: 0 <= i < n ==> r[i] == i + 1
  {
    seq(n, i => i + 1)
  }

  lemma SynIdsSnoc(log: seq<Frame>, f: Frame)
    ensures SynIds(log + [f]) == SynIds(log) + if f.cmd == CMD_SYN then [f.sid] else []
  {
    assert (log + [f])[..|log|] == log;
  }

  predicate NoOpenInProgress(c: Session) {
    forall h :: 0 <= h < |c.all| ==> c.all[h].phase != Allocated
  }

  /** The ids on the wire are 1, 2, 3, ...; all drawn ids are there, except the last while its SYN is
      still to be written. */
  predicate InOrder(c: Session) {
    && SynIds(c.out) == Upto(|SynIds(c.out)|)
    && (!c.closed ==>
          && (forall h :: 0 <= h < |c.all| - 1 ==> c.all[h].phase != Allocated)
          && |SynIds(c.out)| == |c.all| - if c.all != [] && c.all[|c.all| - 1].phase == Allocated then 1 else 0)
  }

  lemma QuietKeepsOrder(c: Session, t: Session)
    requires InOrder(c) && Quiet(c, t)
    ensures InOrder(t)
  {
    if t.out != c.out {
      var f :| OtherFrame(f) && t.out == c.out + [f];
      SynIdsSnoc(c.out, f);
    }
    assert forall h :: 0 <= h < |c.all| ==> SameWriter(c.all[h], t.all[h]);
  }

  lemma SynKeepsOrder(c: Session, h: nat)
    requires InOrder(c) && Lifecycle.IdsOk(c) && c.isClient && h < |c.all| && c.all[h].phase == Allocated
    ensures InOrder(OpenSyn(c, h))
  {
    if !c.closed {
      SynIdsSnoc(c.out, Frame(CMD_SYN, h + 1, []));
    }
  }

  /** If `OpenStream` calls on one session never overlap, the order is kept by every step. */
  lemma NextKeepsOrder(c: Session, a: Action)
    requires InOrder(c) && Lifecycle.Inv(c) && c.isClient
    requires a.ABegin? ==> NoOpenInProgress(c)
    ensures InOrder(Next(c, a))
  {
    if Enabled(c, a) {
      LifecycleIds(c);
      hide InOrder;
      hide Quiet;
      match a
      case ABegin => BeginKeepsOrder(c);
      case ASyn(h) => SynKeepsOrder(c, h);
      case ARegister(h) => RegisterKeepsOrder(c, h);
      case AReport(h, text) =>
      case AWrite(h, data) => WriteKeepsOrder(c, h, data);
      case ACloseStream(h) => CloseWithErrorIsQuiet(c, h); QuietKeepsOrder(c, Perform(c, a));
      case AHandle =>
        if c.pending.Some? {
          var t := c.(pending := None, handled := c.handled + [c.pending.value]);
          PendingNotSyn(c);
          ClientHandleIsQuiet(t, c.pending.value);
          QuietFrom(c, t, Perform(c, a));
          QuietKeepsOrder(c, Perform(c, a));
        }
      case _ => OtherActionIsQuiet(c, a); QuietKeepsOrder(c, Perform(c, a));
    }
  }

  lemma BeginKeepsOrder(c: Session)
    requires InOrder(c) && NoOpenInProgress(c)
    ensures InOrder(OpenBegin(c))
  {
  }

  lemma RegisterKeepsOrder(c: Session, h: nat)
    requires InOrder(c) && h < |c.all| && c.all[h].phase == SynWritten
    ensures InOrder(OpenRegister(c, h))
  {
  }

  lemma WriteKeepsOrder(c: Session, h: nat, data: bytes)
    requires InOrder(c) && h < |c.all|
    ensures InOrder(Write(c, h, data))
  {
    SynIdsSnoc(c.out, Frame(CMD_PSH, c.all[h].id, data));
  }

  lemma PendingNotSyn(c: Session)
    requires Lifecycle.Inv(c) && c.isClient && c.pending.Some?
    ensures c.pending.value.cmd != CMD_SYN
  {
  }

  predicate WireInOrder(log: seq<Frame>) { SynIds(log) == Upto(|SynIds(log)|) }

  lemma {:induction false} SynIdsAre(log: seq<Frame>, sid: nat)
    ensures sid in SynIds(log) <==> SynIn(log, sid)
  {
    if log == [] {
    } else {
      var init, f := log[..|log| - 1], log[|log| - 1];
      assert log == init + [f];
      SynIdsAre(init, sid);
      SynIdsSnoc(init, f);
      SynInSnoc(init, f, sid);
    }
  }

  /** Exactly when a SYN keeps the order: when the SYN of every lower id is already on the wire. */
  lemma {:induction false} SynInOrderIff(c: Session, h: nat)
    requires ClientOk(c) && Lifecycle.IdsOk(c) && c.isClient && !c.closed && h < |c.all| && c.all[h].phase == Allocated
    requires WireInOrder(c.out)
    ensures WireInOrder(OpenSyn(c, h).out) <==> forall id: nat :: 1 <= id <= h ==> SynIn(c.out, id)
  {
    var ids, syn := SynIds(c.out), Frame(CMD_SYN, h + 1, []);
    assert OpenSyn(c, h).out == c.out + [syn] && !SynIn(c.out, h + 1);
    hide ClientOk;
    hide SynIn;
    SynIdsSnoc(c.out, syn);
    forall id: nat ensures id in ids <==> SynIn(c.out, id) {
      SynIdsAre(c.out, id);
    }
    hide SynIds;
    AppendedInOrder(ids, h + 1);
    UptoMembers(|ids|);
    assert h >= |ids|;
    if h > |ids| {
      assert !SynIn(c.out, |ids| + 1);
    }
  }

  lemma UptoMembers(n: nat)
    ensures forall id: nat :: id in Upto(n) <==> 1 <= id <= n
  {
    forall id: nat ensures id in Upto(n) <==> 1 <= id <= n {
      assert 1 <= id <= n ==> Upto(n)[id - 1] == id;
    }
  }

  lemma AppendedInOrder(ids: seq<nat>, id: nat)
    requires ids == Upto(|ids|)
    ensures ids + [id] == Upto(|ids + [id]|) <==> id == |ids| + 1
  {
    assert (ids + [id])[|ids|] == id;
    if id == |ids| + 1 {
      assert ids + [id] == Upto(|ids| + 1);
    }
  }

  /** Without that discipline the order is lost: two overlapping `OpenStream` calls can put SYN 2 on the
      wire before SYN 1, from any open session that has drawn no id yet. */
  lemma OverlappingOpensSwap(c: Session)
    requires c.isClient && !c.closed && c.all == [] && c.lastId == 0 && c.peerVersion == 0 && SynIds(c.out) == []
    ensures SynIds(Next(Next(Next(Next(c, ABegin), ABegin), ASyn(1)), ASyn(0)).out) == [2, 1]
  {
    var d := Next(Next(c, ABegin), ABegin);
    TwoDrawn(c);
    TwoSyns(d);
    assert c.out + [Frame(CMD_SYN, 2, [])] + [Frame(CMD_SYN, 1, [])]
        == (c.out + [Frame(CMD_SYN, 2, [])]) + [Frame(CMD_SYN, 1, [])];
    hide Next;
    SynIdsSnoc(c.out, Frame(CMD_SYN, 2, []));
    SynIdsSnoc(c.out + [Frame(CMD_SYN, 2, [])], Frame(CMD_SYN, 1, []));
  }

  lemma TwoDrawn(c: Session)
    requires c.isClient && !c.closed && c.all == [] && c.lastId == 0 && c.peerVersion == 0
    ensures var d := Next(Next(c, ABegin), ABegin);
            d.all == [NewStream(1, Allocated), NewStream(2, Allocated)] && d.out == c.out && !d.closed
  {
    assert Next(c, ABegin).all == [NewStream(1, Allocated)];
  }

  lemma TwoSyns(d: Session)
    requires d.all == [NewStream(1, Allocated), NewStream(2, Allocated)] && !d.closed
    ensures Next(Next(d, ASyn(1)), ASyn(0)).out == d.out + [Frame(CMD_SYN, 2, [])] + [Frame(CMD_SYN, 1, [])]
  {
  }
}
