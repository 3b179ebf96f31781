/** The client's idle list: a skip list keyed by MaxUint64 - seq, newest session first. */
module IdleList {
  import opened Options

  const MAX_U64: nat := 0xFFFF_FFFF_FFFF_FFFF

  function Key(seqNo: nat): int { MAX_U64 - seqNo }

  datatype Entry = Entry(seqNo: nat, since: int)

  /** Keys strictly ascend. */
  predicate Ordered(list: seq<Entry>) {
    forall i, j :: 0 <= i < j < |list| ==> Key(list[i].seqNo) < Key(list[j].seqNo)
  }

  /** The place of a key: how many entries come before it. */
  function Position(list: seq<Entry>, seqNo: nat): (p: nat)
    ensures p <= |list|
    ensures forall j :: 0 <= j < p ==> list[j].seqNo > seqNo
    ensures p < |list| ==> list[p].seqNo <= seqNo
  {
    if list != [] && list[0].seqNo > seqNo then 1 + Position(list[1..], seqNo) else 0
  }

  /** The place behind a key, whether or not an entry has it. */
  function Behind(list: seq<Entry>, seqNo: nat): (q: nat)
    ensures Position(list, seqNo) <= q <= |list|
  {
    var p := Position(list, seqNo);
    if p < |list| && list[p].seqNo == seqNo then p + 1 else p
  }

  /** Insert at the place of the key, replacing an entry with the same key. */
  function Insert(list: seq<Entry>, e: Entry): seq<Entry> {
    list[..Position(list, e.seqNo)] + [e] + list[Behind(list, e.seqNo)..]
  }

  function Remove(list: seq<Entry>, seqNo: nat): seq<Entry> {
    list[..Position(list, seqNo)] + list[Behind(list, seqNo)..]
  }

  lemma SplitAtKey(list: seq<Entry>, seqNo: nat)
    requires Ordered(list)
    ensures var p, q := Position(list, seqNo), Behind(list, seqNo);
            && list == list[..p] + list[p..q] + list[q..]
            && (forall x :: x in list[..p] ==> x.seqNo > seqNo)
            && (forall x :: x in list[p..q] ==> x.seqNo == seqNo)
            && (forall x :: x in list[q..] ==> x.seqNo < seqNo)
  {
    hide Position;
    hide Behind;
    hide Ordered;
    var p, q := Position(list, seqNo), Behind(list, seqNo);
    ThreeParts(list, p, q);
    AtKey(list, seqNo);
    forall x | x in list[..p] ensures x.seqNo > seqNo {
      var j :| 0 <= j < p && list[..p][j] == x;
    }
    forall x | x in list[q..] ensures x.seqNo < seqNo {
      var j :| 0 <= j < |list| - q && list[q..][j] == x;
      BehindIsLess(list, seqNo, q + j);
    }
  }

  lemma AtKey(list: seq<Entry>, seqNo: nat)
    ensures var p, q := Position(list, seqNo), Behind(list, seqNo);
            q == p || (q == p + 1 && list[p..q] == [list[p]] && list[p].seqNo == seqNo)
  {
    hide Position;
  }

  lemma ThreeParts(list: seq<Entry>, p: nat, q: nat)
    requires p <= q <= |list|
    ensures list == list[..p] + list[p..q] + list[q..]
  {
  }

  lemma BehindIsLess(list: seq<Entry>, seqNo: nat, j: nat)
    requires Ordered(list) && Behind(list, seqNo) <= j < |list|
    ensures list[j].seqNo < seqNo
  {
    var p := Position(list, seqNo);
    assert p < j ==> Key(list[p].seqNo) < Key(list[j].seqNo);
  }

  lemma Glue(a: seq<Entry>, b: seq<Entry>)
    requires Ordered(a) && Ordered(b)
    requires forall x, y :: x in a && y in b ==> x.seqNo > y.seqNo
    ensures Ordered(a + b)
  {
  }

  lemma InsertFacts(list: seq<Entry>, e: Entry)
    requires Ordered(list)
    ensures Ordered(Insert(list, e))
    ensures forall x :: x in Insert(list, e) <==> x == e || (x in list && x.seqNo != e.seqNo)
  {
    hide Position;
    hide Behind;
    SplitAtKey(list, e.seqNo);
    var p, q := Position(list, e.seqNo), Behind(list, e.seqNo);
    Glue([e], list[q..]);
    Glue(list[..p], [e] + list[q..]);
    assert Insert(list, e) == list[..p] + ([e] + list[q..]);
  }

  lemma RemoveFacts(list: seq<Entry>, seqNo: nat)
    requires Ordered(list)
    ensures Ordered(Remove(list, seqNo))
    ensures forall x :: x in Remove(list, seqNo) <==> x in list && x.seqNo != seqNo
  {
    hide Position;
    hide Behind;
    SplitAtKey(list, seqNo);
    Glue(list[..Position(list, seqNo)], list[Behind(list, seqNo)..]);
  }

  /** `getIdleSession` takes the first entry: the greatest sequence number. */
  lemma FirstIsNewest(list: seq<Entry>, e: Entry)
    requires Ordered(list) && e in list
    ensures e.seqNo <= list[0].seqNo
  {
    var i :| 0 <= i < |list| && list[i] == e;
  }

  // ---- Idle cleanup ----

  datatype Swept = Swept(kept: seq<Entry>, removed: seq<nat>)

  /** The cleanup loop from the entry at hand on, having kept `active` entries so far. */
  function Sweep(list: seq<Entry>, active: nat, exp: int, minIdle: int, now: int): Swept {
    if list == [] then Swept([], [])
    else
      var e := list[0];
      if e.since >= exp then
        var r := Sweep(list[1..], active + 1, exp, minIdle, now);
        Swept([e] + r.kept, r.removed)
      else if active < minIdle then
        var r := Sweep(list[1..], active + 1, exp, minIdle, now);
        Swept([Entry(e.seqNo, now)] + r.kept, r.removed)
      else
        var r := Sweep(list[1..], active, exp, minIdle, now);
        Swept(r.kept, [e.seqNo] + r.removed)
  }

  /** Whether the i-th newest session goes: it has expired and is not among the first `minIdle`. */
  predicate Goes(list: seq<Entry>, i: nat, exp: int, minIdle: int)
    requires i < |list|
  {
    list[i].since < exp && i >= minIdle
  }

  function Refreshed(e: Entry, exp: int, now: int): Entry {
    if e.since < exp then Entry(e.seqNo, now) else e
  }

  /** The closed form of what survives, by position alone. */
  function Survivors(list: seq<Entry>, from: nat, exp: int, minIdle: int, now: int): seq<Entry>
    requires from <= |list|
    decreases |list| - from
  {
    if from == |list| then []
    else
      var rest := Survivors(list, from + 1, exp, minIdle, now);
      if Goes(list, from, exp, minIdle) then rest else [Refreshed(list[from], exp, now)] + rest
  }

  function Removed(list: seq<Entry>, from: nat, exp: int, minIdle: int): seq<nat>
    requires from <= |list|
    decreases |list| - from
  {
    if from == |list| then []
    else (if Goes(list, from, exp, minIdle) then [list[from].seqNo] else []) + Removed(list, from + 1, exp, minIdle)
  }

  /** The running count of the loop and the position decide alike: as long as the count is below the
      minimum nothing has been removed, so the count is the position. */
  lemma {:induction false} SweepByPosition(list: seq<Entry>, from: nat, active: nat, exp: int, minIdle: int, now: int)
    requires from <= |list|
    requires active <= from && (active < from ==> active >= minIdle)
    ensures Sweep(list[from..], active, exp, minIdle, now)
         == Swept(Survivors(list, from, exp, minIdle, now), Removed(list, from, exp, minIdle))
    decreases |list| - from
  {
    if from < |list| {
      assert list[from..][1..] == list[from + 1..];
      var keep := list[from].since >= exp || active < minIdle;
      SweepByPosition(list, from + 1, if keep then active + 1 else active, exp, minIdle, now);
    }
  }

  lemma {:induction false} SurvivorMembers(list: seq<Entry>, from: nat, exp: int, minIdle: int, now: int)
    requires from <= |list| && Ordered(list)
    ensures var kept := Survivors(list, from, exp, minIdle, now);
            && (forall x :: x in kept <==>
                  exists i :: from <= i < |list| && !Goes(list, i, exp, minIdle) && x == Refreshed(list[i], exp, now))
            && Ordered(kept)
    decreases |list| - from
  {
    if from < |list| {
      SurvivorMembers(list, from + 1, exp, minIdle, now);
      var tail := Survivors(list, from + 1, exp, minIdle, now);
      forall j | 0 <= j < |tail| ensures Key(list[from].seqNo) < Key(tail[j].seqNo) {
        assert tail[j] in tail;
      }
    }
  }

  lemma {:induction false} RemovedMembers(list: seq<Entry>, from: nat, exp: int, minIdle: int)
    requires from <= |list|
    ensures forall q :: q in Removed(list, from, exp, minIdle) <==>
              exists i :: from <= i < |list| && Goes(list, i, exp, minIdle) && q == list[i].seqNo
    decreases |list| - from
  {
    if from < |list| {
      RemovedMembers(list, from + 1, exp, minIdle);
    }
  }

  function Unexpired(list: seq<Entry>, from: nat, exp: int): nat
    requires from <= |list|
    decreases |list| - from
  {
    if from == |list| then 0 else (if list[from].since >= exp then 1 else 0) + Unexpired(list, from + 1, exp)
  }

  lemma {:induction false} SurvivorCount(list: seq<Entry>, from: nat, exp: int, minIdle: int, now: int)
    requires from <= |list|
    ensures var n, spared := |Survivors(list, from, exp, minIdle, now)|,
                             if minIdle <= from then 0 else if minIdle <= |list| then minIdle - from else |list| - from;
            spared <= n && Unexpired(list, from, exp) <= n <= Unexpired(list, from, exp) + spared
    decreases |list| - from
  {
    if from < |list| {
      SurvivorCount(list, from + 1, exp, minIdle, now);
    }
  }

  /** Idle cleanup, for every list, clock and minimum. A session goes exactly when it has expired and is
      not one of the `minIdle` newest; the others stay, expired ones refreshed; so among expired ones
      those kept are newer than those removed; at least min(minIdle, size) and at most
      unexpired + minIdle survive; order survives. */
  lemma CleanupCorrect(list: seq<Entry>, exp: int, minIdle: int, now: int)
    requires Ordered(list)
    ensures var r := Sweep(list, 0, exp, minIdle, now);
            && Ordered(r.kept)
            && (forall q :: q in r.removed <==>
                 exists i :: 0 <= i < |list| && Goes(list, i, exp, minIdle) && q == list[i].seqNo)
            && (forall x :: x in r.kept <==>
                  exists i :: 0 <= i < |list| && !Goes(list, i, exp, minIdle) && x == Refreshed(list[i], exp, now))
            && (forall i, j | 0 <= i < |list| && 0 <= j < |list| && list[i].since < exp ::
                  !Goes(list, i, exp, minIdle) && Goes(list, j, exp, minIdle) ==> list[i].seqNo > list[j].seqNo)
            && |r.kept| >= (if minIdle <= 0 then 0 else if minIdle <= |list| then minIdle else |list|)
            && Unexpired(list, 0, exp) <= |r.kept| <= Unexpired(list, 0, exp) + if minIdle <= 0 then 0 else minIdle
  {
    assert list[0..] == list;
    SweepByPosition(list, 0, 0, exp, minIdle, now);
    SurvivorMembers(list, 0, exp, minIdle, now);
    RemovedMembers(list, 0, exp, minIdle);
    SurvivorCount(list, 0, exp, minIdle, now);
  }

  lemma SeqNosDiffer(list: seq<Entry>, i: nat, j: nat)
    requires Ordered(list) && i < j < |list|
    ensures list[i].seqNo != list[j].seqNo
  {
    assert Key(list[i].seqNo) < Key(list[j].seqNo);
  }

  /** So, for the i-th newest: one that has not expired stays as it is; an expired one among the first `minIdle`
      stays, as idle from now on; any other is taken out. */
  lemma {:induction false} CleanupPlain(list: seq<Entry>, i: nat, exp: int, minIdle: int, now: int)
    requires Ordered(list) && i < |list|
    ensures var r, e := Sweep(list, 0, exp, minIdle, now), list[i];
            if e.since >= exp || i < minIdle then
              && e.seqNo !in r.removed
              && (if e.since >= exp then e else Entry(e.seqNo, now)) in r.kept
            else e.seqNo in r.removed && forall x :: x in r.kept ==> x.seqNo != e.seqNo
  {
    hide Sweep;
    hide Ordered;
    CleanupCorrect(list, exp, minIdle, now);
    forall j | 0 <= j < |list| && j != i ensures list[j].seqNo != list[i].seqNo {
      if j < i { SeqNosDiffer(list, j, i); } else { SeqNosDiffer(list, i, j); }
    }
    assert Goes(list, i, exp, minIdle) <==> list[i].since < exp && i >= minIdle;
  }

  // ---- The client object ----

  /** The session pool. `sessions` is the client's map of sessions and `alive` those whose `die` channel
      is open, both by sequence number; a session's `idleSince` is kept in its list entry. */
  class Client {
    var idle: seq<Entry>
    var sessions: set<nat>
    var alive: set<nat>
    var sessionCounter: nat
    var dead: bool
    const minIdleSession: int

    /** The idle list is ordered by key and holds open sessions only. */
    ghost predicate Valid()
      reads this
    {
      && Ordered(idle)
      && (forall i :: 0 <= i < |idle| ==> idle[i].seqNo in alive)
      && sessions <= alive && (forall q :: q in alive ==> q <= sessionCounter)
    }

    constructor (minIdle: int)
      ensures Valid() && idle == [] && sessions == alive == {} && !dead && sessionCounter == 0
      ensures minIdleSession == minIdle
    {
      idle, sessions, alive, sessionCounter, dead := [], {}, {}, 0, false;
      minIdleSession := minIdle;
    }

    /** `createSession`, once dialled. */
    method CreateSession() returns (n: nat)
      requires Valid()
      modifies this
      ensures Valid() && n == sessionCounter == old(sessionCounter) + 1
      ensures n !in old(alive) && alive == old(alive) + {n} && sessions == old(sessions) + {n}
      ensures idle == old(idle) && dead == old(dead)
    {
      sessionCounter := sessionCounter + 1;
      n := sessionCounter;
      alive, sessions := alive + {n}, sessions + {n};
    }

    method GetIdleSession() returns (r: Option<nat>)
      requires Valid()
      modifies this`idle
      ensures Valid()
      ensures old(idle) == [] ==> r == None && idle == []
      ensures old(idle) != [] ==> r == Some(old(idle)[0].seqNo) && idle == old(idle)[1..]
      ensures forall e :: e in old(idle) ==> r.Some? && e.seqNo <= r.value
    {
      r := None;
      if idle != [] {
        forall e | e in idle ensures e.seqNo <= idle[0].seqNo {
          FirstIsNewest(idle, e);
        }
        r := Some(idle[0].seqNo);
        idle := idle[1..];
      }
    }

    /** The skip list's search for the place of a key. */
    method Search(n: nat) returns (i: nat)
      ensures i == Position(idle, n)
    {
      i := 0;
      while i < |idle| && Key(idle[i].seqNo) < Key(n)
        invariant 0 <= i <= |idle|
        invariant forall j :: 0 <= j < i ==> idle[j].seqNo > n
      {
        i := i + 1;
      }
    }

    /** The death hook of a stream: an open session goes back into the pool or, if the client has been
        closed, is to be closed. */
    method PutIdle(n: nat, now: int) returns (toClose: bool)
      requires Valid()
      modifies this`idle
      ensures Valid() && toClose == (n in alive && dead)
      ensures idle == if n in alive && !dead then Insert(old(idle), Entry(n, now)) else old(idle)
    {
      toClose := n in alive && dead;
      if n in alive && !dead {
        hide Ordered;
        hide Position;
        var i := Search(n);
        InsertKeepsAlive(idle, Entry(n, now), alive);
        var j := if i < |idle| && idle[i].seqNo == n then i + 1 else i;
        idle := idle[..i] + [Entry(n, now)] + idle[j..];
      }
    }

    /** `Session.Close` and the session's death hook. */
    method CloseSession(n: nat)
      requires Valid()
      modifies this
      ensures Valid() && n !in alive && sessionCounter == old(sessionCounter) && dead == old(dead)
      ensures alive == old(alive) - {n}
      ensures idle == (if n in old(alive) then Remove(old(idle), n) else old(idle))
      ensures sessions == (if n in old(alive) then old(sessions) - {n} else old(sessions))
    {
      if n in alive {
        var i := Search(n);
        RemoveKeepsAlive(idle, n, alive);
        var j := if i < |idle| && idle[i].seqNo == n then i + 1 else i;
        idle := idle[..i] + idle[j..];
        alive, sessions := alive - {n}, sessions - {n};
      }
    }

    /** `idleCleanupExpTime` up to the closing of the sessions it removed. */
    method IdleCleanupExpTime(exp: int, now: int) returns (toClose: seq<nat>)
      requires Valid()
      modifies this`idle
      ensures Valid()
      ensures idle == Sweep(old(idle), 0, exp, minIdleSession, now).kept
      ensures toClose == Sweep(old(idle), 0, exp, minIdleSession, now).removed
    {
      var activeCount: nat := 0;
      var kept := [];
      toClose := [];
      for i := 0 to |idle|
        invariant kept + Sweep(idle[i..], activeCount, exp, minIdleSession, now).kept
               == Sweep(idle, 0, exp, minIdleSession, now).kept
        invariant toClose + Sweep(idle[i..], activeCount, exp, minIdleSession, now).removed
               == Sweep(idle, 0, exp, minIdleSession, now).removed
      {
        var e := idle[i];
        assert idle[i..][1..] == idle[i + 1..];
        if !(e.since < exp) {
          activeCount := activeCount + 1;
          kept := kept + [e];
          continue;
        }
        if activeCount < minIdleSession {
          kept := kept + [Entry(e.seqNo, now)];
          activeCount := activeCount + 1;
          continue;
        }
        toClose := toClose + [e.seqNo];
      }
      assert idle[|idle|..] == [];
      ghost var r := Sweep(idle, 0, exp, minIdleSession, now);
      assert kept + [] == r.kept && toClose + [] == r.removed;
      CleanupKeepsAlive(idle, exp, minIdleSession, now, alive);
      assert kept == r.kept;
      idle := kept;
    }

    /** `Client.Close`: from here on nothing enters the pool. */
    method Close() returns (toClose: set<nat>)
      requires Valid()
      modifies this`dead, this`sessions
      ensures Valid() && dead && sessions == {} && toClose == old(sessions)
    {
      dead := true;
      toClose := sessions;
      sessions := {};
    }
  }

  lemma EntriesIn(list: seq<Entry>, more: seq<Entry>, alive: set<nat>)
    requires forall x :: x in more ==> x.seqNo in alive || x in list
    requires forall x :: x in more && x in list ==> x.seqNo in alive
    ensures forall i :: 0 <= i < |more| ==> more[i].seqNo in alive
  {
    forall i | 0 <= i < |more| ensures more[i].seqNo in alive {
      assert more[i] in more;
    }
  }

  lemma InsertKeepsAlive(list: seq<Entry>, e: Entry, alive: set<nat>)
    requires Ordered(list) && (forall i :: 0 <= i < |list| ==> list[i].seqNo in alive) && e.seqNo in alive
    ensures Ordered(Insert(list, e))
    ensures forall i :: 0 <= i < |Insert(list, e)| ==> Insert(list, e)[i].seqNo in alive
  {
    hide Insert;
    InsertFacts(list, e);
    EntriesIn(list, Insert(list, e), alive);
  }

  lemma RemoveKeepsAlive(list: seq<Entry>, n: nat, alive: set<nat>)
    requires Ordered(list) && forall i :: 0 <= i < |list| ==> list[i].seqNo in alive
    ensures Ordered(Remove(list, n))
    ensures forall i :: 0 <= i < |Remove(list, n)| ==> Remove(list, n)[i].seqNo in alive - {n}
  {
    hide Remove;
    RemoveFacts(list, n);
    EntriesIn(list, Remove(list, n), alive - {n});
  }

  lemma CleanupKeepsAlive(list: seq<Entry>, exp: int, minIdle: int, now: int, alive: set<nat>)
    requires Ordered(list) && forall i :: 0 <= i < |list| ==> list[i].seqNo in alive
    ensures var kept := Sweep(list, 0, exp, minIdle, now).kept;
            Ordered(kept) && forall i :: 0 <= i < |kept| ==> kept[i].seqNo in alive
  {
    var kept := Sweep(list, 0, exp, minIdle, now).kept;
    CleanupCorrect(list, exp, minIdle, now);
    forall i | 0 <= i < |kept| ensures kept[i].seqNo in alive {
      assert kept[i] in kept;
    }
  }
}
