/** The traffic counter, its snapshot, and its file. */
module Traffic {
  import opened Bytes
  import opened Options
  import opened Text

  /** An upload and a download count. */
  datatype Amount = Amount(up: int, down: int)

  const ZERO_AMOUNT: Amount := Amount(0, 0)

  function Plus(a: Amount, b: Amount): Amount { Amount(a.up + b.up, a.down + b.down) }

  /** User ids are Go's 64-bit `int`. */
  newtype UserId = n: int | -0x8000_0000_0000_0000 <= n < 0x8000_0000_0000_0000

  type Amounts = map<UserId, Amount>

  function Get(m: Amounts, uid: UserId): Amount { if uid in m then m[uid] else ZERO_AMOUNT }

  /** What is reported and saved: some count is positive. */
  predicate Reported(a: Amount) { a.up > 0 || a.down > 0 }

  function Nonzero(m: Amounts): Amounts {
    map uid | uid in m && Reported(m[uid]) :: m[uid]
  }

  function Merged(m: Amounts, data: Amounts): Amounts {
    map uid | uid in m.Keys + data.Keys :: Plus(Get(m, uid), Get(data, uid))
  }

  /** The file's data: decimal user ids. */
  type Image = map<bytes, Amount>

  /** The file as `LoadFromFile` meets it. */
  datatype File = Missing | Unreadable | Malformed | Holds(image: Image)

  /** `image` is the file for `m`: one entry for each user to be saved, under its decimal id. */
  ghost predicate Saves(image: Image, m: Amounts) {
    && (forall uid :: uid in Nonzero(m) ==> Key(uid) in image && image[Key(uid)] == m[uid])
    && (forall key :: key in image ==> exists uid :: uid in Nonzero(m) && key == Key(uid))
  }

  /** `data` is what loading reads from a file: each entry whose key is a number, under that number; of
      several keys for one number, any. */
  ghost predicate Loads(data: Amounts, image: Image) {
    && (forall key :: key in image && UserOf(key).Some? ==> UserOf(key).value in data)
    && (forall uid :: uid in data ==> exists key :: key in image && UserOf(key) == Some(uid) && data[uid] == image[key])
  }

  function Key(uid: UserId): bytes { Itoa(uid as int) }

  /** The user a key of the file stands for, if it is a number. */
  function UserOf(key: bytes): Option<UserId> {
    var n := ParseInt(key);
    if n.Some? then Some(n.value as UserId) else None
  }

  lemma UserOfKey(uid: UserId)
    ensures UserOf(Key(uid)) == Some(uid)
  {
    ParseItoaIff(uid as int);
  }

  /** The entries of `all` but those in `left` have been written. */
  ghost predicate Written(data: Image, all: Amounts, left: set<UserId>) {
    && (forall key :: key in data ==> exists uid :: uid in Nonzero(all) && uid !in left && key == Key(uid))
    && (data == map[] ==> forall uid :: uid in Nonzero(all) ==> uid in left)
    && (forall uid :: uid in Nonzero(all) && uid !in left ==> Key(uid) in data && data[Key(uid)] == all[uid])
  }

  lemma WriteOne(data: Image, all: Amounts, left: set<UserId>, uid: UserId)
    requires Written(data, all, left) && uid in left && uid in all
    ensures Written(if Reported(all[uid]) then data[Key(uid) := all[uid]] else data, all, left - {uid})
  {
    hide Key;
    var data' := if Reported(all[uid]) then data[Key(uid) := all[uid]] else data;
    assert Reported(all[uid]) ==> Key(uid) in data';
    forall key | key in data' ensures exists v :: v in Nonzero(all) && v !in left - {uid} && key == Key(v) {
      if key == Key(uid) && Reported(all[uid]) {
        assert uid in Nonzero(all);
      } else {
        var v :| v in Nonzero(all) && v !in left && key == Key(v);
      }
    }
    forall v | v in Nonzero(all) && v !in left - {uid} ensures Key(v) in data' && data'[Key(v)] == all[v] {
      UserOfKey(v);
      UserOfKey(uid);
    }
  }

  /** The snapshot without the users in `left`, whose turn has not come. */
  ghost function NonzeroBut(m: Amounts, left: set<UserId>): Amounts {
    map uid | uid in m && uid !in left && Reported(m[uid]) :: m[uid]
  }

  lemma NothingTaken(m: Amounts)
    ensures NonzeroBut(m, m.Keys) == map[]
  {
  }

  lemma TakeOne(m: Amounts, left: set<UserId>, uid: UserId)
    requires uid in left && uid in m
    ensures NonzeroBut(m, left - {uid})
         == if Reported(m[uid]) then NonzeroBut(m, left)[uid := m[uid]] else NonzeroBut(m, left)
  {
  }

  lemma AllTaken(m: Amounts)
    ensures NonzeroBut(m, {}) == Nonzero(m)
  {
  }

  /** The sum, with the users in `left` still to be added. */
  ghost function MergedBut(m: Amounts, data: Amounts, left: set<UserId>): Amounts {
    map uid | uid in m.Keys + (data.Keys - left) :: Plus(Get(m, uid), if uid in left then ZERO_AMOUNT else Get(data, uid))
  }

  lemma NothingMerged(m: Amounts, data: Amounts)
    ensures MergedBut(m, data, data.Keys) == m && MergedBut(m, data, {}) == Merged(m, data)
  {
    assert MergedBut(m, data, data.Keys).Keys == m.Keys;
  }

  lemma MergeOne(m: Amounts, data: Amounts, left: set<UserId>, uid: UserId)
    requires uid in left && uid in data
    ensures MergedBut(m, data, left - {uid})
         == MergedBut(m, data, left)[uid := Plus(Get(MergedBut(m, data, left), uid), Amount(data[uid].up, data[uid].down))]
  {
  }

  /** A map is ranged over in any order. */
  method SomeKey<T(==)>(keys: set<T>) returns (k: T)
    requires keys != {}
    ensures k in keys
  {
    k :| k in keys;
  }

  /** What one user's counter holds. */
  class UserTraffic {
    var upload: int
    var download: int

    constructor ()
      ensures upload == 0 && download == 0
    {
      upload, download := 0, 0;
    }

    /** The two atomic swaps with zero. */
    method Swap() returns (a: Amount)
      modifies this
      ensures a == Amount(old(upload), old(download)) && upload == 0 == download
    {
      a := Amount(upload, download);
      upload := 0;
      download := 0;
    }
  }

  class Counter {
    var counters: map<UserId, UserTraffic>

    constructor ()
      ensures Valid() && Contents() == map[]
    {
      counters := map[];
    }

    /** No two users share a cell. */
    ghost predicate Valid()
      reads this
    {
      forall u, v :: u in counters && v in counters && u != v ==> counters[u] != counters[v]
    }

    ghost function Contents(): Amounts
      reads this, counters.Values
    {
      map uid | uid in counters :: Amount(counters[uid].upload, counters[uid].download)
    }

    /** The locked part of `Add`: the user's cell, made if need be. */
    method Lookup(uid: UserId) returns (ut: UserTraffic)
      requires Valid()
      modifies `counters
      ensures Valid() && counters == old(counters)[uid := ut]
      ensures if uid in old(counters) then ut == old(counters)[uid] else fresh(ut)
      ensures Contents() == old(Contents())[uid := Get(old(Contents()), uid)]
    {
      if uid !in counters {
        ut := new UserTraffic();
        counters := counters[uid := ut];
      } else {
        ut := counters[uid];
      }
    }

    /** The two atomic additions to a cell. */
    method Charge(uid: UserId, ut: UserTraffic, up: int, down: int)
      requires Valid() && uid in counters && counters[uid] == ut
      modifies ut
      ensures Contents() == old(Contents())[uid := Plus(old(Contents())[uid], Amount(up, down))]
    {
      assert forall u :: u in counters && u != uid ==> counters[u] != ut;
      ut.upload := ut.upload + up;
      ut.download := ut.download + down;
    }

    method Add(uid: UserId, up: int, down: int)
      requires Valid()
      modifies this, counters.Values
      ensures Valid() && fresh(counters.Values - old(counters.Values))
      ensures Contents() == old(Contents())[uid := Plus(Get(old(Contents()), uid), Amount(up, down))]
    {
      var ut := Lookup(uid);
      Charge(uid, ut, up, down);
    }

    /** Take and clear every count, then drop the empty entries. */
    method Snapshot() returns (snapshot: Amounts)
      requires Valid()
      modifies this, counters.Values
      ensures Valid() && fresh(counters.Values - old(counters.Values))
      ensures snapshot == Nonzero(old(Contents()))
      ensures Contents() == map[]
    {
      snapshot := TakeAll();
      DropEmpty();
    }

    method TakeAll() returns (snapshot: Amounts)
      requires Valid()
      modifies counters.Values
      ensures snapshot == Nonzero(old(Contents()))
      ensures forall u :: u in counters ==> counters[u].upload == 0 && counters[u].download == 0
    {
      hide NonzeroBut;
      snapshot := map[];
      ghost var was := Contents();
      var left := counters.Keys;
      assert was.Keys == left;
      NothingTaken(was);
      while left != {}
        invariant left <= counters.Keys
        invariant forall u :: u in left ==> Amount(counters[u].upload, counters[u].download) == was[u]
        invariant forall u :: u in counters && u !in left ==> counters[u].upload == 0 && counters[u].download == 0
        invariant snapshot == NonzeroBut(was, left)
        decreases left
      {
        var uid := SomeKey(left);
        ghost var before := left;
        left := left - {uid};
        assert forall u :: u in left ==> counters[u] != counters[uid];
        var a := counters[uid].Swap();
        if a.up > 0 || a.down > 0 {
          snapshot := snapshot[uid := a];
        }
        TakeOne(was, before, uid);
      }
      AllTaken(was);
    }

    method DropEmpty()
      modifies `counters
      ensures forall u :: u in counters <==>
                u in old(counters) && !(old(counters)[u].upload == 0 && old(counters)[u].download == 0)
      ensures forall u :: u in counters ==> counters[u] == old(counters)[u]
    {
      ghost var was := counters;
      var left := counters.Keys;
      while left != {}
        invariant left <= counters.Keys <= was.Keys
        invariant forall u :: u in counters ==> counters[u] == was[u]
        invariant forall u :: u in was && u !in left ==> (u in counters <==> !(was[u].upload == 0 && was[u].download == 0))
        decreases left
      {
        var uid := SomeKey(left);
        left := left - {uid};
        if counters[uid].upload == 0 && counters[uid].download == 0 {
          counters := counters - {uid};
        }
      }
    }

    method Merge(data: Amounts)
      requires Valid()
      modifies this, counters.Values
      ensures Valid() && fresh(counters.Values - old(counters.Values))
      ensures Contents() == Merged(old(Contents()), data)
    {
      hide MergedBut;
      hide Merged;
      ghost var was := Contents();
      var left := data.Keys;
      NothingMerged(was, data);
      while left != {}
        invariant Valid() && left <= data.Keys && fresh(counters.Values - old(counters.Values))
        invariant Contents() == MergedBut(was, data, left)
        decreases left
      {
        var uid := SomeKey(left);
        MergeOne(was, data, left, uid);
        left := left - {uid};
        Add(uid, data[uid].up, data[uid].down);
      }
    }

    /** No image: the file is removed. */
    method SaveToFile() returns (image: Option<Image>)
      requires Valid()
      ensures image.None? <==> Nonzero(Contents()) == map[]
      ensures image.Some? ==> Saves(image.value, Contents())
    {
      var data: Image := map[];
      ghost var all := Contents();
      var left := counters.Keys;
      while left != {}
        invariant left <= counters.Keys
        invariant Written(data, all, left)
        decreases left
      {
        ghost var before := left;
        var uid := SomeKey(left);
        left := left - {uid};
        var up, down := counters[uid].upload, counters[uid].download;
        WriteOne(data, all, before, uid);
        if up > 0 || down > 0 {
          data := data[Key(uid) := Amount(up, down)];
        }
      }
      if data == map[] {
        return None;
      }
      return Some(data);
    }

    /** Keys that are not numbers are skipped; a file that cannot be read or parsed is an error. */
    method LoadFromFile(file: File) returns (ok: bool, ghost data: Amounts)
      requires Valid()
      modifies this, counters.Values
      ensures Valid() && fresh(counters.Values - old(counters.Values))
      ensures ok <==> file.Missing? || file.Holds?
      ensures Loads(data, if file.Holds? then file.image else map[])
      ensures Contents() == Merged(old(Contents()), data)
    {
      data := map[];
      ok := file.Missing? || file.Holds?;
      if !file.Holds? {
        MergedWithNothing(Contents());
        return;
      }
      var image := file.image;
      var merged: Amounts := map[];
      var left := image.Keys;
      while left != {}
        invariant left <= image.Keys
        invariant forall key :: key in image && key !in left && UserOf(key).Some? ==> UserOf(key).value in merged
        invariant forall uid :: uid in merged ==>
                    exists key :: key in image && UserOf(key) == Some(uid) && merged[uid] == image[key]
        decreases left
      {
        var key :| key in left;
        left := left - {key};
        var uid := UserOf(key);
        if uid.Some? {
          merged := merged[uid.value := image[key]];
        }
      }
      data := merged;
      Merge(merged);
    }

    /** One push cycle: report, roll back on failure, persist. */
    method DoPush(accepted: bool) returns (pushed: Amounts, image: Option<Image>)
      requires Valid()
      modifies this, counters.Values
      ensures Valid()
      ensures pushed == if accepted then Nonzero(old(Contents())) else map[]
      ensures Contents() == if accepted then map[] else Nonzero(old(Contents()))
      ensures image.None? <==> Nonzero(Contents()) == map[]
      ensures image.Some? ==> Saves(image.value, Contents())
    {
      hide Nonzero;
      hide Merged;
      hide Saves;
      pushed := map[];
      var snapshot := Snapshot();
      if snapshot != map[] {
        if accepted {
          pushed := snapshot;
        } else {
          Merge(snapshot);
          MergedIntoNothing(snapshot);
        }
      }
      image := SaveToFile();
    }
  }

  // ---- Laws ----

  /** Nothing is lost by a snapshot, and so by a push cycle, exactly when no user's counts are both
      without a positive one and not both zero; with counts that are never negative this always holds. */
  lemma SnapshotKeepsAllIff(m: Amounts)
    ensures (forall uid :: Get(Nonzero(m), uid) == Get(m, uid))
       <==> forall uid :: uid in m && !Reported(m[uid]) ==> m[uid] == ZERO_AMOUNT
  {
    if forall uid :: Get(Nonzero(m), uid) == Get(m, uid) {
      forall uid | uid in m && !Reported(m[uid]) ensures m[uid] == ZERO_AMOUNT {
        assert Get(Nonzero(m), uid) == Get(m, uid);
      }
    }
  }

  /** Save, then load into an empty counter: exactly the entries with a positive count come back, each
      under its own user id, whatever order the maps are ranged over. */
  lemma SaveLoadRestores(m: Amounts, image: Image, data: Amounts)
    requires Saves(image, m) && Loads(data, image)
    ensures data == Nonzero(m) && Merged(map[], data) == Nonzero(m)
  {
    hide Saves;
    hide Loads;
    forall uid | uid in Nonzero(m) ensures uid in data {
      SavedIsLoaded(m, image, data, uid);
    }
    forall uid | uid in data ensures uid in Nonzero(m) && data[uid] == Nonzero(m)[uid] {
      LoadedWasSaved(m, image, data, uid);
    }
    hide Nonzero;
    SameEntries(data, Nonzero(m));
    MergedIntoNothing(data);
  }

  lemma SameEntries(a: Amounts, b: Amounts)
    requires forall uid :: uid in b ==> uid in a
    requires forall uid :: uid in a ==> uid in b && a[uid] == b[uid]
    ensures a == b
  {
  }

  lemma MergedWithNothing(m: Amounts)
    ensures Merged(m, map[]) == m
  {
  }

  lemma MergedIntoNothing(data: Amounts)
    ensures Merged(map[], data) == data
  {
  }

  lemma SavedIsLoaded(m: Amounts, image: Image, data: Amounts, uid: UserId)
    requires Saves(image, m) && Loads(data, image) && uid in Nonzero(m)
    ensures uid in data
  {
    UserOfKey(uid);
    hide Key;
    hide UserOf;
  }

  lemma LoadedWasSaved(m: Amounts, image: Image, data: Amounts, uid: UserId)
    requires Saves(image, m) && Loads(data, image) && uid in data
    ensures uid in Nonzero(m) && data[uid] == m[uid]
  {
    hide Key;
    hide UserOf;
    var key :| key in image && UserOf(key) == Some(uid) && data[uid] == image[key];
    var v :| v in Nonzero(m) && key == Key(v);
    UserOfKey(v);
  }
}
