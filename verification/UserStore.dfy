/** The account store as the server runs it: the live map, the file, one update at a time.
    The lock of store.rs makes each method one step; WakeStore has the interleavings. */
module UserStore {
  import opened Wrappers
  import opened WakeModel
  import opened WakeRoutes
  import opened WakeStore

  /** The map a file of user records loads as; a later record for a user replaces an earlier one. */
  function FileUsers(file: seq<User>): Users {
    if file == [] then map[] else FileUsers(file[..|file| - 1])[file[|file| - 1].id := file[|file| - 1]]
  }

  ghost predicate Lists(file: seq<User>, users: Users) {
    && (forall i :: 0 <= i < |file| ==> file[i].id in users && users[file[i].id] == file[i])
    && (forall i, j :: 0 <= i < j < |file| ==> file[i].id != file[j].id)
    && (forall id :: id in users ==> exists i :: 0 <= i < |file| && file[i].id == id)
  }

  lemma {:induction false} KeyComesFrom(file: seq<User>, id: string) returns (i: nat)
    requires id in FileUsers(file)
    ensures i < |file| && file[i].id == id && FileUsers(file)[id] == file[i]
  {
    i := |file| - 1;
    if file[i].id != id {
      i := KeyComesFrom(file[..i], id);
    }
  }

  lemma {:induction false} RecordIsKey(file: seq<User>, i: nat)
    requires i < |file|
    ensures file[i].id in FileUsers(file)
  {
    if i < |file| - 1 {
      RecordIsKey(file[..|file| - 1], i);
    }
  }

  /** Writing every record once and reading the file back gives the same map. */
  lemma FileRoundTrip(file: seq<User>, users: Users)
    requires Lists(file, users)
    ensures FileUsers(file) == users
  {
    forall id | id in FileUsers(file)
      ensures id in users && FileUsers(file)[id] == users[id]
    {
      var i := KeyComesFrom(file, id);
      assert users[file[i].id] == file[i];
    }
    forall id | id in users
      ensures id in FileUsers(file)
    {
      var i :| 0 <= i < |file| && file[i].id == id;
      RecordIsKey(file, i);
    }
  }

  lemma ListsUpdated(file: seq<User>, users: Users, i: nat, u: User)
    requires Lists(file, users) && i < |file| && u.id == file[i].id
    ensures Lists(file[i := u], users[u.id := u])
  {
    var next := file[i := u];
    forall j | 0 <= j < |next|
      ensures next[j].id == file[j].id && next[j].id in users[u.id := u] && users[u.id := u][next[j].id] == next[j]
    {
    }
    var later := users[u.id := u];
    forall id | id in later
      ensures exists j :: 0 <= j < |next| && next[j].id == id
    {
      var j :| 0 <= j < |file| && file[j].id == id;
      assert next[j].id == id;
    }
  }

  lemma LoadOne(file: seq<User>, i: nat, now: nat)
    requires i < |file|
    ensures RecoverAll(FileUsers(file[..i + 1]), now) ==
            RecoverAll(FileUsers(file[..i]), now)[file[i].id := RecoverUser(file[i], now)]
  {
    assert file[..i + 1][..i] == file[..i];
  }

  /** A route's mutation as the commit protocol sees it. */
  function AsUpdate<T>(mutation: Account -> Change<T>): Mutation {
    (d: Account) => match mutation(d) case Done(e, _) => Some(e) case Refused(_) => None
  }

  class AccountStore {
    var live: Users
    var file: seq<User>

    ghost predicate Valid()
      reads this
    {
      forall id :: id in live ==> live[id].id == id
    }

    /** load_users: every record of the file, recovered. */
    constructor Load(file: seq<User>, now: nat)
      ensures Valid() && this.file == file
      ensures live == RecoverAll(FileUsers(file), now)
      ensures live.Keys == FileUsers(file).Keys
      ensures forall id :: id in live ==>
                var u := FileUsers(file)[id];
                live[id] == u.(wake := u.wake.RecoverAfterRestart(now))
    {
      this.file := file;
      this.live := map[];
      new;
      var i := 0;
      while i < |file|
        invariant 0 <= i <= |file| && Valid() && this.file == file
        invariant live == RecoverAll(FileUsers(file[..i]), now)
      {
        LoadOne(file, i, now);
        live := live[file[i].id := RecoverUser(file[i], now)];
        i := i + 1;
      }
      assert file[..i] == file;
    }

    /** The records of the live map in some order. */
    method Snapshot() returns (records: seq<User>)
      requires Valid()
      ensures Lists(records, live)
    {
      records := [];
      var rest := live.Keys;
      while rest != {}
        invariant rest <= live.Keys
        invariant forall i :: 0 <= i < |records| ==>
                    records[i].id in live && live[records[i].id] == records[i] && records[i].id !in rest
        invariant forall i, j :: 0 <= i < j < |records| ==> records[i].id != records[j].id
        invariant forall id :: id in live && id !in rest ==> exists i :: 0 <= i < |records| && records[i].id == id
        decreases |rest|
      {
        var id :| id in rest;
        var before := records;
        records := records + [live[id]];
        assert forall i :: 0 <= i < |before| ==> records[i] == before[i];
        assert records[|before|].id == id;
        rest := rest - {id};
      }
    }

    /** persist_users, before anything is served: the file becomes the live map. */
    method Persist(writes: bool) returns (ok: bool)
      requires Valid()
      modifies this`file
      ensures ok == writes
      ensures if ok then FileUsers(file) == live else file == old(file)
    {
      var snapshot := Snapshot();
      if !writes {
        return false;
      }
      FileRoundTrip(snapshot, live);
      file := snapshot;
      return true;
    }

    /** update_wake: on success the live map and the file both become the updated state; on any
        error, refusal or failed write neither changes. writes says whether the disk cooperates. */
    method UpdateWake<T>(userId: string, mutation: Account -> Change<T>, now: nat, writes: bool)
      returns (r: Result<T, string>)
      requires Valid()
      modifies this
      ensures Valid()
      ensures r.Err? ==> live == old(live) && file == old(file)
      ensures userId !in old(live) ==> r == Err("not_found")
      ensures userId in old(live) && mutation(old(live)[userId].wake).Refused? ==>
                r == Err(mutation(old(live)[userId].wake).code)
      ensures userId in old(live) && mutation(old(live)[userId].wake).Done? && !writes ==> r == Err("storage")
      ensures userId in old(live) && mutation(old(live)[userId].wake).Done? && writes ==>
                var c := mutation(old(live)[userId].wake);
                && r == Ok(c.value)
                && live == old(live)[userId := old(live)[userId].(wake := c.d.Prune(now))]
                && FileUsers(file) == live
      ensures r.Ok? ==> Updated(old(live), userId, AsUpdate(mutation), now) == Some(live)
      ensures r.Err? && writes ==> Updated(old(live), userId, AsUpdate(mutation), now) == None
    {
      var snapshot := Snapshot();
      var i := 0;
      while i < |snapshot| && snapshot[i].id != userId
        invariant 0 <= i <= |snapshot|
        invariant forall j :: 0 <= j < i ==> snapshot[j].id != userId
      {
        i := i + 1;
      }
      if i == |snapshot| {
        return Err("not_found");
      }
      match mutation(snapshot[i].wake) {
        case Refused(code) => return Err(code);
        case Done(d, value) =>
          var updated := snapshot[i].(wake := d.Prune(now));
          ListsUpdated(snapshot, live, i, updated);
          snapshot := snapshot[i := updated];
          if !writes {
            return Err("storage");
          }
          FileRoundTrip(snapshot, live[userId := updated]);
          file := snapshot;
          live := live[userId := updated];
          return Ok(value);
      }
    }
  }
}
