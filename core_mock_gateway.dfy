/** The in-memory test double of the layered application's User gateway,
    over the domain `User` value.  It keeps an ordered list of users and a
    counter for the next id; updates keep a field whenever the new value is
    null or undefined (`??`). */
module CoreMockGateway {
  import opened Options
  import opened Outcomes
  import opened Domain
  import IdScan

  /** The ids of a user list, position by position. */
  function IdsOf(users: seq<User>): (ids: seq<int>)
    ensures |ids| == |users|
    ensures forall i :: 0 <= i < |users| ==> ids[i] == users[i].id
  {
    seq(|users|, i requires 0 <= i < |users| => users[i].id)
  }

  class MockUserGateway {
    var users: seq<User>
    var nextId: int

    /** The counter is positive and above every stored id, so the next
        created id is fresh. */
    ghost predicate Valid()
      reads this
    {
      nextId >= 1 && IdScan.AllBelow(IdsOf(users), nextId)
    }

    constructor ()
      ensures Valid() && users == [] && nextId == 1
    {
      users := [];
      nextId := 1;
    }

    method Reset()
      modifies this
      ensures Valid() && users == [] && nextId == 1
    {
      users := [];
      nextId := 1;
    }

    /** Replaces the list by a copy of `seed` and moves the counter past
        its largest id (to 1 when no id is positive). */
    method SetUsers(seed: seq<User>)
      modifies this
      ensures Valid()
      ensures users == seed
      ensures nextId == IdScan.MaxOrZero(IdsOf(seed)) + 1
    {
      users := seed;
      var maxId := IdScan.ReduceMax(IdsOf(seed));
      nextId := maxId + 1;
    }

    /** A copy of the stored list, in stored order. */
    method GetUsers() returns (r: seq<User>)
      ensures r == users
    {
      r := users;
    }

    /** The first stored user with this id, or not-found for the id. */
    method GetUserById(id: int) returns (r: Result<User>)
      ensures var k := IdScan.IndexOf(IdsOf(users), id);
        r == if k == -1 then NotFound(id) else Ok(users[k])
      ensures r.NotFound? <==> forall i :: 0 <= i < |users| ==> users[i].id != id
      ensures r.NotFound? ==> r.id == id
      ensures r.Ok? ==> r.value.id == id
      ensures r.Ok? ==> exists k :: 0 <= k < |users| && users[k] == r.value
                         && forall j :: 0 <= j < k ==> users[j].id != id
    {
      var k := IdScan.FindIndex(IdsOf(users), id);
      if k == -1 {
        return NotFound(id);
      }
      var u := users[k];
      r := Ok(User(u.id, u.firstName, u.lastName, u.email, u.isActive, u.createdAt, u.updatedAt));
    }

    /** Appends a user with the next id; both timestamps are `now`. */
    method CreateUser(data: UserForm, now: Time) returns (u: User)
      requires Valid()
      modifies this
      ensures Valid()
      ensures u == User(old(nextId), data.firstName, data.lastName, data.email, data.isActive, Some(now), Some(now))
      ensures nextId == old(nextId) + 1
      ensures users == old(users) + [u]
      ensures u.id !in IdsOf(old(users))
      ensures IdScan.Unique(IdsOf(old(users))) ==> IdScan.Unique(IdsOf(users))
    {
      var id := nextId;
      nextId := nextId + 1;
      u := User(id, data.firstName, data.lastName, data.email, data.isActive, Some(now), Some(now));
      users := users + [u];
      assert IdsOf(users) == IdsOf(old(users)) + [id];
    }

    /** Replaces the first user with this id by its update with `data`
        (fields that are null or undefined keep their value); nothing
        changes when the id is absent. */
    method UpdateUser(id: int, data: UserPatch, now: Time) returns (r: Result<User>)
      requires Valid()
      modifies this
      ensures Valid() && nextId == old(nextId)
      ensures var k := IdScan.IndexOf(IdsOf(old(users)), id);
        if k == -1 then r == NotFound(id) && users == old(users)
        else r == Ok(old(users)[k].Update(data, now)) && users == old(users)[k := r.value]
    {
      var k := IdScan.FindIndex(IdsOf(users), id);
      if k == -1 {
        return NotFound(id);
      }
      var existing := users[k];
      var updated := User(
        existing.id,
        Coalesce(data.firstName, existing.firstName),
        Coalesce(data.lastName, existing.lastName),
        Coalesce(data.email, existing.email),
        Coalesce(data.isActive, existing.isActive),
        existing.createdAt,
        Some(now));
      users := users[k := updated];
      r := Ok(updated);
      assert IdsOf(users) == IdsOf(old(users));
    }

    /** Removes the first user with this id; fails when there is none. */
    method DeleteUser(id: int) returns (r: Result<()>)
      requires Valid()
      modifies this
      ensures Valid() && nextId == old(nextId)
      ensures var k := IdScan.IndexOf(IdsOf(old(users)), id);
        if k == -1 then r == NotFound(id) && users == old(users)
        else r == Ok(()) && users == IdScan.RemoveAt(old(users), k)
      ensures r.Ok? && IdScan.Unique(IdsOf(old(users))) ==> id !in IdsOf(users)
    {
      var k := IdScan.FindIndex(IdsOf(users), id);
      if k == -1 {
        return NotFound(id);
      }
      users := IdScan.RemoveAt(users, k);
      r := Ok(());
      forall i | 0 <= i < |users|
        ensures users[i].id < nextId
        ensures IdScan.Unique(IdsOf(old(users))) ==> users[i].id != id
      {
        if i < k {
          assert users[i] == old(users)[i];
        } else {
          assert users[i] == old(users)[i + 1];
        }
      }
    }
  }

  /** On every valid gateway, reading a created user back by its id gives
      it unchanged. */
  method CreateThenGet(g: MockUserGateway, data: UserForm, now: Time) returns (u: User, r: Result<User>)
    requires g.Valid()
    modifies g
    ensures g.Valid()
    ensures r == Ok(u)
  {
    u := g.CreateUser(data, now);
    ghost var last := |g.users| - 1;
    assert g.users[last] == u;
    r := g.GetUserById(u.id);
  }

  /** The scenario of the create tests: on a fresh gateway two creates get
      ids 1 and 2 and the list holds exactly those two, in creation order;
      reading id 1 back gives the first one, and an unknown id fails. */
  method CreateTwoUsersScenario(now: Time) returns (first: User, second: User, listed: seq<User>, lookup: Result<User>, missing: Result<User>)
    ensures first == User(1, "John", "Doe", "john@example.com", true, Some(now), Some(now))
    ensures second == User(2, "Jane", "Smith", "jane@example.com", true, Some(now), Some(now))
    ensures listed == [first, second]
    ensures lookup == Ok(first)
    ensures missing == NotFound(999)
  {
    var g := new MockUserGateway();
    first := g.CreateUser(UserForm("John", "Doe", "john@example.com", true), now);
    second := g.CreateUser(UserForm("Jane", "Smith", "jane@example.com", true), now);
    listed := g.GetUsers();
    assert IdsOf(g.users) == [1, 2];
    lookup := g.GetUserById(1);
    missing := g.GetUserById(999);
  }

  /** The scenario of the delete tests: with users 1 and 2 seeded,
      deleting 1 leaves exactly user 2; reading 1 back, or deleting the
      unknown id 999, fails with not-found for that id. */
  method DeleteSeededUserScenario(t: Time) returns (deleted: Result<()>, remaining: seq<User>, lookup: Result<User>, missing: Result<()>)
    ensures deleted == Ok(())
    ensures remaining == [User(2, "Jane", "Smith", "jane@example.com", true, Some(t), Some(t))]
    ensures lookup == NotFound(1)
    ensures missing == NotFound(999)
  {
    var g := new MockUserGateway();
    var john := User(1, "John", "Doe", "john@example.com", true, Some(t), Some(t));
    var jane := User(2, "Jane", "Smith", "jane@example.com", true, Some(t), Some(t));
    g.SetUsers([john, jane]);
    assert IdsOf(g.users) == [1, 2];
    deleted := g.DeleteUser(1);
    remaining := g.GetUsers();
    assert IdsOf(g.users) == [2];
    lookup := g.GetUserById(1);
    missing := g.DeleteUser(999);
  }
}
