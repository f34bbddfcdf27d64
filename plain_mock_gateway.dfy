/** The in-memory test double of the User gateway over plain user records
    (no domain class).  It keeps an ordered list of users and a counter for
    the next id; updates are an object spread, so every field of the form
    overwrites the stored one. */
module PlainMockGateway {
  import opened Options
  import opened Outcomes
  import Domain
  import IdScan

  type UserForm = Domain.UserForm

  /** The plain user record: the entity's seven fields, both timestamps set. */
  datatype User = User(
    id: int,
    firstName: string,
    lastName: string,
    email: string,
    isActive: bool,
    createdAt: Domain.Time,
    updatedAt: Domain.Time)

  /** The ids of a user list, position by position. */
  function IdsOf(users: seq<User>): (ids: seq<int>)
    ensures |ids| == |users|
    ensures forall i :: 0 <= i < |users| ==> ids[i] == users[i].id
  {
    seq(|users|, i requires 0 <= i < |users| => users[i].id)
  }

  /** `{ ...existing, ...data, updatedAt: now }`: the stored record with all
      four profile fields taken from the form and a new `updatedAt`. */
  function Spread(existing: User, data: UserForm, now: Domain.Time): (r: User)
    ensures r.id == existing.id && r.createdAt == existing.createdAt && r.updatedAt == now
    ensures r.firstName == data.firstName && r.lastName == data.lastName
    ensures r.email == data.email && r.isActive == data.isActive
  {
    existing.(firstName := data.firstName, lastName := data.lastName,
              email := data.email, isActive := data.isActive, updatedAt := now)
  }

  class MockUserGateway {
    var users: seq<User>
    var nextId: int

    /** The counter is positive and above every stored id. */
    ghost predicate Valid()
      reads this
    {
      nextId >= 1 && IdScan.AllBelow(IdsOf(users), nextId)
    }

    constructor ()
      ensures Valid() && users == [] && nextId == 1
    {
      users := [];
      nextId := 1;
    }

    method Reset()
      modifies this
      ensures Valid() && users == [] && nextId == 1
    {
      users := [];
      nextId := 1;
    }

    /** Replaces the list by a copy of `seed` and moves the counter past
        its largest id (to 1 when no id is positive). */
    method SetUsers(seed: seq<User>)
      modifies this
      ensures Valid()
      ensures users == seed
      ensures nextId == IdScan.MaxOrZero(IdsOf(seed)) + 1
    {
      users := seed;
      var maxId := IdScan.ReduceMax(IdsOf(seed));
      nextId := maxId + 1;
    }

    /** A copy of the stored list, in stored order. */
    method GetUsers() returns (r: seq<User>)
      ensures r == users
    {
      r := users;
    }

    /** A copy of the first stored user with this id, or not-found. */
    method GetUserById(id: int) returns (r: Result<User>)
      ensures var k := IdScan.IndexOf(IdsOf(users), id);
        r == if k == -1 then NotFound(id) else Ok(users[k])
      ensures r.NotFound? <==> forall i :: 0 <= i < |users| ==> users[i].id != id
      ensures r.Ok? ==> r.value.id == id
    {
      var k := IdScan.FindIndex(IdsOf(users), id);
      if k == -1 {
        return NotFound(id);
      }
      r := Ok(users[k]);
    }

    /** `{ id: nextId++, ...data, createdAt: now, updatedAt: now }`, appended. */
    method CreateUser(data: UserForm, now: Domain.Time) returns (u: User)
      requires Valid()
      modifies this
      ensures Valid()
      ensures u == User(old(nextId), data.firstName, data.lastName, data.email, data.isActive, now, now)
      ensures nextId == old(nextId) + 1
      ensures users == old(users) + [u]
      ensures u.id !in IdsOf(old(users))
      ensures IdScan.Unique(IdsOf(old(users))) ==> IdScan.Unique(IdsOf(users))
    {
      u := User(nextId, data.firstName, data.lastName, data.email, data.isActive, now, now);
      nextId := nextId + 1;
      users := users + [u];
      assert IdsOf(users) == IdsOf(old(users)) + [u.id];
    }

    /** Overwrites the first user with this id by the spread of `data`;
        nothing changes when the id is absent. */
    method UpdateUser(id: int, data: UserForm, now: Domain.Time) returns (r: Result<User>)
      requires Valid()
      modifies this
      ensures Valid() && nextId == old(nextId)
      ensures var k := IdScan.IndexOf(IdsOf(old(users)), id);
        if k == -1 then r == NotFound(id) && users == old(users)
        else r == Ok(Spread(old(users)[k], data, now)) && users == old(users)[k := r.value]
    {
      var k := IdScan.FindIndex(IdsOf(users), id);
      if k == -1 {
        return NotFound(id);
      }
      var updated := users[k].(firstName := data.firstName, lastName := data.lastName,
                               email := data.email, isActive := data.isActive, updatedAt := now);
      users := users[k := updated];
      r := Ok(updated);
      assert IdsOf(users) == IdsOf(old(users));
    }

    /** Removes the first user with this id; fails when there is none. */
    method DeleteUser(id: int) returns (r: Result<()>)
      requires Valid()
      modifies this
      ensures Valid() && nextId == old(nextId)
      ensures var k := IdScan.IndexOf(IdsOf(old(users)), id);
        if k == -1 then r == NotFound(id) && users == old(users)
        else r == Ok(()) && users == IdScan.RemoveAt(old(users), k)
      ensures r.Ok? && IdScan.Unique(IdsOf(old(users))) ==> id !in IdsOf(users)
    {
      var k := IdScan.FindIndex(IdsOf(users), id);
      if k == -1 {
        return NotFound(id);
      }
      users := IdScan.RemoveAt(users, k);
      r := Ok(());
      forall i | 0 <= i < |users|
        ensures users[i].id < nextId
        ensures IdScan.Unique(IdsOf(old(users))) ==> users[i].id != id
      {
        if i < k {
          assert users[i] == old(users)[i];
        } else {
          assert users[i] == old(users)[i + 1];
        }
      }
    }
  }

  /** On the declared input type the two gateways' updates agree: a full
      form replaces all four profile fields under the spread and under `??`
      alike, and both keep id and creation time. */
  lemma SpreadAgreesWithCoalesce(existing: User, core: Domain.User, data: UserForm, now: Domain.Time)
    requires core.id == existing.id && core.createdAt == Some(existing.createdAt)
    ensures var s := Spread(existing, data, now);
      var c := core.Update(data.AsPatch(), now);
      s.id == c.id && Some(s.createdAt) == c.createdAt && Some(s.updatedAt) == c.updatedAt
      && s.firstName == c.firstName && s.lastName == c.lastName
      && s.email == c.email && s.isActive == c.isActive
  {
  }

  /** On every valid gateway, reading a created record back by its id
      gives it unchanged. */
  method CreateThenGet(g: MockUserGateway, data: UserForm, now: Domain.Time) returns (u: User, r: Result<User>)
    requires g.Valid()
    modifies g
    ensures g.Valid()
    ensures r == Ok(u)
  {
    u := g.CreateUser(data, now);
    assert g.users[|g.users| - 1] == u;
    r := g.GetUserById(u.id);
  }

  /** The update tests: a seeded user 1 is overwritten field by field,
      keeps id and creation time, the list keeps its length, and id 999
      fails with not-found. */
  method UpdateSeededUserScenario(seededAt: Domain.Time, now: Domain.Time) returns (updated: Result<User>, listed: seq<User>, missing: Result<User>)
    ensures updated.Ok?
    ensures updated.value == User(1, "Johnny", "Updated", "johnny.updated@example.com", true, seededAt, now)
    ensures listed == [updated.value]
    ensures missing == NotFound(999)
  {
    var g := new MockUserGateway();
    g.SetUsers([User(1, "John", "Doe", "john@example.com", true, seededAt, seededAt)]);
    assert IdsOf(g.users) == [1];
    updated := g.UpdateUser(1, Domain.UserForm("Johnny", "Updated", "johnny.updated@example.com", true), now);
    listed := g.GetUsers();
    assert IdsOf(g.users) == [1];
    missing := g.UpdateUser(999, Domain.UserForm("Johnny", "Updated", "johnny.updated@example.com", true), now);
  }
}
