/** The domain `User` of the layered application: an immutable record with a
    derived full name and a copy-with-update operation, plus the shapes the
    gateways take as input (`UserFormData` without its id, and a partial
    update whose fields may be null or undefined at run time). */
module Domain {
  import opened Options

  /** An abstract clock reading (`new Date()` is passed in as a parameter). */
  type Time = int

  /** `Omit<UserFormData, "id">`: the four profile fields, all present. */
  datatype UserForm = UserForm(firstName: string, lastName: string, email: string, isActive: bool)
  {
    /** The same data seen as a partial update in which every field is given. */
    function AsPatch(): UserPatch {
      UserPatch(Some(firstName), Some(lastName), Some(email), Some(isActive))
    }
  }

  /** The profile fields of an update; `None` is a field that is null or
      undefined (missing) at run time. */
  datatype UserPatch = UserPatch(
    firstName: Option<string>,
    lastName: Option<string>,
    email: Option<string>,
    isActive: Option<bool>)

  /** `update({})`. */
  const EmptyPatch: UserPatch := UserPatch(None, None, None, None)

  /** JavaScript's `value ?? fallback`. */
  function Coalesce<T>(value: Option<T>, fallback: T): T {
    match value
    case Some(v) => v
    case None => fallback
  }

  /** The patch that applying `first` and then `second` amounts to: a field
      given in `second` wins, otherwise the one given in `first`. */
  function Then(first: UserPatch, second: UserPatch): UserPatch {
    UserPatch(
      if second.firstName.Some? then second.firstName else first.firstName,
      if second.lastName.Some? then second.lastName else first.lastName,
      if second.email.Some? then second.email else first.email,
      if second.isActive.Some? then second.isActive else first.isActive)
  }

  datatype User = User(
    id: int,
    firstName: string,
    lastName: string,
    email: string,
    isActive: bool,
    createdAt: Option<Time>,
    updatedAt: Option<Time>)
  {
    /** The getter `fullName`: first and last name joined by one space. */
    function FullName(): (r: string)
      ensures |r| == |firstName| + 1 + |lastName|
      ensures r[..|firstName|] == firstName
      ensures r[|firstName|] == ' '
      ensures r[|firstName| + 1..] == lastName
    {
      firstName + " " + lastName
    }

    /** True when the four profile fields of both users agree. */
    predicate SameProfile(other: User) {
      firstName == other.firstName && lastName == other.lastName
      && email == other.email && isActive == other.isActive
    }

    /** `update(props)`: a new user in which every field that `props` gives
        (not null or undefined) replaces the current one, identity and
        creation time are kept, and `updatedAt` is the clock reading `now`.
        The receiver is a value and is not changed. */
    function Update(props: UserPatch, now: Time): (r: User)
      ensures r.id == id && r.createdAt == createdAt && r.updatedAt == Some(now)
      ensures props.firstName.Some? ==> r.firstName == props.firstName.value
      ensures props.firstName.None? ==> r.firstName == firstName
      ensures props.lastName.Some? ==> r.lastName == props.lastName.value
      ensures props.lastName.None? ==> r.lastName == lastName
      ensures props.email.Some? ==> r.email == props.email.value
      ensures props.email.None? ==> r.email == email
      ensures props.isActive.Some? ==> r.isActive == props.isActive.value
      ensures props.isActive.None? ==> r.isActive == isActive
    {
      User(
        id,
        Coalesce(props.firstName, firstName),
        Coalesce(props.lastName, lastName),
        Coalesce(props.email, email),
        Coalesce(props.isActive, isActive),
        createdAt,
        Some(now))
    }
  }

  /** `update({})` changes nothing but `updatedAt`. */
  lemma UpdateWithEmptyPatch(u: User, now: Time)
    ensures u.Update(EmptyPatch, now) == u.(updatedAt := Some(now))
    ensures u.Update(EmptyPatch, now).SameProfile(u)
  {
  }

  /** Two updates in a row are one update with the later fields winning. */
  lemma UpdateTwice(u: User, p: UserPatch, q: UserPatch, t1: Time, t2: Time)
    ensures u.Update(p, t1).Update(q, t2) == u.Update(Then(p, q), t2)
  {
  }

  /** Applying the same patch again at the same time changes nothing. */
  lemma UpdateIdempotent(u: User, p: UserPatch, now: Time)
    ensures u.Update(p, now).Update(p, now) == u.Update(p, now)
  {
    UpdateTwice(u, p, p, now, now);
    assert Then(p, p) == p;
  }

  /** A full form replaces every profile field. */
  lemma UpdateWithFullForm(u: User, f: UserForm, now: Time)
    ensures var r := u.Update(f.AsPatch(), now);
      r.firstName == f.firstName && r.lastName == f.lastName
      && r.email == f.email && r.isActive == f.isActive
  {
  }
}
