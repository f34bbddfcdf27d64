/** The database-backed User gateway, with the database abstracted away:
    what it reads back from the ORM (a row, a list of rows, an `affected`
    count) is a parameter.  What stays is the mapping between the ORM
    entity and the domain `User` and the rule that turns a missing row or a
    zero `affected` count into the not-found error. */
module ServerUserGateway {
  import opened Options
  import opened Outcomes
  import opened Domain

  /** A row of the ORM entity `TypeOrmUser`; the database sets `id` and
      both timestamps. */
  datatype TypeOrmUser = TypeOrmUser(
    id: int,
    firstName: string,
    lastName: string,
    email: string,
    isActive: bool,
    createdAt: Time,
    updatedAt: Time)

  /** `Partial<User>`: any subset of the domain user's seven fields. */
  datatype PartialUser = PartialUser(
    id: Option<int>,
    firstName: Option<string>,
    lastName: Option<string>,
    email: Option<string>,
    isActive: Option<bool>,
    createdAt: Option<Time>,
    updatedAt: Option<Time>)

  /** `Partial<TypeOrmUser>`: the keys handed to the ORM's create or update. */
  datatype TypeOrmUserData = TypeOrmUserData(
    id: Option<int>,
    firstName: Option<string>,
    lastName: Option<string>,
    email: Option<string>,
    isActive: Option<bool>,
    createdAt: Option<Time>,
    updatedAt: Option<Time>)

  const NoData: TypeOrmUserData := TypeOrmUserData(None, None, None, None, None, None, None)

  /** A whole domain user seen as a `Partial<User>`: every field defined. */
  function AsPartial(u: User): PartialUser {
    PartialUser(Some(u.id), Some(u.firstName), Some(u.lastName), Some(u.email), Some(u.isActive), u.createdAt, u.updatedAt)
  }

  /** A form seen as a `Partial<User>`: the four profile fields defined. */
  function FormAsPartial(f: UserForm): PartialUser {
    PartialUser(None, Some(f.firstName), Some(f.lastName), Some(f.email), Some(f.isActive), None, None)
  }

  /** `toCoreUser`: the domain user with the row's seven fields. */
  function ToCoreUser(row: TypeOrmUser): (u: User)
    ensures u.id == row.id && u.firstName == row.firstName && u.lastName == row.lastName
    ensures u.email == row.email && u.isActive == row.isActive
    ensures u.createdAt == Some(row.createdAt) && u.updatedAt == Some(row.updatedAt)
  {
    User(row.id, row.firstName, row.lastName, row.email, row.isActive, Some(row.createdAt), Some(row.updatedAt))
  }

  /** `toTypeORMUserData`: starting from no keys, each profile field that
      is defined in the input is copied; id and timestamps never are. */
  function ToTypeOrmUserData(core: PartialUser): (d: TypeOrmUserData)
    ensures d.id == None && d.createdAt == None && d.updatedAt == None
    ensures d.firstName.Some? <==> core.firstName.Some?
    ensures d.firstName.Some? ==> d.firstName.value == core.firstName.value
    ensures d.lastName.Some? <==> core.lastName.Some?
    ensures d.lastName.Some? ==> d.lastName.value == core.lastName.value
    ensures d.email.Some? <==> core.email.Some?
    ensures d.email.Some? ==> d.email.value == core.email.value
    ensures d.isActive.Some? <==> core.isActive.Some?
    ensures d.isActive.Some? ==> d.isActive.value == core.isActive.value
  {
    var d0 := NoData;
    var d1 := if core.firstName.Some? then d0.(firstName := Some(core.firstName.value)) else d0;
    var d2 := if core.lastName.Some? then d1.(lastName := Some(core.lastName.value)) else d1;
    var d3 := if core.email.Some? then d2.(email := Some(core.email.value)) else d2;
    var d4 := if core.isActive.Some? then d3.(isActive := Some(core.isActive.value)) else d3;
    d4
  }

  /** No row reaches the domain with a field changed: distinct rows map to
      distinct users. */
  lemma ToCoreUserInjective(a: TypeOrmUser, b: TypeOrmUser)
    requires ToCoreUser(a) == ToCoreUser(b)
    ensures a == b
  {
  }

  /** An input with no profile field defined produces no keys at all. */
  lemma NoProfileFieldsNoData(core: PartialUser)
    requires core.firstName.None? && core.lastName.None? && core.email.None? && core.isActive.None?
    ensures ToTypeOrmUserData(core) == NoData
  {
  }

  /** `getUsers`: every row mapped, in the order the database returned. */
  function GetUsers(rows: seq<TypeOrmUser>): (us: seq<User>)
    ensures |us| == |rows|
    ensures forall i :: 0 <= i < |rows| ==> us[i] == ToCoreUser(rows[i])
  {
    seq(|rows|, i requires 0 <= i < |rows| => ToCoreUser(rows[i]))
  }

  /** The keys `createUser` and `updateUser` hand to the ORM for a form:
      exactly the four profile fields, never id or timestamps. */
  function FormData(data: UserForm): (d: TypeOrmUserData)
    ensures d == TypeOrmUserData(None, Some(data.firstName), Some(data.lastName), Some(data.email), Some(data.isActive), None, None)
  {
    ToTypeOrmUserData(FormAsPartial(data))
  }

  /** The check after `findOneBy({id})` in `getUserById`: a missing row is
      not-found for the id, a present row is the mapped user. */
  function GetUserById(id: int, found: Option<TypeOrmUser>): (r: Result<User>)
    ensures r.NotFound? <==> found.None?
    ensures r.NotFound? ==> r.id == id
    ensures r.Ok? ==> r.value == ToCoreUser(found.value)
  {
    if found.None? then NotFound(id) else Ok(ToCoreUser(found.value))
  }

  /** `updateUser`: the keys written for the form, and the outcome of the
      lookup after the write (`reread` is the row read back by id). */
  function UpdateUser(id: int, data: UserForm, reread: Option<TypeOrmUser>): (r: (TypeOrmUserData, Result<User>))
    ensures r.0 == FormData(data)
    ensures r.1.NotFound? <==> reread.None?
    ensures r.1.NotFound? ==> r.1.id == id
    ensures r.1.Ok? ==> r.1.value == ToCoreUser(reread.value)
  {
    var written := ToTypeOrmUserData(FormAsPartial(data));
    if reread.None? then (written, NotFound(id)) else (written, Ok(ToCoreUser(reread.value)))
  }

  /** `deleteUser`: `!affected || affected <= 0` is not-found for the id;
      `affected` is null or undefined (`None`) or a count. */
  function DeleteUser(id: int, affected: Option<int>): (r: Result<()>)
    ensures r.Ok? <==> affected.Some? && affected.value > 0
    ensures r.NotFound? ==> r.id == id
  {
    var falsy := affected.None? || affected.value == 0;
    if falsy || affected.value <= 0 then NotFound(id) else Ok(())
  }
}

/** The static repository over the same entity.  Its `toCoreUser` and
    `toTypeORMUserData` are the same code as the gateway's and are shared
    from `ServerUserGateway`; the database results are parameters. */
module UserRepository {
  import opened Options
  import opened Outcomes
  import opened Domain
  import opened ServerUserGateway

  /** `findById`: null when no row matches, otherwise the mapped user. */
  function FindById(found: Option<TypeOrmUser>): (r: Option<User>)
    ensures r.None? <==> found.None?
    ensures r.Some? ==> r.value == ToCoreUser(found.value)
  {
    if found.Some? then Some(ToCoreUser(found.value)) else None
  }

  /** `delete`: `affected ? affected > 0 : false`. */
  function Delete(affected: Option<int>): (deleted: bool)
    ensures deleted <==> affected.Some? && affected.value > 0
  {
    var truthy := affected.Some? && affected.value != 0;
    if truthy then affected.value > 0 else false
  }

  /** Mapping a row to the domain and back to ORM data keeps exactly the
      row's four profile fields. */
  lemma CoreUserBackToData(row: TypeOrmUser)
    ensures ToTypeOrmUserData(AsPartial(ToCoreUser(row)))
      == TypeOrmUserData(None, Some(row.firstName), Some(row.lastName), Some(row.email), Some(row.isActive), None, None)
  {
  }

  /** The repository's and the gateway's delete rules agree on every count. */
  lemma DeleteAgreesWithGateway(id: int, affected: Option<int>)
    ensures Delete(affected) <==> ServerUserGateway.DeleteUser(id, affected).Ok?
  {
  }

  /** `findById` is null exactly when the gateway's lookup is not-found,
      and otherwise both give the same user. */
  lemma FindByIdAgreesWithGateway(id: int, found: Option<TypeOrmUser>)
    ensures FindById(found).None? <==> ServerUserGateway.GetUserById(id, found).NotFound?
    ensures FindById(found).Some? ==> FindById(found).value == ServerUserGateway.GetUserById(id, found).value
  {
  }
}
