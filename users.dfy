/** The user store: accounts keyed by id, registration with a unique e-mail
    address, partial updates and password changes. Password hashing is
    bcrypt's: the hash of a new password comes in as a parameter (bcrypt
    salts it, so it is not a function of the password) and comparison is the
    `passwordMatches` function the service is built with. */
module Users {
  import opened Common
  import opened Paging

  /** `password` is `None` where the service hands a user out without it. */
  datatype User = User(
    id: UserId,
    email: string,
    password: Option<string>,
    firstName: string,
    lastName: string,
    role: Role,
    isActive: bool)

  datatype RegisterDto = RegisterDto(
    email: string,
    password: string,
    firstName: string,
    lastName: string,
    role: Option<Role>)

  /** A partial update: `None` stands for absent, `undefined` or `null`. */
  datatype UserPatch = UserPatch(
    email: Option<string>,
    firstName: Option<string>,
    lastName: Option<string>,
    role: Option<Role>,
    isActive: Option<bool>)

  /** The role a registration gets when it names none. */
  const DefaultRole: Role := Viewer

  /** The value the `isActive` column starts with. */
  const DefaultIsActive: bool := true

  /** The columns the lookups select: everything but the password. */
  function WithoutPassword(u: User): (r: User)
    ensures r.password == None
    ensures r.(password := u.password) == u
  {
    u.(password := None)
  }

  function Patched(u: User, p: UserPatch): (r: User)
    ensures r.id == u.id && r.password == u.password
  {
    u.(email := p.email.GetOr(u.email),
       firstName := p.firstName.GetOr(u.firstName),
       lastName := p.lastName.GetOr(u.lastName),
       role := p.role.GetOr(u.role),
       isActive := p.isActive.GetOr(u.isActive))
  }

  /** Each field of a patched user holds the patch's value where it has one
      and the old value everywhere else; an empty patch changes nothing. */
  lemma PatchedFieldwise(u: User, p: UserPatch)
    ensures var r := Patched(u, p);
      && r.email == (if p.email.Some? then p.email.value else u.email)
      && r.firstName == (if p.firstName.Some? then p.firstName.value else u.firstName)
      && r.lastName == (if p.lastName.Some? then p.lastName.value else u.lastName)
      && r.role == (if p.role.Some? then p.role.value else u.role)
      && r.isActive == (if p.isActive.Some? then p.isActive.value else u.isActive)
    ensures Patched(u, UserPatch(None, None, None, None, None)) == u
  {
  }

  /** Whether some stored user has the address. */
  predicate EmailTaken(users: map<UserId, User>, email: string) {
    exists id :: id in users && users[id].email == email
  }

  /** No two stored users share an address. */
  predicate UniqueEmails(users: map<UserId, User>) {
    forall a, b :: a in users && b in users && users[a].email == users[b].email ==> a == b
  }

  class UsersService {
    /** The users table. */
    var users: map<UserId, User>
    /** Id generator standing in for the database's uuid column. */
    var nextId: nat
    /** bcrypt's comparison of a plain password with a stored hash. */
    const passwordMatches: (string, string) -> bool

    ghost predicate Valid()
      reads this
    {
      forall id :: id in users ==> users[id].id == id && id < nextId && users[id].password.Some?
    }

    constructor (passwordMatches: (string, string) -> bool)
      ensures Valid() && users == map[] && this.passwordMatches == passwordMatches
    {
      this.passwordMatches := passwordMatches;
      users := map[];
      nextId := 0;
    }

    /** The stored user with that address, password included, if any. */
    method FindByEmail(email: string) returns (r: Option<User>)
      requires Valid()
      ensures r.None? <==> !EmailTaken(users, email)
      ensures r.Some? ==> r.value.id in users && users[r.value.id] == r.value && r.value.email == email
    {
      if exists id :: id in users && users[id].email == email {
        var id :| id in users && users[id].email == email;
        r := Some(users[id]);
      } else {
        r := None;
      }
    }

    /** Registers a user, refusing an address already in use. The stored row
        holds the hash of the password; the returned user has it cleared. */
    method Create(dto: RegisterDto, hashedPassword: string) returns (r: Result<User>)
      requires Valid() && passwordMatches(dto.password, hashedPassword)
      modifies this
      ensures Valid()
      ensures EmailTaken(old(users), dto.email) ==> r == Err(Conflict) && users == old(users)
      ensures !EmailTaken(old(users), dto.email) ==>
        && r.Ok? && r.value.id !in old(users)
        && r.value == User(r.value.id, dto.email, None, dto.firstName, dto.lastName,
                           dto.role.GetOr(DefaultRole), DefaultIsActive)
        && users == old(users)[r.value.id := r.value.(password := Some(hashedPassword))]
      ensures UniqueEmails(old(users)) ==> UniqueEmails(users)
    {
      var existing := FindByEmail(dto.email);
      if existing.Some? {
        return Err(Conflict);
      }
      var user := User(nextId, dto.email, Some(hashedPassword), dto.firstName, dto.lastName,
                       dto.role.GetOr(DefaultRole), DefaultIsActive);
      users := users[nextId := user];
      nextId := nextId + 1;
      r := Ok(user.(password := None));
    }

    /** The user with that id, without its password; NotFound if none. */
    function FindById(id: UserId): (r: Result<User>)
      reads this
      ensures r.Err? <==> id !in users
      ensures r.Err? ==> r.error == NotFound
      ensures r.Ok? ==> r.value.password == None && r.value.(password := users[id].password) == users[id]
    {
      if id !in users then Err(NotFound) else Ok(WithoutPassword(users[id]))
    }

    /** The users of `order`, without passwords. */
    function Rows(order: seq<UserId>): (r: seq<User>)
      reads this
      requires forall i :: 0 <= i < |order| ==> order[i] in users
      ensures |r| == |order|
      ensures forall i :: 0 <= i < |order| ==> r[i] == WithoutPassword(users[order[i]])
    {
      if order == [] then []
      else [WithoutPassword(users[order[0]])] + Rows(order[1..])
    }

    /** One page of users, newest first as `order` lists them (every stored
        id exactly once), without passwords. */
    function FindAll(page: Option<int>, limit: Option<int>, order: seq<UserId>): (r: seq<User>)
      reads this
      requires ValidPaging(page, limit)
      requires ListsEachOnce(order, users.Keys)
      ensures var skip := Skip(EffectivePage(page), EffectiveLimit(limit));
        && |r| == (if skip >= |users| then 0 else Min(EffectiveLimit(limit), |users| - skip))
        && forall i :: 0 <= i < |r| ==> skip + i < |order| && r[i] == WithoutPassword(users[order[skip + i]])
    {
      ListsEachOnceSize(order, users.Keys);
      PageOf(Rows(order), EffectivePage(page), EffectiveLimit(limit))
    }

    /** Applies the non-null fields of the patch. The user is loaded without
        its password, so saving it leaves the stored password as it was. */
    method Update(id: UserId, patch: UserPatch) returns (r: Result<User>)
      requires Valid()
      modifies this
      ensures Valid() && nextId == old(nextId)
      ensures id !in old(users) ==> r == Err(NotFound) && users == old(users)
      ensures id in old(users) ==>
        && users == old(users)[id := Patched(old(users)[id], patch)]
        && r == Ok(WithoutPassword(users[id]))
    {
      var user := FindById(id);
      if user.Err? {
        return user;
      }
      var updated := Patched(user.value, patch);
      users := users[id := updated.(password := users[id].password)];
      r := Ok(updated);
    }

    /** Removes the user with that id; NotFound if none. */
    method Delete(id: UserId) returns (r: Outcome)
      requires Valid()
      modifies this
      ensures Valid() && nextId == old(nextId)
      ensures id !in old(users) ==> r == Fail(NotFound) && users == old(users)
      ensures id in old(users) ==> r == Done && users == old(users) - {id}
    {
      var user := FindById(id);
      if user.Err? {
        return Fail(user.error);
      }
      users := users - {id};
      r := Done;
    }

    /** Replaces the stored hash once the current password matches it:
        NotFound for a missing user, Conflict for a wrong current password. */
    method ChangePassword(id: UserId, currentPassword: string, newPassword: string, hashedNewPassword: string)
      returns (r: Outcome)
      requires Valid() && passwordMatches(newPassword, hashedNewPassword)
      modifies this
      ensures Valid() && nextId == old(nextId)
      ensures id !in old(users) ==> r == Fail(NotFound) && users == old(users)
      ensures id in old(users) && !passwordMatches(currentPassword, old(users)[id].password.value) ==>
        r == Fail(Conflict) && users == old(users)
      ensures id in old(users) && passwordMatches(currentPassword, old(users)[id].password.value) ==>
        r == Done && users == old(users)[id := old(users)[id].(password := Some(hashedNewPassword))]
      ensures r == Done ==> passwordMatches(newPassword, users[id].password.value)
    {
      if id !in users {
        return Fail(NotFound);
      }
      var user := users[id];
      if !passwordMatches(currentPassword, user.password.value) {
        return Fail(Conflict);
      }
      users := users[id := user.(password := Some(hashedNewPassword))];
      r := Done;
    }
  }
}
