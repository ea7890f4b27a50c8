/** The user service: uniqueness checks on registration, then an account at
    the identity provider and a stored row; deletion by id. */
module Users {
  import opened Base
  import opened UserModel

  /** The registration request. */
  datatype UserRequest = UserRequest(
    username: string,
    password: string,
    email: Option<string>,
    firstName: Option<string>,
    lastName: Option<string>)

  /** The response `toDto` builds from a stored row. */
  datatype UserResponse = UserResponse(
    username: string,
    email: Option<string>,
    firstName: Option<string>,
    lastName: Option<string>,
    level: Int32,
    points: Int32)

  /** `existsByUsername`. */
  predicate UsernameTaken(users: map<UserId, User>, username: string) {
    exists id :: id in users && users[id].username == username
  }

  /** `existsByEmail`: a derived query with a `null` argument matches rows
      whose email is `null`, so an absent email is taken as soon as one
      stored user has none. */
  predicate EmailTaken(users: map<UserId, User>, email: Option<string>) {
    exists id :: id in users && users[id].email == email
  }

  /** The two guards of `createUser`, in their order: the failure they
      raise, if any. */
  function RegistrationConflict(users: map<UserId, User>, req: UserRequest): (r: Option<Failure>)
    ensures r == Some(Conflict("Username is already in use")) <==> UsernameTaken(users, req.username)
    ensures r == Some(Conflict("Email is already in use")) <==>
              !UsernameTaken(users, req.username) && EmailTaken(users, req.email)
    ensures r == None <==> !UsernameTaken(users, req.username) && !EmailTaken(users, req.email)
  {
    if UsernameTaken(users, req.username) then Some(Conflict("Username is already in use"))
    else if EmailTaken(users, req.email) then Some(Conflict("Email is already in use"))
    else None
  }

  /** Once a registration has been stored, a second request with the same
      username is refused by the first guard. */
  lemma RegisteredNamesAreTaken(users: map<UserId, User>, id: UserId, stored: User, req: UserRequest)
    requires stored.username == req.username
    ensures RegistrationConflict(users[id := stored], req) == Some(Conflict("Username is already in use"))
  {
    assert users[id := stored][id].username == req.username;
  }

  /** `toDto`. */
  function ToResponse(u: User): (r: UserResponse)
    ensures r.username == u.username && r.email == u.email && r.level == u.level && r.points == u.points
  {
    UserResponse(u.username, u.email, u.firstName, u.lastName, u.level, u.points)
  }

  /** The identity provider, seen only as a source of fresh ids: every id it
      issues is larger than all it issued before. */
  class IdentityProvider {
    var nextId: UserId
    var accounts: set<UserId>

    constructor ()
      ensures nextId == 0 && accounts == {}
    {
      nextId := 0;
      accounts := {};
    }

    /** Register an account and return its new id. */
    method CreateAccount() returns (id: UserId)
      modifies this
      ensures id == old(nextId) && nextId == old(nextId) + 1
      ensures accounts == old(accounts) + {id}
    {
      id := nextId;
      nextId := nextId + 1;
      accounts := accounts + {id};
    }

    /** Remove an account. */
    method DeleteAccount(id: UserId)
      modifies this
      ensures nextId == old(nextId) && accounts == old(accounts) - {id}
    {
      accounts := accounts - {id};
    }
  }

  /** `UserService` over an in-memory `users` table. */
  class UserService {
    var users: map<UserId, User>
    const provider: IdentityProvider

    /** Every stored id was issued by the provider. */
    ghost predicate Valid()
      reads this, provider
    {
      forall id :: id in users ==> id < provider.nextId
    }

    constructor (provider: IdentityProvider)
      ensures users == map[] && this.provider == provider
      ensures Valid()
    {
      users := map[];
      this.provider := provider;
    }

    /** `createUser`: the username check comes first, then the email check;
        on either conflict neither the provider nor the table is touched.
        Otherwise the provider issues the id and the normalised row is
        stored under it. */
    method CreateUser(req: UserRequest, now: Timestamp) returns (r: Result<UserResponse>)
      requires Valid()
      modifies this, provider
      ensures Valid()
      ensures UsernameTaken(old(users), req.username) ==>
                r == Err(Conflict("Username is already in use")) && users == old(users) && unchanged(provider)
      ensures !UsernameTaken(old(users), req.username) && EmailTaken(old(users), req.email) ==>
                r == Err(Conflict("Email is already in use")) && users == old(users) && unchanged(provider)
      ensures !UsernameTaken(old(users), req.username) && !EmailTaken(old(users), req.email) ==>
                var id := old(provider.nextId);
                var stored := Normalised(User(id, req.username, req.email, req.firstName, req.lastName, 0, 0, None), now);
                && id !in old(users)
                && users == old(users)[id := stored]
                && |users| == |old(users)| + 1
                && provider.accounts == old(provider.accounts) + {id}
                && r == Ok(ToResponse(stored))
    {
      var conflict := RegistrationConflict(users, req);
      if conflict.Some? {
        return Err(conflict.value);
      }
      var userId := provider.CreateAccount();
      var entity := new UserEntity(userId, req.username, req.email, req.firstName, req.lastName);
      entity.PrePersist(now);
      var saved := entity.Value();
      users := users[userId := saved];
      r := Ok(ToResponse(saved));
    }

    /** `deleteUser`: an unknown id fails with NotFoundException and changes
        nothing; a known one is removed from the provider and the table. */
    method DeleteUser(userId: UserId) returns (outcome: Outcome)
      requires Valid()
      modifies this, provider
      ensures Valid()
      ensures userId !in old(users) ==>
                outcome == Fail(NotFound("User not found")) && users == old(users) && unchanged(provider)
      ensures userId in old(users) ==>
                outcome == Pass && users == old(users) - {userId} && |users| == |old(users)| - 1
                && provider.accounts == old(provider.accounts) - {userId}
    {
      if userId !in users {
        return Fail(NotFound("User not found"));
      }
      provider.DeleteAccount(userId);
      users := users - {userId};
      outcome := Pass;
    }
  }
}
