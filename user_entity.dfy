/** The user entity and its pre-persist normalisation. */
module UserModel {
  import opened Base

  /** A stored `users` row. */
  datatype User = User(
    id: UserId,
    username: string,
    email: Option<string>,
    firstName: Option<string>,
    lastName: Option<string>,
    level: Int32,
    points: Int32,
    createdAt: Option<Timestamp>)

  /** What `prePersist` makes of a row: level at least 1, points
      non-negative and a creation time set; values that are already valid
      are kept, and the identity and profile fields are not touched. */
  function Normalised(u: User, now: Timestamp): (r: User)
    ensures r.level >= 1 && r.points >= 0 && r.createdAt.Some?
    ensures u.level > 0 ==> r.level == u.level
    ensures u.points >= 0 ==> r.points == u.points
    ensures u.createdAt.Some? ==> r.createdAt == u.createdAt
    ensures r.(level := u.level, points := u.points, createdAt := u.createdAt) == u
  {
    u.(createdAt := if u.createdAt == None then Some(now) else u.createdAt,
       level := if u.level <= 0 then 1 else u.level,
       points := if u.points < 0 then 0 else u.points)
  }

  /** Running the hook again, at any later time, changes nothing. */
  lemma NormalisedIdempotent(u: User, now: Timestamp, later: Timestamp)
    ensures Normalised(Normalised(u, now), later) == Normalised(u, now)
  {
  }

  /** The JPA entity as an object whose hook updates it in place. */
  class UserEntity {
    var id: UserId
    var username: string
    var email: Option<string>
    var firstName: Option<string>
    var lastName: Option<string>
    var level: Int32
    var points: Int32
    var createdAt: Option<Timestamp>

    /** The builder the user mapper uses: identity and profile fields set,
        `level` and `points` at Java's default 0, no creation time. */
    constructor (id: UserId, username: string, email: Option<string>, firstName: Option<string>, lastName: Option<string>)
      ensures Value() == User(id, username, email, firstName, lastName, 0, 0, None)
    {
      this.id := id;
      this.username := username;
      this.email := email;
      this.firstName := firstName;
      this.lastName := lastName;
      this.level := 0;
      this.points := 0;
      this.createdAt := None;
    }

    /** The row this object would be stored as. */
    function Value(): User
      reads this
    {
      User(id, username, email, firstName, lastName, level, points, createdAt)
    }

    /** `@PrePersist`. */
    method PrePersist(now: Timestamp)
      modifies this
      ensures Value() == Normalised(old(Value()), now)
    {
      if createdAt == None {
        createdAt := Some(now);
      }
      if level <= 0 {
        level := 1;
      }
      if points < 0 {
        points := 0;
      }
    }
  }
}
