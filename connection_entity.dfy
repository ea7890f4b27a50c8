/** The user–challenge connection entity: a typed role of one user on one
    challenge, identified by the triple (userId, challengeId, connectionType). */
module ConnectionEntity {
  import opened Base

  /** The six roles a user can have on a challenge. The services spell them
      in lower case; they are the same constants. */
  datatype ConnectionType =
    | Author
    | Active
    | Complete
    | Saved
    | PendingVerification
    | AwaitingResponse

  /** The composite primary key (the `Pk` id class). */
  datatype Pk = Pk(userId: UserId, challengeId: ChallengeId, connectionType: ConnectionType)

  /** What the pre-persist hook leaves in the timestamp column: always a
      value, as the non-nullable column needs, and never a different one
      when there already was one. */
  function PrePersistTimestamp(timestamp: Option<Timestamp>, now: Timestamp): (r: Option<Timestamp>)
    ensures r.Some?
    ensures timestamp.Some? ==> r == timestamp
  {
    if timestamp == None then Some(now) else timestamp
  }

  /** A second run of the hook, at any later time, changes nothing. */
  lemma PrePersistTimestampIdempotent(timestamp: Option<Timestamp>, now: Timestamp, later: Timestamp)
    ensures PrePersistTimestamp(PrePersistTimestamp(timestamp, now), later) == PrePersistTimestamp(timestamp, now)
  {
  }

  /** The JPA entity as an object: the key columns, and the timestamp, which
      stays `None` (Java `null`) until the entity is persisted. The lazy
      `user` and `challenge` associations are not fields here. */
  class UserChallengeConnection {
    var userId: UserId
    var challengeId: ChallengeId
    var connectionType: ConnectionType
    var timestamp: Option<Timestamp>

    constructor (userId: UserId, challengeId: ChallengeId, connectionType: ConnectionType, timestamp: Option<Timestamp>)
      ensures this.userId == userId && this.challengeId == challengeId
      ensures this.connectionType == connectionType && this.timestamp == timestamp
    {
      this.userId := userId;
      this.challengeId := challengeId;
      this.connectionType := connectionType;
      this.timestamp := timestamp;
    }

    /** The id-class value of this entity. */
    function Key(): (k: Pk)
      reads this
      ensures k.userId == userId && k.challengeId == challengeId && k.connectionType == connectionType
    {
      Pk(userId, challengeId, connectionType)
    }

    /** `equals`: only the three key fields are compared. */
    predicate SameConnection(other: UserChallengeConnection)
      reads this, other
      ensures SameConnection(other) <==>
                userId == other.userId && challengeId == other.challengeId && connectionType == other.connectionType
    {
      Key() == other.Key()
    }

    /** `@PrePersist`: default the timestamp to the current time. */
    method PrePersist(now: Timestamp)
      modifies this`timestamp
      ensures timestamp == PrePersistTimestamp(old(timestamp), now)
      ensures timestamp.Some?
      ensures old(timestamp).Some? ==> timestamp == old(timestamp)
    {
      if timestamp == None {
        timestamp := Some(now);
      }
    }
  }

  /** Equality ignores the timestamp: two entities for the same triple are
      equal whatever their timestamps, and setting the timestamp does not
      change which entities an entity equals. */
  lemma EqualityIgnoresTimestamp(a: UserChallengeConnection, b: UserChallengeConnection)
    requires a.userId == b.userId && a.challengeId == b.challengeId && a.connectionType == b.connectionType
    ensures a.SameConnection(b) && b.SameConnection(a)
  {
  }
}
