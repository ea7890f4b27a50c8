/** Per-user statistics counters and the service that reads, updates and
    saves them. Every counter is a Java `int`. */
module UserStats {
  import opened Base
  import opened ConnectionEntity

  /** One `user_stats` row (the user id is the key of the store). */
  datatype Stats = Stats(
    points: Int32,
    createdChallengesCount: Int32,
    completeChallengesCount: Int32,
    activeChallengesCount: Int32,
    savedChallengesCount: Int32,
    submissionsCount: Int32)

  /** The counter each connection type stands for: AUTHOR counts created
      challenges, PENDING_VERIFICATION counts submissions, and
      AWAITING_RESPONSE has no counter. */
  function Counter(s: Stats, t: ConnectionType): Option<Int32> {
    match t
    case Author => Some(s.createdChallengesCount)
    case Active => Some(s.activeChallengesCount)
    case Complete => Some(s.completeChallengesCount)
    case Saved => Some(s.savedChallengesCount)
    case PendingVerification => Some(s.submissionsCount)
    case AwaitingResponse => None
  }

  /** The record with the counter of `t` replaced by `v` (no change for a
      type without a counter). */
  function WithCounter(s: Stats, t: ConnectionType, v: Int32): Stats {
    match t
    case Author => s.(createdChallengesCount := v)
    case Active => s.(activeChallengesCount := v)
    case Complete => s.(completeChallengesCount := v)
    case Saved => s.(savedChallengesCount := v)
    case PendingVerification => s.(submissionsCount := v)
    case AwaitingResponse => s
  }

  /** `addPoints`: the points field moves by `p`, the counters do not. */
  function WithPoints(s: Stats, p: Int32): (r: Stats)
    ensures forall t :: Counter(r, t) == Counter(s, t)
    ensures r.points == Add32(s.points, p)
  {
    s.(points := Add32(s.points, p))
  }

  /** The switch of `incrementCounter` as written. The AUTHOR case stores
      completeChallengesCount + 1 into createdChallengesCount. */
  function Incremented(s: Stats, t: ConnectionType): (r: Stats)
    ensures r.points == s.points
    ensures t != Author ==> forall u :: u != t ==> Counter(r, u) == Counter(s, u)
    ensures t != Author && t != AwaitingResponse ==> Counter(r, t) == Some(Add32(Counter(s, t).value, 1))
    ensures t == Author ==> r == s.(createdChallengesCount := Add32(s.completeChallengesCount, 1))
    ensures t == AwaitingResponse ==> r == s
  {
    match t
    case Author => WithCounter(s, Author, Add32(s.completeChallengesCount, 1))
    case AwaitingResponse => s
    case _ => WithCounter(s, t, Add32(Counter(s, t).value, 1))
  }

  /** The switch of `decrementCounter` as written: no floor at zero, and the
      AUTHOR case again reads completeChallengesCount. */
  function Decremented(s: Stats, t: ConnectionType): (r: Stats)
    ensures r.points == s.points
    ensures t != Author ==> forall u :: u != t ==> Counter(r, u) == Counter(s, u)
    ensures t != Author && t != AwaitingResponse ==> Counter(r, t) == Some(Add32(Counter(s, t).value, -1))
    ensures t == Author ==> r == s.(createdChallengesCount := Add32(s.completeChallengesCount, -1))
    ensures t == AwaitingResponse ==> r == s
  {
    match t
    case Author => WithCounter(s, Author, Add32(s.completeChallengesCount, -1))
    case AwaitingResponse => s
    case _ => WithCounter(s, t, Add32(Counter(s, t).value, -1))
  }

  /** For every type but AUTHOR, decrementing undoes incrementing. */
  lemma IncrementThenDecrement(s: Stats, t: ConnectionType)
    requires t != Author
    ensures Decremented(Incremented(s, t), t) == s
  {
    if t != AwaitingResponse {
      Add32Inverse(Counter(s, t).value, 1);
    }
  }

  /** The AUTHOR increment is a correct "+1 on created" exactly when the
      created and complete counts happen to be equal. */
  lemma AuthorIncrementCorrectIff(s: Stats)
    ensures Incremented(s, Author).createdChallengesCount == Add32(s.createdChallengesCount, 1)
            <==> s.createdChallengesCount == s.completeChallengesCount
  {
    var a, b := s.createdChallengesCount, s.completeChallengesCount;
    if Add32(b, 1) == Add32(a, 1) {
      Add32Inverse(a, 1);
      Add32Inverse(b, 1);
    }
  }

  /** A user who created five challenges and completed none: the AUTHOR
      increment leaves createdChallengesCount at 1 rather than 6, and the
      AUTHOR decrement at -1 rather than 4. */
  lemma AuthorCounterReadsCompleteCount()
    ensures Incremented(Stats(0, 5, 0, 0, 0, 0), Author).createdChallengesCount == 1
    ensures Decremented(Stats(0, 5, 0, 0, 0, 0), Author).createdChallengesCount == -1
  {
  }

  /** The increment the switch evidently intends: every type with a counter
      raises that counter by one. */
  function IncrementedIntended(s: Stats, t: ConnectionType): (r: Stats)
    ensures r.points == s.points
    ensures forall u :: u != t ==> Counter(r, u) == Counter(s, u)
    ensures Counter(s, t).Some? ==> Counter(r, t) == Some(Add32(Counter(s, t).value, 1))
    ensures Counter(s, t).None? ==> r == s
  {
    if t == AwaitingResponse then s else WithCounter(s, t, Add32(Counter(s, t).value, 1))
  }

  /** The intended decrement, the inverse of the intended increment. */
  function DecrementedIntended(s: Stats, t: ConnectionType): (r: Stats)
    ensures r.points == s.points
    ensures forall u :: u != t ==> Counter(r, u) == Counter(s, u)
    ensures Counter(s, t).Some? ==> Counter(r, t) == Some(Add32(Counter(s, t).value, -1))
    ensures Counter(s, t).None? ==> r == s
  {
    if t == AwaitingResponse then s else WithCounter(s, t, Add32(Counter(s, t).value, -1))
  }

  /** With the intended switch the round trip holds for every type,
      AUTHOR included, and AUTHOR is then the same as the written switch on
      every type but AUTHOR. */
  lemma IntendedRoundTrip(s: Stats, t: ConnectionType)
    ensures DecrementedIntended(IncrementedIntended(s, t), t) == s
    ensures t != Author ==> IncrementedIntended(s, t) == Incremented(s, t)
    ensures t != Author ==> DecrementedIntended(s, t) == Decremented(s, t)
  {
    if t != AwaitingResponse {
      Add32Inverse(Counter(s, t).value, 1);
    }
  }

  /** The stats service over an in-memory `user_stats` table. Every method
      looks the record up first and fails with EntityNotFoundException,
      changing nothing, when the user has none. */
  class UserStatsService {
    var records: map<UserId, Stats>

    constructor (records: map<UserId, Stats>)
      ensures this.records == records
    {
      this.records := records;
    }

    /** `getStatsByUserId`. */
    method GetStatsByUserId(userId: UserId) returns (r: Result<Stats>)
      ensures userId in records ==> r == Ok(records[userId])
      ensures userId !in records ==> r == Err(EntityNotFound("User stats not found"))
    {
      if userId in records {
        r := Ok(records[userId]);
      } else {
        r := Err(EntityNotFound("User stats not found"));
      }
    }

    /** `addPoints`. */
    method AddPoints(userId: UserId, points: Int32) returns (outcome: Outcome)
      modifies this
      ensures userId !in old(records) ==> outcome == Fail(EntityNotFound("User stats not found")) && records == old(records)
      ensures userId in old(records) ==> outcome == Pass && records == old(records)[userId := WithPoints(old(records)[userId], points)]
    {
      var found := GetStatsByUserId(userId);
      if found.Err? {
        return Fail(found.error);
      }
      var stats := found.value;
      stats := stats.(points := Add32(stats.points, points));
      records := records[userId := stats];
      outcome := Pass;
    }

    /** `incrementCounter`. */
    method IncrementCounter(userId: UserId, t: ConnectionType) returns (outcome: Outcome)
      modifies this
      ensures userId !in old(records) ==> outcome == Fail(EntityNotFound("User stats not found")) && records == old(records)
      ensures userId in old(records) ==> outcome == Pass && records == old(records)[userId := Incremented(old(records)[userId], t)]
    {
      var found := GetStatsByUserId(userId);
      if found.Err? {
        return Fail(found.error);
      }
      var stats := found.value;
      match t {
        case Author => stats := stats.(createdChallengesCount := Add32(stats.completeChallengesCount, 1));
        case Active => stats := stats.(activeChallengesCount := Add32(stats.activeChallengesCount, 1));
        case Complete => stats := stats.(completeChallengesCount := Add32(stats.completeChallengesCount, 1));
        case Saved => stats := stats.(savedChallengesCount := Add32(stats.savedChallengesCount, 1));
        case PendingVerification => stats := stats.(submissionsCount := Add32(stats.submissionsCount, 1));
        case AwaitingResponse =>
      }
      records := records[userId := stats];
      outcome := Pass;
    }

    /** `decrementCounter`. */
    method DecrementCounter(userId: UserId, t: ConnectionType) returns (outcome: Outcome)
      modifies this
      ensures userId !in old(records) ==> outcome == Fail(EntityNotFound("User stats not found")) && records == old(records)
      ensures userId in old(records) ==> outcome == Pass && records == old(records)[userId := Decremented(old(records)[userId], t)]
    {
      var found := GetStatsByUserId(userId);
      if found.Err? {
        return Fail(found.error);
      }
      var stats := found.value;
      match t {
        case Author => stats := stats.(createdChallengesCount := Add32(stats.completeChallengesCount, -1));
        case Active => stats := stats.(activeChallengesCount := Add32(stats.activeChallengesCount, -1));
        case Complete => stats := stats.(completeChallengesCount := Add32(stats.completeChallengesCount, -1));
        case Saved => stats := stats.(savedChallengesCount := Add32(stats.savedChallengesCount, -1));
        case PendingVerification => stats := stats.(submissionsCount := Add32(stats.submissionsCount, -1));
        case AwaitingResponse =>
      }
      records := records[userId := stats];
      outcome := Pass;
    }
  }
}
