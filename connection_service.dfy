/** The connection service: each create or delete of a ledger row is followed
    by a read-modify-write of the user's stats record. There is no
    transaction, so a row saved before the stats lookup fails stays saved. */
module ConnectionService {
  import opened Base
  import opened ConnectionEntity
  import opened Ledger
  import opened UserStats
  import opened ChallengeModel

  /** The two tables the service writes: the connection rows and the stats
      records by user. */
  datatype LedgerState = LedgerState(rows: seq<ConnectionRow>, stats: map<UserId, Stats>)

  const StatsNotFound: Failure := EntityNotFound("User stats not found")

  /** `createUserChallengeConnection` as written: save the row, then bump the
      user's counter for the type, whether or not the row was new. */
  function CreateConnection(st: LedgerState, userId: UserId, challengeId: ChallengeId, t: ConnectionType, now: Timestamp)
    : (LedgerState, Result<ConnectionRow>)
  {
    var row := ConnectionRow(userId, challengeId, t, now);
    var rows := Save(st.rows, row);
    if userId in st.stats then
      (LedgerState(rows, st.stats[userId := Incremented(st.stats[userId], t)]), Ok(row))
    else
      (LedgerState(rows, st.stats), Err(StatsNotFound))
  }

  /** `deleteUserChallengeConnection` as written: delete the row, then lower
      the user's counter for the type, whether or not a row was deleted. */
  function DeleteConnection(st: LedgerState, userId: UserId, challengeId: ChallengeId, t: ConnectionType)
    : (LedgerState, Outcome)
  {
    var rows := DeleteByKey(st.rows, Pk(userId, challengeId, t)).0;
    if userId in st.stats then
      (LedgerState(rows, st.stats[userId := Decremented(st.stats[userId], t)]), Pass)
    else
      (LedgerState(rows, st.stats), Fail(StatsNotFound))
  }

  /** The state the counters are meant to describe: the key constraint holds
      and every counter equals the number of rows giving that user that
      role. */
  ghost predicate Consistent(st: LedgerState) {
    KeysDistinct(st.rows) &&
    forall u, t :: u in st.stats && Counter(st.stats[u], t).Some? ==> Counter(st.stats[u], t).value == CountOf(st.rows, u, t)
  }

  // ---------------------------------------------------------------------
  // What one call does

  /** After a create the triple is stored exactly once and no other key
      appears or disappears; a stored triple leaves the rows as they were.
      Only the caller's stats record is written, and only by the counter
      switch; without a record the call fails but the row stays. */
  lemma CreateConnectionProperties(st: LedgerState, userId: UserId, challengeId: ChallengeId, t: ConnectionType, now: Timestamp)
    requires KeysDistinct(st.rows)
    ensures var (st', r) := CreateConnection(st, userId, challengeId, t, now);
      && KeysDistinct(st'.rows)
      && Keys(st'.rows) == Keys(st.rows) + {Pk(userId, challengeId, t)}
      && (Pk(userId, challengeId, t) in Keys(st.rows) ==> st'.rows == st.rows)
      && st'.stats.Keys == st.stats.Keys
      && (forall u :: u in st.stats && u != userId ==> st'.stats[u] == st.stats[u])
      && (userId in st.stats ==> st'.stats[userId] == Incremented(st.stats[userId], t) && r == Ok(ConnectionRow(userId, challengeId, t, now)))
      && (userId !in st.stats ==> r == Err(StatsNotFound))
  {
    SaveProperties(st.rows, ConnectionRow(userId, challengeId, t, now));
  }

  /** A delete removes the triple if it was stored and keeps every other row
      in its order; the caller's counter is lowered even when nothing was
      deleted. */
  lemma DeleteConnectionProperties(st: LedgerState, userId: UserId, challengeId: ChallengeId, t: ConnectionType)
    requires KeysDistinct(st.rows)
    ensures var (st', r) := DeleteConnection(st, userId, challengeId, t);
      && KeysDistinct(st'.rows)
      && Keys(st'.rows) == Keys(st.rows) - {Pk(userId, challengeId, t)}
      && (forall row :: row in st.rows && KeyOf(row) != Pk(userId, challengeId, t) ==> row in st'.rows)
      && Lists.IsSubsequence(st'.rows, st.rows)
      && st'.stats.Keys == st.stats.Keys
      && (forall u :: u in st.stats && u != userId ==> st'.stats[u] == st.stats[u])
      && (userId in st.stats ==> st'.stats[userId] == Decremented(st.stats[userId], t) && r == Pass)
      && (userId !in st.stats ==> r == Fail(StatsNotFound))
  {
    var key := Pk(userId, challengeId, t);
    DeleteProperties(st.rows, key);
    forall row | row in st.rows && KeyOf(row) != key
      ensures row in Without(st.rows, key)
    {
      Lists.FilterMembership(st.rows, (r: ConnectionRow) => KeyOf(r) != key, row);
    }
  }

  /** Creating a triple that was not stored and deleting it again restores
      both tables exactly, for every type but AUTHOR. */
  lemma {:induction false} CreateThenDeleteRestores(st: LedgerState, userId: UserId, challengeId: ChallengeId, t: ConnectionType, now: Timestamp)
    requires Pk(userId, challengeId, t) !in Keys(st.rows)
    requires userId in st.stats && t != Author
    ensures DeleteConnection(CreateConnection(st, userId, challengeId, t, now).0, userId, challengeId, t) == (st, Pass)
  {
    var row := ConnectionRow(userId, challengeId, t, now);
    SaveThenDeleteRestores(st.rows, row);
    IncrementThenDecrement(st.stats[userId], t);
    var st1 := CreateConnection(st, userId, challengeId, t, now).0;
    assert st1.rows == Save(st.rows, row);
    assert st1.stats[userId] == Incremented(st.stats[userId], t);
    var st2 := DeleteConnection(st1, userId, challengeId, t).0;
    assert st2.rows == st.rows;
    assert st2.stats == st1.stats[userId := Decremented(st1.stats[userId], t)];
    assert st2.stats == st.stats;
  }

  // ---------------------------------------------------------------------
  // The written code against the counters' meaning

  /** Creating a triple that is already stored leaves one row but still
      raises the counter, so a consistent state stops being consistent. */
  lemma {:induction false} CreateExistingBreaksConsistency(st: LedgerState, userId: UserId, challengeId: ChallengeId, t: ConnectionType, now: Timestamp)
    requires Consistent(st) && userId in st.stats
    requires Pk(userId, challengeId, t) in Keys(st.rows)
    requires t != Author && t != AwaitingResponse
    ensures !Consistent(CreateConnection(st, userId, challengeId, t, now).0)
  {
    var st' := CreateConnection(st, userId, challengeId, t, now).0;
    CountAfterSave(st.rows, ConnectionRow(userId, challengeId, t, now), userId, t);
    assert Counter(st'.stats[userId], t) == Some(Add32(Counter(st.stats[userId], t).value, 1));
    assert CountOf(st'.rows, userId, t) == CountOf(st.rows, userId, t);
  }

  /** Deleting a triple that is not stored removes nothing but still lowers
      the counter, so a repeated unsave drives the count below the rows. */
  lemma {:induction false} DeleteAbsentBreaksConsistency(st: LedgerState, userId: UserId, challengeId: ChallengeId, t: ConnectionType)
    requires Consistent(st) && userId in st.stats
    requires Pk(userId, challengeId, t) !in Keys(st.rows)
    requires t != Author && t != AwaitingResponse
    ensures !Consistent(DeleteConnection(st, userId, challengeId, t).0)
  {
    var st' := DeleteConnection(st, userId, challengeId, t).0;
    WithoutAbsent(st.rows, Pk(userId, challengeId, t));
    assert Counter(st'.stats[userId], t) == Some(Add32(Counter(st.stats[userId], t).value, -1));
    assert st'.rows == st.rows;
  }

  /** A user with no rows saves a challenge twice: one row, a count of two. */
  lemma RepeatedSaveCountsTwice()
    ensures var st := LedgerState([], map[7 := Stats(0, 0, 0, 0, 0, 0)]);
      var st1 := CreateConnection(st, 7, 1, Saved, 100).0;
      var st2 := CreateConnection(st1, 7, 1, Saved, 200).0;
      |st2.rows| == 1 && st2.stats[7].savedChallengesCount == 2
  {
    var st := LedgerState([], map[7 := Stats(0, 0, 0, 0, 0, 0)]);
    var st1 := CreateConnection(st, 7, 1, Saved, 100).0;
    assert st1.rows == [ConnectionRow(7, 1, Saved, 100)];
    assert KeyOf(ConnectionRow(7, 1, Saved, 200)) in Keys(st1.rows);
  }

  /** A user with one saved challenge unsaves it twice: no rows, a count of
      minus one. */
  lemma RepeatedUnsaveCountsNegative()
    ensures var st := LedgerState([ConnectionRow(7, 1, Saved, 100)], map[7 := Stats(0, 0, 0, 0, 1, 0)]);
      var st1 := DeleteConnection(st, 7, 1, Saved).0;
      var st2 := DeleteConnection(st1, 7, 1, Saved).0;
      st2.rows == [] && st2.stats[7].savedChallengesCount == -1
  {
    var rows := [ConnectionRow(7, 1, Saved, 100)];
    WithoutCount(rows, Pk(7, 1, Saved));
    KeysCons(rows);
    assert Without(rows, Pk(7, 1, Saved)) == [];
  }

  // ---------------------------------------------------------------------
  // The evidently intended service

  /** Create as intended: the row is saved as in the code, and the counter
      moves only when that stored a new row. */
  function CreateConnectionIntended(st: LedgerState, userId: UserId, challengeId: ChallengeId, t: ConnectionType, now: Timestamp)
    : (LedgerState, Result<ConnectionRow>)
  {
    var row := ConnectionRow(userId, challengeId, t, now);
    var rows := Save(st.rows, row);
    if userId !in st.stats then (LedgerState(rows, st.stats), Err(StatsNotFound))
    else if KeyOf(row) in Keys(st.rows) then (LedgerState(rows, st.stats), Ok(row))
    else (LedgerState(rows, st.stats[userId := IncrementedIntended(st.stats[userId], t)]), Ok(row))
  }

  /** Delete as intended: the row is deleted as in the code, and the counter
      moves only when a row was deleted. */
  function DeleteConnectionIntended(st: LedgerState, userId: UserId, challengeId: ChallengeId, t: ConnectionType)
    : (LedgerState, Outcome)
  {
    var (rows, deleted) := DeleteByKey(st.rows, Pk(userId, challengeId, t));
    if userId !in st.stats then (LedgerState(rows, st.stats), Fail(StatsNotFound))
    else if deleted == 0 then (LedgerState(rows, st.stats), Pass)
    else (LedgerState(rows, st.stats[userId := DecrementedIntended(st.stats[userId], t)]), Pass)
  }

  /** The corrected create writes the same rows and reports the same result
      as the code; off AUTHOR, and for a key not yet stored, it is the code. */
  lemma CreateIntendedDiffersOnlyInCount(st: LedgerState, userId: UserId, challengeId: ChallengeId, t: ConnectionType, now: Timestamp)
    ensures CreateConnectionIntended(st, userId, challengeId, t, now).0.rows == CreateConnection(st, userId, challengeId, t, now).0.rows
    ensures CreateConnectionIntended(st, userId, challengeId, t, now).1 == CreateConnection(st, userId, challengeId, t, now).1
    ensures t != Author && Pk(userId, challengeId, t) !in Keys(st.rows) ==>
              CreateConnectionIntended(st, userId, challengeId, t, now) == CreateConnection(st, userId, challengeId, t, now)
  {
    if userId in st.stats {
      IntendedRoundTrip(st.stats[userId], t);
    }
  }

  /** The corrected delete removes the same rows and reports the same
      outcome as the code; off AUTHOR, and for a stored key, it is the
      code. */
  lemma DeleteIntendedDiffersOnlyInCount(st: LedgerState, userId: UserId, challengeId: ChallengeId, t: ConnectionType)
    requires KeysDistinct(st.rows)
    ensures DeleteConnectionIntended(st, userId, challengeId, t).0.rows == DeleteConnection(st, userId, challengeId, t).0.rows
    ensures DeleteConnectionIntended(st, userId, challengeId, t).1 == DeleteConnection(st, userId, challengeId, t).1
    ensures t != Author && Pk(userId, challengeId, t) in Keys(st.rows) ==>
              DeleteConnectionIntended(st, userId, challengeId, t) == DeleteConnection(st, userId, challengeId, t)
  {
    DeleteProperties(st.rows, Pk(userId, challengeId, t));
    if userId in st.stats {
      IntendedRoundTrip(st.stats[userId], t);
    }
  }

  /** The intended create keeps the counters consistent with the rows (as
      long as no counter is at the top of the `int` range). */
  lemma {:induction false} CreateIntendedPreservesConsistency(st: LedgerState, userId: UserId, challengeId: ChallengeId, t: ConnectionType, now: Timestamp)
    requires Consistent(st)
    requires |st.rows| < INT32_MAX
    ensures Consistent(CreateConnectionIntended(st, userId, challengeId, t, now).0)
  {
    var row := ConnectionRow(userId, challengeId, t, now);
    var st' := CreateConnectionIntended(st, userId, challengeId, t, now).0;
    SaveProperties(st.rows, row);
    assert st'.rows == Save(st.rows, row);
    forall u, s | u in st'.stats && Counter(st'.stats[u], s).Some?
      ensures Counter(st'.stats[u], s).value == CountOf(st'.rows, u, s)
    {
      CountAfterSave(st.rows, row, u, s);
      assert CountOf(st'.rows, u, s) <= |st'.rows|;
    }
  }

  /** The intended delete keeps the counters consistent with the rows. */
  lemma {:induction false} DeleteIntendedPreservesConsistency(st: LedgerState, userId: UserId, challengeId: ChallengeId, t: ConnectionType)
    requires Consistent(st)
    ensures Consistent(DeleteConnectionIntended(st, userId, challengeId, t).0)
  {
    var key := Pk(userId, challengeId, t);
    var st' := DeleteConnectionIntended(st, userId, challengeId, t).0;
    WithoutCount(st.rows, key);
    WithoutDistinct(st.rows, key);
    assert st'.rows == Without(st.rows, key);
    forall u, s | u in st'.stats && Counter(st'.stats[u], s).Some?
      ensures Counter(st'.stats[u], s).value == CountOf(st'.rows, u, s)
    {
      CountAfterDelete(st.rows, key, u, s);
    }
  }

  // ---------------------------------------------------------------------
  // The service object

  /** `UserChallengeConnectionServiceImpl`: the connection table as a field
      and the stats service it calls. */
  class UserChallengeConnectionService {
    var rows: seq<ConnectionRow>
    const statsService: UserStatsService

    ghost predicate Valid()
      reads this
    {
      KeysDistinct(rows)
    }

    /** Both tables as one value. */
    function State(): LedgerState
      reads this, statsService
    {
      LedgerState(rows, statsService.records)
    }

    constructor (statsService: UserStatsService)
      ensures rows == [] && this.statsService == statsService && Valid()
    {
      rows := [];
      this.statsService := statsService;
    }

    /** `getChallengesForUserByConnectionType`: a stub returning no
        challenges. */
    method GetChallengesForUserByConnectionType(userId: UserId, t: ConnectionType) returns (r: seq<ChallengeSummary>)
      ensures r == []
    {
      r := [];
    }

    /** `getAuthorForChallenge`: the first AUTHOR row of the challenge names
        the author; no such row throws. */
    method GetAuthorForChallenge(challengeId: ChallengeId) returns (r: Result<UserId>)
      ensures r == AuthorOf(rows, challengeId)
    {
      var found := FindByChallengeAndType(rows, challengeId, Author);
      if found == [] {
        r := Err(NoSuchElement);
      } else {
        r := Ok(found[0].userId);
      }
    }

    /** `createUserChallengeConnection`. */
    method CreateUserChallengeConnection(userId: UserId, challengeId: ChallengeId, t: ConnectionType, now: Timestamp)
      returns (r: Result<ConnectionRow>)
      requires Valid()
      modifies this, statsService
      ensures Valid()
      ensures (State(), r) == CreateConnection(old(State()), userId, challengeId, t, now)
    {
      var entity := new UserChallengeConnection(userId, challengeId, t, Some(now));
      entity.PrePersist(now);
      var row := ConnectionRow(entity.userId, entity.challengeId, entity.connectionType, entity.timestamp.value);
      SaveProperties(rows, row);
      rows := Save(rows, row);
      var outcome := statsService.IncrementCounter(userId, t);
      if outcome.Fail? {
        return Err(outcome.error);
      }
      r := Ok(row);
    }

    /** `deleteUserChallengeConnection`. */
    method DeleteUserChallengeConnection(userId: UserId, challengeId: ChallengeId, t: ConnectionType)
      returns (outcome: Outcome)
      requires Valid()
      modifies this, statsService
      ensures Valid()
      ensures (State(), outcome) == DeleteConnection(old(State()), userId, challengeId, t)
    {
      var key := Pk(userId, challengeId, t);
      DeleteProperties(rows, key);
      var deleted := DeleteByKey(rows, key);
      rows := deleted.0;
      outcome := statsService.DecrementCounter(userId, t);
    }
  }
}
