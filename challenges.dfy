/** The challenge service: lookup by id, the filtered and sorted listing with
    author resolution through the ledger, creation with an AUTHOR connection,
    save/unsave as SAVED connections, and the lifecycle stubs. */
module Challenges {
  import opened Base
  import opened ConnectionEntity
  import opened Ledger
  import opened UserModel
  import opened ChallengeModel
  import opened ConnectionService
  import opened Users
  import Lists
  import Sorting

  /** The listing's sort choices; each sorts descending. */
  datatype SortType = Likes | Submissions | Points

  /** The listing query; an absent field imposes nothing. */
  datatype ChallengeQuery = ChallengeQuery(
    connectionType: Option<ConnectionType>,
    difficulty: Option<string>,
    category: Option<string>,
    sortType: Option<SortType>)

  const ChallengeNotFound: Failure := IllegalArgument("Challenge not found")
  const AuthorNotFound: Failure := EntityNotFound("User not found")

  /** `getChallengeById`: the stored challenge with that id, or
      IllegalArgumentException. */
  function ChallengeById(challenges: seq<Challenge>, id: ChallengeId): (r: Result<Challenge>)
    ensures r.Err? <==> forall c :: c in challenges ==> c.id != id
    ensures r.Err? ==> r.error == ChallengeNotFound
    ensures r.Ok? ==> r.value in challenges && r.value.id == id
  {
    if challenges == [] then Err(ChallengeNotFound)
    else if challenges[0].id == id then Ok(challenges[0])
    else ChallengeById(challenges[1..], id)
  }

  /** `getAuthorForChallenge` followed by the lazy load of the author's row:
      no AUTHOR row throws NoSuchElementException, an author without a user
      row throws EntityNotFoundException. */
  function ResolveAuthor(rows: seq<ConnectionRow>, users: map<UserId, User>, challengeId: ChallengeId): (r: Result<User>)
    ensures AuthorOf(rows, challengeId).Err? ==> r == Err(NoSuchElement)
    ensures AuthorOf(rows, challengeId).Ok? && AuthorOf(rows, challengeId).value !in users ==> r == Err(AuthorNotFound)
    ensures r.Ok? <==> AuthorOf(rows, challengeId).Ok? && AuthorOf(rows, challengeId).value in users
    ensures r.Ok? ==> r.value == users[AuthorOf(rows, challengeId).value]
  {
    match AuthorOf(rows, challengeId)
    case Err(e) => Err(e)
    case Ok(authorId) => if authorId in users then Ok(users[authorId]) else Err(AuthorNotFound)
  }

  /** `toChallengeSummaryDTO`. */
  function SummaryOf(rows: seq<ConnectionRow>, users: map<UserId, User>, c: Challenge): (r: Result<ChallengeSummary>)
    ensures r.Ok? <==> ResolveAuthor(rows, users, c.id).Ok?
    ensures r.Err? ==> r.error == ResolveAuthor(rows, users, c.id).error
    ensures r.Ok? ==> r.value.id == c.id && r.value.authorUsername == ResolveAuthor(rows, users, c.id).value.username
    ensures r.Ok? ==> r.value.points == c.points && r.value.likesCount == c.likesCount && r.value.submissionsCount == c.submissionsCount
  {
    match ResolveAuthor(rows, users, c.id)
    case Err(e) => Err(e)
    case Ok(author) => Ok(ToSummary(c, author.username))
  }

  /** The stream `map` to summaries: the summary of every challenge, in
      order, or the failure of the first challenge whose author cannot be
      resolved. */
  function MapSummaries(rows: seq<ConnectionRow>, users: map<UserId, User>, cs: seq<Challenge>): (r: Result<seq<ChallengeSummary>>)
    ensures r.Ok? ==> |r.value| == |cs|
  {
    if cs == [] then Ok([])
    else
      match SummaryOf(rows, users, cs[0])
      case Err(e) => Err(e)
      case Ok(s) =>
        match MapSummaries(rows, users, cs[1..])
        case Err(e) => Err(e)
        case Ok(ss) => Ok([s] + ss)
  }

  /** The mapping succeeds exactly when every element's summary does, and
      then holds those summaries in order. */
  lemma {:induction false} MapSummariesOk(rows: seq<ConnectionRow>, users: map<UserId, User>, cs: seq<Challenge>)
    ensures var r := MapSummaries(rows, users, cs);
            && (r.Ok? <==> forall i :: 0 <= i < |cs| ==> SummaryOf(rows, users, cs[i]).Ok?)
            && (r.Ok? ==> forall i :: 0 <= i < |cs| ==> r.value[i] == SummaryOf(rows, users, cs[i]).value)
  {
    if cs != [] {
      MapSummariesOk(rows, users, cs[1..]);
      assert forall i :: 0 < i < |cs| ==> cs[1..][i - 1] == cs[i];
    }
  }

  /** A failed mapping throws the failure of the first element whose
      summary fails. */
  lemma {:induction false} MapSummariesFirstFailure(rows: seq<ConnectionRow>, users: map<UserId, User>, cs: seq<Challenge>)
    requires MapSummaries(rows, users, cs).Err?
    ensures exists i :: 0 <= i < |cs| && SummaryOf(rows, users, cs[i]) == Err(MapSummaries(rows, users, cs).error) &&
                        forall j :: 0 <= j < i ==> SummaryOf(rows, users, cs[j]).Ok?
  {
    if SummaryOf(rows, users, cs[0]).Ok? {
      var tail := cs[1..];
      MapSummariesFirstFailure(rows, users, tail);
      var i :| 0 <= i < |tail| && SummaryOf(rows, users, tail[i]) == Err(MapSummaries(rows, users, tail).error) &&
               forall j :: 0 <= j < i ==> SummaryOf(rows, users, tail[j]).Ok?;
      assert cs[i + 1] == tail[i];
      forall j | 0 <= j < i + 1
        ensures SummaryOf(rows, users, cs[j]).Ok?
      {
        if j > 0 { assert cs[j] == tail[j - 1]; }
      }
    }
  }

  /** The specification the query builds: equality on each given field. */
  predicate Matches(c: Challenge, q: ChallengeQuery) {
    (q.category.None? || c.category == q.category.value) &&
    (q.difficulty.None? || c.difficulty == q.difficulty.value)
  }

  /** The field each sort choice orders by. */
  function SortKey(st: SortType): Challenge -> int {
    match st
    case Likes => (c: Challenge) => c.likesCount as int
    case Submissions => (c: Challenge) => c.submissionsCount as int
    case Points => (c: Challenge) => c.points as int
  }

  /** `findAll(spec, sort)`: the matching challenges in table order, sorted
      descending by the chosen field when there is one. */
  function FindAll(challenges: seq<Challenge>, q: ChallengeQuery): seq<Challenge> {
    var kept := Lists.Filter(challenges, (c: Challenge) => Matches(c, q));
    if q.sortType.None? then kept else Sorting.SortBy(kept, SortKey(q.sortType.value), Sorting.Desc)
  }

  /** `listChallenges`. The query's connection type and the caller's id are
      accepted and not used. */
  function ListChallenges(challenges: seq<Challenge>, rows: seq<ConnectionRow>, users: map<UserId, User>,
                          q: ChallengeQuery, userId: UserId): Result<seq<ChallengeSummary>>
  {
    MapSummaries(rows, users, FindAll(challenges, q))
  }

  /** `viewChallenge`: the challenge, then its author; the author's id is the
      key of the author's row. */
  function ViewChallenge(challenges: seq<Challenge>, rows: seq<ConnectionRow>, users: map<UserId, User>, id: ChallengeId)
    : (r: Result<ChallengeDetails>)
    ensures ChallengeById(challenges, id).Err? ==> r == Err(ChallengeNotFound)
    ensures ChallengeById(challenges, id).Ok? ==> (r.Ok? <==> ResolveAuthor(rows, users, id).Ok?)
    ensures r.Ok? ==> r.value.id == id && r.value.authorId == AuthorOf(rows, id).value
                      && r.value.authorUsername == users[AuthorOf(rows, id).value].username
  {
    match ChallengeById(challenges, id)
    case Err(e) => Err(e)
    case Ok(c) =>
      match ResolveAuthor(rows, users, id)
      case Err(e) => Err(e)
      case Ok(author) => Ok(ToDetails(c, AuthorOf(rows, id).value, author.username))
  }

  // ---------------------------------------------------------------------
  // The listing's properties

  /** Soundness and completeness of the filter: a challenge is listed iff it
      is stored and matches every given field. */
  lemma FindAllExactlyMatching(challenges: seq<Challenge>, q: ChallengeQuery, c: Challenge)
    ensures c in FindAll(challenges, q) <==> c in challenges && Matches(c, q)
  {
    var p := (x: Challenge) => Matches(x, q);
    var kept := Lists.Filter(challenges, p);
    Lists.FilterMembership(challenges, p, c);
    if q.sortType.Some? {
      Sorting.SortByCorrect(kept, SortKey(q.sortType.value), Sorting.Desc);
      assert c in FindAll(challenges, q) <==> c in multiset(FindAll(challenges, q));
      assert c in kept <==> c in multiset(kept);
    }
  }

  /** The listing is a rearrangement of the matching challenges: nothing is
      lost or duplicated. */
  lemma FindAllPermutesMatches(challenges: seq<Challenge>, q: ChallengeQuery)
    ensures multiset(FindAll(challenges, q)) == multiset(Lists.Filter(challenges, (c: Challenge) => Matches(c, q)))
    ensures multiset(FindAll(challenges, q)) <= multiset(challenges)
  {
    var p := (c: Challenge) => Matches(c, q);
    Lists.FilterSubMultiset(challenges, p);
    if q.sortType.Some? {
      Sorting.SortByCorrect(Lists.Filter(challenges, p), SortKey(q.sortType.value), Sorting.Desc);
    }
  }

  /** Without a sort the table order is kept; with one the listing is
      non-increasing in the chosen field. */
  lemma FindAllOrder(challenges: seq<Challenge>, q: ChallengeQuery)
    ensures q.sortType.None? ==> Lists.IsSubsequence(FindAll(challenges, q), challenges)
    ensures q.sortType.Some? ==>
              forall i, j :: 0 <= i < j < |FindAll(challenges, q)| ==>
                SortKey(q.sortType.value)(FindAll(challenges, q)[i]) >= SortKey(q.sortType.value)(FindAll(challenges, q)[j])
  {
    var p := (c: Challenge) => Matches(c, q);
    if q.sortType.None? {
      Lists.FilterIsSubsequence(challenges, p);
    } else {
      Sorting.SortByCorrect(Lists.Filter(challenges, p), SortKey(q.sortType.value), Sorting.Desc);
    }
  }

  /** The query's connection type and the caller's id do not change the
      listing. */
  lemma ListIgnoresConnectionTypeAndCaller(challenges: seq<Challenge>, rows: seq<ConnectionRow>, users: map<UserId, User>,
                                           q: ChallengeQuery, userId: UserId, t: Option<ConnectionType>, otherUser: UserId)
    ensures ListChallenges(challenges, rows, users, q, userId) ==
            ListChallenges(challenges, rows, users, q.(connectionType := t), otherUser)
  {
    var q' := q.(connectionType := t);
    Lists.FilterCongruent(challenges, (c: Challenge) => Matches(c, q), (c: Challenge) => Matches(c, q'));
    assert FindAll(challenges, q) == FindAll(challenges, q');
  }

  /** Each listed summary is the summary of the challenge in that place, and
      carries the username of the challenge's first AUTHOR row; the listing
      fails exactly when some listed challenge has no resolvable author. */
  lemma ListChallengesCarriesAuthors(challenges: seq<Challenge>, rows: seq<ConnectionRow>, users: map<UserId, User>,
                                     q: ChallengeQuery, userId: UserId)
    ensures var r := ListChallenges(challenges, rows, users, q, userId);
            var cs := FindAll(challenges, q);
            && (r.Ok? <==> forall i :: 0 <= i < |cs| ==> AuthorOf(rows, cs[i].id).Ok? && AuthorOf(rows, cs[i].id).value in users)
            && (r.Ok? ==> |r.value| == |cs|)
            && (r.Ok? ==> forall i :: 0 <= i < |cs| ==>
                  r.value[i].id == cs[i].id &&
                  r.value[i].authorUsername == users[AuthorOf(rows, cs[i].id).value].username)
  {
    MapSummariesOk(rows, users, FindAll(challenges, q));
  }

  // ---------------------------------------------------------------------
  // Creation

  /** The largest challenge id in the table. */
  function MaxChallengeId(challenges: seq<Challenge>): (m: nat)
    ensures forall c :: c in challenges ==> c.id <= m
  {
    if challenges == [] then 0
    else
      var m := MaxChallengeId(challenges[1..]);
      if challenges[0].id > m then challenges[0].id else m
  }

  /** The largest challenge id any connection row refers to. */
  function MaxReferencedId(rows: seq<ConnectionRow>): (m: nat)
    ensures forall row :: row in rows ==> row.challengeId <= m
  {
    if rows == [] then 0
    else
      var m := MaxReferencedId(rows[1..]);
      if rows[0].challengeId > m then rows[0].challengeId else m
  }

  /** The generated id of a new challenge: used by no stored challenge and no
      connection row. */
  function FreshChallengeId(challenges: seq<Challenge>, rows: seq<ConnectionRow>): (id: ChallengeId)
    ensures forall c :: c in challenges ==> c.id != id
    ensures forall row :: row in rows ==> row.challengeId != id
  {
    MaxChallengeId(challenges) + MaxReferencedId(rows) + 1
  }

  /** Once the AUTHOR row of a challenge nobody referred to has been saved,
      the ledger names its user as the author. */
  lemma {:induction false} AuthorAfterCreate(rows: seq<ConnectionRow>, authorId: UserId, challengeId: ChallengeId, now: Timestamp)
    requires forall row :: row in rows ==> row.challengeId != challengeId
    ensures AuthorOf(Save(rows, ConnectionRow(authorId, challengeId, Author, now)), challengeId) == Ok(authorId)
  {
    var row := ConnectionRow(authorId, challengeId, Author, now);
    var p := (r: ConnectionRow) => r.challengeId == challengeId && r.connectionType == Author;
    KeysAppend(rows, row);
    assert KeyOf(row) !in Keys(rows);
    assert Save(rows, row) == rows + [row];
    Lists.FilterAppend(rows, [row], p);
    var before := Lists.Filter(rows, p);
    if before != [] {
      Lists.FilterMembership(rows, p, before[0]);
      assert false;
    }
    assert [row][1..] == [];
    assert Lists.Filter([row], p) == [row];
    assert FindByChallengeAndType(rows + [row], challengeId, Author) == [row];
  }

  /** Viewing a challenge right after creating it reports the creator as its
      author, when the creator has a stats record and a user row. */
  lemma CreateThenView(challenges: seq<Challenge>, st: LedgerState, users: map<UserId, User>,
                       req: CreateChallengeRequest, authorId: UserId, now: Timestamp)
    requires authorId in users
    ensures var id := FreshChallengeId(challenges, st.rows);
            var c := NewChallenge(req, id, now);
            var st' := CreateConnection(st, authorId, id, Author, now).0;
            ViewChallenge(challenges + [c], st'.rows, users, id) == Ok(ToDetails(c, authorId, users[authorId].username))
  {
    var id := FreshChallengeId(challenges, st.rows);
    var c := NewChallenge(req, id, now);
    AuthorAfterCreate(st.rows, authorId, id, now);
    assert ChallengeById(challenges + [c], id) == Ok(c) by {
      assert c in challenges + [c];
      forall x | x in challenges + [c] && x.id == id ensures x == c {
        if x in challenges { assert false; }
      }
    }
  }

  // ---------------------------------------------------------------------
  // The service object

  /** `Pass` for a returned value, the failure otherwise. */
  function OutcomeOf<T>(r: Result<T>): (o: Outcome)
    ensures o.Pass? <==> r.Ok?
    ensures o.Fail? ==> o.error == r.error
  {
    if r.Ok? then Pass else Fail(r.error)
  }

  /** `ChallengeServiceImpl`: the challenge table as a field, the connection
      service and the user service it calls. */
  class ChallengeService {
    var challenges: seq<Challenge>
    const connService: UserChallengeConnectionService
    const userService: UserService

    ghost predicate Valid()
      reads this, connService
    {
      connService.Valid()
    }

    constructor (connService: UserChallengeConnectionService, userService: UserService)
      requires connService.Valid()
      ensures challenges == [] && this.connService == connService && this.userService == userService
      ensures Valid()
    {
      challenges := [];
      this.connService := connService;
      this.userService := userService;
    }

    /** `getChallengeById`. */
    method GetChallengeById(id: ChallengeId) returns (r: Result<Challenge>)
      ensures r == ChallengeById(challenges, id)
    {
      var i := 0;
      while i < |challenges|
        invariant 0 <= i <= |challenges|
        invariant ChallengeById(challenges[i..], id) == ChallengeById(challenges, id)
      {
        if challenges[i].id == id {
          return Ok(challenges[i]);
        }
        assert challenges[i..][1..] == challenges[i + 1..];
        i := i + 1;
      }
      r := Err(ChallengeNotFound);
    }

    /** `listChallenges` over the current tables. */
    method List(q: ChallengeQuery, userId: UserId) returns (r: Result<seq<ChallengeSummary>>)
      ensures r == ListChallenges(challenges, connService.rows, userService.users, q, userId)
    {
      r := ListChallenges(challenges, connService.rows, userService.users, q, userId);
    }

    /** `viewChallenge` over the current tables. */
    method View(id: ChallengeId) returns (r: Result<ChallengeDetails>)
      ensures r == ViewChallenge(challenges, connService.rows, userService.users, id)
    {
      r := ViewChallenge(challenges, connService.rows, userService.users, id);
    }

    /** `createChallenge`: the new challenge is stored first, then the AUTHOR
        connection is created, then the author's row is looked up. A failure
        in either later step leaves what was already written. */
    method CreateChallenge(req: CreateChallengeRequest, authorId: UserId, now: Timestamp) returns (r: Result<ChallengeDetails>)
      requires Valid()
      modifies this, connService, connService.statsService
      ensures Valid()
      ensures var id := FreshChallengeId(old(challenges), old(connService.rows));
              var c := NewChallenge(req, id, now);
              && challenges == old(challenges) + [c]
              && connService.State() == CreateConnection(old(connService.State()), authorId, id, Author, now).0
              && (authorId !in old(connService.statsService.records) ==> r == Err(StatsNotFound))
              && (authorId in old(connService.statsService.records) && authorId !in userService.users ==> r == Err(AuthorNotFound))
              && (authorId in old(connService.statsService.records) && authorId in userService.users ==>
                    r == Ok(ToDetails(c, authorId, userService.users[authorId].username)))
    {
      var id := FreshChallengeId(challenges, connService.rows);
      var saved := NewChallenge(req, id, now);
      challenges := challenges + [saved];
      var conn := connService.CreateUserChallengeConnection(authorId, id, Author, now);
      if conn.Err? {
        return Err(conn.error);
      }
      if authorId !in userService.users {
        return Err(AuthorNotFound);
      }
      var user := userService.users[authorId];
      r := Ok(ToDetails(saved, authorId, user.username));
    }

    /** `saveChallenge`: exactly the creation of the SAVED connection. */
    method SaveChallenge(challengeId: ChallengeId, userId: UserId, now: Timestamp) returns (outcome: Outcome)
      requires Valid()
      modifies connService, connService.statsService
      ensures Valid()
      ensures connService.State() == CreateConnection(old(connService.State()), userId, challengeId, Saved, now).0
      ensures outcome == OutcomeOf(CreateConnection(old(connService.State()), userId, challengeId, Saved, now).1)
    {
      var r := connService.CreateUserChallengeConnection(userId, challengeId, Saved, now);
      outcome := OutcomeOf(r);
    }

    /** `unsaveChallenge`: exactly the deletion of the SAVED connection. */
    method UnsaveChallenge(challengeId: ChallengeId, userId: UserId) returns (outcome: Outcome)
      requires Valid()
      modifies connService, connService.statsService
      ensures Valid()
      ensures (connService.State(), outcome) == DeleteConnection(old(connService.State()), userId, challengeId, Saved)
    {
      outcome := connService.DeleteUserChallengeConnection(userId, challengeId, Saved);
    }
  }
}
