/** The challenge picker of the chat window: the search, category, status
    and sort stages of `getFilteredChallenges`, applied in that order to the
    mock challenges. */
module ChatWindow {
  import opened Base
  import opened Lists
  import opened Sorting
  import opened MockData
  import opened Filters

  /** The signed-in user as the picker reads it. */
  datatype ChatUser = ChatUser(
    id: string,
    completedChallenges: seq<string>,
    activeChallenges: seq<string>,
    favoritesChallenges: Option<seq<string>>)

  /** The status select. */
  datatype ChallengeStatus = All | Completed | Active | Created | Available

  /** Search stage: applied only to a non-empty query. */
  predicate SearchKeeps(c: MockChallenge, query: string) {
    query == "" || SearchHit(c, query)
  }

  /** `currentUser?.favoritesChallenges?.includes(id) || false`. */
  predicate IsFavorite(user: Option<ChatUser>, id: string) {
    user.Some? && user.value.favoritesChallenges.Some? && id in user.value.favoritesChallenges.value
  }

  /** Category stage: nothing is filtered while 'All Categories' is
      selected; with 'Favorites' selected a challenge stays if it is a
      favourite or its category is another selected entry; otherwise its
      category must be selected. */
  predicate CategoryKeeps(c: MockChallenge, selected: seq<string>, user: Option<ChatUser>) {
    if "All Categories" in selected then true
    else if "Favorites" in selected then
      IsFavorite(user, c.id) || exists i :: 0 <= i < |selected| && selected[i] != "Favorites" && selected[i] == c.category
    else c.category in selected
  }

  /** Status stage for a signed-in user. */
  predicate StatusMatches(c: MockChallenge, status: ChallengeStatus, u: ChatUser) {
    match status
    case All => true
    case Completed => c.id in u.completedChallenges
    case Active => c.id in u.activeChallenges
    case Created => c.creatorId == u.id
    case Available => c.id !in u.completedChallenges && c.id !in u.activeChallenges && c.creatorId != u.id
  }

  /** Status stage: applied only with a user and a status other than 'all'. */
  predicate StatusKeeps(c: MockChallenge, status: ChallengeStatus, user: Option<ChatUser>) {
    user.None? || status == All || StatusMatches(c, status, user.value)
  }

  /** What all three filter stages together keep. */
  predicate Kept(c: MockChallenge, query: string, selected: seq<string>, status: ChallengeStatus, user: Option<ChatUser>) {
    SearchKeeps(c, query) && CategoryKeeps(c, selected, user) && StatusKeeps(c, status, user)
  }

  /** The sort value of a challenge for a sort field; a missing completion
      count is 0, and an unknown field gives every challenge the same
      value. */
  function SortValue(c: MockChallenge, field: string): int {
    match field
    case "points" => c.points
    case "likes" => c.likesCount
    case "completions" => c.completionsCount.GetOr(0)
    case _ => 0
  }

  function SortKeyFor(field: string): MockChallenge -> int {
    (c: MockChallenge) => SortValue(c, field)
  }

  function SearchStage(cs: seq<MockChallenge>, query: string): seq<MockChallenge> {
    if query == "" then cs else Filter(cs, (c: MockChallenge) => SearchHit(c, query))
  }

  function CategoryStage(cs: seq<MockChallenge>, selected: seq<string>, user: Option<ChatUser>): seq<MockChallenge> {
    if "All Categories" in selected then cs else Filter(cs, (c: MockChallenge) => CategoryKeeps(c, selected, user))
  }

  function StatusStage(cs: seq<MockChallenge>, status: ChallengeStatus, user: Option<ChatUser>): seq<MockChallenge> {
    if user.Some? && status != All then Filter(cs, (c: MockChallenge) => StatusMatches(c, status, user.value)) else cs
  }

  /** The sort stage works on a copy: a value here, so the input list is
      never reordered. */
  function SortStage(cs: seq<MockChallenge>, config: SortConfig): seq<MockChallenge> {
    if config.field == "none" then cs else SortBy(cs, SortKeyFor(config.field), config.direction)
  }

  /** `getFilteredChallenges`. */
  function FilteredChallenges(challenges: seq<MockChallenge>, query: string, selected: seq<string>,
                              status: ChallengeStatus, user: Option<ChatUser>, config: SortConfig): (r: seq<MockChallenge>)
    ensures |r| <= |challenges|
  {
    var filtered := StatusStage(CategoryStage(SearchStage(challenges, query), selected, user), status, user);
    SortByCorrect(filtered, SortKeyFor(config.field), config.direction);
    SortStage(filtered, config)
  }

  /** A stage that applies only under a condition is a filter by "the
      condition fails or the test holds". */
  lemma {:induction false} GuardedFilter(cs: seq<MockChallenge>, apply: bool, test: MockChallenge -> bool, keep: MockChallenge -> bool)
    requires forall c :: keep(c) == (!apply || test(c))
    ensures (if apply then Filter(cs, test) else cs) == Filter(cs, keep)
  {
    if apply {
      FilterCongruent(cs, test, keep);
    } else {
      FilterKeepsAll(cs, keep);
    }
  }

  /** The three filter stages are one filter by `Kept`. */
  lemma FilterStagesAreOneFilter(challenges: seq<MockChallenge>, query: string, selected: seq<string>,
                                 status: ChallengeStatus, user: Option<ChatUser>)
    ensures StatusStage(CategoryStage(SearchStage(challenges, query), selected, user), status, user)
            == Filter(challenges, (c: MockChallenge) => Kept(c, query, selected, status, user))
  {
    var ks := (c: MockChallenge) => SearchKeeps(c, query);
    var kc := (c: MockChallenge) => CategoryKeeps(c, selected, user);
    var kt := (c: MockChallenge) => StatusKeeps(c, status, user);
    var ksc := (c: MockChallenge) => SearchKeeps(c, query) && CategoryKeeps(c, selected, user);
    var all := (c: MockChallenge) => Kept(c, query, selected, status, user);
    GuardedFilter(challenges, query != "", (c: MockChallenge) => SearchHit(c, query), ks);
    var s1 := SearchStage(challenges, query);
    GuardedFilter(s1, !("All Categories" in selected), (c: MockChallenge) => CategoryKeeps(c, selected, user), kc);
    var s2 := CategoryStage(s1, selected, user);
    FilterFilter(challenges, ks, kc, ksc);
    if user.Some? {
      GuardedFilter(s2, status != All, (c: MockChallenge) => StatusMatches(c, status, user.value), kt);
    } else {
      FilterKeepsAll(s2, kt);
    }
    FilterFilter(challenges, ksc, kt, all);
  }

  /** A challenge is in the result iff it is a mock challenge that passes
      the search, category and status stages. */
  lemma FilteredMembership(challenges: seq<MockChallenge>, query: string, selected: seq<string>,
                           status: ChallengeStatus, user: Option<ChatUser>, config: SortConfig, c: MockChallenge)
    ensures c in FilteredChallenges(challenges, query, selected, status, user, config) <==>
              c in challenges && Kept(c, query, selected, status, user)
  {
    FilterStagesAreOneFilter(challenges, query, selected, status, user);
    var all := (c: MockChallenge) => Kept(c, query, selected, status, user);
    FilterMembership(challenges, all, c);
    var filtered := Filter(challenges, all);
    if config.field != "none" {
      SortByCorrect(filtered, SortKeyFor(config.field), config.direction);
      assert c in filtered <==> c in multiset(filtered);
    }
  }

  /** The result holds each mock challenge at most as often as the mock
      list does; without a sort field it keeps their order. */
  lemma FilteredIsSelection(challenges: seq<MockChallenge>, query: string, selected: seq<string>,
                            status: ChallengeStatus, user: Option<ChatUser>, config: SortConfig)
    ensures multiset(FilteredChallenges(challenges, query, selected, status, user, config)) <= multiset(challenges)
    ensures config.field == "none" ==> IsSubsequence(FilteredChallenges(challenges, query, selected, status, user, config), challenges)
  {
    FilterStagesAreOneFilter(challenges, query, selected, status, user);
    var all := (c: MockChallenge) => Kept(c, query, selected, status, user);
    var filtered := Filter(challenges, all);
    FilterSubMultiset(challenges, all);
    FilterIsSubsequence(challenges, all);
    if config.field != "none" {
      SortByCorrect(filtered, SortKeyFor(config.field), config.direction);
    }
  }

  /** With a sort field the result is the filtered list, reordered by that
      field's value in the chosen direction. */
  lemma FilteredSorted(challenges: seq<MockChallenge>, query: string, selected: seq<string>,
                       status: ChallengeStatus, user: Option<ChatUser>, config: SortConfig)
    requires config.field != "none"
    ensures var r := FilteredChallenges(challenges, query, selected, status, user, config);
            forall i, j :: 0 <= i < j < |r| ==> InOrder(SortValue(r[i], config.field), SortValue(r[j], config.field), config.direction)
    ensures multiset(FilteredChallenges(challenges, query, selected, status, user, config))
            == multiset(StatusStage(CategoryStage(SearchStage(challenges, query), selected, user), status, user))
  {
    var filtered := StatusStage(CategoryStage(SearchStage(challenges, query), selected, user), status, user);
    SortByCorrect(filtered, SortKeyFor(config.field), config.direction);
  }
}
