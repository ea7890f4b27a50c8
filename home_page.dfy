/** The home page list: the challenges matching the selected category,
    difficulty and search, sorted by the chosen order. */
module HomePage {
  import opened Base
  import opened Lists
  import opened Sorting
  import opened MockData

  /** The three orders of the sort select. */
  datatype HomeSort = Newest | Popular | MostPoints

  /** The filter callback of `filteredChallenges`. */
  predicate Matches(c: MockChallenge, category: Option<string>, difficulty: Option<string>, query: string) {
    (!Truthy(category) || c.category == category.value)
    && (!Truthy(difficulty) || c.difficulty == difficulty.value)
    && (query == "" || SearchHit(c, query))
  }

  /** `filteredChallenges`. */
  function FilteredChallenges(challenges: seq<MockChallenge>, category: Option<string>,
                              difficulty: Option<string>, query: string): seq<MockChallenge> {
    Filter(challenges, (c: MockChallenge) => Matches(c, category, difficulty, query))
  }

  /** The value each order compares, largest first. */
  function SortValue(c: MockChallenge, sortBy: HomeSort): int {
    match sortBy
    case Newest => c.createdAt
    case Popular => c.likesCount
    case MostPoints => c.points
  }

  function SortKeyFor(sortBy: HomeSort): MockChallenge -> int {
    (c: MockChallenge) => SortValue(c, sortBy)
  }

  /** `sortedChallenges`: a sorted copy, descending in every order. */
  function SortedChallenges(filtered: seq<MockChallenge>, sortBy: HomeSort): seq<MockChallenge> {
    SortBy(filtered, SortKeyFor(sortBy), Desc)
  }

  /** A challenge is listed iff it is a mock challenge matching every set
      filter. */
  lemma ListedIffMatches(challenges: seq<MockChallenge>, category: Option<string>, difficulty: Option<string>,
                         query: string, sortBy: HomeSort, c: MockChallenge)
    ensures c in SortedChallenges(FilteredChallenges(challenges, category, difficulty, query), sortBy) <==>
              c in challenges && Matches(c, category, difficulty, query)
  {
    var filtered := FilteredChallenges(challenges, category, difficulty, query);
    FilterMembership(challenges, (c: MockChallenge) => Matches(c, category, difficulty, query), c);
    SortByCorrect(filtered, SortKeyFor(sortBy), Desc);
    assert c in filtered <==> c in multiset(filtered);
  }

  /** The sorted list is a permutation of the filtered one, in
      non-increasing order of the chosen value. */
  lemma SortedIsOrderedPermutation(filtered: seq<MockChallenge>, sortBy: HomeSort)
    ensures multiset(SortedChallenges(filtered, sortBy)) == multiset(filtered)
    ensures var r := SortedChallenges(filtered, sortBy);
            forall i, j :: 0 <= i < j < |r| ==> SortValue(r[i], sortBy) >= SortValue(r[j], sortBy)
  {
    SortByCorrect(filtered, SortKeyFor(sortBy), Desc);
  }

  /** With no filter set, every challenge is listed in its order. */
  lemma NoFiltersKeepAll(challenges: seq<MockChallenge>)
    ensures FilteredChallenges(challenges, None, None, "") == challenges
  {
    FilterKeepsAll(challenges, (c: MockChallenge) => Matches(c, None, None, ""));
  }
}
