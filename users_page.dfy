/** The users page list: every user but the signed-in one, narrowed by the
    search in 'all' mode, optionally sorted. */
module UsersPage {
  import opened Base
  import opened JsText
  import opened Lists
  import opened Sorting
  import opened MockData
  import opened Filters

  /** A listed user. */
  datatype PageUser = PageUser(
    id: string,
    username: string,
    fullName: Option<string>,
    points: int,
    completedChallenges: seq<string>)

  /** The filter select. */
  datatype UserFilterType = AllUsers | Friends

  /** The filter callback. `currentUser` is the signed-in user's id. */
  predicate UserKeeps(u: PageUser, currentUser: Option<string>, filterType: UserFilterType, query: string) {
    if currentUser == Some(u.id) then false
    else if filterType == Friends then true
    else if query != "" then
      IncludesIgnoringCase(u.username, query) || (Truthy(u.fullName) && IncludesIgnoringCase(u.fullName.value, query))
    else true
  }

  /** The value a sort field compares; any other field compares equal. */
  function UserSortValue(u: PageUser, field: string): int {
    match field
    case "points" => u.points
    case "completedChallenges" => |u.completedChallenges|
    case _ => 0
  }

  function UserSortKey(field: string): PageUser -> int {
    (u: PageUser) => UserSortValue(u, field)
  }

  function FilteredUsers(users: seq<PageUser>, currentUser: Option<string>, filterType: UserFilterType,
                         query: string): seq<PageUser> {
    Filter(users, (u: PageUser) => UserKeeps(u, currentUser, filterType, query))
  }

  /** `sortedUsers`: nothing while loading; otherwise the filtered users,
      as they are for the 'none' field and sorted on a copy for the
      others. */
  function SortedUsers(isLoading: bool, users: seq<PageUser>, currentUser: Option<string>,
                       filterType: UserFilterType, query: string, config: SortConfig): (r: seq<PageUser>)
    ensures isLoading ==> r == []
    ensures |r| <= |users|
  {
    if isLoading then []
    else
      var filtered := FilteredUsers(users, currentUser, filterType, query);
      if config.field == "none" then filtered
      else
        SortByCorrect(filtered, UserSortKey(config.field), config.direction);
        SortBy(filtered, UserSortKey(config.field), config.direction)
  }

  /** Once loaded, a user is listed iff it is loaded, is not the signed-in
      user, and in 'all' mode matches a non-empty query on username or
      full name; in 'friends' mode the query is ignored. */
  lemma ListedIff(users: seq<PageUser>, currentUser: Option<string>, filterType: UserFilterType,
                  query: string, config: SortConfig, u: PageUser)
    ensures u in SortedUsers(false, users, currentUser, filterType, query, config) <==>
              u in users && currentUser != Some(u.id)
              && (filterType == Friends || query == "" || IncludesIgnoringCase(u.username, query)
                  || (Truthy(u.fullName) && IncludesIgnoringCase(u.fullName.value, query)))
  {
    var filtered := FilteredUsers(users, currentUser, filterType, query);
    FilterMembership(users, (u: PageUser) => UserKeeps(u, currentUser, filterType, query), u);
    if config.field != "none" {
      SortByCorrect(filtered, UserSortKey(config.field), config.direction);
      assert u in filtered <==> u in multiset(filtered);
    }
  }

  /** The signed-in user is never listed. */
  lemma CurrentUserNeverListed(isLoading: bool, users: seq<PageUser>, me: PageUser,
                               filterType: UserFilterType, query: string, config: SortConfig)
    ensures me !in SortedUsers(isLoading, users, Some(me.id), filterType, query, config)
  {
    if !isLoading {
      ListedIff(users, Some(me.id), filterType, query, config, me);
    }
  }

  /** The 'none' field lists the filtered users in their loaded order. */
  lemma NoSortKeepsOrder(users: seq<PageUser>, currentUser: Option<string>, filterType: UserFilterType,
                         query: string, config: SortConfig)
    requires config.field == "none"
    ensures IsSubsequence(SortedUsers(false, users, currentUser, filterType, query, config), users)
  {
    FilterIsSubsequence(users, (u: PageUser) => UserKeeps(u, currentUser, filterType, query));
  }

  /** Any other field gives a permutation of the filtered users, ordered by
      that field in the chosen direction. */
  lemma SortedIsOrderedPermutation(users: seq<PageUser>, currentUser: Option<string>, filterType: UserFilterType,
                                   query: string, config: SortConfig)
    requires config.field != "none"
    ensures var r := SortedUsers(false, users, currentUser, filterType, query, config);
            multiset(r) == multiset(FilteredUsers(users, currentUser, filterType, query))
            && forall i, j :: 0 <= i < j < |r| ==>
                 InOrder(UserSortValue(r[i], config.field), UserSortValue(r[j], config.field), config.direction)
  {
    SortByCorrect(FilteredUsers(users, currentUser, filterType, query), UserSortKey(config.field), config.direction);
  }
}
