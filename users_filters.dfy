/** The user-list filter bar. Its sort-field and direction handlers are the
    same code as the challenge filter bar's and are modelled there
    (`Filters.HandleSortFieldChange`, `Filters.ToggleSortDirection`); what
    differs is the label switch and the search reset. */
module UsersFilters {
  import opened Sorting
  import opened Filters

  /** `getSortLabel` for the user sort fields. */
  function UserSortLabel(field: string): (r: string)
    ensures field == "none" <==> r == "No Sorting"
    ensures field == "points" <==> r == "By Points"
    ensures field == "completedChallenges" <==> r == "By Completed"
    ensures field !in {"none", "points", "completedChallenges"} <==> r == ""
  {
    match field
    case "none" => "No Sorting"
    case "points" => "By Points"
    case "completedChallenges" => "By Completed"
    case _ => ""
  }

  /** The search box and the sort configuration the bar edits. */
  datatype UsersFilterState = UsersFilterState(searchQuery: string, sort: SortConfig)

  /** `handleClear`: the query becomes empty and the sort is untouched. */
  function HandleClear(s: UsersFilterState): (r: UsersFilterState)
    ensures r.searchQuery == "" && r.sort == s.sort
  {
    s.(searchQuery := "")
  }

  /** Clearing is idempotent. */
  lemma ClearIdempotent(s: UsersFilterState)
    ensures HandleClear(HandleClear(s)) == HandleClear(s)
  {
  }

  /** Choosing `'none'` gives the same configuration whatever direction
      was toggled to before. */
  lemma NoneForgetsDirection(config: SortConfig)
    ensures HandleSortFieldChange(ToggleSortDirection(config), "none")
            == HandleSortFieldChange(config, "none")
  {
  }
}
