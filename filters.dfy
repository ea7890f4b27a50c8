/** The challenge filter bar: the sort configuration and its two handlers,
    the sort-field label and the category multi-select. Each handler builds
    the next value from the current one; rendering is not modelled. */
module Filters {
  import opened Sorting

  /** `{ field, direction }`. The field is the raw select value: the
      handlers accept whatever the select hands them. */
  datatype SortConfig = SortConfig(field: string, direction: Direction)

  /** The direction opposite to `d`. */
  function Flip(d: Direction): (r: Direction)
    ensures r != d
  {
    if d == Asc then Desc else Asc
  }

  /** `handleSortFieldChange`: the new field, with the direction forced to
      descending for `'none'` and kept otherwise. */
  function HandleSortFieldChange(config: SortConfig, newField: string): (r: SortConfig)
    ensures r.field == newField
    ensures newField == "none" ==> r.direction == Desc
    ensures newField != "none" ==> r.direction == config.direction
  {
    SortConfig(newField, if newField == "none" then Desc else config.direction)
  }

  /** Choosing the field already shown, other than `'none'`, changes nothing. */
  lemma SameFieldKeepsConfig(config: SortConfig)
    requires config.field != "none"
    ensures HandleSortFieldChange(config, config.field) == config
  {
  }

  /** `toggleSortDirection`: same field, the other direction. */
  function ToggleSortDirection(config: SortConfig): (r: SortConfig)
    ensures r.field == config.field && r.direction != config.direction
  {
    config.(direction := Flip(config.direction))
  }

  /** Toggling twice gives back the configuration. */
  lemma ToggleTwiceRestores(config: SortConfig)
    ensures ToggleSortDirection(ToggleSortDirection(config)) == config
  {
  }

  /** `getSortLabel`: four fixed labels; any other value gives the empty
      label. */
  function SortLabel(field: string): (r: string)
    ensures field == "none" <==> r == "No Sorting"
    ensures field == "completions" <==> r == "By Completions"
    ensures field == "points" <==> r == "By Points"
    ensures field == "likes" <==> r == "By Likes"
    ensures field !in {"none", "completions", "points", "likes"} <==> r == ""
  {
    match field
    case "none" => "No Sorting"
    case "completions" => "By Completions"
    case "points" => "By Points"
    case "likes" => "By Likes"
    case _ => ""
  }

  /** What the multi-select reports: a single string (autofill) or the list
      of selected values. */
  datatype SelectValue = Single(value: string) | Many(values: seq<string>)

  /** `handleCategoryChange`: a single string becomes a one-element list; a
      list passes through. */
  function HandleCategoryChange(v: SelectValue): (r: seq<string>)
    ensures v.Single? ==> r == [v.value]
    ensures v.Many? ==> r == v.values
  {
    match v
    case Single(value) => [value]
    case Many(values) => values
  }
}
