/** The category buttons: clicking a category selects it, or clears the
    selection when it is the one already selected. */
module CategoryList {
  import opened Base

  /** The selection after a click on `clicked` (`None` is `null`). */
  function NextSelection(selected: Option<string>, clicked: string): (r: Option<string>)
    ensures selected == Some(clicked) ==> r == None
    ensures selected != Some(clicked) ==> r == Some(clicked)
    ensures r == None || r == Some(clicked)
  {
    if selected == Some(clicked) then None else Some(clicked)
  }

  /** A second click on the same category restores the selection when
      nothing or that category was selected; those are the states the
      buttons show as unselected or selected. */
  lemma ClickTwiceRestores(selected: Option<string>, clicked: string)
    requires selected == None || selected == Some(clicked)
    ensures NextSelection(NextSelection(selected, clicked), clicked) == selected
  {
  }

  /** When another category was selected, two clicks leave nothing
      selected rather than the earlier category. */
  lemma ClickTwiceFromOtherClears(other: string, clicked: string)
    requires other != clicked
    ensures NextSelection(NextSelection(Some(other), clicked), clicked) == None
  {
  }
}
