/** The selection controller: the id of the movie whose details are open, or none. */
module Selection {
  import opened Wrappers

  /** `handelSelectMovie`: clicking the selected movie again deselects it, any other selects it. */
  function Toggle(selected: Option<string>, id: string): (r: Option<string>)
    ensures r.None? <==> selected == Some(id)
    ensures r.Some? ==> r.value == id
  {
    if selected == Some(id) then None else Some(id)
  }

  /** `handleCloseMovie`: the back button, Escape, a new search and an add all clear the selection. */
  function Close(selected: Option<string>): (r: Option<string>)
    ensures r.None?
  {
    None
  }

  /**
   * Toggling the same id twice: if nothing or that id was selected, the
   * selection comes back; if another id was selected, it ends cleared.
   */
  lemma ToggleTwice(selected: Option<string>, id: string)
    ensures selected.None? || selected == Some(id) ==> Toggle(Toggle(selected, id), id) == selected
    ensures selected.Some? && selected.value != id ==> Toggle(Toggle(selected, id), id).None?
  {
  }

  lemma CloseIdempotent(selected: Option<string>)
    ensures Close(Close(selected)) == Close(selected)
  {
  }
}
