/**
 * The component as a whole: the filter record, the list state and the
 * selected exhibitor, and how each user action or fetch completion moves
 * them. Every new filter record re-runs the listing fetch (the effect on
 * `[filter]`, src/App.js:223-225), so each filter action issues exactly one
 * request; selecting an exhibitor and going back issue none.
 */
module App {
  import opened Options
  import Filters
  import Query
  import Results
  import Paging
  import Alphabet

  datatype AppState = AppState(filter: Filters.Filter, list: Results.ListState, selected: Option<Results.Exhibitor>)

  datatype Action =
    | CheckIndustry(id: int, checked: bool)
    | CheckCountry(id: int, checked: bool)
    | RemoveIndustryBadge(id: int)
    | RemoveCountryBadge(id: int)
    | Search(text: string)
    | Jump(letter: string)
    | GoTo(n: int)
    | Next
    | Prev
    | First
    | Last
    | Select(item: Results.Exhibitor)
    | Back
    | Fetched(outcome: Results.Outcome)

  /** The actions that replace the filter record. */
  predicate ChangesFilter(a: Action)
  {
    !(a.Select? || a.Back? || a.Fetched?)
  }

  /** The handler each filter action runs; `Last` reads the page total on screen. */
  function NewFilter(s: AppState, a: Action): Filters.Filter
    requires ChangesFilter(a)
  {
    match a
    case CheckIndustry(id, on) => Filters.CheckIndustry(s.filter, id, on)
    case CheckCountry(id, on) => Filters.CheckCountry(s.filter, id, on)
    case RemoveIndustryBadge(id) => Filters.RemoveIndustry(s.filter, id)
    case RemoveCountryBadge(id) => Filters.RemoveCountry(s.filter, id)
    case Search(text) => Filters.SearchInput(s.filter, text)
    case Jump(letter) => Filters.JumpToLetter(s.filter, letter)
    case GoTo(n) => Filters.GoToPage(s.filter, n)
    case Next => Filters.NextPage(s.filter)
    case Prev => Filters.PrevPage(s.filter)
    case First => Filters.FirstPage(s.filter)
    case Last => Filters.LastPage(s.filter, s.list.countPage)
  }

  /** The state after an action, and the listing request it issues, if any. */
  datatype Transition = Transition(state: AppState, request: Option<Query.Params>)

  function Dispatch(s: AppState, a: Action): (t: Transition)
    ensures t.request.Some? <==> ChangesFilter(a)
    ensures ChangesFilter(a) ==>
      && t.state.filter == NewFilter(s, a)
      && t.request == Some(Query.ToParams(t.state.filter))
      && t.state.list.loading
      && t.state.list.(loading := s.list.loading) == s.list
      && t.state.selected == s.selected
    ensures !ChangesFilter(a) ==> t.state.filter == s.filter
    ensures a.Select? || a.Back? ==> t.state.list == s.list
    ensures a.Select? ==> t.state.selected == Some(a.item)
    ensures a.Back? ==> t.state.selected == None
    ensures a.Fetched? ==> t.state.selected == s.selected && t.state.list == Results.Step(s.list, Results.Completed(a.outcome))
  {
    if ChangesFilter(a) then
      var f := NewFilter(s, a);
      Transition(AppState(f, Results.Step(s.list, Results.Started), s.selected), Some(Query.ToParams(f)))
    else
      match a
      case Select(item) => Transition(s.(selected := Some(item)), None)
      case Back => Transition(s.(selected := None), None)
      case Fetched(o) => Transition(s.(list := Results.Step(s.list, Results.Completed(o))), None)
  }

  /** The mount: default filter, empty list, nothing selected, and the first listing request on its way. */
  function Mount(): (t: Transition)
    ensures t.state.filter == Filters.Initial
    ensures t.state.list.items == [] && t.state.list.count == 0 && t.state.list.countPage == 0
    ensures t.state.list.loading
    ensures t.state.selected == None
    ensures t.request == Some(Query.ToParams(Filters.Initial))
  {
    Transition(AppState(Filters.Initial, Results.Step(Results.Initial, Results.Started), None), Some(Query.ToParams(Filters.Initial)))
  }

  /** The list view is on screen exactly when no exhibitor is selected (src/App.js:229). */
  predicate ListViewShown(s: AppState)
  {
    s.selected.None?
  }

  /** Opening an exhibitor's detail and going back restores the list view as it was. */
  lemma SelectBackRestores(s: AppState, item: Results.Exhibitor)
    requires ListViewShown(s)
    ensures !ListViewShown(Dispatch(s, Select(item)).state)
    ensures Dispatch(Dispatch(s, Select(item)).state, Back).state == s
  {
  }

  /** Selection is independent of the filter: no filter action changes it. */
  lemma FilterActionsKeepSelection(s: AppState, a: Action)
    requires ChangesFilter(a)
    ensures Dispatch(s, a).state.selected == s.selected
    ensures ListViewShown(Dispatch(s, a).state) <==> ListViewShown(s)
  {
  }

  /** The `value` the selector receives: `"All"` in place of the initial `""`, otherwise `search_first` itself. */
  function CenterValue(searchFirst: Option<string>): (v: Option<string>)
    ensures searchFirst == Some("") ==> v == Some("All")
    ensures searchFirst != Some("") ==> v == searchFirst
  {
    if searchFirst == Some("") then Some("All") else searchFirst
  }

  /**
   * The selector remounts (after the detail view, say) showing the button
   * last pressed: the letter stored by the jump reads back as that button,
   * and the initial record reads back as "All".
   */
  lemma RemountShowsLastPressed(f: Filters.Filter, k: int)
    requires 0 <= k < |Alphabet.Buttons()|
    ensures var pressed := Alphabet.Press(Alphabet.Buttons()[k]);
      Alphabet.InitialSelection(CenterValue(Filters.JumpToLetter(f, pressed.emitted).searchFirst)) == pressed.selection
    ensures Alphabet.InitialSelection(CenterValue(Filters.Initial.searchFirst)) == "All"
  {
    var b := Alphabet.Buttons()[k];
    assert |b| >= 1;
  }

  /**
   * The first screen: after the mount's request succeeds with 5 items, a
   * total of 42 and 9 pages, the list shows 42 results and the First / Prev /
   * Next / Last bar on page 1 of 9, with First and Prev disabled.
   */
  lemma FirstScreen(items: seq<Results.Exhibitor>)
    requires |items| == 5
    ensures var s := Dispatch(Mount().state, Fetched(Results.Ok(Results.Response(Some(items), Some(42), Some(9))))).state;
      && s.list.items == items && s.list.count == 42 && s.list.countPage == 9 && !s.list.loading
      && s.filter.page == 1
      && Paging.Controls(s.filter.page, s.list.countPage) == Paging.Shown(true, true, false, false)
  {
  }

  /** The `last` action goes to the page total of the response currently shown. */
  lemma LastUsesShownTotal(s: AppState)
    ensures Dispatch(s, Last).state.filter.page == s.list.countPage
    ensures Dispatch(s, Last).request == Some(Query.ToParams(s.filter.(page := s.list.countPage)))
  {
    assert NewFilter(s, Last) == s.filter.(page := s.list.countPage);
  }
}
