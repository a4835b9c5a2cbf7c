# Exhibitor directory: filter, query and pagination core in Dafny

A model of the state logic of the exhibitor directory front-end. The model
covers the filter record that the `App` component keeps. That record holds
the industry and country id lists, the search text, the first letter, the
sort settings and the page. The model covers every handler that replaces
the record. It covers the parameter object sent to the listing endpoint and
how fetch starts and completions update the items, the result count and the
page total. It covers the pagination bar, the two text helpers used on
exhibitor descriptions, the detail-view selection and the A-Z letter
selector (`FilterCenter`).

Modules (one file each):

- `Options` (options.dfy): `null`-or-value, with `GetOr` for `??`.
- `Strings` (strings.dfy): `split` and `join` with a one-character separator, and the split/join round trips.
- `Decimal` (decimal.dfy): integers as decimal text, and comma-joined id lists read back.
- `TextHelpers` (text_helpers.dfy): `removeHtmlTags` and `limitText`.
- `IdLists` (id_lists.dfy): removal of every occurrence of an id, which is `filter(item => item !== id)`.
- `Filters` (filters.dfy): the filter record, its initial value and all of its handlers.
- `Query` (query.dfy): the parameter object, its decoding back into a filter, and the HTTP client's dropping of `null` parameters.
- `Results` (results.dfy): the fetch start and completion events and the list state they drive.
- `Paging` (paging.dfy): the numbered page items and the First/Prev/Next/Last flags.
- `Alphabet` (alphabet.dfy): the letter selector.
- `App` (app.dfy): the component as one transition function over user actions and fetch completions.

Behaviours of the code worth knowing:

- The initial record has `search` and `search_first` equal to `""`, not `null`.
  So the first request sends both as empty strings (`Query.InitialRequest`).
- The checkboxes are controlled by `includes(id)` (src/App.js:255, 292). So a check event only
  arrives for an id not yet listed, and the id lists stay repeat-free (`Filters.CheckKeepsNoRepeats`,
  `Filters.CheckCountryKeepsNoRepeats`, `Filters.RemoveKeepsNoRepeats`). The handler itself does not
  de-duplicate. A duplicate would need a check event for an id already listed, which the rendered
  checkbox never sends (`Filters.CheckTwiceDuplicates`).
- Checkbox and badge edits do not reset `page`. Of the filter edits, only the letter jump does.
- No handler clamps `page` (`Paging.OutOfRangeIsNotClamped`).
- There is no stale-response guard. The last completion applied wins, even when it belongs
  to an older request (`Results.OlderResponseArrivingLastWins`). The first completion also
  clears `loading` while a newer fetch is still pending (`Results.LoadingOffWhileFetchPending`).
- A failed fetch is not caught. Its rejection goes unhandled, and the component state changes only
  in `loading`.

## Model

| member | source | states |
|---|---|---|
| `Filters.CheckIndustry` | src/App.js:117-128 | checking appends the id at the end of the industry list; unchecking removes every occurrence and keeps the other ids, with their counts and order; no other field (page included) changes |
| `Filters.CheckCountry` | src/App.js:129-138 | the same for the country list |
| `Filters.RemoveIndustry` | src/App.js:161-167 | a badge click removes every occurrence of the industry id, keeps the rest in order, and changes nothing else |
| `Filters.RemoveCountry` | src/App.js:169-173 | the same for a country badge |
| `Filters.UncheckIsBadge` | src/App.js:123-135 | unchecking a box is the same transition as clicking its badge |
| `Filters.CheckUncheckRestores` | src/App.js:117-138 | checking an unchecked box and unchecking it again gives back the original record, for each list independently of the other |
| `Filters.RemoveAbsentAndIdempotent` | src/App.js:161-173 | removing an absent id is a no-op, and removing twice equals removing once |
| `Filters.CheckKeepsNoRepeats` | src/App.js:117-128 | with the controlled checkbox (`checked` exactly when the id is not listed), a repeat-free industry list stays repeat-free |
| `Filters.CheckCountryKeepsNoRepeats` | src/App.js:129-138 | the same for the country list |
| `Filters.RemoveKeepsNoRepeats` | src/App.js:161-173 | badge removal keeps both lists repeat-free |
| `IdLists.SubsequenceNoRepeats` | src/App.js:123-125 | deleting elements from a repeat-free list leaves it repeat-free |
| `Filters.CheckTwiceDuplicates` | src/App.js:120-121 | the handler does not de-duplicate: a check event for an already listed id adds a second copy |
| `Filters.SearchInput` | src/App.js:175-179 | the search is cleared (null) exactly when the committed text is empty, otherwise stored verbatim; page and all else unchanged |
| `Filters.JumpToLetter` | src/App.js:209-216 | "All" clears the first-letter filter, any other letter is stored as is, and the page always goes back to 1 |
| `Filters.GoToPage` | src/App.js:82-87 | `handlePagination(n)` sets the page to n, with no bound; nothing else changes |
| `Filters.NextPage` | src/App.js:89-94 | next moves the page forward and changes nothing else |
| `Filters.PrevPage` | src/App.js:96-101 | prev moves the page back and changes nothing else |
| `Filters.FirstPage` | src/App.js:103-108 | first sets page 1 and changes nothing else |
| `Filters.LastPage` | src/App.js:110-115 | last sets the page to the page total and changes nothing else |
| `Filters.NextPrevInverse` | src/App.js:89-101 | next and prev undo each other on every page |
| `Filters.MovesAreJumps` | src/App.js:82-115 | next, prev, first and last are the numbered jump to page+1, page-1, 1 and the page total |
| `Filters.FilterEditsKeepPage` | src/App.js:117-216 | checkbox, badge and search edits keep the page; the letter jump sets it to 1 |
| `IdLists.Without` | src/App.js:123-125 | the filtered list has no copy of the id, holds every other id exactly as often as before, and is a subsequence of the original |
| `IdLists.RemovedAllUnique` | src/App.js:123-125 | that description determines the filtered list completely |
| `IdLists.SubsequenceMultiset` | src/App.js:123-125 | a filtered list never holds an id more often than the original |
| `IdLists.WithoutAbsent` | src/App.js:161-167 | filtering out an absent id returns the list unchanged |
| `IdLists.WithoutIdempotent` | src/App.js:161-167 | filtering twice equals filtering once |
| `IdLists.WithoutAppended` | src/App.js:121-124 | an id pushed and then filtered out leaves what filtering the original list gives |
| `Query.IdsParam` | src/App.js:66-70 | an id list becomes null exactly when empty, otherwise a string from which the receiver reads back exactly the same ids in order |
| `Query.OptionParam` | src/App.js:65 | search and search_first pass through: null stays null, text stays the same text |
| `Query.ParamOf` | src/App.js:64-71 | the value of each key: the id lists are null iff empty; search and search_first are null iff the filter holds null; every other field passes through unchanged |
| `Query.ToParams` | src/App.js:64-71 | the parameter object has exactly the filter's nine keys, each with the value its field gives it |
| `Query.ParamsRoundTrip` | src/App.js:64-71 | the filter can be decoded back from its parameter object, so serialisation loses nothing |
| `Query.ParamsInjective` | src/App.js:64-71 | two different filter records never produce the same parameters |
| `Query.Sent` | src/service.js:14-18 | the parameters put on the query string are exactly the non-null ones, with their values |
| `Query.SentOmitsEmpty` | src/App.js:66-70 | an empty id list or a cleared search is absent from the request; a non-empty industry or country list is sent comma-joined |
| `Query.EmptySearchNotSent` | src/App.js:175-179 | after clearing the search box the request carries no `search` parameter |
| `Query.InitialRequest` | src/App.js:28-39 | the first request asks for page 1 of 5, ordered by is_premium ascending, with no id filters and with empty search and search_first |
| `Query.JoinExample` | src/App.js:66-69 | industry ids 3 and 7 are sent as "3,7" |
| `Decimal.JoinIds` | src/App.js:68 | `ids.join(",")`: an empty list gives ""; a non-empty one splits at "," into exactly the `String` spellings of the ids, in order, and parses back to the same ids |
| `Decimal.IdsRoundTrip` | src/App.js:68 | a non-empty comma-joined id list splits and parses back to the same ids |
| `Decimal.EmptyIdsUnreadable` | src/App.js:66-69 | an empty list would join to "", which reads as no list at all; this is why it is sent as null |
| `Decimal.JoinIdsExample` | src/App.js:68 | ids 3 and 7 join to "3,7" |
| `Decimal.IntRoundTrip` | src/App.js:68 | the decimal spelling of an id parses back to the id |
| `Decimal.NatRoundTrip` | src/App.js:68 | the digits of a natural number evaluate back to it |
| `Decimal.IntToString` | src/App.js:68 | `String(id)`: a minus sign exactly for negative ids, then the digits of the magnitude with no leading zero (so never "05" or "-0"), and never the separator "," |
| `Strings.Split` | src/App.js:155 | split returns at least one piece and no piece holds the separator |
| `Strings.Join` | src/App.js:155 | `join` gives "" for no pieces and begins with the first piece; `SplitJoin` and `JoinSplit` pin it down against `split` |
| `Strings.SplitJoin` | src/App.js:155 | joining separator-free pieces and splitting again returns the pieces |
| `Strings.JoinSplit` | src/App.js:155 | splitting and joining again returns the original text |
| `Strings.JoinTakeIsPrefix` | src/App.js:155 | joining the first k pieces (any k, 0 included) gives a prefix of the whole |
| `TextHelpers.StripTags` | src/App.js:150 | tag removal never lengthens, introduces no new character, and leaves no `<` followed later by `>` |
| `TextHelpers.StripTagFree` | src/App.js:150 | text with no `<` followed later by `>` is returned unchanged |
| `TextHelpers.NoOpenBracketUnchanged` | src/App.js:150 | text with no `<` is returned unchanged |
| `TextHelpers.StripIdempotent` | src/App.js:150 | removing tags twice equals removing once |
| `TextHelpers.StripDropsTag` | src/App.js:150 | a complete tag after tag-less text is cut out, from its `<` through its first `>` |
| `TextHelpers.RemoveHtmlTags` | src/App.js:147-151 | false exactly for null and ""; otherwise the tag-stripped text, no longer and with no tag left; `false` becomes "false" |
| `TextHelpers.Clamp` | src/App.js:155 | the number of words `splice(0, limit)` takes: 0 for a limit of 0 or less, the limit when it fits, all words otherwise |
| `TextHelpers.LimitText` | src/App.js:153-159 | "" for falsy text or a limit of 0 or less; otherwise a prefix of the text whose words are the first min(limit, count) words, and the whole text when it has at most `limit` words |
| `Results.Step` | src/App.js:62-80 | a start sets loading; a success replaces the items and both totals (defaults [] and 0) and clears loading; a failure only clears loading |
| `Results.LastSuccessShown` | src/App.js:72-76 | after any run of events, the items and totals are those of the last successful completion, or unchanged when there was none |
| `Results.LoadingFollowsLastEvent` | src/App.js:63-79 | loading is on exactly when the last event was a start |
| `Results.FailureKeepsList` | src/App.js:77-79 | a failed fetch keeps the previous items and totals and clears loading |
| `Results.OlderResponseArrivingLastWins` | src/App.js:72-76 | with two overlapping fetches, an older response that arrives last is the one shown |
| `Results.LoadingOffWhileFetchPending` | src/App.js:77-79 | the first of two overlapping completions clears loading although the other fetch is pending |
| `Paging.GeneratePagination` | src/App.js:181-195 | (built but never rendered) the items are numbered 1..countPage in order, each active iff it is the current page, so exactly one is active iff 1 <= page <= countPage |
| `Paging.OneActiveIffInRange` | src/App.js:183-188 | in such a list, the number of active items is 1 when the page is in range and 0 otherwise |
| `Paging.Controls` | src/App.js:382-405 | the bar is shown iff countPage > 1; First/Prev are disabled iff page is 1; Next/Last iff page is countPage |
| `Paging.EnabledMovesStayInRange` | src/App.js:382-405 | from a page in range, every enabled First/Prev/Next/Last control (and any in-range `handlePagination`) lands on a page in range |
| `Paging.OutOfRangeIsNotClamped` | src/App.js:394-398 | on page 5 of 3 nothing is disabled and next goes to page 6 |
| `Alphabet.Letters` | src/FilterCenter.jsx:4-32 | the letter buttons are "0" followed by "A" to "Z", 27 in all |
| `Alphabet.ButtonsDistinct` | src/FilterCenter.jsx:36-62 | the "All" button and the 27 letters carry 28 pairwise distinct labels |
| `Alphabet.InitialSelection` | src/FilterCenter.jsx:33 | the selection starts as the value prop, or "All" when it is null |
| `Alphabet.Press` | src/FilterCenter.jsx:55-58 | a click selects the clicked label and emits that same value |
| `Alphabet.ActiveButtons` | src/FilterCenter.jsx:52-54 | a button is active iff its label equals the selection |
| `Alphabet.AtMostOneActive` | src/FilterCenter.jsx:37-54 | at most one button is active, and exactly one iff the selection is one of the labels |
| `Alphabet.PressActivatesClicked` | src/FilterCenter.jsx:41-58 | after a click exactly the clicked button is active |
| `App.Dispatch` | src/App.js:223-225 | each filter action replaces the filter, issues exactly one request carrying the new filter's parameters and sets loading; selecting and going back touch neither filter nor list and issue nothing; a completion only updates the list |
| `App.Mount` | src/App.js:218-225 | the component starts with the default filter, an empty list, no selection and a request for the default filter in flight |
| `App.SelectBackRestores` | src/App.js:197-207 | opening a detail view hides the list view, and going back restores the previous state |
| `App.FilterActionsKeepSelection` | src/App.js:229 | filter actions never change the selection, so the list view stays shown iff nothing is selected |
| `App.CenterValue` | src/App.js:374-379 | the selector receives "All" for the initial "" and the stored letter (or null) otherwise |
| `App.RemountShowsLastPressed` | src/FilterCenter.jsx:33 | a remounted selector shows the button last pressed, and "All" for the initial record |
| `App.FirstScreen` | src/App.js:371-405 | after a first response with 42 results over 9 pages, the list shows 42, the First/Prev/Next/Last bar is shown on page 1, First/Prev are disabled and Next/Last enabled |
| `App.LastUsesShownTotal` | src/App.js:110-115 | last jumps to the page total of the response on screen and requests it |

## Left out

- The HTTP client (src/service.js) and the network. A response is an abstract value with
  optional body, total and page total, or a failure. The base URL is not modelled.
- The two reference-table fetches (src/App.js:40-60). They supply the checkboxes themselves
  (src/App.js:250-273, 287-308), and so the ids a check can add, and the badge and label names
  (src/App.js:351, 366). The model accepts any integer id.
- `unescapeHtml` (src/App.js:140-146). It relies on the browser's DOM parser. `RemoveHtmlTags`
  is modelled on the value it would receive.
- Filters.SearchInput: applies the committed text to the filter record current at commit time. In
  the code the debounced handler is rebuilt on every render (src/App.js:323), and each
  `handleSearchWithDebounce` spreads the `filter` of its own render (src/App.js:176). So the commit
  restores the record as it was at the last keystroke, and undoes any filter edit made within the
  500 ms before it. For example, typing "a" and clicking Next within 500 ms ends on the earlier page
  with search "a". A check survives, because `push` mutated the shared array (src/App.js:121, 133).
- The error report of a failed fetch: the rejection of `.then(...).finally(...)` (src/App.js:72-79)
  is passed on unhandled, and the browser reports it. The model records only the state change.
- Timing: the 500 ms debounce of the search box (src/App.js:323) and the interleaving of
  fetches. The model keeps only the committed search text and treats each completion as one
  discrete event. Because `debounce(...)` is called anew on every render, a re-render during a
  typing burst (a fetch completing, say) leaves two debounced instances pending; both fire, giving
  two commits and two requests, and each commits whatever the box holds when it fires
  (`e.target.value` is read live), not the text of its own keystroke.
- Array aliasing: `push` mutates the array shared with the previous record (src/App.js:121, 133).
  The model uses value semantics.
- JavaScript coercions: header totals arrive as strings and are compared with `==`
  (src/App.js:396, 401). The model treats them as integers.
- Filters.LastPage: stores the page total as an integer. In the code `last` (src/App.js:113) stores the header
  string itself in `filter.page`. If a later filter edit raises the total, Next is enabled again, and `next`
  (src/App.js:92) computes `"9" + 1`, which is `"91"`. The strict `number === filter.page`
  (src/App.js:187) never matches a string page either. `Paging.EnabledMovesStayInRange` therefore holds
  only for integer pages.
- `GeneratePagination` (src/App.js:181-195) and `handlePagination` (src/App.js:82-87) are never called from
  the rendered markup. So the numbered page items are never shown, and `App.Action.GoTo` cannot come from
  the UI. Both are modelled as written.
- `RemoveHtmlTags`: takes `null`, `false` or a string. An `undefined` argument, which would throw in `toString`, is not modelled. Both call sites (src/App.js:494, 501) pass the string `unescapeHtml` returns.
- `IntToString`: models the decimal `toString` of integers only. Ids are integers, and the
  exponent notation JavaScript uses for very large magnitudes is not modelled.
- Presentation: the JSX markup, icons, `window.open`, the badge and label lookups, the
  per-field "-" fallbacks in the detail view, and the "..." shown after a long description
  (src/App.js:501-505).
