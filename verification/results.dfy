/**
 * How fetches of the listing update what the list shows (src/App.js:62-80).
 * A fetch start sets `loading`; a completion either replaces the items and
 * both totals (success) or leaves them (failure), and clears `loading` in
 * both cases. Completions carry no request identity, so whichever completes
 * last is what is shown.
 */
module Results {
  import opened Options

  /**
   * An exhibitor record. The core only stores, replaces and selects whole
   * records; their other fields are read by the markup alone.
   */
  datatype Exhibitor = Exhibitor(id: int)

  /** A successful response: the body and the `x-wp-total` / `x-wp-totalpages` headers, each possibly absent. */
  datatype Response = Response(data: Option<seq<Exhibitor>>, total: Option<int>, totalPages: Option<int>)

  datatype Outcome = Ok(response: Response) | Failed

  datatype Event = Started | Completed(outcome: Outcome)

  /** The list half of the component state: `exhibitors`, `count`, `countPage`, `loading`. */
  datatype ListState = ListState(items: seq<Exhibitor>, count: int, countPage: int, loading: bool)

  const Initial: ListState := ListState([], 0, 0, false)

  /** One event applied to the list state. */
  function Step(s: ListState, e: Event): (r: ListState)
    ensures r.loading <==> e.Started?
    ensures e.Started? || e == Completed(Failed) ==> r.(loading := s.loading) == s
    ensures e.Completed? && e.outcome.Ok? ==>
      var resp := e.outcome.response;
      && (resp.data.Some? ==> r.items == resp.data.value)
      && (resp.data.None? ==> r.items == [])
      && (resp.total.Some? ==> r.count == resp.total.value)
      && (resp.total.None? ==> r.count == 0)
      && (resp.totalPages.Some? ==> r.countPage == resp.totalPages.value)
      && (resp.totalPages.None? ==> r.countPage == 0)
  {
    match e
    case Started => s.(loading := true)
    case Completed(Failed) => s.(loading := false)
    case Completed(Ok(resp)) =>
      ListState(resp.data.GetOr([]), resp.total.GetOr(0), resp.totalPages.GetOr(0), false)
  }

  /** A run of events applied in order. */
  function Run(s: ListState, events: seq<Event>): ListState
    decreases |events|
  {
    if |events| == 0 then s
    else Step(Run(s, events[..|events| - 1]), events[|events| - 1])
  }

  /** The response of the last successful completion in the run, if any. */
  function LastOk(events: seq<Event>): Option<Response>
    decreases |events|
  {
    if |events| == 0 then None
    else
      var e := events[|events| - 1];
      if e.Completed? && e.outcome.Ok? then Some(e.outcome.response)
      else LastOk(events[..|events| - 1])
  }

  /** What a successful response puts on screen. */
  predicate Shows(s: ListState, resp: Response)
  {
    s.items == resp.data.GetOr([]) && s.count == resp.total.GetOr(0) && s.countPage == resp.totalPages.GetOr(0)
  }

  /**
   * After any run, the items and both totals are those of the last
   * successful completion; with none, those the run started from.
   * Failures and starts in between change none of them.
   */
  lemma {:induction false} LastSuccessShown(s: ListState, events: seq<Event>)
    ensures LastOk(events).Some? ==> Shows(Run(s, events), LastOk(events).value)
    ensures LastOk(events).None? ==> Run(s, events).(loading := s.loading) == s
    decreases |events|
  {
    if |events| > 0 {
      LastSuccessShown(s, events[..|events| - 1]);
    }
  }

  /** After a non-empty run, `loading` is on exactly when the last event is a start. */
  lemma LoadingFollowsLastEvent(s: ListState, events: seq<Event>)
    requires |events| >= 1
    ensures Run(s, events).loading <==> events[|events| - 1].Started?
  {
  }

  /** A failed fetch keeps the previous items and totals on screen. */
  lemma FailureKeepsList(s: ListState)
    ensures Run(s, [Started, Completed(Failed)]) == s.(loading := false)
  {
    assert [Started, Completed(Failed)][..1] == [Started];
  }

  /**
   * Two overlapping fetches whose responses arrive out of order: the older
   * request's response, arriving last, is the one shown.
   */
  lemma OlderResponseArrivingLastWins(s: ListState, older: Response, newer: Response)
    ensures Shows(Run(s, [Started, Started, Completed(Ok(newer)), Completed(Ok(older))]), older)
  {
    var events := [Started, Started, Completed(Ok(newer)), Completed(Ok(older))];
    assert LastOk(events) == Some(older);
    LastSuccessShown(s, events);
  }

  /** And the first completion switches `loading` off while the second fetch is still pending. */
  lemma LoadingOffWhileFetchPending(s: ListState, resp: Response)
    ensures !Run(s, [Started, Started, Completed(Ok(resp))]).loading
  {
  }
}
