/**
 * The observable request state of a FetchQuery: the `_loading`, `_data` and
 * `_error` fields and the `BehaviorSubject`s that announce their changes.
 */
module RequestStates {
  import opened Outcomes
  import opened Retry

  datatype RequestState<T> = RequestState(data: Option<T>, error: Option<QueryError>, loading: bool)

  /** `data = null`, `error = null`, `loading = false`. */
  function Initial<T>(): RequestState<T>
  {
    RequestState(None, None, false)
  }

  /** One value pushed to a subject by `updateLoading`, `updateData` or `updateError`. */
  datatype Change<T> =
    | LoadingChanged(loading: bool)
    | DataChanged(data: Option<T>)
    | ErrorChanged(error: Option<QueryError>)

  function Apply<T>(st: RequestState<T>, c: Change<T>): RequestState<T>
  {
    match c
    case LoadingChanged(l) => st.(loading := l)
    case DataChanged(d) => st.(data := d)
    case ErrorChanged(e) => st.(error := e)
  }

  /** The state a subscriber reconstructs from `st` by applying the announced changes in order. */
  function Replay<T>(st: RequestState<T>, cs: seq<Change<T>>): RequestState<T>
  {
    if cs == [] then st else Apply(Replay(st, cs[..|cs| - 1]), cs[|cs| - 1])
  }

  lemma ReplaySnoc<T>(st: RequestState<T>, cs: seq<Change<T>>, c: Change<T>)
    ensures Replay(st, cs + [c]) == Apply(Replay(st, cs), c)
  {
    assert (cs + [c])[..|cs|] == cs;
  }

  lemma {:induction false} ReplayConcat<T>(st: RequestState<T>, a: seq<Change<T>>, b: seq<Change<T>>)
    ensures Replay(st, a + b) == Replay(Replay(st, a), b)
    decreases |b|
  {
    if b == [] {
      assert a + b == a;
    } else {
      var init := b[..|b| - 1];
      assert a + b == (a + init) + [b[|b| - 1]];
      ReplaySnoc(st, a + init, b[|b| - 1]);
      ReplayConcat(st, a, init);
    }
  }

  /**
   * The changes one `query()` announces: loading on and error cleared at once;
   * then the data and loading off on success (the `next` and `complete`
   * handlers), or the error alone on final failure (the `error` handler).
   */
  function Notifications<T>(s: Settlement<T>): (r: seq<Change<T>>)
    ensures |r| >= 2 && r[0] == LoadingChanged(true) && r[1] == ErrorChanged(None)
    ensures LoadingChanged(false) in r <==> s.Succeeded?
    ensures s.Pending? ==> |r| == 2
  {
    [LoadingChanged(true), ErrorChanged(None)] + Handled(s)
  }

  /** The changes announced by the subscriber's handlers once the dispatch has ended as `s`. */
  function Handled<T>(s: Settlement<T>): seq<Change<T>>
  {
    match s
    case Succeeded(body, _) => [DataChanged(Some(body)), LoadingChanged(false)]
    case Failed(e, _) => [ErrorChanged(Some(e))]
    case Pending(_) => []
  }

  /**
   * The state after a dispatch that ends as `s`: the body with loading off, or
   * the error with loading still on and the previous data kept, or loading
   * with no error while a request is still in flight.
   */
  function AfterQuery<T>(st: RequestState<T>, s: Settlement<T>): (r: RequestState<T>)
    ensures r.loading <==> !s.Succeeded?
    ensures r.error.Some? <==> s.Failed?
    ensures !s.Succeeded? ==> r.data == st.data
  {
    match s
    case Succeeded(body, _) => RequestState(Some(body), None, false)
    case Failed(e, _) => RequestState(st.data, Some(e), true)
    case Pending(_) => RequestState(st.data, None, true)
  }

  /** A subscriber replaying a query's announcements ends with the same state the getters report. */
  lemma {:induction false} NotificationsReplayToState<T>(st: RequestState<T>, s: Settlement<T>)
    ensures Replay(st, Notifications(s)) == AfterQuery(st, s)
  {
    var opening: seq<Change<T>> := [LoadingChanged(true), ErrorChanged(None)];
    ReplaySnoc(st, [LoadingChanged(true)], ErrorChanged(None));
    ReplaySnoc(st, [], LoadingChanged(true));
    assert [LoadingChanged(true)] + [ErrorChanged(None)] == opening;
    var mid := Replay(st, opening);
    assert mid == st.(loading := true, error := None);
    match s {
      case Succeeded(body, _) =>
        ReplayConcat(st, opening, [DataChanged(Some(body)), LoadingChanged(false)]);
        ReplaySnoc(mid, [DataChanged(Some(body))], LoadingChanged(false));
        ReplaySnoc(mid, [], DataChanged(Some(body)));
        assert [DataChanged(Some(body))] + [LoadingChanged(false)] == [DataChanged(Some(body)), LoadingChanged(false)];
      case Failed(e, _) =>
        ReplayConcat(st, opening, [ErrorChanged(Some(e))]);
        ReplaySnoc(mid, [], ErrorChanged(Some(e)));
      case Pending(_) =>
        assert Notifications(s) == opening;
    }
  }
}
