/**
 * The older `FetchQuery` of src/fetch-query.ts: the same request state and
 * retry policy, with no search parameters; every request goes to the
 * configured URL unchanged.
 */
module LegacyFetch {
  import opened Outcomes
  import opened Retry
  import opened RequestStates
  import Fetch

  class FetchQuery<T> {
    const url: string
    var data: Option<T>
    var error: Option<QueryError>
    var loading: bool
    var maxRetryCount: nat
    /** Every value pushed to the loading, data and error subjects, oldest first. */
    var changes: seq<Change<T>>
    /** The URL of every request issued, oldest first. */
    var sent: seq<string>

    function State(): RequestState<T>
      reads this
    {
      RequestState(data, error, loading)
    }

    /** Each field holds the last value announced on its subject, starting from the initial values. */
    ghost predicate Valid()
      reads this
    {
      State() == Replay(Initial(), changes)
    }

    constructor(url: string)
      ensures Valid()
      ensures this.url == url && State() == Initial() && maxRetryCount == 0
      ensures changes == [] && sent == []
    {
      this.url := url;
      data := None;
      error := None;
      loading := false;
      maxRetryCount := 0;
      changes := [];
      sent := [];
    }

    /** The `data` getter: the value its subject last announced. */
    function Data(): (r: Option<T>)
      reads this
      ensures Valid() ==> r == Replay(Initial(), changes).data
    {
      data
    }

    /** The `error` getter: the value its subject last announced. */
    function Error(): (r: Option<QueryError>)
      reads this
      ensures Valid() ==> r == Replay(Initial(), changes).error
    {
      error
    }

    /** The `loading` getter: the value its subject last announced. */
    function Loading(): (r: bool)
      reads this
      ensures Valid() ==> r == Replay(Initial(), changes).loading
    {
      loading
    }

    method SetRetries(count: int) returns (r: Outcome<Fetch.ConfigError>)
      requires Valid()
      modifies this`maxRetryCount
      ensures Valid()
      ensures count < 0 ==> r == Threw(Fetch.NegativeRetryCount) && maxRetryCount == old(maxRetryCount)
      ensures count >= 0 ==> r == Returned && maxRetryCount == count
    {
      if count < 0 {
        return Threw(Fetch.NegativeRetryCount);
      }
      maxRetryCount := count;
      r := Returned;
    }

    /**
     * Starts a dispatch to `url` and returns this query. `network` holds the
     * outcomes of the attempts that complete.
     */
    method Query(network: seq<Response<T>>) returns (self: FetchQuery<T>)
      requires Valid()
      modifies this`data, this`error, this`loading, this`changes, this`sent
      ensures Valid() && self == this
      ensures State() == AfterQuery(old(State()), Settle(maxRetryCount, network))
      ensures changes == old(changes) + Notifications(Settle(maxRetryCount, network))
      ensures sent == old(sent) + Fetch.Repeat(url, Settle(maxRetryCount, network).attempts)
    {
      Begin();
      var settlement := Dispatch(maxRetryCount, network);
      sent := sent + Fetch.Repeat(url, settlement.attempts);
      Deliver(settlement);
      self := this;
    }

    /** The synchronous start of `query()`: loading on, error cleared. */
    method Begin()
      requires Valid()
      modifies this`loading, this`error, this`changes
      ensures Valid() && loading && error.None?
      ensures changes == old(changes) + [LoadingChanged(true), ErrorChanged(None)]
    {
      UpdateLoading(true);
      UpdateError(None);
    }

    /** The `next`, `error` and `complete` handlers of the subscription, run once the dispatch has ended as `s`. */
    method Deliver(s: Settlement<T>)
      requires Valid() && loading && error.None?
      modifies this`data, this`error, this`loading, this`changes
      ensures Valid()
      ensures changes == old(changes) + Handled(s)
      ensures State() == AfterQuery(old(State()), s)
    {
      match s {
        case Succeeded(body, _) =>
          UpdateData(Some(body));
          UpdateLoading(false);
          assert changes == old(changes) + [DataChanged(Some(body))] + [LoadingChanged(false)];
        case Failed(e, _) =>
          UpdateError(Some(e));
        case Pending(_) =>
      }
    }

    method UpdateLoading(value: bool)
      requires Valid()
      modifies this`loading, this`changes
      ensures Valid() && loading == value && changes == old(changes) + [LoadingChanged(value)]
    {
      ReplaySnoc(Initial(), changes, LoadingChanged(value));
      loading := value;
      changes := changes + [LoadingChanged(value)];
    }

    method UpdateData(value: Option<T>)
      requires Valid()
      modifies this`data, this`changes
      ensures Valid() && data == value && changes == old(changes) + [DataChanged(value)]
    {
      ReplaySnoc(Initial(), changes, DataChanged(value));
      data := value;
      changes := changes + [DataChanged(value)];
    }

    method UpdateError(value: Option<QueryError>)
      requires Valid()
      modifies this`error, this`changes
      ensures Valid() && error == value && changes == old(changes) + [ErrorChanged(value)]
    {
      ReplaySnoc(Initial(), changes, ErrorChanged(value));
      error := value;
      changes := changes + [ErrorChanged(value)];
    }
  }
}
