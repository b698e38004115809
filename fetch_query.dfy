/**
 * `FetchQuery` of src/fetch-query/fetch-query.ts: the request state, the
 * retry count and the search-parameter record of one endpoint.
 */
module Fetch {
  import opened Outcomes
  import opened SearchParams
  import opened Retry
  import opened RequestStates

  /** A request as sent: the configured URL with its query replaced by the serialised parameters. */
  datatype Request = Request(url: string, search: seq<(string, string)>)

  /** Thrown by `setRetries` for a negative count. */
  datatype ConfigError = NegativeRetryCount

  function Repeat<X>(x: X, n: nat): (r: seq<X>)
    ensures |r| == n && forall i | 0 <= i < n :: r[i] == x
  {
    seq(n, _ => x)
  }

  class FetchQuery<T> {
    const url: string
    var data: Option<T>
    var error: Option<QueryError>
    var loading: bool
    var maxRetryCount: nat
    var params: Params
    /** Every value pushed to the loading, data and error subjects, oldest first. */
    var changes: seq<Change<T>>
    /** Every request issued, oldest first. */
    var sent: seq<Request>

    function State(): RequestState<T>
      reads this
    {
      RequestState(data, error, loading)
    }

    /** Each field holds the last value announced on its subject, starting from the initial values. */
    ghost predicate Valid()
      reads this
    {
      State() == Replay(Initial(), changes)
    }

    constructor(url: string)
      ensures Valid()
      ensures this.url == url && State() == Initial() && maxRetryCount == 0 && params == []
      ensures changes == [] && sent == []
    {
      this.url := url;
      data := None;
      error := None;
      loading := false;
      maxRetryCount := 0;
      params := [];
      changes := [];
      sent := [];
    }

    /** The `data` getter: the value its subject last announced. */
    function Data(): (r: Option<T>)
      reads this
      ensures Valid() ==> r == Replay(Initial(), changes).data
    {
      data
    }

    /** The `error` getter: the value its subject last announced. */
    function Error(): (r: Option<QueryError>)
      reads this
      ensures Valid() ==> r == Replay(Initial(), changes).error
    {
      error
    }

    /** The `loading` getter: the value its subject last announced. */
    function Loading(): (r: bool)
      reads this
      ensures Valid() ==> r == Replay(Initial(), changes).loading
    {
      loading
    }

    method SetRetries(count: int) returns (r: Outcome<ConfigError>)
      requires Valid()
      modifies this`maxRetryCount
      ensures Valid()
      ensures count < 0 ==> r == Threw(NegativeRetryCount) && maxRetryCount == old(maxRetryCount)
      ensures count >= 0 ==> r == Returned && maxRetryCount == count
    {
      if count < 0 {
        return Threw(NegativeRetryCount);
      }
      maxRetryCount := count;
      r := Returned;
    }

    method SetSearchParams(p: Params)
      requires Valid()
      modifies this`params
      ensures Valid() && params == p
    {
      params := p;
    }

    method UpdateSearchParams(p: Params)
      requires Valid()
      modifies this`params
      ensures Valid() && params == Merge(old(params), p)
    {
      params := Merge(params, p);
    }

    method GetSearchParams() returns (p: Params)
      ensures p == params
    {
      p := params;
    }

    /** Appends a pair for every entry whose value is neither null nor undefined, in record order. */
    method PrepareSearchParams() returns (pairs: seq<(string, string)>)
      ensures pairs == Serialized(params)
    {
      pairs := [];
      var i := 0;
      while i < |params|
        invariant i <= |params|
        invariant pairs == Serialized(params[..i])
      {
        var (key, value) := params[i];
        if value != Null && value != Undefined {
          pairs := pairs + [(key, ToText(value))];
        }
        assert params[..i + 1][..i] == params[..i];
        i := i + 1;
      }
      assert params[..i] == params;
    }

    /**
     * Starts a dispatch and returns this query. `network` holds the outcomes
     * of the attempts that complete.
     */
    method Query(network: seq<Response<T>>) returns (self: FetchQuery<T>)
      requires Valid()
      modifies this`data, this`error, this`loading, this`changes, this`sent
      ensures Valid() && self == this
      ensures State() == AfterQuery(old(State()), Settle(maxRetryCount, network))
      ensures changes == old(changes) + Notifications(Settle(maxRetryCount, network))
      ensures sent == old(sent) + Repeat(Request(url, Serialized(params)), Settle(maxRetryCount, network).attempts)
    {
      Begin();
      var search := PrepareSearchParams();
      var settlement := Dispatch(maxRetryCount, network);
      sent := sent + Repeat(Request(url, search), settlement.attempts);
      Deliver(settlement);
      self := this;
    }

    /** The synchronous start of `query()`: loading on, error cleared. */
    method Begin()
      requires Valid()
      modifies this`loading, this`error, this`changes
      ensures Valid() && loading && error.None?
      ensures changes == old(changes) + [LoadingChanged(true), ErrorChanged(None)]
    {
      UpdateLoading(true);
      UpdateError(None);
    }

    /** The `next`, `error` and `complete` handlers of the subscription, run once the dispatch has ended as `s`. */
    method Deliver(s: Settlement<T>)
      requires Valid() && loading && error.None?
      modifies this`data, this`error, this`loading, this`changes
      ensures Valid()
      ensures changes == old(changes) + Handled(s)
      ensures State() == AfterQuery(old(State()), s)
    {
      match s {
        case Succeeded(body, _) =>
          UpdateData(Some(body));
          UpdateLoading(false);
          assert changes == old(changes) + [DataChanged(Some(body))] + [LoadingChanged(false)];
        case Failed(e, _) =>
          UpdateError(Some(e));
        case Pending(_) =>
      }
    }

    method UpdateLoading(value: bool)
      requires Valid()
      modifies this`loading, this`changes
      ensures Valid() && loading == value && changes == old(changes) + [LoadingChanged(value)]
    {
      ReplaySnoc(Initial(), changes, LoadingChanged(value));
      loading := value;
      changes := changes + [LoadingChanged(value)];
    }

    method UpdateData(value: Option<T>)
      requires Valid()
      modifies this`data, this`changes
      ensures Valid() && data == value && changes == old(changes) + [DataChanged(value)]
    {
      ReplaySnoc(Initial(), changes, DataChanged(value));
      data := value;
      changes := changes + [DataChanged(value)];
    }

    method UpdateError(value: Option<QueryError>)
      requires Valid()
      modifies this`error, this`changes
      ensures Valid() && error == value && changes == old(changes) + [ErrorChanged(value)]
    {
      ReplaySnoc(Initial(), changes, ErrorChanged(value));
      error := value;
      changes := changes + [ErrorChanged(value)];
    }
  }
}
