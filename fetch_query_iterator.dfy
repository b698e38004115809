/**
 * `FetchQueryIterator` of src/fetch-query/fetch-query-iterator.ts: a query
 * and two optional strategies that rewrite its parameters before it is
 * dispatched again.
 */
module Iterator {
  import opened Outcomes
  import opened SearchParams
  import opened Retry
  import opened RequestStates
  import Fetch

  /**
   * A strategy, by its effect on the query's parameter record. The query it
   * returns is ignored by the iterator and is not modelled.
   */
  type Strategy = Params -> Params

  datatype IteratorConfig = IteratorConfig(next: Option<Strategy>, previous: Option<Strategy>)

  /** Thrown when the strategy asked for was not configured. */
  datatype IteratorError = NoNextStrategy | NoPreviousStrategy

  /** `q` had `strategy` applied to its parameters once and was then dispatched with `network`. */
  twostate predicate StrategyThenQuery<T>(q: Fetch.FetchQuery<T>, strategy: Strategy, network: seq<Response<T>>)
    reads q
  {
    && q.params == strategy(old(q.params))
    && q.maxRetryCount == old(q.maxRetryCount)
    && q.State() == AfterQuery(old(q.State()), Settle(q.maxRetryCount, network))
    && q.changes == old(q.changes) + Notifications(Settle(q.maxRetryCount, network))
    && q.sent == old(q.sent)
         + Fetch.Repeat(Fetch.Request(q.url, Serialized(q.params)), Settle(q.maxRetryCount, network).attempts)
  }

  class FetchQueryIterator<T> {
    const fetchQuery: Fetch.FetchQuery<T>
    const config: IteratorConfig

    constructor(fetchQuery: Fetch.FetchQuery<T>, config: IteratorConfig)
      ensures this.fetchQuery == fetchQuery && this.config == config
    {
      this.fetchQuery := fetchQuery;
      this.config := config;
    }

    method Next(network: seq<Response<T>>) returns (r: Outcome<IteratorError>)
      requires fetchQuery.Valid()
      modifies fetchQuery
      ensures fetchQuery.Valid()
      ensures config.next.None? ==> r == Threw(NoNextStrategy) && unchanged(fetchQuery)
      ensures config.next.Some? ==> r == Returned && StrategyThenQuery(fetchQuery, config.next.value, network)
    {
      if config.next.None? {
        return Threw(NoNextStrategy);
      }
      Advance(config.next.value, network);
      r := Returned;
    }

    method Previous(network: seq<Response<T>>) returns (r: Outcome<IteratorError>)
      requires fetchQuery.Valid()
      modifies fetchQuery
      ensures fetchQuery.Valid()
      ensures config.previous.None? ==> r == Threw(NoPreviousStrategy) && unchanged(fetchQuery)
      ensures config.previous.Some? ==> r == Returned && StrategyThenQuery(fetchQuery, config.previous.value, network)
    {
      if config.previous.None? {
        return Threw(NoPreviousStrategy);
      }
      Advance(config.previous.value, network);
      r := Returned;
    }

    /** Applies a strategy to the wrapped query, then dispatches that same query. */
    method Advance(strategy: Strategy, network: seq<Response<T>>)
      requires fetchQuery.Valid()
      modifies fetchQuery
      ensures fetchQuery.Valid() && StrategyThenQuery(fetchQuery, strategy, network)
    {
      var current := fetchQuery.GetSearchParams();
      fetchQuery.SetSearchParams(strategy(current));
      var _ := fetchQuery.Query(network);
    }
  }
}
