/**
 * The retry policy of `query()`: `fromFetch(...).pipe(take(1), switchMap(...),
 * retry(maxRetryCount))` in both FetchQuery variants.
 *
 * The network is an input: the outcomes of the attempts that complete, in the
 * order they are made. A request whose outcome is not in the sequence never
 * completes.
 */
module Retry {

  /** The outcome of one attempt: a response with an ok status and its decoded body, or a failing status. */
  datatype Response<T> = Ok(body: T) | Fail(status: int, statusText: string)

  /** `FetchQueryError`. */
  datatype QueryError = QueryError(status: int, message: string)

  /** How one dispatch ends, with the number of requests it issued. */
  datatype Settlement<T> =
    | Succeeded(body: T, attempts: nat)
    | Failed(error: QueryError, attempts: nat)
    | Pending(attempts: nat)

  /**
   * The dispatch after `i` failed attempts: attempt `i` succeeds, or fails for
   * the last time when no retry is left, or fails and is retried.
   */
  function SettleFrom<T>(maxRetryCount: nat, network: seq<Response<T>>, i: nat): Settlement<T>
    requires i <= maxRetryCount && i <= |network|
    decreases |network| - i
  {
    if i == |network| then Pending(i + 1)
    else match network[i]
      case Ok(body) => Succeeded(body, i + 1)
      case Fail(status, text) =>
        if i == maxRetryCount then Failed(QueryError(status, text), i + 1)
        else SettleFrom(maxRetryCount, network, i + 1)
  }

  /** How a dispatch with `maxRetryCount` retries ends; it issues at least one request and never more than `maxRetryCount + 1`. */
  function Settle<T>(maxRetryCount: nat, network: seq<Response<T>>): (r: Settlement<T>)
    ensures 1 <= r.attempts <= maxRetryCount + 1
  {
    SettleFromSpec(maxRetryCount, network, 0);
    SettleFrom(maxRetryCount, network, 0)
  }

  /** Runs the attempts of one dispatch until one succeeds, the retries run out or the network goes silent. */
  method Dispatch<T>(maxRetryCount: nat, network: seq<Response<T>>) returns (s: Settlement<T>)
    ensures s == Settle(maxRetryCount, network)
  {
    var i := 0;
    while i < |network|
      invariant i <= maxRetryCount && i <= |network|
      invariant SettleFrom(maxRetryCount, network, i) == Settle(maxRetryCount, network)
    {
      var response := network[i];
      if response.Ok? {
        return Succeeded(response.body, i + 1);
      }
      if i == maxRetryCount {
        return Failed(QueryError(response.status, response.statusText), i + 1);
      }
      i := i + 1;
    }
    s := Pending(i + 1);
  }

  /** What each way of ending says about the attempts from `i` on. */
  lemma {:induction false} SettleFromSpec<T>(maxRetryCount: nat, network: seq<Response<T>>, i: nat)
    requires i <= maxRetryCount && i <= |network|
    ensures match SettleFrom(maxRetryCount, network, i)
      case Succeeded(body, k) =>
        i < k <= |network| && k <= maxRetryCount + 1 && network[k - 1] == Ok(body)
        && forall j | i <= j < k - 1 :: network[j].Fail?
      case Failed(e, k) =>
        k == maxRetryCount + 1 <= |network| && network[k - 1] == Fail(e.status, e.message)
        && forall j | i <= j < k :: network[j].Fail?
      case Pending(k) =>
        k == |network| + 1 <= maxRetryCount + 1
        && forall j | i <= j < |network| :: network[j].Fail?
    decreases |network| - i
  {
    if i < |network| && network[i].Fail? && i < maxRetryCount {
      SettleFromSpec(maxRetryCount, network, i + 1);
    }
  }

  /** The first successful attempt within the `maxRetryCount + 1` allowed ends the dispatch with its body. */
  lemma SucceedsOnFirstOk<T>(maxRetryCount: nat, network: seq<Response<T>>, k: nat)
    requires k <= maxRetryCount && k < |network| && network[k].Ok?
    requires forall j | 0 <= j < k :: network[j].Fail?
    ensures Settle(maxRetryCount, network) == Succeeded(network[k].body, k + 1)
  {
    SettleFromSpec(maxRetryCount, network, 0);
  }

  /** When all `maxRetryCount + 1` attempts fail, the error is the last failure's status and status text. */
  lemma FailsWhenRetriesExhausted<T>(maxRetryCount: nat, network: seq<Response<T>>)
    requires maxRetryCount < |network|
    requires forall j | 0 <= j <= maxRetryCount :: network[j].Fail?
    ensures Settle(maxRetryCount, network)
         == Failed(QueryError(network[maxRetryCount].status, network[maxRetryCount].statusText), maxRetryCount + 1)
  {
    SettleFromSpec(maxRetryCount, network, 0);
  }

  /** While every completed attempt failed and retries remain, the dispatch has not ended. */
  lemma PendingWhileUnanswered<T>(maxRetryCount: nat, network: seq<Response<T>>)
    requires |network| <= maxRetryCount
    requires forall j | 0 <= j < |network| :: network[j].Fail?
    ensures Settle(maxRetryCount, network) == Pending(|network| + 1)
  {
    SettleFromSpec(maxRetryCount, network, 0);
  }
}
