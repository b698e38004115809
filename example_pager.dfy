/**
 * `ExamplePager` of src/ExamplePager.ts: an iterator whose strategies step the
 * `page` parameter within 1..10, with the two boundary predicates.
 *
 * The source reads `page` with JavaScript's coercions: `!page` for the
 * boundary test and `page + 1`, `page < 10`, `page > 1` on the value as a
 * number. `PageNumber` is that number.
 */
module Pager {
  import opened Outcomes
  import opened SearchParams
  import opened Retry
  import opened Iterator
  import Fetch

  /** The fixed last page. */
  const MaxPage: int := 10

  /** The `page` parameter converted to a number; a string page is not modelled. */
  datatype PageNumber = Page(n: int) | NotANumber | NotNumeric

  function PageNumberOf(ps: Params): PageNumber
  {
    match Lookup(ps, "page")
    case None => NotANumber
    case Some(v) =>
      match v
      case Num(n) => Page(n)
      case NaN => NotANumber
      case Undefined => NotANumber
      case Null => Page(0)
      case Bool(b) => Page(if b then 1 else 0)
      case Str(_) => NotNumeric
  }

  /** `canGoNext()` on the record `ps`; `!page` holds for NaN and for zero. */
  function CanGoNextAt(ps: Params): (r: bool)
    ensures Lookup(ps, "page").None? ==> r
    ensures Lookup(ps, "page") in {Some(Undefined), Some(NaN), Some(Null), Some(Bool(false))} ==> r
    ensures Lookup(ps, "page").Some? && Lookup(ps, "page").value.Num? ==> (r <==> Lookup(ps, "page").value.n < MaxPage)
  {
    match PageNumberOf(ps)
    case NotNumeric => false
    case NotANumber => true
    case Page(n) => if n == 0 then true else n < MaxPage
  }

  /** `canGoPrevious()` on the record `ps`; `!page` holds for NaN and for zero. */
  function CanGoPreviousAt(ps: Params): (r: bool)
    ensures Lookup(ps, "page").None? ==> !r
    ensures Lookup(ps, "page") in {Some(Undefined), Some(NaN), Some(Null), Some(Bool(false))} ==> !r
    ensures Lookup(ps, "page").Some? && Lookup(ps, "page").value.Num? ==> (r <==> Lookup(ps, "page").value.n > 1)
  {
    match PageNumberOf(ps)
    case NotNumeric => false
    case NotANumber => false
    case Page(n) => if n == 0 then false else n > 1
  }

  /** `page + 1`. */
  function Incremented(p: PageNumber): Value
    requires !p.NotNumeric?
  {
    match p
    case Page(n) => Num(n + 1)
    case NotANumber => NaN
  }

  /** The `next` strategy: at the last page nothing changes, otherwise `page + 1` is merged in. */
  function NextStrategy(ps: Params): (r: Params)
    ensures CanGoNextAt(ps) ==> Lookup(r, "page") == Some(Incremented(PageNumberOf(ps)))
    ensures forall k | k != "page" :: Lookup(r, k) == Lookup(ps, k)
  {
    if !CanGoNextAt(ps) then ps
    else
      MergePage(ps, Incremented(PageNumberOf(ps)));
      Merge(ps, [("page", Incremented(PageNumberOf(ps)))])
  }

  /** The `previous` strategy: at the first page nothing changes, otherwise the record becomes `{ page: page - 1 }`. */
  function PreviousStrategy(ps: Params): (r: Params)
    ensures CanGoPreviousAt(ps) ==> Keys(r) == ["page"] && PageNumberOf(r) == Page(PageNumberOf(ps).n - 1)
    ensures !CanGoPreviousAt(ps) ==> r == ps
  {
    if !CanGoPreviousAt(ps) then ps
    else [("page", Num(PageNumberOf(ps).n - 1))]
  }

  function PagerConfig(): IteratorConfig
  {
    IteratorConfig(Some(NextStrategy), Some(PreviousStrategy))
  }

  lemma {:induction false} MergePage(ps: Params, v: Value)
    ensures Lookup(Merge(ps, [("page", v)]), "page") == Some(v)
    ensures forall k | k != "page" :: Lookup(Merge(ps, [("page", v)]), k) == Lookup(ps, k)
    ensures Keys(Merge(ps, [("page", v)])) == if "page" in Keys(ps) then Keys(ps) else Keys(ps) + ["page"]
  {
    var partial: Params := [("page", v)];
    forall k
      ensures Lookup(Merge(ps, partial), k) == if k == "page" then Some(v) else Lookup(ps, k)
    {
      MergeLookup(ps, partial, k);
    }
    MergeKeys(ps, partial);
    assert Keys(partial) == ["page"];
  }

  /**
   * From page `p`, `next` sets the page to `p + 1` below the last page and
   * changes nothing at or past it; every other key keeps its value and position.
   */
  lemma NextFromPage(ps: Params, p: int)
    requires Lookup(ps, "page") == Some(Num(p))
    ensures p >= MaxPage ==> NextStrategy(ps) == ps
    ensures p < MaxPage ==> Lookup(NextStrategy(ps), "page") == Some(Num(p + 1))
    ensures Keys(NextStrategy(ps)) == Keys(ps)
    ensures forall k | k != "page" :: Lookup(NextStrategy(ps), k) == Lookup(ps, k)
  {
    assert PageNumberOf(ps) == Page(p);
    if p < MaxPage {
      assert CanGoNextAt(ps);
      var v := Incremented(PageNumberOf(ps));
      assert v == Num(p + 1);
      LookupMissing(ps, "page");
      MergePage(ps, v);
    } else {
      assert !CanGoNextAt(ps);
    }
  }

  /** With no `page`, `next` stores `undefined + 1`, which is NaN, as a new last key. */
  lemma NextFromMissingPage(ps: Params)
    requires Lookup(ps, "page").None?
    ensures Lookup(NextStrategy(ps), "page") == Some(NaN)
    ensures Keys(NextStrategy(ps)) == Keys(ps) + ["page"]
    ensures forall k | k != "page" :: Lookup(NextStrategy(ps), k) == Lookup(ps, k)
  {
    LookupMissing(ps, "page");
    MergePage(ps, NaN);
  }

  /** From page `p > 1`, `previous` replaces the whole record by `{ page: p - 1 }`; otherwise nothing changes. */
  lemma PreviousFromPage(ps: Params, p: int)
    requires Lookup(ps, "page") == Some(Num(p))
    ensures p > 1 ==> PreviousStrategy(ps) == [("page", Num(p - 1))]
    ensures p <= 1 ==> PreviousStrategy(ps) == ps
  {
  }

  /**
   * Once `next` has stored NaN, the pager stays there: `next` stores
   * `NaN + 1`, which is NaN again, and `previous` is blocked.
   */
  lemma NaNPageIsFixed(ps: Params)
    requires Lookup(ps, "page") == Some(NaN)
    ensures CanGoNextAt(ps) && !CanGoPreviousAt(ps)
    ensures Lookup(NextStrategy(ps), "page") == Some(NaN)
    ensures Keys(NextStrategy(ps)) == Keys(ps)
    ensures forall k :: Lookup(NextStrategy(ps), k) == Lookup(ps, k)
    ensures PreviousStrategy(ps) == ps
  {
    LookupMissing(ps, "page");
    MergePage(ps, NaN);
  }

  datatype Move = Forward | Back

  function Step(ps: Params, m: Move): Params
  {
    match m
    case Forward => NextStrategy(ps)
    case Back => PreviousStrategy(ps)
  }

  /** The parameters after the pager's strategies run for `moves`, in order. */
  function Navigate(ps: Params, moves: seq<Move>): Params
    decreases |moves|
  {
    if moves == [] then ps else Navigate(Step(ps, moves[0]), moves[1..])
  }

  predicate PageInRange(ps: Params)
  {
    match Lookup(ps, "page")
    case Some(Num(p)) => 1 <= p <= MaxPage
    case _ => false
  }

  lemma StepStaysInRange(ps: Params, m: Move)
    requires PageInRange(ps)
    ensures PageInRange(Step(ps, m))
  {
    var p := Lookup(ps, "page").value.n;
    match m {
      case Forward => NextFromPage(ps, p);
      case Back =>
        PreviousFromPage(ps, p);
        if p > 1 {
          LookupAt(PreviousStrategy(ps), 0);
        }
    }
  }

  /** Starting on a page in 1..10, any sequence of next and previous keeps the page in 1..10. */
  lemma {:induction false} NavigationStaysInRange(ps: Params, moves: seq<Move>)
    requires PageInRange(ps)
    ensures PageInRange(Navigate(ps, moves))
    decreases |moves|
  {
    if moves != [] {
      StepStaysInRange(ps, moves[0]);
      NavigationStaysInRange(Step(ps, moves[0]), moves[1..]);
    }
  }

  function Min(a: int, b: int): int
  {
    if a <= b then a else b
  }

  /** `k` calls of next from page `p` in 1..10 reach page `min(p + k, 10)`. */
  lemma {:induction false} ForwardSteps(ps: Params, p: int, k: nat)
    requires Lookup(ps, "page") == Some(Num(p)) && 1 <= p <= MaxPage
    ensures Lookup(Navigate(ps, seq(k, _ => Forward)), "page") == Some(Num(Min(p + k, MaxPage)))
    decreases k
  {
    if k > 0 {
      var moves := seq(k, _ => Forward);
      assert moves[0] == Forward && moves[1..] == seq(k - 1, _ => Forward);
      NextFromPage(ps, p);
      var q := if p < MaxPage then p + 1 else p;
      ForwardSteps(NextStrategy(ps), q, k - 1);
    }
  }

  class ExamplePager<T> {
    const query: Fetch.FetchQuery<T>
    const navigator: FetchQueryIterator<T>

    ghost predicate Valid()
      reads this, query
    {
      navigator.fetchQuery == query && navigator.config == PagerConfig() && query.Valid()
    }

    constructor(query: Fetch.FetchQuery<T>)
      requires query.Valid()
      ensures Valid() && this.query == query
    {
      this.query := query;
      navigator := new FetchQueryIterator(query, PagerConfig());
    }

    method CanGoNext() returns (b: bool)
      ensures b == CanGoNextAt(query.params)
    {
      var ps := query.GetSearchParams();
      b := CanGoNextAt(ps);
    }

    method CanGoPrevious() returns (b: bool)
      ensures b == CanGoPreviousAt(query.params)
    {
      var ps := query.GetSearchParams();
      b := CanGoPreviousAt(ps);
    }

    /** Runs the next strategy and dispatches the query, even when the boundary left the parameters alone. */
    method Next(network: seq<Response<T>>)
      requires Valid()
      modifies query
      ensures Valid() && StrategyThenQuery(query, NextStrategy, network)
      ensures !old(CanGoNextAt(query.params)) ==> query.params == old(query.params)
      ensures |query.sent| > old(|query.sent|)
    {
      var _ := navigator.Next(network);
    }

    /** Runs the previous strategy and dispatches the query, even when the boundary left the parameters alone. */
    method Previous(network: seq<Response<T>>)
      requires Valid()
      modifies query
      ensures Valid() && StrategyThenQuery(query, PreviousStrategy, network)
      ensures !old(CanGoPreviousAt(query.params)) ==> query.params == old(query.params)
      ensures |query.sent| > old(|query.sent|)
    {
      var _ := navigator.Previous(network);
    }
  }
}
