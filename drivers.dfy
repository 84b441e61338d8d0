/**
 * The pagination drivers: the stop sentinel, the two driver predicates and
 * the synchronous driver, whose lifecycle hooks own one merger and swap the
 * merged body in when the pages are done.
 *
 * The two package trees (github_pagination/.../pagination_drivers and
 * githubpagination/drivers) hold the same code with the sentinel renamed;
 * the model states it once, for the tree's sentinel.
 */
module PaginationDrivers {

  import opened Wrappers
  import opened GoErrors
  import opened Streams
  import opened Http
  import opened DetectType
  import opened JsonMerger
  import opened Pagination

  /** pagination_drivers.StopPaginationError: errors.New("stop pagination"). */
  const StopPaginationError := Sentinel("pagination_drivers.StopPaginationError")

  /** drivers.ErrStopPagination: its renamed twin, a value of its own. */
  const ErrStopPagination := Sentinel("drivers.ErrStopPagination")

  /** ShouldStop: the error is the sentinel or wraps it, at any depth. */
  function ShouldStop(err: Option<Error>, stop: Error): (b: bool)
    ensures b <==> err.Some? && stop in Chain(err.value)
  {
    if err.None? then false
    else
      IsIffInChain(err.value, stop);
      Is(err.value, stop)
  }

  /** isNonPaginatedRequest: no next request after the first page. */
  predicate IsNonPaginatedRequest(nextRequest: Request?, pageCount: int) {
    nextRequest == null && pageCount == 1
  }

  class SyncPaginationDriver {
    /** The sentinel of the driver's package. */
    const stop: Error
    const merger: Merger

    ghost predicate Valid()
      reads this, merger, merger.Repr
    {
      merger.Valid()
    }

    /** NewSyncPaginationDriver: a fresh merger of its own, no shape yet. */
    constructor (stop: Error)
      ensures this.stop == stop && Valid() && fresh(merger) && fresh(merger.Repr)
      ensures merger.State() == Untyped
    {
      this.stop := stop;
      merger := new Merger();
    }

    /** OnNextRequest: the sentinel for a request that is not paginated, otherwise nil. */
    method OnNextRequest(request: Request?, pageCount: int) returns (err: Option<Error>)
      ensures ShouldStop(err, stop) <==> IsNonPaginatedRequest(request, pageCount)
      ensures err.None? || err == Some(stop)
    {
      if IsNonPaginatedRequest(request, pageCount) {
        return Some(stop);
      }
      return None;
    }

    /** OnNextResponse: the body goes to the merger, whose error comes back unchanged. */
    method OnNextResponse(response: Response, nextRequest: Request?, pageCount: int) returns (err: Option<Error>)
      requires Valid()
      modifies merger.Repr, response.body
      ensures Valid() && fresh(merger.Repr - old(merger.Repr))
      ensures (merger.State(), err) == MergerStep(old(merger.State()), old(response.body.Snapshot()))
      ensures response.body.closeCount == old(response.body.closeCount) + ClosesOnStep(old(merger.State()), old(response.body.Snapshot()))
      ensures LeftAfterReading(response.body.pending, old(response.body.pending))
      ensures Delegated(old(merger.State()), old(response.body.Snapshot())) ==> response.body.pending == []
    {
      err := merger.ReadNext(response.body);
    }

    /**
     * OnFinish: past the first page the body becomes the merged one; a single
     * page keeps its own. Never an error.
     */
    method OnFinish(response: Response, pageCount: int) returns (err: Option<Error>)
      requires Valid() && (pageCount > 1 ==> merger.State().Kind() != Unknown)
      modifies response
      ensures err.None?
      ensures pageCount > 1 ==> fresh(response.body) && response.body.Snapshot() == MergedPage(merger.State())
      ensures pageCount <= 1 ==> response.body == old(response.body)
    {
      if pageCount > 1 {
        SwapBody(merger, response, merger.State());
      }
      return None;
    }

    /** OnBadResponse: nothing to do. */
    method OnBadResponse(response: Response?, err: Error)
      ensures response != null ==> unchanged(response)
    {
    }
  }

  /* ------------------------------------------------------------------ lemmas */

  /** Wrapping the sentinel with `%w`, any number of times, still stops. */
  lemma {:induction false} WrappedStopStops(n: nat, contexts: seq<string>, stop: Error)
    requires |contexts| >= n
    ensures ShouldStop(Some(WrapN(n, contexts, stop)), stop)
  {
    WrappingKeepsTarget(n, contexts, stop);
  }

  /** Nil never stops, and neither does a `%v` copy of the sentinel's text. */
  lemma NothingElseStops(context: string, stop: Error)
    ensures !ShouldStop(None, stop)
    ensures !ShouldStop(Some(Formatted(context, stop)), stop)
  {
    assert Chain(Formatted(context, stop)) == [Formatted(context, stop)];
  }

  /** The two packages' sentinels are different errors: neither stops the other's driver. */
  lemma SentinelsApart()
    ensures !ShouldStop(Some(StopPaginationError), ErrStopPagination)
    ensures !ShouldStop(Some(ErrStopPagination), StopPaginationError)
  {
    assert Chain(StopPaginationError) == [StopPaginationError];
    assert Chain(ErrStopPagination) == [ErrStopPagination];
  }

  /**
   * The driver's stop rule is RoundTrip's early exit: on a 200 first page,
   * no next request means the page comes back as it is, one request sent.
   */
  lemma StopIsEarlyExit(base: Transport, nextOf: NextRule, step: MergeRule, req: RequestValue, max: int, m: MergerState,
                        fuel: nat, next: Request?)
    requires fuel > 0 && base(req).Served? && base(req).statusCode == StatusOK
    requires (next == null) == nextOf(req, base(req).header).None?
    requires IsNonPaginatedRequest(next, 1)
    ensures Run(base, nextOf, step, req, max, m, 1, fuel) == Trip([req], Answered(StatusOK, base(req).header, base(req).page))
  {
    SinglePageUntouched(base, nextOf, step, req, max, m, fuel);
  }
}
