/**
 * GitHubPagination: the round tripper that follows the Link header from page
 * to page, merges the successful pages' bodies and hands back the last
 * response carrying the merged body.
 */
module Pagination {

  import opened Wrappers
  import opened GoErrors
  import opened JsonValues
  import opened Streams
  import opened Http
  import opened LinkHeader
  import opened DetectType
  import opened JsonMerger
  import opened PaginationConfig
  import opened PaginationResponse
  import opened Text
  import opened Slices
  import opened MapCombine
  import opened Maps

  /** The underlying http.RoundTripper, as what it answers for each request. */
  type Transport = RequestValue -> Fetch

  /** What RoundTrip hands back. */
  datatype Outcome =
    | TransportFailed(err: Error)
    | Answered(statusCode: int, header: Option<Header>, body: Page)
    | MergeFailed(statusCode: int, header: Option<Header>, err: Error)
    | OutOfFuel

  /** The requests sent, in order, and the outcome. */
  datatype Trip = Trip(sent: seq<RequestValue>, outcome: Outcome)

  /**
   * How the next request follows from a request and its response's header:
   * the loop is stated for any such rule, RoundTrip uses the Link-header
   * parser (NextRequest).
   */
  type NextRule = (RequestValue, Option<Header>) -> Option<RequestValue>

  /**
   * How the merger takes in one page, as in MergerStep; stated as a rule for
   * the same reason. A page taken in without error fixes the merged shape.
   */
  type MergeRule = step: (MergerState, Page) -> (MergerState, Option<Error>)
    | forall s, page :: step(s, page).1.None? ==> step(s, page).0.Kind() != Unknown
    witness (s: MergerState, page: Page) => (ArrayMerging([]), None)

  /** The merger's own step, as a rule. */
  const MergerRule: MergeRule := MergerStep

  /** `step` is the merger's own step. */
  ghost predicate IsMergerStep(step: MergeRule) {
    forall s, page {:trigger MergerStep(s, page)} :: step(s, page) == MergerStep(s, page)
  }

  /** The rules RoundTrip follows: the Link-header parser and the merger. */
  ghost predicate RoundTripRules(nextOf: NextRule, step: MergeRule) {
    && (forall prev, header {:trigger NextRequest(prev, header)} :: nextOf(prev, header) == NextRequest(prev, header))
    && IsMergerStep(step)
  }

  /** The transport's answer handed back as it is. */
  function Passthrough(f: Fetch): Outcome {
    match f
    case Failed(e) => TransportFailed(e)
    case Served(code, header, page) => Answered(code, header, page)
  }

  /** What one turn of the loop decides. */
  datatype Verdict =
    | Return(outcome: Outcome)
    | Break(statusCode: int, header: Option<Header>, page: Page, m: MergerState, pageCount: nat)
    | Continue(next: RequestValue, m: MergerState, pageCount: nat)

  /**
   * One turn of the loop on `req`, with `m` what the merger holds and
   * `pageCount` the loop's counter: hand back at once (transport error,
   * non-200 status), leave a single page without a next link untouched, or
   * merge the body and decide on what comes next.
   */
  function PageVerdict(base: Transport, nextOf: NextRule, step: MergeRule, req: RequestValue, maxNumOfPages: int, m: MergerState, pageCount: nat): (v: Verdict)
    requires pageCount >= 1
    ensures v.Break? ==> v.pageCount >= 1 && (v.pageCount > 1 ==> v.m.Kind() != Unknown)
    ensures v.Continue? ==>
              && v.m.Kind() != Unknown && v.pageCount == pageCount + 1
              && base(req).Served? && Some(v.next) == nextOf(req, base(req).header)
  {
    match base(req)
    case Failed(e) => Return(TransportFailed(e))
    case Served(code, header, page) =>
      if code != StatusOK then Return(Answered(code, header, page))
      else
        var next := nextOf(req, header);
        if next.None? && pageCount == 1 then Break(code, header, page, m, 1)
        else MergeVerdict(step, code, header, page, next, maxNumOfPages, m, pageCount)
  }

  /**
   * The rest of a turn on a 200 page that is merged: a merge error is handed
   * back, no next link or a next page past the limit leaves the loop, and
   * otherwise the loop goes on with the page counted.
   */
  function MergeVerdict(step: MergeRule, code: int, header: Option<Header>, page: Page, next: Option<RequestValue>,
                        maxNumOfPages: int, m: MergerState, pageCount: nat): (v: Verdict)
    ensures v.Return? ==> v.outcome.MergeFailed? && step(m, page).1.Some?
    ensures v.Break? || v.Continue? ==> step(m, page).1.None? && v.m == step(m, page).0 && v.m.Kind() != Unknown
    ensures v.Break? ==> v.pageCount >= pageCount && v.statusCode == code && v.header == header && v.page == page
    ensures v.Continue? ==> Some(v.next) == next && v.pageCount == pageCount + 1
  {
    var (m', e) := step(m, page);
    if e.Some? then Return(MergeFailed(code, header, e.value))
    else if next.None? then Break(code, header, page, m', pageCount)
    else if Overflows(maxNumOfPages, pageCount + 1) then Break(code, header, page, m', pageCount + 1)
    else Continue(next.value, m', pageCount + 1)
  }

  /** After the loop: only a paginated answer gets the merged body. */
  function Leave(v: Verdict): Outcome
    requires v.Break? && (v.pageCount > 1 ==> v.m.Kind() != Unknown)
  {
    if v.pageCount > 1 then Answered(v.statusCode, v.header, MergedPage(v.m))
    else Answered(v.statusCode, v.header, v.page)
  }

  /** One unit of fuel spent. */
  function Spend(fuel: nat): (r: nat)
    requires fuel > 0
    ensures r < fuel
  {
    fuel - 1
  }

  /**
   * The pagination loop from a request on; `fuel` bounds the number of
   * requests (a loop over a server that always names a next page, with no
   * page limit, does not end).
   */
  function Run(base: Transport, nextOf: NextRule, step: MergeRule, req: RequestValue, maxNumOfPages: int, m: MergerState, pageCount: nat, fuel: nat): (t: Trip)
    requires pageCount >= 1
    ensures |t.sent| <= fuel
    ensures t.outcome != OutOfFuel ==> |t.sent| >= 1 && t.sent[0] == req
    decreases fuel
  {
    if fuel == 0 then Trip([], OutOfFuel)
    else
      var v := PageVerdict(base, nextOf, step, req, maxNumOfPages, m, pageCount);
      match v
      case Return(o) => Trip([req], o)
      case Break(_, _, _, _, _) => Trip([req], Leave(v))
      case Continue(next, m', count) =>
        var rest := Run(base, nextOf, step, next, maxNumOfPages, m', count, Spend(fuel));
        Trip([req] + rest.sent, rest.outcome)
  }

  /** RoundTrip under one request's config: straight through when disabled, otherwise per_page set once and the loop. */
  function Paginate(base: Transport, config: ConfigValue, req: RequestValue, fuel: nat): Trip {
    if config.disabled then Trip([req], Passthrough(base(req)))
    else Run(base, NextRequest, MergerRule, req.(query := PerPageQuery(req.query, config.defaultPerPage)), config.maxNumOfPages, Untyped, 1, fuel)
  }

  /** A response and an error that say what `o` says. */
  ghost predicate Delivers(resp: Response?, err: Option<Error>, o: Outcome)
    reads resp, if resp == null then {} else {resp.body}
  {
    match o
    case TransportFailed(e) => resp == null && err == Some(e)
    case Answered(code, header, body) =>
      resp != null && err.None? && resp.statusCode == code && resp.header == header && resp.body.Snapshot() == body
    case MergeFailed(code, header, e) =>
      resp != null && err == Some(e) && resp.statusCode == code && resp.header == header
    case OutOfFuel => false
  }

  /** One call of the underlying transport: a fresh response around a fresh body, or its error. */
  method Send(base: Transport, request: Request) returns (resp: Response?, err: Option<Error>)
    ensures resp != null ==> fresh(resp) && fresh(resp.body)
    ensures Delivers(resp, err, Passthrough(base(request.Value())))
  {
    match base(request.Value())
    case Failed(e) =>
      resp, err := null, Some(e);
    case Served(code, header, page) =>
      var body := new BodyReader(page.text, page.decoded, page.closeError);
      resp := new Response(code, header, body);
      err := None;
  }

  /** How a turn of the loop ends. */
  datatype Exit = Returning | Breaking | Continuing

  /**
   * The body of RoundTrip's loop, for one page: send, stop on a transport
   * error or a non-200 status, find the next request, merge the body, and
   * count the page against the limit. `req`, `max` and `m` name what
   * `current`, the limit and the merger hold when the turn starts.
   */
  method VisitPage(base: Transport, ghost nextOf: NextRule, ghost step: MergeRule,
                   reqConfig: Config, current: Request, merger: Merger, pageCount: nat,
                   ghost req: RequestValue, ghost max: int, ghost m: MergerState)
    returns (resp: Response?, err: Option<Error>, next: Request?, count: nat, exit: Exit, ghost v: Verdict)
    requires RoundTripRules(nextOf, step)
    requires pageCount >= 1 && merger.Valid()
    requires current.Value() == req && reqConfig.maxNumOfPages == max && merger.State() == m
    modifies merger.Repr
    ensures v == PageVerdict(base, nextOf, step, req, max, m, pageCount)
    ensures merger.Valid() && fresh(merger.Repr - old(merger.Repr))
    ensures resp != null ==> fresh(resp) && fresh(resp.body)
    ensures exit == Returning ==> v.Return? && Delivers(resp, err, v.outcome)
    ensures exit == Breaking ==>
              && v.Break? && resp != null && err.None? && resp.statusCode == v.statusCode && resp.header == v.header
              && count == v.pageCount && merger.State() == v.m
              && (count == 1 ==> resp.body.Snapshot() == v.page)
    ensures exit == Continuing ==>
              v.Continue? && next != null && next.Value() == v.next && merger.State() == v.m && count == v.pageCount
  {
    count, next := pageCount, null;
    resp, err := Send(base, current);
    if err.Some? {
      v, exit := Return(TransportFailed(err.value)), Returning;
      return;
    }
    ghost var page := resp.body.Snapshot();
    assert base(req) == Served(resp.statusCode, resp.header, page);
    if resp.statusCode != StatusOK {
      v, exit := Return(Answered(resp.statusCode, resp.header, page)), Returning;
      return;
    }
    next := NextRequestFor(current, resp);
    // early exit for a request that is not paginated
    if next == null && pageCount == 1 {
      v, exit := Break(resp.statusCode, resp.header, page, m, 1), Breaking;
      return;
    }
    ghost var nextValue := if next == null then None else Some(next.Value());
    err, count, exit, v := MergePage(step, reqConfig, merger, resp.body, next, pageCount,
                                     resp.statusCode, resp.header, page, nextValue, max, m);
  }

  /**
   * The rest of VisitPage once the page is a 200 that is merged: merge the
   * body, stop without a next request, count the page against the limit.
   */
  method MergePage(ghost step: MergeRule, reqConfig: Config, merger: Merger, body: BodyReader, next: Request?, pageCount: nat,
                   ghost code: int, ghost header: Option<Header>, ghost page: Page,
                   ghost nextValue: Option<RequestValue>, ghost max: int, ghost m: MergerState)
    returns (err: Option<Error>, count: nat, exit: Exit, ghost v: Verdict)
    requires IsMergerStep(step)
    requires merger.Valid() && merger.State() == m && body.Snapshot() == page
    requires reqConfig.maxNumOfPages == max
    requires nextValue == if next == null then None else Some(next.Value())
    modifies merger.Repr, body
    ensures v == MergeVerdict(step, code, header, page, nextValue, max, m, pageCount)
    ensures merger.Valid() && fresh(merger.Repr - old(merger.Repr))
    ensures exit == Returning ==> v.Return? && err == Some(v.outcome.err)
    ensures exit == Breaking ==> v.Break? && err.None? && count == v.pageCount && merger.State() == v.m
    ensures exit == Continuing ==> v.Continue? && next != null && count == v.pageCount && merger.State() == v.m
  {
    count := pageCount;
    err := merger.ReadNext(body);
    if err.Some? {
      v, exit := Return(MergeFailed(code, header, err.value)), Returning;
      return;
    }
    if next == null {
      v, exit := Break(code, header, page, merger.State(), pageCount), Breaking;
      return;
    }
    count := count + 1;
    var overflow := reqConfig.IsPaginationOverflow(count);
    if overflow {
      v, exit := Break(code, header, page, merger.State(), count), Breaking;
      return;
    }
    v, exit := Continue(nextValue.value, merger.State(), count), Continuing;
  }

  /**
   * One turn of the loop, for its invariant: with `sent` already sent and the
   * rest of the loop from `req` on still to come, the verdict on `req` either
   * ends the trip with `req` sent last or leaves the rest of the loop from the
   * next request on.
   */
  lemma LoopTurn(base: Transport, nextOf: NextRule, step: MergeRule, req: RequestValue, max: int, m: MergerState, pageCount: nat, fuel: nat,
                 total: Trip, sent: seq<RequestValue>)
    requires pageCount >= 1
    requires Run(base, nextOf, step, req, max, m, pageCount, fuel).outcome != OutOfFuel
    requires total == Trip(sent + Run(base, nextOf, step, req, max, m, pageCount, fuel).sent, Run(base, nextOf, step, req, max, m, pageCount, fuel).outcome)
    ensures fuel > 0
    ensures var v := PageVerdict(base, nextOf, step, req, max, m, pageCount);
            && (v.Return? ==> total == Trip(sent + [req], v.outcome))
            && (v.Break? ==> total == Trip(sent + [req], Leave(v)))
            && (v.Continue? ==>
                  var rest := Run(base, nextOf, step, v.next, max, v.m, v.pageCount, Spend(fuel));
                  rest.outcome != OutOfFuel && total == Trip((sent + [req]) + rest.sent, rest.outcome))
  {
    var v := PageVerdict(base, nextOf, step, req, max, m, pageCount);
    if v.Continue? {
      var rest := Run(base, nextOf, step, v.next, max, v.m, v.pageCount, Spend(fuel));
      assert sent + ([req] + rest.sent) == (sent + [req]) + rest.sent;
    }
  }

  /**
   * One turn of RoundTrip's loop, stated against the whole trip: with `sent`
   * already sent and the loop from `req` on still to come, the page either
   * ends the trip with `req` sent last or leaves the loop from the next
   * request on.
   */
  method Turn(base: Transport, ghost nextOf: NextRule, ghost step: MergeRule, reqConfig: Config, current: Request, merger: Merger, pageCount: nat,
              ghost req: RequestValue, ghost max: int, ghost m: MergerState, ghost fuel: nat,
              ghost total: Trip, ghost sent: seq<RequestValue>)
    returns (resp: Response?, err: Option<Error>, next: Request?, count: nat, exit: Exit, ghost v: Verdict)
    requires RoundTripRules(nextOf, step)
    requires pageCount >= 1 && merger.Valid()
    requires current.Value() == req && reqConfig.maxNumOfPages == max && merger.State() == m
    requires Run(base, nextOf, step, req, max, m, pageCount, fuel).outcome != OutOfFuel
    requires total == Trip(sent + Run(base, nextOf, step, req, max, m, pageCount, fuel).sent, Run(base, nextOf, step, req, max, m, pageCount, fuel).outcome)
    modifies merger.Repr
    ensures fuel > 0
    ensures merger.Valid() && fresh(merger.Repr - old(merger.Repr))
    ensures resp != null ==> fresh(resp) && fresh(resp.body)
    ensures exit == Returning ==> v.Return? && total == Trip(sent + [req], v.outcome) && Delivers(resp, err, v.outcome)
    ensures exit == Breaking ==>
              && v.Break? && v.pageCount >= 1 && (v.pageCount > 1 ==> v.m.Kind() != Unknown) && total == Trip(sent + [req], Leave(v))
              && resp != null && err.None? && resp.statusCode == v.statusCode && resp.header == v.header
              && count == v.pageCount && merger.State() == v.m
              && (count == 1 ==> resp.body.Snapshot() == v.page)
    ensures exit == Continuing ==>
              && next != null && count >= 1
              && Run(base, nextOf, step, next.Value(), max, merger.State(), count, Spend(fuel)).outcome != OutOfFuel
              && total == Trip((sent + [req]) + Run(base, nextOf, step, next.Value(), max, merger.State(), count, Spend(fuel)).sent,
                               Run(base, nextOf, step, next.Value(), max, merger.State(), count, Spend(fuel)).outcome)
  {
    LoopTurn(base, nextOf, step, req, max, m, pageCount, fuel, total, sent);
    resp, err, next, count, exit, v := VisitPage(base, nextOf, step, reqConfig, current, merger, pageCount, req, max, m);
  }

  /**
   * RoundTrip's loop from the per_page-updated request on, and the body swap
   * after it; `req0` and `max` name the request's value and the page limit.
   */
  method FollowPages(base: Transport, ghost nextOf: NextRule, ghost step: MergeRule, reqConfig: Config, request: Request, ghost req0: RequestValue, ghost max: int,
                     ghost fuel: nat)
    returns (resp: Response?, err: Option<Error>, ghost sent: seq<RequestValue>, ghost outcome: Outcome)
    requires RoundTripRules(nextOf, step)
    requires request.Value() == req0 && reqConfig.maxNumOfPages == max
    requires Run(base, nextOf, step, req0, max, Untyped, 1, fuel).outcome != OutOfFuel
    ensures Trip(sent, outcome) == Run(base, nextOf, step, req0, max, Untyped, 1, fuel)
    ensures Delivers(resp, err, outcome)
    ensures resp != null ==> fresh(resp) && fresh(resp.body)
  {
    ghost var total := Run(base, nextOf, step, req0, max, Untyped, 1, fuel);
    var merger := new Merger();
    var pageCount := 1;
    var current: Request := request;
    ghost var req, m, remaining := req0, Untyped, fuel;
    ghost var last: Verdict := Return(OutOfFuel);
    sent := [];
    while true
      invariant merger.Valid() && fresh(merger.Repr) && merger.State() == m
      invariant current.Value() == req && reqConfig.maxNumOfPages == max
      invariant pageCount >= 1
      invariant Run(base, nextOf, step, req, max, m, pageCount, remaining).outcome != OutOfFuel
      invariant total == Trip(sent + Run(base, nextOf, step, req, max, m, pageCount, remaining).sent, Run(base, nextOf, step, req, max, m, pageCount, remaining).outcome)
      decreases remaining
    {
      var next, exit;
      ghost var v;
      resp, err, next, pageCount, exit, v := Turn(base, nextOf, step, reqConfig, current, merger, pageCount, req, max, m, remaining, total, sent);
      sent := sent + [req];
      if exit == Returning {
        outcome := v.outcome;
        return;
      }
      if exit == Breaking {
        last, outcome := v, Leave(v);
        break;
      }
      current := next;
      req, m := next.Value(), merger.State();
      remaining := Spend(remaining);
    }
    // only a paginated answer gets the merged body
    if pageCount > 1 {
      SwapBody(merger, resp, last.m);
    }
  }

  /** The last response's body replaced by a fresh reader over the merged text. */
  method SwapBody(merger: Merger, resp: Response, ghost m: MergerState)
    requires merger.Valid() && merger.State() == m && m.Kind() != Unknown
    modifies resp
    ensures fresh(resp.body) && resp.body.Snapshot() == MergedPage(m)
  {
    var merged := merger.Merged();
    var decoded := merger.MergedDecoded();
    resp.body := new BodyReader(merged, decoded, None);
  }

  class GitHubPagination {
    const base: Transport
    const config: Config

    /** NewGithubPagination: the transport and a config built from the options. */
    constructor (base: Transport, opts: seq<Option<ConfigOption>>)
      ensures this.base == base && fresh(config)
      ensures config.Value() == ApplyAll(ZeroConfig, opts, |opts|)
    {
      this.base := base;
      config := new Config(opts);
    }

    /**
     * RoundTrip: the request's config decides; the answer is the transport's
     * own when pagination is off, a non-200 response, or a single page, and
     * otherwise the last response with the merged body.
     */
    method RoundTrip(request: Request, overrides: Option<seq<Option<ConfigOption>>>, ghost fuel: nat)
      returns (resp: Response?, err: Option<Error>, ghost sent: seq<RequestValue>)
      requires Paginate(base, RequestConfig(config.Value(), overrides), request.Value(), fuel).outcome != OutOfFuel
      modifies request
      ensures var t := Paginate(base, RequestConfig(config.Value(), overrides), old(request.Value()), fuel);
              sent == t.sent && Delivers(resp, err, t.outcome)
      ensures resp != null ==> fresh(resp) && fresh(resp.body)
      ensures var cfg := RequestConfig(config.Value(), overrides);
              request.Value()
                == if cfg.disabled then old(request.Value())
                   else old(request.Value()).(query := PerPageQuery(old(request.query), cfg.defaultPerPage))
    {
      var reqConfig := config.GetRequestConfig(overrides);
      if reqConfig.disabled {
        resp, err := Send(base, request);
        sent := [request.Value()];
        return;
      }
      // enough once: the query parameters carry over from page to page
      reqConfig.UpdateRequest(request);
      ghost var outcome;
      resp, err, sent, outcome := FollowPages(base, NextRequest, MergerRule, reqConfig, request, request.Value(), reqConfig.maxNumOfPages, fuel);
    }
  }

  /* ------------------------------------------------------------------ lemmas */

  /** `b` is `a` with at most the pagination parameters changed. */
  predicate CarriesOver(a: RequestValue, b: RequestValue) {
    && b.verb == a.verb && b.path == a.path
    && a.query.Keys <= b.query.Keys
    && forall k :: k in a.query && k !in PaginationKeys ==> b.query[k] == a.query[k]
  }

  /** A rule whose next request is always the previous one with at most the pagination parameters changed. */
  ghost predicate KeepsTheRest(nextOf: NextRule) {
    forall prev, header :: nextOf(prev, header).Some? ==> CarriesOver(prev, nextOf(prev, header).value)
  }

  /** The Link-header parser changes nothing but the pagination parameters. */
  lemma ParserKeepsTheRest()
    ensures KeepsTheRest(NextRequest)
  {
    forall prev, header | NextRequest(prev, header).Some?
      ensures CarriesOver(prev, NextRequest(prev, header).value)
    {
      NextRequestKeepsTheRest(prev, header);
    }
  }

  /**
   * Under such a rule, every request the loop sends is the first one with at
   * most the pagination parameters changed.
   */
  lemma {:induction false} RunCarriesOver(base: Transport, nextOf: NextRule, step: MergeRule, req: RequestValue, max: int, m: MergerState, pageCount: nat, fuel: nat)
    requires pageCount >= 1 && KeepsTheRest(nextOf)
    ensures var t := Run(base, nextOf, step, req, max, m, pageCount, fuel);
            forall i :: 0 <= i < |t.sent| ==> CarriesOver(req, t.sent[i])
    decreases fuel
  {
    if fuel > 0 {
      var v := PageVerdict(base, nextOf, step, req, max, m, pageCount);
      if v.Continue? {
        var rest := Run(base, nextOf, step, v.next, max, v.m, v.pageCount, Spend(fuel));
        RunCarriesOver(base, nextOf, step, v.next, max, v.m, v.pageCount, Spend(fuel));
        assert forall j :: 0 <= j < |Run(base, nextOf, step, v.next, max, v.m, v.pageCount, Spend(fuel)).sent| ==> CarriesOver(v.next, Run(base, nextOf, step, v.next, max, v.m, v.pageCount, Spend(fuel)).sent[j]);
        var t := Run(base, nextOf, step, req, max, m, pageCount, fuel);
        assert t.sent == [req] + rest.sent;
        assert CarriesOver(req, v.next);
        forall i | 0 <= i < |t.sent|
          ensures CarriesOver(req, t.sent[i])
        {
          if i > 0 {
            assert t.sent[i] == rest.sent[i - 1];
            assert CarriesOver(v.next, rest.sent[i - 1]);
          }
        }
      }
    }
  }

  /**
   * With per_page configured, every request the loop sends asks for that many
   * items, and method and URL never change.
   */
  lemma PerPageThroughout(base: Transport, config: ConfigValue, req: RequestValue, fuel: nat)
    requires !config.disabled && config.defaultPerPage != 0
    ensures var t := Paginate(base, config, req, fuel);
            forall i :: 0 <= i < |t.sent| ==>
              && t.sent[i].verb == req.verb && t.sent[i].path == req.path
              && "per_page" in t.sent[i].query
              && Atoi(t.sent[i].query["per_page"]) == Some(config.defaultPerPage)
  {
    var first := req.(query := PerPageQuery(req.query, config.defaultPerPage));
    PerPageReadsBack(req.query, config.defaultPerPage);
    ParserKeepsTheRest();
    RunCarriesOver(base, NextRequest, MergerRule, first, config.maxNumOfPages, Untyped, 1, fuel);
    assert "per_page" !in PaginationKeys;
    assert Paginate(base, config, req, fuel) == Run(base, NextRequest, MergerRule, first, config.maxNumOfPages, Untyped, 1, fuel);
    forall i | 0 <= i < |Run(base, NextRequest, MergerRule, first, config.maxNumOfPages, Untyped, 1, fuel).sent|
      ensures var s := Run(base, NextRequest, MergerRule, first, config.maxNumOfPages, Untyped, 1, fuel).sent[i];
              s.verb == req.verb && s.path == req.path
              && "per_page" in s.query && s.query["per_page"] == first.query["per_page"]
    {
      assert CarriesOver(first, Run(base, NextRequest, MergerRule, first, config.maxNumOfPages, Untyped, 1, fuel).sent[i]);
    }
  }

  /** From page `pageCount` on, a positive page limit leaves at most the pages up to it. */
  lemma {:induction false} RunSendsAtMost(base: Transport, nextOf: NextRule, step: MergeRule, req: RequestValue, max: int, m: MergerState, pageCount: nat, fuel: nat)
    requires 1 <= pageCount <= max
    ensures |Run(base, nextOf, step, req, max, m, pageCount, fuel).sent| <= max - pageCount + 1
    decreases fuel
  {
    if fuel > 0 {
      var v := PageVerdict(base, nextOf, step, req, max, m, pageCount);
      if v.Continue? {
        RunSendsAtMost(base, nextOf, step, v.next, max, v.m, v.pageCount, Spend(fuel));
      }
    }
  }

  /** Fuel for every page up to a positive limit is enough: the loop ends. */
  lemma {:induction false} EnoughFuel(base: Transport, nextOf: NextRule, step: MergeRule, req: RequestValue, max: int, m: MergerState, pageCount: nat, fuel: nat)
    requires 1 <= pageCount <= max && fuel >= max - pageCount + 1
    ensures Run(base, nextOf, step, req, max, m, pageCount, fuel).outcome != OutOfFuel
    decreases fuel
  {
    var v := PageVerdict(base, nextOf, step, req, max, m, pageCount);
    if v.Continue? {
      EnoughFuel(base, nextOf, step, v.next, max, v.m, v.pageCount, Spend(fuel));
    }
  }

  /**
   * MaxNumOfPages = M > 0: RoundTrip sends at most M requests, and always ends
   * (fuel M is enough).
   */
  lemma PageLimit(base: Transport, config: ConfigValue, req: RequestValue, fuel: nat)
    requires !config.disabled && config.maxNumOfPages > 0
    ensures |Paginate(base, config, req, fuel).sent| <= config.maxNumOfPages
    ensures fuel >= config.maxNumOfPages ==> Paginate(base, config, req, fuel).outcome != OutOfFuel
  {
    var first := req.(query := PerPageQuery(req.query, config.defaultPerPage));
    RunSendsAtMost(base, NextRequest, MergerRule, first, config.maxNumOfPages, Untyped, 1, fuel);
    if fuel >= config.maxNumOfPages {
      EnoughFuel(base, NextRequest, MergerRule, first, config.maxNumOfPages, Untyped, 1, fuel);
    }
  }

  /**
   * An error or a non-200 answer is the last fetch's own: a transport error
   * as it came, a non-200 response as it came (the pages merged before it
   * dropped), a merge error with the last response's status and header.
   */
  ghost predicate EndsOnLastFetch(base: Transport, t: Trip) {
    t.outcome != OutOfFuel ==>
      && |t.sent| >= 1
      && var last := base(t.sent[|t.sent| - 1]);
         && (t.outcome.TransportFailed? ==> last == Failed(t.outcome.err))
         && (t.outcome.Answered? && t.outcome.statusCode != StatusOK ==>
               last == Served(t.outcome.statusCode, t.outcome.header, t.outcome.body))
         && (t.outcome.MergeFailed? ==>
               last.Served? && last.statusCode == StatusOK == t.outcome.statusCode && last.header == t.outcome.header)
         && (t.outcome.Answered? && t.outcome.statusCode == StatusOK ==>
               last.Served? && last.statusCode == StatusOK && last.header == t.outcome.header)
  }

  /** Every trip of the loop ends on its last fetch's answer. */
  lemma {:induction false} RunEndsOnLastFetch(base: Transport, nextOf: NextRule, step: MergeRule, req: RequestValue, max: int, m: MergerState, pageCount: nat, fuel: nat)
    requires pageCount >= 1
    ensures EndsOnLastFetch(base, Run(base, nextOf, step, req, max, m, pageCount, fuel))
    decreases fuel
  {
    if fuel > 0 {
      var v := PageVerdict(base, nextOf, step, req, max, m, pageCount);
      if v.Continue? {
        RunEndsOnLastFetch(base, nextOf, step, v.next, max, v.m, v.pageCount, Spend(fuel));
        LastFetchAfter(base, req, Run(base, nextOf, step, v.next, max, v.m, v.pageCount, Spend(fuel)));
      }
    }
  }

  /** A request sent in front of a trip leaves its last fetch the last. */
  lemma LastFetchAfter(base: Transport, req: RequestValue, rest: Trip)
    requires EndsOnLastFetch(base, rest)
    ensures EndsOnLastFetch(base, Trip([req] + rest.sent, rest.outcome))
  {
    if rest.outcome != OutOfFuel {
      assert ([req] + rest.sent)[|rest.sent|] == rest.sent[|rest.sent| - 1];
    }
  }

  /** The bodies the transport answered with, request by request. */
  function Bodies(base: Transport, sent: seq<RequestValue>): (pages: seq<Page>)
    requires forall i :: 0 <= i < |sent| ==> base(sent[i]).Served?
    ensures |pages| == |sent| && forall i :: 0 <= i < |sent| ==> pages[i] == base(sent[i]).page
  {
    if sent == [] then [] else [base(sent[0]).page] + Bodies(base, sent[1..])
  }

  /** Every request of a trip that ends without a transport error was answered. */
  lemma {:induction false} RunServed(base: Transport, nextOf: NextRule, step: MergeRule, req: RequestValue, max: int, m: MergerState, pageCount: nat, fuel: nat)
    requires pageCount >= 1
    ensures var t := Run(base, nextOf, step, req, max, m, pageCount, fuel);
            t.outcome != OutOfFuel && !t.outcome.TransportFailed? ==>
              forall i :: 0 <= i < |t.sent| ==> base(t.sent[i]).Served?
    decreases fuel
  {
    if fuel > 0 {
      var v := PageVerdict(base, nextOf, step, req, max, m, pageCount);
      if v.Continue? {
        var rest := Run(base, nextOf, step, v.next, max, v.m, v.pageCount, Spend(fuel));
        RunServed(base, nextOf, step, v.next, max, v.m, v.pageCount, Spend(fuel));
        var t := Run(base, nextOf, step, req, max, m, pageCount, fuel);
        forall i | 0 <= i < |t.sent| && t.outcome != OutOfFuel && !t.outcome.TransportFailed?
          ensures base(t.sent[i]).Served?
        {
          if i > 0 {
            assert t.sent[i] == rest.sent[i - 1];
          }
        }
      }
    }
  }

  /** Feeding a page that merges cleanly, then the rest. */
  lemma MergeAllCons(m: MergerState, p: Page, pages: seq<Page>)
    requires MergerStep(m, p).1.None?
    ensures MergeAll(m, [p] + pages) == MergeAll(MergerStep(m, p).0, pages)
  {
    assert ([p] + pages)[1..] == pages;
  }

  /** The bodies of a trip: the first request's, then the rest's. */
  lemma BodiesCons(base: Transport, req: RequestValue, rest: seq<RequestValue>)
    requires base(req).Served? && forall i :: 0 <= i < |rest| ==> base(rest[i]).Served?
    ensures forall i :: 0 <= i < |[req] + rest| ==> base(([req] + rest)[i]).Served?
    ensures Bodies(base, [req] + rest) == [base(req).page] + Bodies(base, rest)
  {
    assert ([req] + rest)[1..] == rest;
  }

  /** The first page is a 200 with no next link: the loop stops before merging anything. */
  predicate EarlyExit(base: Transport, nextOf: NextRule, req: RequestValue, pageCount: nat) {
    && pageCount == 1 && base(req).Served? && base(req).statusCode == StatusOK
    && nextOf(req, base(req).header).None?
  }

  /** A single page with no next link comes back untouched: one request, its own body. */
  lemma SinglePageUntouched(base: Transport, nextOf: NextRule, step: MergeRule, req: RequestValue, max: int, m: MergerState, fuel: nat)
    requires fuel > 0 && EarlyExit(base, nextOf, req, 1)
    ensures Run(base, nextOf, step, req, max, m, 1, fuel) == Trip([req], Answered(StatusOK, base(req).header, base(req).page))
  {
  }

  /** Every request was answered, and the merge of the answers' bodies, in order, on top of `m` is clean and gave `body`. */
  ghost predicate MergedInOrder(base: Transport, m: MergerState, sent: seq<RequestValue>, body: Page) {
    && (forall i :: 0 <= i < |sent| ==> base(sent[i]).Served?)
    && var merged := MergeAll(m, Bodies(base, sent));
       merged.1.None? && merged.0.Kind() != Unknown && body == MergedPage(merged.0)
  }

  /**
   * Past the early exit, a successful answer carries the merge of every
   * fetched body, in fetch order, on top of what the merger held.
   */
  lemma {:induction false} RunMergesInFetchOrder(base: Transport, nextOf: NextRule, step: MergeRule, req: RequestValue, max: int, m: MergerState, pageCount: nat, fuel: nat)
    requires pageCount >= 1 && !EarlyExit(base, nextOf, req, pageCount) && IsMergerStep(step)
    ensures var t := Run(base, nextOf, step, req, max, m, pageCount, fuel);
            t.outcome.Answered? && t.outcome.statusCode == StatusOK ==>
              MergedInOrder(base, m, t.sent, t.outcome.body)
    decreases fuel
  {
    if fuel > 0 {
      var v := PageVerdict(base, nextOf, step, req, max, m, pageCount);
      if v.Break? {
        LastPageMerges(base, nextOf, step, req, max, m, pageCount);
      } else if v.Continue? {
        var rest := Run(base, nextOf, step, v.next, max, v.m, v.pageCount, Spend(fuel));
        RunMergesInFetchOrder(base, nextOf, step, v.next, max, v.m, v.pageCount, Spend(fuel));
        if rest.outcome.Answered? && rest.outcome.statusCode == StatusOK {
          PageMergesBeforeTheRest(base, nextOf, step, req, max, m, pageCount, rest.sent, rest.outcome.body);
        }
      }
    }
  }

  /** The loop left past the early exit: the last page merged into what the merger held. */
  lemma LastPageMerges(base: Transport, nextOf: NextRule, step: MergeRule, req: RequestValue, max: int, m: MergerState, pageCount: nat)
    requires pageCount >= 1 && !EarlyExit(base, nextOf, req, pageCount) && IsMergerStep(step)
    requires PageVerdict(base, nextOf, step, req, max, m, pageCount).Break?
    ensures MergedInOrder(base, m, [req], Leave(PageVerdict(base, nextOf, step, req, max, m, pageCount)).body)
  {
    var v := PageVerdict(base, nextOf, step, req, max, m, pageCount);
    var page := base(req).page;
    assert v == MergeVerdict(step, StatusOK, base(req).header, page, nextOf(req, base(req).header), max, m, pageCount);
    assert v.pageCount > 1 && v.m == MergerStep(m, page).0;
    BodiesCons(base, req, []);
    MergeAllCons(m, page, []);
  }

  /** A page that leads on to the rest merges in front of the rest's pages. */
  lemma PageMergesBeforeTheRest(base: Transport, nextOf: NextRule, step: MergeRule, req: RequestValue, max: int, m: MergerState, pageCount: nat,
                                rest: seq<RequestValue>, body: Page)
    requires pageCount >= 1 && IsMergerStep(step)
    requires PageVerdict(base, nextOf, step, req, max, m, pageCount).Continue?
    requires MergedInOrder(base, PageVerdict(base, nextOf, step, req, max, m, pageCount).m, rest, body)
    ensures MergedInOrder(base, m, [req] + rest, body)
  {
    BodiesCons(base, req, rest);
    MergeAllCons(m, base(req).page, Bodies(base, rest));
  }

  /**
   * Pages of JSON arrays come back as one array holding every page's elements,
   * page after page in fetch order, whenever the first answer does not end
   * the loop at once (a next link, whatever the page limit).
   */
  lemma ArrayPagesConcatenate(base: Transport, config: ConfigValue, req: RequestValue, fuel: nat)
    requires !config.disabled
    requires var t := Paginate(base, config, req, fuel);
             forall i :: 0 <= i < |t.sent| ==>
               base(t.sent[i]).Served? && base(t.sent[i]).page.decoded.Array? && WellFormed(base(t.sent[i]).page)
    ensures var t := Paginate(base, config, req, fuel);
            && t.outcome.Answered? && t.outcome.statusCode == StatusOK
            && !EarlyExit(base, NextRequest, req.(query := PerPageQuery(req.query, config.defaultPerPage)), 1) ==>
              var items := Elements(Bodies(base, t.sent));
              t.outcome.body == Page(SliceMerged(items), JsonValue.Array(Flatten(items)), None)
  {
    var first := req.(query := PerPageQuery(req.query, config.defaultPerPage));
    var t := Paginate(base, config, req, fuel);
    if t.outcome.Answered? && t.outcome.statusCode == StatusOK && !EarlyExit(base, NextRequest, first, 1) {
      RunMergesInFetchOrder(base, NextRequest, MergerRule, first, config.maxNumOfPages, Untyped, 1, fuel);
      BodiesAreArrays(base, t.sent);
      FreshArrayPage(Bodies(base, t.sent));
    }
  }

  /**
   * Pages of GitHub envelopes come back as one envelope, whenever the first
   * answer does not end the loop at once: the counts summed, the flags OR-ed,
   * and the items of every page one page after the other, in fetch order.
   */
  lemma EnvelopePagesCombine(base: Transport, config: ConfigValue, req: RequestValue, fuel: nat)
    requires !config.disabled
    requires var t := Paginate(base, config, req, fuel);
             forall i :: 0 <= i < |t.sent| ==>
               && base(t.sent[i]).Served? && PagedEnvelope(base(t.sent[i]).page.decoded)
               && base(t.sent[i]).page.closeError.None? && WellFormed(base(t.sent[i]).page)
    ensures var t := Paginate(base, config, req, fuel);
            && t.outcome.Answered? && t.outcome.statusCode == StatusOK
            && !EarlyExit(base, NextRequest, req.(query := PerPageQuery(req.query, config.defaultPerPage)), 1) ==>
              var pages := Bodies(base, t.sent);
              var c := Counters(SumCounts(Decoded(pages)), AnyIncomplete(Decoded(pages)));
              t.outcome.body
                == Page(Envelope(c, SliceMerged(ItemLists(pages))), Object(c.totalCount, c.incomplete, Some(ItemsOf(Flatten(ItemLists(pages))))), None)
  {
    var first := req.(query := PerPageQuery(req.query, config.defaultPerPage));
    var t := Paginate(base, config, req, fuel);
    if t.outcome.Answered? && t.outcome.statusCode == StatusOK && !EarlyExit(base, NextRequest, first, 1) {
      RunMergesInFetchOrder(base, NextRequest, MergerRule, first, config.maxNumOfPages, Untyped, 1, fuel);
      var pages := Bodies(base, t.sent);
      assert CleanEnvelopes(pages);
      FreshMapMerge(pages);
      DictMergedPage(MergeAll(Untyped, pages).0.map_);
      EnvelopeTotals(pages);
    }
  }

  /** Answers that are all well-formed array pages give bodies that are. */
  lemma BodiesAreArrays(base: Transport, sent: seq<RequestValue>)
    requires forall i :: 0 <= i < |sent| ==>
               base(sent[i]).Served? && base(sent[i]).page.decoded.Array? && WellFormed(base(sent[i]).page)
    ensures forall i :: 0 <= i < |sent| ==>
              Bodies(base, sent)[i].decoded.Array? && WellFormed(Bodies(base, sent)[i])
  {
  }
}
