/**
 * The pagination settings: options that each set one field of the config,
 * per-request overrides applied on a copy, the per_page query parameter and
 * the page limit.
 */
module PaginationConfig {

  import opened Wrappers
  import opened Text
  import opened Http

  /** The largest per_page GitHub accepts (declared, not enforced by the options). */
  const MaxPerPage := 100

  /** An option: each one sets a single field of the config. */
  datatype ConfigOption =
    | PaginationEnabled
    | PaginationDisabled
    | PerPage(perPage: int)
    | MaxNumOfPages(maxNumOfPages: int)

  /** The config as a value. */
  datatype ConfigValue = ConfigValue(disabled: bool, defaultPerPage: int, maxNumOfPages: int)

  /** The zero config: pagination on, no per_page, no page limit. */
  const ZeroConfig := ConfigValue(false, 0, 0)

  /** The field an option sets, and what `c` says about it agrees with the option. */
  predicate Agrees(c: ConfigValue, o: ConfigOption) {
    match o
    case PaginationEnabled => !c.disabled
    case PaginationDisabled => c.disabled
    case PerPage(n) => c.defaultPerPage == n
    case MaxNumOfPages(m) => c.maxNumOfPages == m
  }

  /** Two options that set the same field. */
  predicate SameField(a: ConfigOption, b: ConfigOption) {
    (a.PaginationEnabled? || a.PaginationDisabled?) == (b.PaginationEnabled? || b.PaginationDisabled?)
    && a.PerPage? == b.PerPage?
    && a.MaxNumOfPages? == b.MaxNumOfPages?
  }

  /** One option applied: its field takes the option's value and the other fields stay. */
  function Apply(c: ConfigValue, o: ConfigOption): (r: ConfigValue)
    ensures Agrees(r, o)
    ensures forall other :: !SameField(other, o) ==> (Agrees(r, other) <==> Agrees(c, other))
  {
    match o
    case PaginationEnabled => c.(disabled := false)
    case PaginationDisabled => c.(disabled := true)
    case PerPage(n) => c.(defaultPerPage := n)
    case MaxNumOfPages(m) => c.(maxNumOfPages := m)
  }

  /** The first `n` options, in order; a nil option is skipped. */
  function ApplyAll(c: ConfigValue, opts: seq<Option<ConfigOption>>, n: nat): ConfigValue
    requires n <= |opts|
  {
    if n == 0 then c
    else
      var c' := ApplyAll(c, opts, n - 1);
      if opts[n - 1].None? then c' else Apply(c', opts[n - 1].value)
  }

  /** The config of one request: the base, or a copy of it with the overrides applied. */
  function RequestConfig(c: ConfigValue, overrides: Option<seq<Option<ConfigOption>>>): ConfigValue {
    match overrides
    case None => c
    case Some(opts) => ApplyAll(c, opts, |opts|)
  }

  /** UpdateRequest on the query: per_page set to the default, unless the default is 0. */
  function PerPageQuery(q: Query, perPage: int): Query {
    if perPage == 0 then q else q["per_page" := Itoa(perPage)]
  }

  /** IsPaginationOverflow: a positive limit that the page count has passed. */
  predicate Overflows(maxNumOfPages: int, pageCount: int) {
    maxNumOfPages > 0 && pageCount > maxNumOfPages
  }

  class Config {
    var disabled: bool
    var defaultPerPage: int
    var maxNumOfPages: int

    function Value(): ConfigValue
      reads this
    {
      ConfigValue(disabled, defaultPerPage, maxNumOfPages)
    }

    /** newConfig: the zero config with the options applied. */
    constructor (opts: seq<Option<ConfigOption>>)
      ensures Value() == ApplyAll(ZeroConfig, opts, |opts|)
    {
      disabled, defaultPerPage, maxNumOfPages := false, 0, 0;
      new;
      ApplyOptions(opts);
    }

    /** ApplyOptions: every non-nil option in turn. */
    method ApplyOptions(opts: seq<Option<ConfigOption>>)
      modifies this
      ensures Value() == ApplyAll(old(Value()), opts, |opts|)
    {
      ghost var c0 := Value();
      var i := 0;
      while i < |opts|
        invariant 0 <= i <= |opts|
        invariant Value() == ApplyAll(c0, opts, i)
      {
        if opts[i].Some? {
          match opts[i].value {
            case PaginationEnabled => disabled := false;
            case PaginationDisabled => disabled := true;
            case PerPage(n) => defaultPerPage := n;
            case MaxNumOfPages(m) => maxNumOfPages := m;
          }
        }
        i := i + 1;
      }
    }

    /**
     * GetRequestConfig: without overrides the config itself; with them a
     * fresh copy, the shared config left as it was.
     */
    method GetRequestConfig(overrides: Option<seq<Option<ConfigOption>>>) returns (c: Config)
      ensures overrides.None? ==> c == this
      ensures overrides.Some? ==> fresh(c)
      ensures c.Value() == RequestConfig(Value(), overrides)
    {
      if overrides.None? {
        return this;
      }
      c := new Config([]);
      c.disabled, c.defaultPerPage, c.maxNumOfPages := disabled, defaultPerPage, maxNumOfPages;
      c.ApplyOptions(overrides.value);
    }

    /** UpdateRequest: per_page set in place, unless the default is 0. */
    method UpdateRequest(request: Request)
      modifies request
      ensures request.query == PerPageQuery(old(request.query), defaultPerPage)
    {
      if defaultPerPage == 0 {
        return;
      }
      request.query := request.query["per_page" := Itoa(defaultPerPage)];
    }

    /** IsPaginationOverflow. */
    method IsPaginationOverflow(pageCount: int) returns (b: bool)
      ensures b <==> Overflows(maxNumOfPages, pageCount)
    {
      b := maxNumOfPages > 0 && pageCount > maxNumOfPages;
    }
  }

  /* ------------------------------------------------------------------ lemmas */

  /**
   * The last option that sets a field decides it: whatever came before, the
   * options after it that set other fields leave it alone.
   */
  lemma {:induction false} LastOptionWins(c: ConfigValue, opts: seq<Option<ConfigOption>>, i: nat, n: nat)
    requires i < n <= |opts| && opts[i].Some?
    requires forall j :: i < j < n && opts[j].Some? ==> !SameField(opts[j].value, opts[i].value)
    ensures Agrees(ApplyAll(c, opts, n), opts[i].value)
  {
    if n - 1 > i {
      LastOptionWins(c, opts, i, n - 1);
    }
  }

  /** A field no option sets keeps its value. */
  lemma {:induction false} UnsetFieldKept(c: ConfigValue, opts: seq<Option<ConfigOption>>, n: nat, o: ConfigOption)
    requires n <= |opts| && Agrees(c, o)
    requires forall j :: 0 <= j < n && opts[j].Some? ==> !SameField(opts[j].value, o)
    ensures Agrees(ApplyAll(c, opts, n), o)
  {
    if n > 0 {
      UnsetFieldKept(c, opts, n - 1, o);
    }
  }

  /** A per-request WithPaginationEnabled re-enables a client created with WithPaginationDisabled. */
  lemma RequestReenables(clientOpts: seq<Option<ConfigOption>>, requestOpts: seq<Option<ConfigOption>>)
    requires |requestOpts| > 0 && requestOpts[|requestOpts| - 1] == Some(PaginationEnabled)
    ensures !RequestConfig(ApplyAll(ZeroConfig, clientOpts, |clientOpts|), Some(requestOpts)).disabled
  {
    LastOptionWins(ApplyAll(ZeroConfig, clientOpts, |clientOpts|), requestOpts, |requestOpts| - 1, |requestOpts|);
  }

  /** Overrides that leave a field alone keep the client's value of it. */
  lemma OverridesKeepTheRest(c: ConfigValue, requestOpts: seq<Option<ConfigOption>>, o: ConfigOption)
    requires Agrees(c, o)
    requires forall j :: 0 <= j < |requestOpts| && requestOpts[j].Some? ==> !SameField(requestOpts[j].value, o)
    ensures Agrees(RequestConfig(c, Some(requestOpts)), o)
  {
    UnsetFieldKept(c, requestOpts, |requestOpts|, o);
  }

  /** The per_page written reads back as the configured number, and no other parameter changes. */
  lemma PerPageReadsBack(q: Query, perPage: int)
    ensures perPage == 0 ==> PerPageQuery(q, perPage) == q
    ensures perPage != 0 ==>
              && "per_page" in PerPageQuery(q, perPage)
              && Atoi(PerPageQuery(q, perPage)["per_page"]) == Some(perPage)
              && PerPageQuery(q, perPage).Keys == q.Keys + {"per_page"}
              && forall k :: k in q && k != "per_page" ==> PerPageQuery(q, perPage)[k] == q[k]
  {
    AtoiItoa(perPage);
  }
}
