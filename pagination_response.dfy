/**
 * paginationResponseParser: the stateful parser that walks a response's Link
 * header, lets its sub-parsers record what they recognise, and builds the
 * next request.
 */
module PaginationResponse {

  import opened Wrappers
  import opened Text
  import opened Http
  import opened LinkHeader

  /** paginationResponseParser: the four sub-parsers and what they have recorded. */
  class ResponseParser {
    var recorded: Recorded

    /** NewParser: cursor, before/after, page and since, nothing recorded yet. */
    constructor ()
      ensures recorded == NothingRecorded
    {
      recorded := NothingRecorded;
    }

    method ParseSegment(segment: string, query: Option<Query>)
      modifies this
      ensures recorded == SegmentStep(old(recorded), segment, query)
    {
      var rel := GetRelType(segment);
      if rel == RelTypeUnknown {
        return;
      }
      var k := 0;
      while k < 4
        invariant 0 <= k <= 4
        invariant forall j :: 0 <= j < k ==> !Accepts(j, query)
        invariant recorded == old(recorded)
        decreases 4 - k
      {
        if Accepts(k, query) {
          assert FirstAccepting(query, 0) == k by {
            FirstAcceptingIsLeast(query, k);
          }
          if rel == RelTypeNext {
            recorded := recorded[k := Some(Restrict(query.value, SubParserKeys[k]))];
          }
          return;
        }
        k := k + 1;
      }
      FirstAcceptingIsLeast(query, 4);
    }

    method ParseLink(link: string)
      modifies this
      ensures recorded == LinkStep(old(recorded), link)
    {
      var segments := Split(TrimSpace(link), ';');
      if |segments| < 2 {
        return;
      }
      var query := HrefToQuery(segments[0]);
      var rest := segments[1..];
      ghost var r0 := recorded;
      var i := 0;
      while i < |rest|
        invariant 0 <= i <= |rest|
        invariant recorded == SegmentsStep(r0, rest, query, i)
      {
        ParseSegment(rest[i], query);
        i := i + 1;
      }
    }

    /** The body of parse's outer loop: every `,`-separated link of one Link value. */
    method ParseValue(value: string)
      modifies this
      ensures var links := Split(value, ','); recorded == LinksStep(old(recorded), links, |links|)
    {
      var links := Split(value, ',');
      ghost var r0 := recorded;
      var j := 0;
      while j < |links|
        invariant 0 <= j <= |links|
        invariant recorded == LinksStep(r0, links, j)
      {
        ParseLink(links[j]);
        j := j + 1;
      }
    }

    /** getNextQueryParams: the first sub-parser, in priority order, that recorded parameters. */
    method GetNextQueryParams() returns (params: Option<Query>)
      ensures params == NextParams(recorded)
    {
      var k := 0;
      while k < 4
        invariant 0 <= k <= 4
        invariant FirstRecorded(recorded, k) == NextParams(recorded)
        decreases 4 - k
      {
        if recorded[k].Some? {
          return recorded[k];
        }
        k := k + 1;
      }
      return None;
    }

    /** parse: nothing without a response, a header, or a non-empty Link value. */
    method Parse(response: Response?) returns (params: Option<Query>)
      modifies this
      ensures response == null || LinkValues(response.header).None? ==>
                params.None? && recorded == old(recorded)
      ensures response != null && LinkValues(response.header).Some? ==>
                && recorded == HeaderStep(old(recorded), LinkValues(response.header).value, |LinkValues(response.header).value|)
                && params == NextParams(recorded)
    {
      if response == null {
        return None;
      }
      var linkValues := LinkValues(response.header);
      if linkValues.None? {
        return None;
      }
      var values := linkValues.value;
      ghost var r0 := recorded;
      var i := 0;
      while i < |values|
        invariant 0 <= i <= |values|
        invariant recorded == HeaderStep(r0, values, i)
      {
        ParseValue(values[i]);
        i := i + 1;
      }
      params := GetNextQueryParams();
    }

    /**
     * GetNextRequest: a clone of the previous request with the winning
     * parameters set, or none when the response names no next page.
     */
    method GetNextRequest(prevRequest: Request, prevResponse: Response?) returns (next: Request?)
      modifies this
      ensures prevResponse == null || LinkValues(prevResponse.header).None? ==> next == null
      ensures prevResponse != null && LinkValues(prevResponse.header).Some? ==>
                recorded == HeaderStep(old(recorded), LinkValues(prevResponse.header).value, |LinkValues(prevResponse.header).value|)
      ensures next == null <==> NextParams(recorded).None? || prevResponse == null || LinkValues(prevResponse.header).None?
      ensures next != null ==>
                && fresh(next)
                && next.Value() == WithParams(prevRequest.Value(), NextParams(recorded).value)
    {
      var params := Parse(prevResponse);
      if params.None? {
        return null;
      }
      var p := params.value;
      next := prevRequest.Clone();
      var query := next.query;
      var keys := p.Keys;
      while keys != {}
        invariant keys <= p.Keys
        invariant query == prevRequest.query + map k | k in p && k !in keys :: p[k]
        decreases keys
      {
        var key :| key in keys;
        query := query[key := p[key]];
        keys := keys - {key};
      }
      assert (map k | k in p && k !in keys :: p[k]) == p;
      next.query := query;
    }
  }

  /** pagination_utils.GetNextRequest: a fresh parser asked once. */
  method NextRequestFor(prevRequest: Request, prevResponse: Response?) returns (next: Request?)
    ensures prevResponse == null ==> next == null
    ensures prevResponse != null ==>
              && (next == null <==> NextRequest(prevRequest.Value(), prevResponse.header).None?)
              && (next != null ==> fresh(next) && Some(next.Value()) == NextRequest(prevRequest.Value(), prevResponse.header))
  {
    var parser := new ResponseParser();
    next := parser.GetNextRequest(prevRequest, prevResponse);
  }

}
