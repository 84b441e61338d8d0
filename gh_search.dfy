/**
 * The search-result merger: the same envelope arithmetic as the GitHub map
 * combiner, except that a merged total of zero gives an empty body, and a page
 * is assumed to carry its items (the source dereferences them unchecked).
 */
module GhSearchResult {

  import opened Wrappers
  import opened GoErrors
  import opened JsonValues
  import opened Streams
  import opened MapCombine

  /** The source dereferences the items field without checking it: an object page must have one. */
  predicate ItemsPresent(page: JsonValue) {
    page.Object? ==> page.items.Some?
  }

  /** One Digest of a page on the running totals. */
  function SearchDigest(c: Counters, page: JsonValue): (r: Digested)
    requires ItemsPresent(page)
    ensures r.err.None? <==> page.Object?
    ensures r.err.None? ==> r.counters == Counters(c.totalCount + page.totalCount, c.incomplete || page.incomplete)
                             && r.items == page.items
    ensures r.err.Some? ==> r.counters == c && r.items.None?
                            && r.err == Some(Wrapped("failed to digest next map part", DecodeFailure))
  {
    if page.Object? then Digested(Counters(c.totalCount + page.totalCount, c.incomplete || page.incomplete), page.items, None)
    else Digested(c, None, Some(Wrapped("failed to digest next map part", DecodeFailure)))
  }

  /** Finalize: empty when the merged count is zero, the envelope around the items otherwise. */
  function SearchFinalize(c: Counters, sliceText: string): (r: string)
    ensures c.totalCount == 0 ==> r == []
    ensures c.totalCount != 0 ==> ReadEnvelopeHead(r) == Some((c, sliceText + "}"))
  {
    if c.totalCount == 0 then []
    else
      EnvelopeReadsBack(c, sliceText);
      Envelope(c, sliceText)
  }

  class SearchMerger {
    var totalCount: int
    var incompleteResults: bool

    constructor ()
      ensures Totals() == Zero
    {
      totalCount := 0;
      incompleteResults := false;
    }

    function Totals(): Counters
      reads this
    {
      Counters(totalCount, incompleteResults)
    }

    method Digest(reader: BodyReader) returns (items: Option<RawValue>, err: Option<Error>)
      requires ItemsPresent(reader.decoded)
      modifies this, reader
      ensures Digested(Totals(), items, err) == SearchDigest(old(Totals()), reader.decoded)
      ensures reader.pending == [] && reader.closeCount == old(reader.closeCount)
    {
      var _ := reader.ReadAll();
      if reader.decoded.Object? {
        totalCount := totalCount + reader.decoded.totalCount;
        incompleteResults := incompleteResults || reader.decoded.incomplete;
        items, err := reader.decoded.items, None;
      } else {
        items, err := None, Some(Wrapped("failed to digest next map part", DecodeFailure));
      }
    }

    function Finalize(sliceText: string): (r: string)
      reads this
    {
      SearchFinalize(Totals(), sliceText)
    }
  }

  /** Unlike the map combiner, a zero total drops the items, whatever they are. */
  lemma ZeroTotalDropsItems(items: seq<string>, incomplete: bool)
    ensures SearchFinalize(Counters(0, incomplete), ArrayText(items)) == []
    ensures ReadEnvelopeHead(Envelope(Counters(0, incomplete), ArrayText(items))).Some?
  {
    EnvelopeReadsBack(Counters(0, incomplete), ArrayText(items));
  }

  /** On pages that carry their items, both combiners digest alike. */
  lemma SameDigestAsMapCombiner(c: Counters, page: JsonValue)
    requires ItemsPresent(page)
    ensures SearchDigest(c, page) == DigestPage(c, page)
  {
  }
}
