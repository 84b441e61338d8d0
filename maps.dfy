/**
 * The dictionary merger (UnprocessedMap): each page goes through the envelope
 * combiner, whose items are handed to an array merger; a page that is an
 * object without items is kept verbatim and overrides the merged output.
 */
module Maps {

  import opened Wrappers
  import opened GoErrors
  import opened JsonValues
  import opened Streams
  import opened Slices
  import opened MapCombine
  import Text

  /** A page kept verbatim: its bytes, and what they decode to. */
  datatype Captured = Captured(text: string, value: JsonValue)

  /** The dictionary merger's whole state. */
  datatype MapState = MapState(counters: Counters, fragments: seq<seq<string>>, unpaginated: Option<Captured>)

  const EmptyMap := MapState(Zero, [], None)

  /** One ReadNext of a page on the dictionary merger. */
  function MapStep(s: MapState, page: Page): (r: (MapState, Option<Error>))
    ensures page.decoded.Object? && page.decoded.items.None? ==>
              r == (s.(unpaginated := Some(Captured(page.text, page.decoded))), None)
    ensures !page.decoded.Object? ==> r == (s, DigestPage(s.counters, page.decoded).err)
    ensures page.decoded.Object? && page.decoded.items.Some? && page.closeError.Some? ==>
              r.1 == page.closeError && r.0 == s.(counters := DigestPage(s.counters, page.decoded).counters)
    ensures page.decoded.Object? && page.decoded.items.Some? && page.closeError.None? ==>
              var items := page.decoded.items.value.value;
              && r.0.counters == DigestPage(s.counters, page.decoded).counters
              && r.0.unpaginated == s.unpaginated
              && (items.Array? ==> r.1.None? && r.0.fragments == s.fragments + [items.elems])
              && (!items.Array? ==> r.1 == Some(NotAnArray) && r.0.fragments == s.fragments)
  {
    var d := DigestPage(s.counters, page.decoded);
    if d.err.Some? && Is(d.err.value, NotPaginatableDict) then
      (s.(unpaginated := Some(Captured(page.text, page.decoded))), None)
    else if d.err.Some? then (s, d.err)
    else if page.closeError.Some? then (s.(counters := d.counters), page.closeError)
    else
      var (f, e) := SliceStep(s.fragments, d.items.value.value);
      (s.(counters := d.counters, fragments := f), e)
  }

  /** The merged output: the verbatim page if one was kept, the merged envelope otherwise. */
  function MapMerged(s: MapState): (r: string)
    ensures s.unpaginated.Some? ==> r == s.unpaginated.value.text
    ensures s.unpaginated.None? ==> ReadEnvelopeHead(r) == Some((s.counters, SliceMerged(s.fragments) + "}"))
  {
    if s.unpaginated.Some? then s.unpaginated.value.text
    else
      EnvelopeReadsBack(s.counters, SliceMerged(s.fragments));
      Envelope(s.counters, SliceMerged(s.fragments))
  }

  /** What the merged output decodes to. */
  function MapMergedValue(s: MapState): JsonValue
  {
    if s.unpaginated.Some? then s.unpaginated.value.value
    else Object(s.counters.totalCount, s.counters.incomplete, Some(ItemsOf(Flatten(s.fragments))))
  }

  class UnprocessedMap {
    const slice: UnprocessedSlice
    const combiner: GithubMapCombiner
    var unpaginatedResponse: Option<Captured>

    /** NewGitHubUnprocessedMap: an empty array merger, fresh totals, nothing kept. */
    constructor ()
      ensures fresh(slice) && fresh(combiner)
      ensures State() == EmptyMap
    {
      slice := new UnprocessedSlice();
      combiner := new GithubMapCombiner();
      unpaginatedResponse := None;
    }

    function State(): MapState
      reads this, slice, combiner
    {
      MapState(combiner.Totals(), slice.fragments, unpaginatedResponse)
    }

    method ReadNext(reader: ReplayReader) returns (err: Option<Error>)
      modifies this, slice, combiner, reader, reader.source
      ensures (State(), err) == MapStep(old(State()), old(reader.Snapshot()))
      ensures reader.source.closeCount == old(reader.source.closeCount)
                + if reader.source.decoded.Object? && reader.source.decoded.items.Some? then 1 else 0
      ensures reader.Pending() == []
    {
      var before := reader.Pending();
      var items, digestErr := combiner.Digest(reader);
      // the tee in front of the decoder has recorded every byte the decoder read
      var teed := before[..|before| - |reader.Pending()|];
      assert teed == before;
      if digestErr.Some? && Is(digestErr.value, NotPaginatableDict) {
        unpaginatedResponse := Some(Captured(teed, reader.source.decoded));
        err := None;
        return;
      }
      if digestErr.Some? {
        err := digestErr;
        return;
      }
      var closeErr := reader.Close();
      if closeErr.Some? {
        err := closeErr;
        return;
      }
      var itemsBody := new BodyReader(items.value.text, items.value.value, None);
      var itemsReader := new ReplayReader([], itemsBody);
      err := slice.ReadNext(itemsReader);
    }

    function Merged(): (r: string)
      reads this, slice, combiner
    {
      MapMerged(State())
    }
  }

  /** A dictionary without items, once seen, is what the merger gives back: the text of that body. */
  lemma {:induction false} UnpaginatedOverrides(s: MapState, p: Page, later: seq<Page>)
    requires p.decoded.Object? && p.decoded.items.None?
    requires forall i :: 0 <= i < |later| ==> !(later[i].decoded.Object? && later[i].decoded.items.None?)
    ensures MapMerged(MapFold(MapStep(s, p).0, later).0) == p.text
    ensures MapStep(s, p).1.None?
  {
    UnpaginatedKept(MapStep(s, p).0, later);
  }

  lemma {:induction false} UnpaginatedKept(s: MapState, later: seq<Page>)
    requires forall i :: 0 <= i < |later| ==> !(later[i].decoded.Object? && later[i].decoded.items.None?)
    ensures MapFold(s, later).0.unpaginated == s.unpaginated
    decreases |later|
  {
    if later != [] {
      var (s', e) := MapStep(s, later[0]);
      if e.None? {
        UnpaginatedKept(s', later[1..]);
      }
    }
  }

  /** Feeding pages in turn, stopping at the first error. */
  function MapFold(s: MapState, pages: seq<Page>): (MapState, Option<Error>)
    decreases |pages|
  {
    if pages == [] then (s, None)
    else
      var (s', e) := MapStep(s, pages[0]);
      if e.Some? then (s', e) else MapFold(s', pages[1..])
  }

  /** An envelope whose items field holds a JSON array. */
  predicate PagedEnvelope(v: JsonValue) {
    v.Object? && v.items.Some? && v.items.value.value.Array?
  }

  /** The elements of an envelope's items. */
  function ItemElems(v: JsonValue): seq<string>
    requires PagedEnvelope(v)
  {
    v.items.value.value.elems
  }

  /** The element lists of envelope pages' items, page by page. */
  function ItemLists(pages: seq<Page>): (r: seq<seq<string>>)
    requires forall i :: 0 <= i < |pages| ==> PagedEnvelope(pages[i].decoded)
    ensures |r| == |pages| && forall i :: 0 <= i < |pages| ==> r[i] == ItemElems(pages[i].decoded)
  {
    if pages == [] then [] else [ItemElems(pages[0].decoded)] + ItemLists(pages[1..])
  }

  /** One envelope page that closes cleanly: its count and flag are taken and its elements appended. */
  lemma EnvelopePageStep(s: MapState, p: Page)
    requires PagedEnvelope(p.decoded) && p.closeError.None?
    ensures MapStep(s, p)
            == (s.(counters := DigestPage(s.counters, p.decoded).counters, fragments := s.fragments + [ItemElems(p.decoded)]), None)
  {
  }

  /** Envelope pages that decode and close cleanly. */
  predicate CleanEnvelopes(pages: seq<Page>) {
    forall i :: 0 <= i < |pages| ==> PagedEnvelope(pages[i].decoded) && pages[i].closeError.None?
  }

  /** Envelope pages that decode and close cleanly merge to the sum, the OR and all items in order. */
  lemma {:induction false} EnvelopePagesMerge(s: MapState, pages: seq<Page>)
    requires CleanEnvelopes(pages)
    ensures var r := MapFold(s, pages);
            && r.1.None?
            && r.0.unpaginated == s.unpaginated
            && r.0.counters == DigestAll(s.counters, Decoded(pages)).0
            && r.0.fragments == s.fragments + ItemLists(pages)
    decreases |pages|
  {
    if pages != [] {
      var s' := FirstEnvelope(s, pages);
      EnvelopePagesMerge(s', pages[1..]);
    }
  }

  /** The first of clean envelope pages: what it leaves for the rest, and how the totals split. */
  lemma FirstEnvelope(s: MapState, pages: seq<Page>) returns (s': MapState)
    requires pages != [] && CleanEnvelopes(pages)
    ensures CleanEnvelopes(pages[1..])
    ensures MapFold(s, pages) == MapFold(s', pages[1..])
    ensures s'.unpaginated == s.unpaginated
    ensures DigestAll(s.counters, Decoded(pages)).0 == DigestAll(s'.counters, Decoded(pages[1..])).0
    ensures s.fragments + ItemLists(pages) == s'.fragments + ItemLists(pages[1..])
  {
    var first := [ItemElems(pages[0].decoded)];
    s' := s.(counters := DigestPage(s.counters, pages[0].decoded).counters, fragments := s.fragments + first);
    EnvelopePageStep(s, pages[0]);
    var values := Decoded(pages);
    assert values[0] == pages[0].decoded && values[1..] == Decoded(pages[1..]);
    assert ItemLists(pages) == first + ItemLists(pages[1..]);
    Text.AppendAssociates(s.fragments, first, ItemLists(pages[1..]));
  }

  /**
   * An envelope whose items are not an array: the count and flag are taken,
   * the body is closed, and then the array merger refuses the items.
   */
  lemma NonArrayItemsRefused(s: MapState, text: string, total: int, incomplete: bool, raw: RawValue)
    requires !raw.value.Array?
    ensures MapStep(s, Page(text, Object(total, incomplete, Some(raw)), None))
            == (s.(counters := Counters(s.counters.totalCount + total, s.counters.incomplete || incomplete)), Some(NotAnArray))
  {
  }

  /** The two pages of the map merger test: counts 1 and 2, flags false and true, items 10,20 and 30,40. */
  lemma TwoEnvelopes(text1: string, text2: string)
    ensures var pages := [Page(text1, Object(1, false, Some(ItemsOf(["10", "20"]))), None),
                          Page(text2, Object(2, true, Some(ItemsOf(["30", "40"]))), None)];
            var r := MapFold(EmptyMap, pages);
            r.1.None? && MapMergedValue(r.0) == Object(3, true, Some(ItemsOf(["10", "20", "30", "40"])))
  {
    var v1, v2 := Object(1, false, Some(ItemsOf(["10", "20"]))), Object(2, true, Some(ItemsOf(["30", "40"])));
    var pages := [Page(text1, v1, None), Page(text2, v2, None)];
    EnvelopePagesMerge(EmptyMap, pages);
    var values := Decoded(pages);
    assert values == [v1, v2];
    DigestAllSumsAndOrs(Zero, values);
    assert SumCounts(values) == 3 by {
      assert values[1..] == [v2] && [v2][1..] == [];
      assert SumCounts([v2]) == 2;
    }
    assert AnyIncomplete(values) by {
      assert values[1].incomplete;
    }
    var lists := ItemLists(pages);
    assert lists == [["10", "20"], ["30", "40"]];
    assert Flatten(lists) == ["10", "20", "30", "40"] by {
      assert lists[..1] == [["10", "20"]];
      assert Flatten([["10", "20"]]) == ["10", "20"] by { assert [["10", "20"]][..0] == []; }
    }
    var r := MapFold(EmptyMap, pages);
    assert r.0.counters == Counters(3, true);
    assert r.0.fragments == lists;
  }

  function Decoded(pages: seq<Page>): (r: seq<JsonValue>)
    ensures |r| == |pages| && forall i :: 0 <= i < |pages| ==> r[i] == pages[i].decoded
  {
    if pages == [] then [] else [pages[0].decoded] + Decoded(pages[1..])
  }

  /** What clean envelope pages add up to: the sum of their counts, and whether any was incomplete. */
  lemma EnvelopeTotals(pages: seq<Page>)
    requires CleanEnvelopes(pages)
    ensures forall i :: 0 <= i < |Decoded(pages)| ==> Decoded(pages)[i].Object? && Decoded(pages)[i].items.Some?
    ensures DigestAll(Zero, Decoded(pages)).0 == Counters(SumCounts(Decoded(pages)), AnyIncomplete(Decoded(pages)))
  {
    var values := Decoded(pages);
    assert forall i :: 0 <= i < |values| ==> values[i].Object? && values[i].items.Some?;
    DigestAllSumsAndOrs(Zero, values);
  }
}
