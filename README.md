# go-github-pagination, modelled in Dafny

go-github-pagination is an `http.RoundTripper` for the GitHub REST API. It sits
under a go-github client. It sends a request and reads the `Link` header of the
response. Then it keeps requesting the `next` page until the header names none,
a page fails, or the page limit is reached. The pages' JSON bodies are merged
into one body, which takes the place of the last response's body. The caller
sees one response holding all the results.

The model covers the core of that transport, one Dafny module per Go file or
package:

- **JSON shape detection** (`DetectType`, over the lazy tee reader in
  `Streams`). The first JSON token decides whether a body is an array or an
  object. The detector hands on a new reader that replays the bytes it read
  and then the rest of the body.
- **The mergers.** `Slices` handles arrays. `MapCombine` and `Maps` handle
  GitHub search envelopes (`total_count`, `incomplete_results`, `items`), and
  `GhSearchResult` is the search-result merger. `JsonMerger` is the unified
  merger that picks one of them on the first page and refuses a page of the
  other shape.
- **The `Link`-header parser** (`LinkHeader` as functions,
  `PaginationResponse` as the stateful parser class). Four sub-parsers cover
  cursor, before/after, page and since. In priority order, the first one that
  recognises the `next` link's query decides the next request's parameters.
- **Config and options** (`PaginationConfig`): per-client options, per-request
  overrides applied to a copy, `per_page` and the page limit.
- **The pagination loop** (`Pagination`). `GitHubPagination.RoundTrip` is
  proved against `Run`, a function that states the whole trip: the requests
  sent, in order, and what comes back. The lemmas beside it cover:
  - the page limit;
  - that every request keeps the caller's other query parameters (the query is
    modelled as one value per key);
  - that the answer is the last fetch's own answer;
  - that the merged body holds every page's contents in fetch order.
- **The drivers** (`PaginationDrivers`): the stop sentinel, `ShouldStop` and
  the synchronous driver's lifecycle hooks.

Bodies are `BodyReader` objects. Each holds its unread text, the value that
`encoding/json` would decode from that text, its close error and how often it
was closed. The reader the tee hands on after detection is a `ReplayReader`
over the body: the bytes read so far, then the body's unread text. Readers,
mergers, the parser, configs, requests and responses are classes whose
methods update their fields in place. The rules they follow are stated as
functions, and the lemmas are about those functions.

## Model

| member | source | states |
|---|---|---|
| GoErrors.Chain | github_pagination/github_pagination/pagination_drivers/driver.go:17-19 | the chain `errors.Is` walks: it starts at the error, each element is a `%w` wrapping of the next, and it ends at the first error that wraps nothing |
| GoErrors.IsIffInChain | github_pagination/github_pagination/pagination_drivers/driver.go:17-19 | `errors.Is` holds exactly when the target is somewhere in the unwrap chain, in both directions |
| GoErrors.WrappingKeepsTarget | github_pagination/github_pagination/pagination_drivers/driver.go:17-19 | any number of `%w` layers around a target keeps `errors.Is` true for it |
| Text.Split | github_pagination/pagination_utils/pagination_response/response.go:40-44 | `strings.Split` never returns an empty list, and no part contains the separator |
| Text.JoinSplit | githubpagination/paginationresponse/response_test.go:58-64 | joining the parts of a split with the separator gives the text back |
| Text.SplitJoin | github_pagination/pagination_utils/pagination_response/response.go:40-44 | splitting a join of separator-free parts gives back exactly those parts, so a header written with `, ` is read link by link |
| Text.TrimSpaceIsInfix | github_pagination/pagination_utils/pagination_response/response.go:96-98 | `strings.TrimSpace` keeps a contiguous infix of the text; everything dropped in front and behind is white space, and the result starts and ends with a non-space |
| Text.Itoa | github_pagination/github_pagination/config.go:49-50 | `strconv.Itoa` is never empty; it is all digits for a non-negative number and starts with `-` for a negative one |
| Text.AtoiItoa | github_pagination/github_pagination/config.go:49-50 | the per_page text written by `strconv.Itoa` reads back as the same number |
| Text.ItoaInjective | github_pagination/github_pagination/config.go:49-50 | different numbers are written as different per_page texts |
| Text.BoolText | github_pagination/json_merger/github_map_combine.go:44-46 | the `%v` rendering of the flag is `true` exactly for true and `false` exactly for false |
| JsonValues.ArrayText | github_pagination/json_merger/json_merger_test/slices_test.go:17-46 | the text of a merged array starts with `[` and ends with `]` |
| JsonValues.FlattenAppend | github_pagination/json_merger/json_merger_test/slices_test.go:17-46 | the elements of pages fed in two batches are the first batch's elements followed by the second's |
| JsonValues.FlattenLength | github_pagination/json_merger/json_merger_test/slices_test.go:17-46 | the merged array has as many elements as all pages together |
| Streams.BodyReader.Read | github_pagination/json_merger/json_merger_test/lazy_tee_reader_test.go:61-75 | a read returns at most the requested number of bytes, all of them while they last, taken from the front of the body; the bytes left are the rest |
| Streams.BodyReader.ReadAll | github_pagination/json_merger/github_map_combine.go:24-25 | decoding a whole body leaves nothing unread and does not close it |
| Streams.BodyReader.Close | github_pagination/json_merger/maps.go:50-52 | closing returns the body's close error and counts one more close; the unread bytes stay |
| Streams.LazyTeeReader.constructor | github_pagination/json_merger/json_merger_test/lazy_tee_reader_test.go:36 | a fresh tee over a source has captured nothing |
| Streams.LazyTeeReader.Read | github_pagination/json_merger/json_merger_test/lazy_tee_reader_test.go:37-48 | a read through the first view comes from the source and is remembered; captured plus unread bytes stays the original body |
| Streams.LazyTeeReader.FinalReader | github_pagination/json_merger/detect_type.go:26 | the final reader is a new reader, distinct from the source: it replays every byte read so far, then goes on with the source, which itself keeps only its unread bytes |
| Streams.ReplayReader.constructor | github_pagination/json_merger/json_merger_test/lazy_tee_reader_test.go:50 | a replay reader over a source, with the given bytes in front |
| Streams.ReplayReader.Read | github_pagination/json_merger/json_merger_test/lazy_tee_reader_test.go:50-75 | a read takes from the front of what the reader still gives: from the replayed bytes while any are left, without touching the source, and from the source after that; it never closes the source |
| Streams.ReplayReader.ReadAll | github_pagination/json_merger/github_map_combine.go:24-25 | decoding through the replay reader gives the replayed bytes and then the source's rest, and leaves both empty without closing the source |
| Streams.ReplayReader.Close | github_pagination/json_merger/json_merger_test/lazy_tee_reader_test.go:77-82 | closing the replay reader closes the source once and returns its close error |
| Streams.TeeReplays | github_pagination/json_merger/json_merger_test/lazy_tee_reader_test.go:33-83 | on `hello`: two bytes peeked come again first from the final reader, then `llo`, then nothing; closing the final reader closes the source once |
| Http.Request.Clone | github_pagination/pagination_utils/pagination_response/response.go:54 | the clone is a new request with the same method, URL and query |
| DetectType.FirstSignificant | github_pagination/json_merger/detect_type.go:31-33 | none exactly when the text is all JSON white space; otherwise a character of the text that is not white space |
| DetectType.SignificantAfterSpaces | github_pagination/json_merger/detect_type.go:31-33 | a non-space character with only white space before it is the one the tokenizer sees first |
| DetectType.Classify | github_pagination/json_merger/detect_type.go:31-49 | an error exactly when the type is Unknown; Array exactly when the first significant character is `[`; Dictionary exactly when it is `{`; empty or all-space text is io.EOF |
| DetectType.DetectJsonTypeUnsafe | github_pagination/json_merger/detect_type.go:31-49 | reading byte by byte through the tee gives the classification of the body's original text, and the tee keeps every byte it took |
| DetectType.DetectJsonType | github_pagination/json_merger/detect_type.go:22-28 | gives the classification of the body and a new reader over it that gives every original byte again, on error as well; the input body keeps only an end part of its text and is not closed |
| DetectType.ArrayBody | github_pagination/json_merger/detect_type.go:42-43 | a body whose first token is `[` is an Array with no error |
| DetectType.DictionaryBody | github_pagination/json_merger/detect_type.go:44-45 | a body whose first token is `{` is a Dictionary with no error |
| DetectType.RefusedBodies | github_pagination/json_merger/detect_type_test.go:48-57 | the JSON string `"a"` is refused as not a delimiter, `invalid json` is refused by the tokenizer, and an empty body is io.EOF; each comes with Unknown |
| Slices.SliceStep | github_pagination/json_merger/json_merger_test/slices_test.go:34-38 | an array page succeeds exactly when it is an array, and its elements become one more fragment at the end; anything else is refused and changes nothing |
| Slices.UnprocessedSlice.constructor | github_pagination/json_merger/json_merger_test/slices_test.go:48-50 | a new array merger holds no fragments |
| Slices.UnprocessedSlice.ReadNext | github_pagination/json_merger/json_merger_test/slices_test.go:34-38 | the merger takes the page as SliceStep says, reads the body to the end and closes it once |
| Slices.SlicesInOrder | github_pagination/json_merger/json_merger_test/slices_test.go:34-46 | arrays read in turn are all kept without error, each page's element list in submission order |
| Slices.FoldSlicesAppends | github_pagination/json_merger/json_merger_test/slices_test.go:34-38 | reading array pages appends their element lists, in order, to what was there |
| Slices.ThreeArrays | github_pagination/json_merger/json_merger_test/slices_test.go:17-46 | the pages [1,2,3], [4,5,6] and [7,8,9] merge to the text of the array [1,2,3,4,5,6,7,8,9] |
| MapCombine.DigestPage | github_pagination/json_merger/github_map_combine.go:23-36 | success exactly for an envelope with items: the count is added, the flag OR-ed and the items returned unchanged; a body without items is NotPaginatableDictError and a decode failure a `%w`-wrapped error, both leaving the totals alone |
| MapCombine.EnvelopeReadsBack | github_pagination/json_merger/github_map_combine.go:38-53 | the envelope written around the items reads back as the same count, the same flag and the items followed by `}` |
| MapCombine.GithubMapCombiner.constructor | github_pagination/json_merger/github_map_combine.go:18-21 | a new combiner's totals are zero and false |
| MapCombine.GithubMapCombiner.Digest | github_pagination/json_merger/github_map_combine.go:23-36 | the new totals, items and error are exactly those of DigestPage; the body is read to the end and not closed |
| MapCombine.GithubMapCombiner.Finalize | github_pagination/json_merger/github_map_combine.go:38-53 | the output is `{"total_count": N, "incomplete_results": B, "items": ` with the running totals, then the merged items, then `}`, shown by reading it back |
| MapCombine.DigestAllSumsAndOrs | github_pagination/json_merger/github_map_combine.go:32-35 | over envelope pages the count is the sum of all counts, the flag the OR of all flags, and the items are each page's items in order |
| MapCombine.IncompleteIsSticky | github_pagination/json_merger/github_map_combine.go:33 | once the flag is set, no later page clears it |
| Maps.MapStep | github_pagination/json_merger/maps.go:38-60 | an object without items is kept verbatim and succeeds; a digest error comes back with nothing changed; a close error comes back after the totals moved but before the items are added; items that are an array are appended; items of any other JSON value are refused by the array merger after the totals moved and the body was closed |
| Maps.MapMerged | github_pagination/json_merger/maps.go:62-68 | the kept verbatim body when there is one, else the combiner's envelope around the merged items |
| Maps.UnprocessedMap.constructor | github_pagination/json_merger/maps.go:27-36 | a new dictionary merger has zero totals, no fragments and no kept body |
| Maps.UnprocessedMap.ReadNext | github_pagination/json_merger/maps.go:38-60 | the new state and the error are exactly MapStep's; the body is read to the end, and closed once on the paths that reach the close and never otherwise |
| Maps.UnpaginatedOverrides | github_pagination/json_merger/maps.go:42-46 | once an object without items was read, the merged output is that body's text, whatever envelope pages follow |
| Maps.UnpaginatedKept | github_pagination/json_merger/maps.go:62-65 | pages that are not objects without items never change the kept body |
| Maps.EnvelopePagesMerge | github_pagination/json_merger/maps.go:38-60 | envelope pages whose items are arrays and that close cleanly give no error, the combiner's totals over all of them and every page's item list appended in order |
| Maps.EnvelopePageStep | github_pagination/json_merger/maps.go:38-60 | one such page moves the totals by its count and flag and appends its item list, without error |
| Maps.NonArrayItemsRefused | github_pagination/json_merger/maps.go:50-57 | an envelope whose items are not an array: the totals move, then the array merger's error comes back and no items are added |
| Maps.TwoEnvelopes | githubpagination/jsonmerger/map_merger_test.go:19-75 | pages {1,false,[10,20]} and {2,true,[30,40]} merge without error to an envelope with count 3, flag true and items [10,20,30,40] |
| Maps.EnvelopeTotals | github_pagination/json_merger/github_map_combine.go:32-35 | over envelope pages the combiner's totals are the sum of the counts and the OR of the flags |
| GhSearchResult.SearchDigest | github_pagination/pagination_utils/gh_search_result/gh_merger.go:21-32 | success exactly for an object page: the count is added, the flag OR-ed and the items returned; a decode failure is `%w`-wrapped and leaves the totals alone |
| GhSearchResult.SearchFinalize | github_pagination/pagination_utils/gh_search_result/gh_merger.go:34-41 | empty when the total is zero, else the envelope around the items, read back as the same count and flag |
| GhSearchResult.SearchMerger.constructor | github_pagination/pagination_utils/gh_search_result/gh_merger.go:17-19 | a new search merger's totals are zero and false |
| GhSearchResult.SearchMerger.Digest | github_pagination/pagination_utils/gh_search_result/gh_merger.go:21-32 | the new totals, items and error are exactly those of SearchDigest; the body is read to the end |
| GhSearchResult.ZeroTotalDropsItems | github_pagination/pagination_utils/gh_search_result/gh_merger.go:35-37 | a zero total gives empty output whatever the items, where the map combiner would still write an envelope |
| GhSearchResult.SameDigestAsMapCombiner | github_pagination/pagination_utils/gh_search_result/gh_merger.go:28-31 | on pages that carry their items the search merger digests exactly as the map combiner does |
| JsonMerger.MergerStep | github_pagination/json_merger/json_merger.go:27-38 | a detection error is wrapped with `%v` and changes nothing; a page of the other shape is refused and changes nothing; the first good page fixes the shape and the shape never changes after |
| JsonMerger.Merger.constructor | github_pagination/json_merger/json_merger.go:20-25 | a new merger has type Unknown and no delegate |
| JsonMerger.Merger.InitMerger | github_pagination/json_merger/json_merger.go:44-70 | detection on the body, then the shape check: the error is InitError's on the detector's verdict, and the state is fixed to the detected shape on the first page and unchanged otherwise; the replay reader gives the whole original body, and the body is not closed |
| JsonMerger.Merger.FixType | github_pagination/json_merger/json_merger.go:46-69 | a detector's error is passed on, a first page of no known type is refused, a later page of another shape is refused with the state unchanged; otherwise the state is the initialised one |
| JsonMerger.Merger.SetType | github_pagination/json_merger/json_merger.go:51-61 | the first detected shape becomes the merger's, with a fresh delegate of that shape |
| JsonMerger.Merger.Delegate | github_pagination/json_merger/json_merger.go:33-35 | the chosen merger's ReadNext on the replayed page: its state and error are DelegateStep's, the page is read to the end, and the body is closed once by the array merger and by the map merger for an envelope with items |
| JsonMerger.Merger.ReadNext | github_pagination/json_merger/json_merger.go:27-38 | the new state and the error are exactly MergerStep's on the body as it was; a body handed to a merger is read to the end; of one refused at detection or by shape only an end part of its text is left; the body is closed once by the array merger, once by the dictionary merger when it is an envelope with items, and otherwise not at all |
| JsonMerger.Merger.Merged | github_pagination/json_merger/json_merger.go:40-42 | once a shape is fixed, the delegate's merged text |
| JsonMerger.Merger.MergedDecoded | github_pagination/json_merger/json_merger.go:40-42 | once a shape is fixed, what the merged text decodes to |
| JsonMerger.ShapeNeverChanges | github_pagination/json_merger/json_merger.go:50-68 | once the shape is fixed, no sequence of pages changes it |
| JsonMerger.ArrayPageStep | github_pagination/json_merger/json_merger.go:64-69 | a well-formed array page on an array merger appends its elements without error |
| JsonMerger.FirstArrayPage | github_pagination/json_merger/json_merger.go:51-56 | a first array page fixes the array shape and keeps its elements |
| JsonMerger.ArrayPagesMerge | github_pagination/json_merger/json_merger.go:27-38 | array pages fed in turn add their element lists in submission order, without error |
| JsonMerger.FreshArrayMerge | github_pagination/json_merger/json_merger_test/merger_test.go:9-12 | from a new merger, array pages give an array merger holding every page's element list in order, without error |
| JsonMerger.FreshArrayPage | github_pagination/json_merger/json_merger.go:40-42 | the body handed back after array pages is the text and value of one array of every page's elements in order |
| JsonMerger.MergedPageClosed | github_pagination/json_merger/maps.go:42-52 | a page merged without error was handed to a merger and closed exactly once, except a dictionary without items, which stays open |
| JsonMerger.DictPagesMerge | github_pagination/json_merger/json_merger.go:27-38 | on the dictionary merger, dictionary-shaped pages give exactly the dictionary merger's own fold: the same state and the same error |
| JsonMerger.FirstDictPage | github_pagination/json_merger/json_merger.go:45-62 | a new merger fed a dictionary first behaves as a new dictionary merger |
| JsonMerger.FreshMapMerge | github_pagination/json_merger/json_merger_test/merger_test.go:9-12 | from a new merger, envelope pages give, without error, a dictionary merger holding the combiner's totals and every page's item list in order |
| JsonMerger.DictMergedPage | github_pagination/json_merger/maps.go:62-68 | the body a dictionary merger hands back is the page kept verbatim when there is one, and otherwise the envelope with its totals around one array of all its items |
| JsonMerger.MismatchRefused | github_pagination/json_merger/json_merger.go:64-67 | once a shape is fixed, a page of the other shape is refused with the `%v`-wrapped mismatch error and changes nothing |
| LinkHeader.HrefToQueryShape | github_pagination/pagination_utils/pagination_response/response.go:96-112 | a query comes out exactly when the trimmed target is `<href>` and href parses; shorter than two characters or not in angle brackets gives none |
| LinkHeader.Restrict | githubpagination/paginationresponse/response_test.go:151-159 | a sub-parser records exactly its own keys of the query, with their values |
| LinkHeader.FirstAccepting | github_pagination/pagination_utils/pagination_response/response.go:89-93 | the first sub-parser, in priority order, that accepts the query; none before it accepts |
| LinkHeader.RelStep | github_pagination/pagination_utils/pagination_response/response.go:84-94 | a relation other than next records nothing; with next, the first accepting sub-parser records its own keys and nobody else changes |
| LinkHeader.FirstRecorded | github_pagination/pagination_utils/pagination_response/response.go:64-71 | none exactly when no sub-parser recorded anything; otherwise the recording of the first in priority order that did |
| LinkHeader.WithParams | github_pagination/pagination_utils/pagination_response/response.go:54-61 | the next request keeps method and URL, sets or overwrites every winning parameter and keeps every other parameter |
| LinkHeader.FirstAcceptingIsLeast | github_pagination/pagination_utils/pagination_response/response.go:89-93 | the search stops at the least accepting sub-parser |
| LinkHeader.HeaderOfLinks | github_pagination/pagination_utils/pagination_response/response.go:40-44 | a header written as GitHub writes it yields what the sub-parsers make of its links' relations and queries, link by link |
| LinkHeader.QueryOfOnePair | github_pagination/pagination_utils/pagination_response/response.go:106-111 | `base?k=v` has the query {k: v} |
| LinkHeader.QueryOfTwoPairs | github_pagination/pagination_utils/pagination_response/response.go:106-111 | `base?k1=v1&k2=v2` has the query {k1: v1, k2: v2} |
| LinkHeader.NoNextLinks | github_pagination/pagination_utils/pagination_response/response.go:84-94 | links that are not next records nothing |
| LinkHeader.OnlyTheNextLinkCounts | github_pagination/pagination_utils/pagination_response/response.go:84-94 | with one next link among others, only that link's query is recorded |
| LinkHeader.NothingRecordedNoNext | github_pagination/pagination_utils/pagination_response/response.go:64-71 | a fresh parser, which recorded nothing, gives no next parameters |
| LinkHeader.PrevLinksOnly | githubpagination/paginationresponse/response_test.go:77-83 | a header with only prev links gives no next request |
| LinkHeader.OneKeyNext | github_pagination/pagination_utils/pagination_response/response.go:64-71 | a next link whose query is one pagination key carries exactly that key and value |
| LinkHeader.NextLinkAmongPrev | githubpagination/paginationresponse/response_test.go:84-92 | one next link `base?k=v` among prev links gives {k: v}, wherever it stands |
| LinkHeader.PageAfterStep | githubpagination/paginationresponse/response_test.go:151-159 | next `page=5&after=ABC`: before/after outranks page and keeps only `after` |
| LinkHeader.PageSinceStep | githubpagination/paginationresponse/response_test.go:168-175 | next `page=10&since=ABC`: page outranks since and keeps only `page` |
| LinkHeader.PageAfterNext | githubpagination/paginationresponse/response_test.go:151-159 | a next link `base?page=5&after=ABC` among prev links, wherever it stands, gives {after: ABC} and not page=5 |
| LinkHeader.NextLinkWithTwoPairs | github_pagination/pagination_utils/pagination_response/response.go:84-94 | a next link with two query pairs among prev links gives what that one link's query records |
| LinkHeader.PageAndBeforeAfter | githubpagination/paginationresponse/response_test.go:151-159 | next `page=5&after=ABC`, prev `before=ABC`: the next parameters are {after: ABC} |
| LinkHeader.BeforeAfterAndPage | githubpagination/paginationresponse/response_test.go:151-159 | the same links in the other order give the same {after: ABC} |
| LinkHeader.SinceNotForPaging | githubpagination/paginationresponse/response_test.go:168-175 | next `page=10&since=ABC` gives {page: 10} |
| LinkHeader.PageNextOnly | githubpagination/paginationresponse/response_test.go:68-75 | next `page=2` alone gives {page: 2} |
| LinkHeader.HeaderKeepsKeysWithin | github_pagination/pagination_utils/pagination_response/response.go:40-44 | from a state where each sub-parser holds only its own keys, reading any header keeps it so |
| LinkHeader.NextQueryKeys | github_pagination/pagination_utils/pagination_response/response.go:64-71 | the next parameters never name anything but cursor, before, after, page and since |
| LinkHeader.NextRequestKeepsTheRest | github_pagination/pagination_utils/pagination_response/response.go:54-61 | the next request keeps method, URL and every non-pagination parameter, per_page among them |
| PaginationResponse.ResponseParser.constructor | github_pagination/pagination_utils/pagination_response/response.go:18-27 | a new parser's four sub-parsers have recorded nothing |
| PaginationResponse.ResponseParser.ParseSegment | github_pagination/pagination_utils/pagination_response/response.go:84-94 | the recordings move exactly as SegmentStep says: unknown relations are skipped, and the loop stops at the first accepting sub-parser |
| PaginationResponse.ResponseParser.ParseLink | github_pagination/pagination_utils/pagination_response/response.go:73-82 | a link with fewer than two `;` parts is ignored; otherwise every later part is a segment about the first part's query |
| PaginationResponse.ResponseParser.ParseValue | github_pagination/pagination_utils/pagination_response/response.go:40-44 | every `,`-separated link of one Link value, in order |
| PaginationResponse.ResponseParser.GetNextQueryParams | github_pagination/pagination_utils/pagination_response/response.go:64-71 | the recording of the first sub-parser, in priority order, that recorded something |
| PaginationResponse.ResponseParser.Parse | github_pagination/pagination_utils/pagination_response/response.go:29-46 | nothing for a nil response, a nil header or a missing or empty Link; otherwise every value is read and the winning parameters come back |
| PaginationResponse.ResponseParser.GetNextRequest | github_pagination/pagination_utils/pagination_response/response.go:48-62 | no request exactly when there are no parameters; otherwise a fresh clone with every parameter set and every other one kept |
| PaginationResponse.NextRequestFor | github_pagination/pagination_utils/response.go:9-11 | a fresh parser asked once: no request exactly when NextRequest gives none, otherwise a fresh request equal to it |
| PaginationConfig.Apply | github_pagination/github_pagination/options.go:13-41 | each option sets its own field to its value and leaves every field another kind of option would set alone |
| PaginationConfig.Config.constructor | github_pagination/github_pagination/config.go:17-21 | a new config is the zero config (enabled, per_page 0, no page limit) with the options applied |
| PaginationConfig.Config.ApplyOptions | github_pagination/github_pagination/config.go:24-31 | the options are applied in order, nil ones skipped |
| PaginationConfig.Config.GetRequestConfig | github_pagination/github_pagination/config.go:34-43 | without overrides the config itself; with them a fresh copy with the overrides applied, the shared config untouched |
| PaginationConfig.Config.UpdateRequest | github_pagination/github_pagination/config.go:45-53 | per_page is set to the default unless the default is 0, in which case the query is untouched |
| PaginationConfig.Config.IsPaginationOverflow | github_pagination/github_pagination/config.go:55-57 | true exactly when the limit is positive and the page count is past it |
| PaginationConfig.LastOptionWins | github_pagination/github_pagination/config.go:24-31 | the last option that sets a field decides it |
| PaginationConfig.UnsetFieldKept | github_pagination/github_pagination/config.go:24-31 | a field no option sets keeps its value |
| PaginationConfig.RequestReenables | github_pagination/github_pagination/pagination_test.go:213-236 | a per-request enable option re-enables pagination on a client created disabled |
| PaginationConfig.OverridesKeepTheRest | github_pagination/github_pagination/config.go:40-42 | overrides that do not touch a field keep the client's value of it |
| PaginationConfig.PerPageReadsBack | github_pagination/github_pagination/config.go:45-53 | per_page reads back as the configured number, only per_page is added or replaced, and 0 leaves the query alone |
| Pagination.PageVerdict | github_pagination/github_pagination/pagination.go:44-74 | a turn goes on only after a 200 page with a next request that merged cleanly and is within the limit, with the page counted; a break past the first page has a fixed shape |
| Pagination.MergeVerdict | github_pagination/github_pagination/pagination.go:64-74 | a merge error ends the turn; otherwise the merged state is the merger's, and the loop leaves on no next request or past the limit |
| Pagination.Run | github_pagination/github_pagination/pagination.go:44-75 | at most `fuel` requests; a trip that ends has sent at least one request, the first one first |
| Pagination.Send | github_pagination/github_pagination/pagination.go:45 | one call of the transport: a fresh response around a fresh body holding its answer, or its error |
| Pagination.VisitPage | github_pagination/github_pagination/pagination.go:45-74 | one loop turn on the live objects does what PageVerdict decides, with the response, error, next request and counter it implies |
| Pagination.MergePage | github_pagination/github_pagination/pagination.go:64-74 | the merge, the no-next check and the limit check on the live objects do what MergeVerdict decides |
| Pagination.LoopTurn | github_pagination/github_pagination/pagination.go:44-75 | each turn either ends the trip with its request sent last or leaves the rest of the trip from the next request on |
| Pagination.Turn | github_pagination/github_pagination/pagination.go:44-75 | one turn stated against the whole trip: the loop invariant is kept |
| Pagination.FollowPages | github_pagination/github_pagination/pagination.go:42-83 | the requests sent and what comes back are exactly the trip Run describes |
| Pagination.SwapBody | github_pagination/github_pagination/pagination.go:79-81 | the response's body becomes a fresh reader over the merged text |
| Pagination.GitHubPagination.constructor | github_pagination/github_pagination/pagination.go:16-24 | the transport is kept and the config is the zero config with the options applied |
| Pagination.GitHubPagination.RoundTrip | github_pagination/github_pagination/pagination.go:32-84 | the requests sent and the answer are exactly those Paginate describes under the request's config; the caller's request is left as it was when pagination is disabled and otherwise has per_page set in place to the configured default (unless that is 0) |
| Pagination.ParserKeepsTheRest | github_pagination/github_pagination/pagination.go:38-40 | the Link parser only ever changes pagination parameters |
| Pagination.RunCarriesOver | github_pagination/github_pagination/pagination.go:38-40 | every request the loop sends is the first with at most the pagination parameters changed, for a query of one value per key |
| Pagination.PerPageThroughout | github_pagination/github_pagination/pagination_test.go:159-168 | with per_page configured, every request sent asks for that many items, with the same method and URL (for a query of one value per key) |
| Pagination.RunSendsAtMost | github_pagination/github_pagination/pagination.go:71-74 | from page n on, at most M - n + 1 more requests |
| Pagination.EnoughFuel | github_pagination/github_pagination/pagination.go:71-74 | fuel for every page up to a positive limit is enough: the loop ends |
| Pagination.PageLimit | github_pagination/github_pagination/pagination_test.go:170-179 | with MaxNumOfPages M > 0, at most M requests are sent, and M turns of fuel are enough for the loop to end |
| Pagination.RunEndsOnLastFetch | github_pagination/github_pagination/pagination.go:45-66 | a transport error, a non-200 response or a merge error is the last fetch's own answer, and a 200 answer carries the last fetch's header |
| Pagination.RunServed | github_pagination/github_pagination/pagination.go:45-55 | a trip that ends without a transport error had every request answered |
| Pagination.SinglePageUntouched | github_pagination/github_pagination/pagination.go:60-62 | a first 200 page with no next link comes back as it is, one request sent, nothing merged |
| Pagination.RunMergesInFetchOrder | github_pagination/github_pagination/pagination.go:64-81 | past the early exit, a 200 answer carries the clean merge of every fetched body in fetch order |
| Pagination.EnvelopePagesCombine | github_pagination/json_merger/json_merger_test/merger_test.go:11 | unless the first answer ends the loop at once, GitHub envelope pages come back as one envelope: counts summed, flags OR-ed, items of every page in fetch order (a single page under a one-page limit included) |
| Pagination.ArrayPagesConcatenate | github_pagination/github_pagination/pagination_test.go:142-153 | unless the first answer ends the loop at once, array pages come back as one array of every page's elements, page after page (a single page under a one-page limit included) |
| PaginationDrivers.ShouldStop | github_pagination/github_pagination/pagination_drivers/driver.go:17-19 | true exactly when the error is the sentinel or wraps it at any depth |
| PaginationDrivers.SyncPaginationDriver.constructor | github_pagination/github_pagination/pagination_drivers/sync_driver.go:14-18 | each driver owns a fresh merger of its own, with no shape yet (the same in githubpagination/drivers/sync_driver.go) |
| PaginationDrivers.SyncPaginationDriver.OnNextRequest | github_pagination/github_pagination/pagination_drivers/sync_driver.go:20-26 | returns the sentinel exactly when the next request is nil on the first page, and nil otherwise |
| PaginationDrivers.SyncPaginationDriver.OnNextResponse | github_pagination/github_pagination/pagination_drivers/sync_driver.go:28-33 | the body goes to the merger, whose new state and error are exactly MergerStep's; a body handed to a merger is drained, one refused keeps only an end part of its text, and it is closed exactly as the merger's ReadNext states |
| PaginationDrivers.SyncPaginationDriver.OnFinish | github_pagination/github_pagination/pagination_drivers/sync_driver.go:35-40 | past the first page the body becomes the merged one; a single page keeps its own; never an error |
| PaginationDrivers.SyncPaginationDriver.OnBadResponse | github_pagination/github_pagination/pagination_drivers/sync_driver.go:42-43 | changes nothing |
| PaginationDrivers.WrappedStopStops | github_pagination/github_pagination/pagination_drivers/driver.go:17-19 | the sentinel under any number of `%w` layers stops |
| PaginationDrivers.NothingElseStops | github_pagination/github_pagination/pagination_drivers/driver.go:17-19 | nil does not stop, and neither does a `%v` copy of the sentinel's text |
| PaginationDrivers.SentinelsApart | githubpagination/drivers/driver.go:8 | the two trees' sentinels are different errors: neither stops the other tree's driver |
| PaginationDrivers.StopIsEarlyExit | github_pagination/github_pagination/pagination_drivers/driver.go:21-23 | the driver's stop rule is RoundTrip's early exit: a first 200 page with no next request comes back untouched, one request sent |

## Left out

- I/O is modelled by values. The underlying transport is a function from a request to its answer (`Transport`). `http.DefaultTransport`, which `NewGithubPagination` substitutes for a nil base, is just another such function.
- `NewGithubPaginationClient` (github_pagination/github_pagination/pagination.go:26-30) only wraps the transport in an `http.Client` and adds nothing to the model.
- `WithOverrideConfig` and `GetConfigOverrides` carry per-request options in a `context.Context`. `RoundTrip` takes those options as an explicit parameter: `None` means no overrides. A nil option list and an empty one behave alike in the source.
- `MaxPerPage` is declared as a constant, as in the source. The options do not enforce it.
- `Pagination.Run` and `GitHubPagination.RoundTrip` take a fuel bound on the number of requests. The source's loop follows `next` links for as long as the server sends them. The model's `requires` asks that the fuel suffices. `PageLimit` shows that any positive page limit gives enough fuel.
- `Pagination.Run` and the lemmas about the loop are stated for any next-request rule and any merge rule. `RoundTrip` instantiates them with the `Link`-header parser (`NextRequest`) and the merger's own step (`MergerStep`).
- JSON decoding is not modelled character by character. A body carries the value `encoding/json` would decode from it, beside its text. Shape detection reads the text up to the first token. Only the first significant character decides `[`, `{`, a scalar or a tokenizer error.
- lazy_tee_reader.go is not part of this model. Its behaviour is taken from github_pagination/json_merger/json_merger_test/lazy_tee_reader_test.go and from how detect_type.go uses it.
- slices.go is not part of this model. `UnprocessedSlice` is modelled from slices_test.go and from its use in maps.go. Its `ReadNext` decodes the body as an array, appends the elements, reads the body to the end and closes it.
- The four sub-parsers and `getRelType` are not part of this model. Their behaviour is fixed from the table in githubpagination/paginationresponse/response_test.go:
  - each sub-parser owns its keys: cursor; before and after; page; since;
  - a sub-parser accepts a query that has one of its keys;
  - on a `next` relation, it records the query restricted to those keys;
  - a relation is `rel="next"` or `rel="prev"` once trimmed.
- `url.Parse` is modelled only as far as the `Link` targets need it. The model rejects a URL that has a control character or that starts with `:`. `url.ParseQuery` keeps the first value of a key and drops pieces holding `;`. Percent-decoding is not modelled.
- `url.Values.Encode` sorts the query when a request is sent. Queries are maps here, so order plays no part.
- `Http.Query` / `Pagination.RunCarriesOver` / `Pagination.PerPageThroughout`: a query is a map with one value per key. Go's `URL.Query` keeps every value of a repeated key, and a round trip through `Query` and `Encode` drops pieces that hold `;` or a malformed percent escape. So "the caller's parameters are kept" holds here for queries of one value per key and well-formed pieces only.
- `MapCombine.GithubMapCombiner.Digest` / `GhSearchResult.SearchMerger.Digest`: `totalCount +=` is on a 64-bit Go `int`, which wraps around past 2^63-1. The model adds unbounded integers. A `total_count` outside the 64-bit range is a decode error in `encoding/json`; the model's decoded `Object` accepts any integer count.
- `Pagination.Run`: `pageCount++` is on a 64-bit `int`. The model counts with an unbounded `nat` and does not model the wrap-around, which would take 2^63 pages.
- `Maps.UnpaginatedOverrides` / `Maps.UnprocessedMap.ReadNext`: the kept body is the text the tee recorded. The model lets the decoder read the body to its end, so the kept text is the whole body. In the source the tee records only the bytes the decoder pulled, which can stop before trailing bytes after the JSON value.
- `PaginationDrivers.SyncPaginationDriver.OnBadResponse` is a no-op in the source and in the model.
- The `Driver` interface itself, the asynchronous drivers and the GitHub async adapters run pages concurrently over channels. Concurrency is outside the model.
- The two package trees (github_pagination/... and githubpagination/...) hold the same driver code, up to names. It is modelled once. The two sentinels are distinct constants (`SentinelsApart`).
- `GhSearchResult.SearchDigest`: requires that the page's `items` field is present, because the source dereferences a missing items field and panics.
- `JsonMerger.Merger.Merged`: requires a shape to be fixed, because the source calls a nil delegate before the first page is read.
- `DetectType.DetectJsonType` / `JsonMerger.Merger.ReadNext` / `PaginationDrivers.SyncPaginationDriver.OnNextResponse`: for a page refused at detection or by shape, the contracts say only that the caller's body keeps an end part of its text and is not closed. The model's detector reads one byte at a time up to the first significant one; `json.Decoder` reads ahead into a buffer, so in the source more of the body can be gone. The replay reader that holds the consumed bytes is dropped, as in the source.
- Errors are values: `Wrapped` stands for a `%w` wrap and `Formatted` for a `%v` wrap. `errors.Is` is a walk down the `Wrapped` chain. `NotPaginatableDictError` is recognised through `errors.Is` on its sentinel value.
- The end-to-end scenarios of github_pagination/github_pagination/pagination_test.go are stated as general lemmas over any transport, not as a model of the test server:
  - four fetches for three links (TestBasic);
  - per_page 10 over 5 (TestPerPage);
  - a two-page limit (TestMaxPages);
  - a disabled client with a per-request override (TestDisabled, TestPerRequestConfig).

  The lemmas are `ArrayPagesConcatenate`, `PerPageThroughout`, `PageLimit` and `RequestReenables`.
