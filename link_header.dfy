/**
 * What the Link-header parser computes, as functions: RFC 8288, section 3
 * link-values are separated by `,`, the parts of one by `;`, the target is
 * written `<...>`, and four query-parameter sub-parsers are asked, in a fixed
 * order, whether they recognise the target's query.
 */
module LinkHeader {

  import opened Wrappers
  import opened Text
  import opened Http

  /* ---------------------------------------------------------------- rel types */

  datatype RelType = RelTypeUnknown | RelTypeNext | RelTypePrev

  const RelNextText: string := "rel=\"next\""
  const RelPrevText: string := "rel=\"prev\""

  /** The text of a known relation, as it appears in a Link header. */
  function RelText(rel: RelType): string
    requires rel != RelTypeUnknown
  {
    if rel == RelTypeNext then RelNextText else RelPrevText
  }

  /** getRelType: a segment names `next` or `prev` exactly, up to white space around it. */
  function GetRelType(segment: string): RelType
  {
    var t := TrimSpace(segment);
    if t == RelNextText then RelTypeNext
    else if t == RelPrevText then RelTypePrev
    else RelTypeUnknown
  }

  /* ------------------------------------------------- url.Parse(href).Query() */

  /** An ASCII control character, which url.Parse refuses. */
  predicate IsControl(c: char) {
    c < ' ' || c == '\U{007F}'
  }

  predicate HasControl(s: string) {
    exists i :: 0 <= i < |s| && IsControl(s[i])
  }

  /** The URL without its `#fragment`. */
  function BeforeFragment(href: string): string {
    if '#' in href then href[..IndexOf(href, '#')] else href
  }

  /** The raw query: what follows the first `?`, or nothing. */
  function RawQuery(u: string): string {
    if '?' in u then u[IndexOf(u, '?') + 1..] else ""
  }

  /** One `key=value` piece of a query: the key, and the value after the first `=`. */
  function CutEquals(piece: string): (string, string) {
    if '=' in piece then (piece[..IndexOf(piece, '=')], piece[IndexOf(piece, '=') + 1..])
    else (piece, "")
  }

  /** url.ParseQuery over pieces: empty pieces and pieces holding `;` are dropped; the first value of a key is kept. */
  function AddPieces(q: Query, pieces: seq<string>): Query
    decreases |pieces|
  {
    if pieces == [] then q
    else
      var piece := pieces[0];
      var q' :=
        if piece == "" || ';' in piece then q
        else
          var (k, v) := CutEquals(piece);
          if k in q then q else q[k := v];
      AddPieces(q', pieces[1..])
  }

  function ParseQuery(raw: string): Query {
    AddPieces(map[], Split(raw, '&'))
  }

  /**
   * url.Parse(href) followed by Query(): no query when the URL before its
   * fragment holds a control character or starts with `:` (a missing scheme).
   */
  function UrlQuery(href: string): Option<Query> {
    var u := BeforeFragment(href);
    if HasControl(u) || (u != [] && u[0] == ':') then None
    else Some(ParseQuery(RawQuery(u)))
  }

  /** hrefToQeury: the query of a `<...>` target, when it has one. */
  function HrefToQuery(formattedHref: string): Option<Query> {
    var t := TrimSpace(formattedHref);
    if |t| < 2 then None
    else if t[..1] != "<" || t[|t| - 1..] != ">" then None
    else UrlQuery(t[1..|t| - 1])
  }

  /**
   * A target yields a query exactly when, trimmed, it is `<href>` for an href
   * that parses as a URL; anything shorter than two characters or not wrapped
   * in angle brackets yields none.
   */
  lemma HrefToQueryShape(formattedHref: string)
    ensures HrefToQuery(formattedHref).Some? ==> exists href ::
      && TrimSpace(formattedHref) == "<" + href + ">"
      && UrlQuery(href) == HrefToQuery(formattedHref)
    ensures (|TrimSpace(formattedHref)| < 2
             || TrimSpace(formattedHref)[0] != '<'
             || TrimSpace(formattedHref)[|TrimSpace(formattedHref)| - 1] != '>')
            ==> HrefToQuery(formattedHref).None?
    ensures forall href :: TrimSpace(formattedHref) == "<" + href + ">" ==> HrefToQuery(formattedHref) == UrlQuery(href)
  {
    var t := TrimSpace(formattedHref);
    if |t| >= 2 {
      assert (t[..1] == "<") == (t[0] == '<') && (t[|t| - 1..] == ">") == (t[|t| - 1] == '>');
      if t[0] == '<' && t[|t| - 1] == '>' {
        assert t == "<" + t[1..|t| - 1] + ">";
      }
    }
    forall h | t == "<" + h + ">" ensures HrefToQuery(formattedHref) == UrlQuery(h) {
      Unbracket(t, h);
    }
  }

  /** The target inside its angle brackets. */
  lemma Unbracket(t: string, h: string)
    requires t == "<" + h + ">"
    ensures |t| >= 2 && t[..1] == "<" && t[|t| - 1..] == ">" && t[1..|t| - 1] == h
  {
    assert t[1..|t| - 1] == h;
  }

  /* ------------------------------------------------------------- sub-parsers */

  /** The query keys each sub-parser owns, in priority order: cursor, before/after, page, since. */
  const SubParserKeys: seq<set<string>> := [{"cursor"}, {"before", "after"}, {"page"}, {"since"}]

  /** What the four sub-parsers have recorded for the next request, in priority order. */
  type Recorded = r: seq<Option<Query>> | |r| == 4 witness [None, None, None, None]

  /** The sub-parsers of a fresh parser: nothing recorded. */
  const NothingRecorded: Recorded := [None, None, None, None]

  /** Sub-parser `k` recognises a query that holds one of its keys. */
  predicate Accepts(k: nat, query: Option<Query>)
    requires k < 4
  {
    query.Some? && exists key :: key in SubParserKeys[k] && key in query.value
  }

  /** The part of a query a sub-parser carries into the next request: its own keys. */
  function Restrict(q: Query, keys: set<string>): (r: Query)
    ensures r.Keys == q.Keys * keys
    ensures forall key :: key in r ==> r[key] == q[key]
  {
    map key | key in q && key in keys :: q[key]
  }

  /** The first sub-parser, from `from` on, that recognises the query; 4 when none does. */
  function FirstAccepting(query: Option<Query>, from: nat): (w: nat)
    requires from <= 4
    ensures from <= w <= 4
    ensures w < 4 ==> Accepts(w, query)
    ensures forall j :: from <= j < w ==> !Accepts(j, query)
    decreases 4 - from
  {
    if from == 4 then 4
    else if Accepts(from, query) then from
    else FirstAccepting(query, from + 1)
  }

  /**
   * One relation seen by the sub-parsers: the first that recognises the query
   * takes it, and records its own keys of the query when the relation is `next`.
   */
  function RelStep(r: Recorded, rel: RelType, query: Option<Query>): (r': Recorded)
    ensures rel != RelTypeNext ==> r' == r
    ensures var w := FirstAccepting(query, 0);
            && (w == 4 ==> r' == r)
            && (rel == RelTypeNext && w < 4 ==>
                  r' == r[w := Some(Restrict(query.value, SubParserKeys[w]))])
  {
    if rel == RelTypeUnknown then r
    else
      var w := FirstAccepting(query, 0);
      if w == 4 || rel != RelTypeNext then r
      else r[w := Some(Restrict(query.value, SubParserKeys[w]))]
  }

  /** parseSegment's effect. */
  function SegmentStep(r: Recorded, segment: string, query: Option<Query>): Recorded {
    RelStep(r, GetRelType(segment), query)
  }

  /** The first `n` segments, one after the other, all about the same target. */
  function SegmentsStep(r: Recorded, segments: seq<string>, query: Option<Query>, n: nat): Recorded
    requires n <= |segments|
  {
    if n == 0 then r
    else SegmentStep(SegmentsStep(r, segments, query, n - 1), segments[n - 1], query)
  }

  /** parseLink's effect: a link with fewer than two `;`-parts is ignored. */
  function LinkStep(r: Recorded, link: string): Recorded {
    var segments := Split(TrimSpace(link), ';');
    if |segments| < 2 then r
    else SegmentsStep(r, segments[1..], HrefToQuery(segments[0]), |segments| - 1)
  }

  /** The first `n` links, one after the other. */
  function LinksStep(r: Recorded, links: seq<string>, n: nat): Recorded
    requires n <= |links|
  {
    if n == 0 then r
    else LinkStep(LinksStep(r, links, n - 1), links[n - 1])
  }

  /** The first `n` values of the Link header, each split on `,`. */
  function HeaderStep(r: Recorded, values: seq<string>, n: nat): Recorded
    requires n <= |values|
  {
    if n == 0 then r
    else
      var links := Split(values[n - 1], ',');
      LinksStep(HeaderStep(r, values, n - 1), links, |links|)
  }

  /** getNextQueryParams from `from` on: the first sub-parser's recording, in priority order. */
  function FirstRecorded(r: Recorded, from: nat): (p: Option<Query>)
    requires from <= 4
    ensures p.None? <==> forall j :: from <= j < 4 ==> r[j].None?
    ensures p.Some? ==> exists w :: from <= w < 4 && r[w] == p && forall j :: from <= j < w ==> r[j].None?
    decreases 4 - from
  {
    if from == 4 then None
    else if r[from].Some? then r[from]
    else FirstRecorded(r, from + 1)
  }

  function NextParams(r: Recorded): Option<Query> {
    FirstRecorded(r, 0)
  }

  /** The values of the Link header, when the header is there and the list is not empty. */
  function LinkValues(header: Option<Header>): Option<seq<string>> {
    if header.None? || "Link" !in header.value || |header.value["Link"]| == 0 then None
    else Some(header.value["Link"])
  }

  /** What a fresh parser makes of a response's header: the next page's parameters, if any. */
  function NextQuery(header: Option<Header>): Option<Query> {
    match LinkValues(header)
    case None => None
    case Some(values) => NextParams(HeaderStep(NothingRecorded, values, |values|))
  }

  /** A request with `params` set: every parameter set or overwritten, every other parameter kept. */
  function WithParams(prev: RequestValue, params: Query): (r: RequestValue)
    ensures r.verb == prev.verb && r.path == prev.path
    ensures r.query.Keys == prev.query.Keys + params.Keys
    ensures forall k :: k in params ==> r.query[k] == params[k]
    ensures forall k :: k in prev.query && k !in params ==> r.query[k] == prev.query[k]
  {
    prev.(query := prev.query + params)
  }

  /** The next request: none when the header names no next page. */
  function NextRequest(prev: RequestValue, header: Option<Header>): Option<RequestValue> {
    match NextQuery(header)
    case None => None
    case Some(params) => Some(WithParams(prev, params))
  }

  /* ------------------------------------------------------------------ lemmas */

  /** FirstAccepting is the least accepting index. */
  lemma {:induction false} FirstAcceptingIsLeast(query: Option<Query>, k: nat)
    requires k <= 4
    requires forall j :: 0 <= j < k ==> !Accepts(j, query)
    requires k < 4 ==> Accepts(k, query)
    ensures FirstAccepting(query, 0) == k
  {
  }

  /* ------------------------------------------------- Link headers as written */

  /** One link-value as GitHub writes it: `<href>; rel="next"`. */
  function LinkText(href: string, rel: RelType): string
    requires rel != RelTypeUnknown
  {
    "<" + href + ">; " + RelText(rel)
  }

  predicate KnownRels(links: seq<(string, RelType)>) {
    forall i :: 0 <= i < |links| ==> links[i].1 != RelTypeUnknown
  }

  /** Targets the header syntax cannot confuse: no `,` and no `;` inside. */
  predicate PlainTargets(links: seq<(string, RelType)>) {
    forall i :: 0 <= i < |links| ==> ',' !in links[i].0 && ';' !in links[i].0
  }

  /** The links of a header joined with ", ", as one header value. */
  function LinkParts(links: seq<(string, RelType)>): (parts: seq<string>)
    requires KnownRels(links)
    ensures |parts| == |links|
  {
    seq(|links|, i requires 0 <= i < |links| => (if i == 0 then "" else " ") + LinkText(links[i].0, links[i].1))
  }

  function RenderLinks(links: seq<(string, RelType)>): string
    requires |links| >= 1 && KnownRels(links)
  {
    Join(LinkParts(links), ',')
  }

  /** The sub-parsers' view of the first `n` links: each relation with its target's query. */
  function LinksFold(r: Recorded, links: seq<(string, RelType)>, n: nat): Recorded
    requires n <= |links|
  {
    if n == 0 then r
    else RelStep(LinksFold(r, links, n - 1), links[n - 1].1, UrlQuery(links[n - 1].0))
  }

  /** A written link splits on `;` into its `<href>` and its relation. */
  lemma SplitLinkText(href: string, rel: RelType)
    requires rel != RelTypeUnknown && ';' !in href
    ensures Split(LinkText(href, rel), ';') == ["<" + href + ">", " " + RelText(rel)]
  {
    var a := "<" + href + ">";
    var b := " " + RelText(rel);
    assert LinkText(href, rel) == a + [';'] + b;
    assert Join([a, b], ';') == a + [';'] + b;
    SplitJoin([a, b], ';');
  }

  /** The `<href>` part yields the href's query. */
  lemma TargetOfLinkText(href: string)
    ensures HrefToQuery("<" + href + ">") == UrlQuery(href)
  {
    var a := "<" + href + ">";
    TrimSpaceOfTrimmed(a);
    assert a[1..|a| - 1] == href;
  }

  /** The relation part, after its blank, names its relation. */
  lemma RelOfLinkText(rel: RelType)
    requires rel != RelTypeUnknown
    ensures GetRelType(" " + RelText(rel)) == rel
  {
    TrimSpaceOfBlankThen(RelText(rel));
  }

  /** A link of exactly two `;`-parts is its second part applied to its first part's query. */
  lemma TwoPartLink(r: Recorded, link: string, a: string, b: string)
    requires Split(TrimSpace(link), ';') == [a, b]
    ensures LinkStep(r, link) == SegmentStep(r, b, HrefToQuery(a))
  {
    assert [a, b][1..] == [b];
    assert SegmentsStep(r, [b], HrefToQuery(a), 1) == SegmentStep(r, b, HrefToQuery(a));
  }

  /** A written link, with or without the blank that follows a `,`, is parsed as its relation and its target's query. */
  lemma LinkTextStep(r: Recorded, href: string, rel: RelType, lead: string)
    requires rel != RelTypeUnknown && ';' !in href
    requires lead == "" || lead == " "
    ensures LinkStep(r, lead + LinkText(href, rel)) == RelStep(r, rel, UrlQuery(href))
  {
    var t := LinkText(href, rel);
    if lead == "" {
      assert lead + t == t;
      TrimSpaceOfTrimmed(t);
    } else {
      TrimSpaceOfBlankThen(t);
    }
    SplitLinkText(href, rel);
    TwoPartLink(r, lead + t, "<" + href + ">", " " + RelText(rel));
    TargetOfLinkText(href);
    RelOfLinkText(rel);
  }

  /** The `i`-th part of a rendered header: a blank after every `,`, then the link. */
  lemma LinkPartAt(links: seq<(string, RelType)>, i: nat)
    requires i < |links| && KnownRels(links)
    ensures LinkParts(links)[i] == (if i == 0 then "" else " ") + LinkText(links[i].0, links[i].1)
  {
  }

  /** The `i`-th part of a rendered header is parsed as the `i`-th link's relation and target query. */
  lemma PartStep(r: Recorded, links: seq<(string, RelType)>, i: nat)
    requires i < |links| && KnownRels(links) && PlainTargets(links)
    ensures LinkStep(r, LinkParts(links)[i]) == RelStep(r, links[i].1, UrlQuery(links[i].0))
  {
    LinkPartAt(links, i);
    LinkTextStep(r, links[i].0, links[i].1, if i == 0 then "" else " ");
  }

  /** Reading the parts of a rendered header folds its links, one after the other. */
  lemma LinksStepOfParts(r: Recorded, links: seq<(string, RelType)>, n: nat)
    requires n <= |links| && KnownRels(links) && PlainTargets(links)
    ensures LinksStep(r, LinkParts(links), n) == LinksFold(r, links, n)
  {
    var parts := LinkParts(links);
    forall i, r': Recorded | 0 <= i < |links|
      ensures LinkStep(r', parts[i]) == RelStep(r', links[i].1, UrlQuery(links[i].0))
    {
      PartStep(r', links, i);
    }
    FoldParts(r, links, parts, n);
  }

  /** Parts that each read as their link fold the links. */
  lemma {:induction false} FoldParts(r: Recorded, links: seq<(string, RelType)>, parts: seq<string>, n: nat)
    requires n <= |links| == |parts|
    requires forall i, r': Recorded :: 0 <= i < |links| ==>
               LinkStep(r', parts[i]) == RelStep(r', links[i].1, UrlQuery(links[i].0))
    ensures LinksStep(r, parts, n) == LinksFold(r, links, n)
  {
    if n > 0 {
      FoldParts(r, links, parts, n - 1);
    }
  }

  /** A written link holds a `,` only where its target does. */
  lemma NoCommaInLinkText(lead: string, href: string, rel: RelType)
    requires rel != RelTypeUnknown && ',' !in href && ',' !in lead
    ensures ',' !in lead + LinkText(href, rel)
  {
    assert ',' !in RelText(rel);
    assert lead + LinkText(href, rel) == lead + "<" + href + ">; " + RelText(rel);
  }

  /** No part of a header with plain targets holds a `,`. */
  lemma PartsHaveNoComma(links: seq<(string, RelType)>)
    requires KnownRels(links) && PlainTargets(links)
    ensures forall i :: 0 <= i < |links| ==> ',' !in LinkParts(links)[i]
  {
    forall i | 0 <= i < |links| ensures ',' !in LinkParts(links)[i] {
      LinkPartAt(links, i);
      NoCommaInLinkText(if i == 0 then "" else " ", links[i].0, links[i].1);
    }
  }

  /** A header with one Link value: its `,`-separated links, one after the other. */
  lemma OneLinkValue(value: string)
    ensures NextQuery(Some(map["Link" := [value]]))
            == NextParams(LinksStep(NothingRecorded, Split(value, ','), |Split(value, ',')|))
  {
    var header: Header := map["Link" := [value]];
    var values := [value];
    assert LinkValues(Some(header)) == Some(values);
    var links := Split(value, ',');
    assert HeaderStep(NothingRecorded, values, 1) == LinksStep(HeaderStep(NothingRecorded, values, 0), links, |links|);
  }

  /**
   * A header written the way GitHub writes it, `<u1>; rel="next", <u2>; rel="prev"`,
   * names as next page what the sub-parsers make of its links' relations and queries.
   */
  lemma HeaderOfLinks(links: seq<(string, RelType)>)
    requires |links| >= 1 && KnownRels(links) && PlainTargets(links)
    ensures NextQuery(Some(map["Link" := [RenderLinks(links)]])) == NextParams(LinksFold(NothingRecorded, links, |links|))
  {
    var parts := LinkParts(links);
    PartsHaveNoComma(links);
    SplitJoin(parts, ',');
    LinksStepOfParts(NothingRecorded, links, |links|);
    OneLinkValue(RenderLinks(links));
  }

  /* ------------------------------------------------------ queries as written */

  /** A key or value written plainly: not empty, no control character, none of `&=;#?,`. */
  predicate QueryWord(w: string) {
    && w != []
    && forall i :: 0 <= i < |w| ==> !IsControl(w[i]) && w[i] !in "&=;#?,"
  }

  /** A URL without query or fragment, with a scheme or a path first, and nothing the header syntax uses. */
  predicate PlainBase(base: string) {
    && base != [] && base[0] != ':'
    && forall i :: 0 <= i < |base| ==> !IsControl(base[i]) && base[i] !in "?#;,"
  }

  lemma IndexOfAfter(a: string, c: char, b: string)
    requires c !in a
    ensures IndexOf(a + [c] + b, c) == |a|
  {
    var s := a + [c] + b;
    assert s[|a|] == c;
    assert s[..|a|] == a;
  }

  lemma NoControlConcat(a: string, b: string)
    requires !HasControl(a) && !HasControl(b)
    ensures !HasControl(a + b)
  {
    forall i | 0 <= i < |a + b| ensures !IsControl((a + b)[i]) {
      if i < |a| {
        assert (a + b)[i] == a[i];
      } else {
        assert (a + b)[i] == b[i - |a|];
      }
    }
  }

  /** A `key=value` piece cuts at its `=` into the key and the value, and is kept by ParseQuery. */
  lemma CutPair(k: string, v: string)
    requires QueryWord(k) && QueryWord(v)
    ensures CutEquals(k + "=" + v) == (k, v)
    ensures k + "=" + v != "" && ';' !in k + "=" + v
  {
    var piece := k + "=" + v;
    assert '=' !in k && ';' !in k && ';' !in v;
    IndexOfAfter(k, '=', v);
    assert piece[..|k|] == k && piece[|k| + 1..] == v;
  }

  /** One `key=value` piece reads back as that key and value. */
  lemma PieceOfPair(k: string, v: string)
    requires QueryWord(k) && QueryWord(v)
    ensures AddPieces(map[], [k + "=" + v]) == map[k := v]
  {
    CutPair(k, v);
    assert [k + "=" + v][1..] == [];
  }

  /** The query of `base?rest`, when `rest` is plain, is what ParseQuery reads from `rest`. */
  lemma QueryOfUrl(base: string, rest: string)
    requires PlainBase(base) && !HasControl(rest) && '#' !in rest
    ensures UrlQuery(base + "?" + rest) == Some(ParseQuery(rest))
  {
    var href := base + "?" + rest;
    assert '#' !in base && '?' !in base;
    assert href == base + ['?'] + rest;
    assert '#' !in href;
    NoControlConcat(base, "?");
    NoControlConcat(base + "?", rest);
    IndexOfAfter(base, '?', rest);
    assert href[|base| + 1..] == rest;
  }

  /** A `key=value` piece holds no control character, no `#` and no `&`. */
  lemma PlainPiece(k: string, v: string)
    requires QueryWord(k) && QueryWord(v)
    ensures !HasControl(k + "=" + v) && '#' !in k + "=" + v && '&' !in k + "=" + v
  {
    NoControlConcat(k, "=");
    NoControlConcat(k + "=", v);
  }

  /** `base?k=v` has the query {k: v}. */
  lemma QueryOfOnePair(base: string, k: string, v: string)
    requires PlainBase(base) && QueryWord(k) && QueryWord(v)
    ensures UrlQuery(base + "?" + (k + "=" + v)) == Some(map[k := v])
  {
    PlainPiece(k, v);
    QueryOfUrl(base, k + "=" + v);
    PieceOfPair(k, v);
  }

  /** Two pieces joined by `&` read back as both pairs. */
  lemma TwoPieces(k1: string, v1: string, k2: string, v2: string)
    requires QueryWord(k1) && QueryWord(v1) && QueryWord(k2) && QueryWord(v2)
    requires k1 != k2
    ensures ParseQuery(k1 + "=" + v1 + "&" + k2 + "=" + v2) == map[k1 := v1, k2 := v2]
  {
    var p1 := k1 + "=" + v1;
    var p2 := k2 + "=" + v2;
    PlainPiece(k1, v1);
    PlainPiece(k2, v2);
    assert k1 + "=" + v1 + "&" + k2 + "=" + v2 == p1 + ['&'] + p2;
    SplitFirst(p1, '&', p2);
    assert Split(p2, '&') == [p2];
    CutPair(k1, v1);
    CutPair(k2, v2);
    var ps := [p1, p2];
    assert ps[1..] == [p2] && [p2][1..] == [];
    assert AddPieces(map[], ps) == AddPieces(map[k1 := v1], [p2]);
    assert AddPieces(map[k1 := v1], [p2]) == AddPieces(map[k1 := v1, k2 := v2], []);
  }

  /** `base?k1=v1&k2=v2` has the query {k1: v1, k2: v2}. */
  lemma QueryOfTwoPairs(base: string, k1: string, v1: string, k2: string, v2: string)
    requires PlainBase(base) && QueryWord(k1) && QueryWord(v1) && QueryWord(k2) && QueryWord(v2)
    requires k1 != k2
    ensures UrlQuery(base + "?" + (k1 + "=" + v1 + "&" + k2 + "=" + v2)) == Some(map[k1 := v1, k2 := v2])
  {
    var p1 := k1 + "=" + v1;
    var p2 := k2 + "=" + v2;
    PlainPiece(k1, v1);
    PlainPiece(k2, v2);
    NoControlConcat(p1, "&");
    NoControlConcat(p1 + "&", p2);
    assert p1 + "&" + p2 == k1 + "=" + v1 + "&" + k2 + "=" + v2;
    QueryOfUrl(base, p1 + "&" + p2);
    TwoPieces(k1, v1, k2, v2);
  }

  /* ------------------------------------------------------------ what results */

  /** Links that name no next page leave the sub-parsers as they were. */
  lemma {:induction false} NoNextLinks(r: Recorded, links: seq<(string, RelType)>, n: nat)
    requires n <= |links|
    requires forall i :: 0 <= i < n ==> links[i].1 != RelTypeNext
    ensures LinksFold(r, links, n) == r
  {
    if n > 0 {
      NoNextLinks(r, links, n - 1);
    }
  }

  /** With one next link among others, only that link counts. */
  lemma {:induction false} OnlyTheNextLinkCounts(r: Recorded, links: seq<(string, RelType)>, i: nat, n: nat)
    requires i < n <= |links| && links[i].1 == RelTypeNext
    requires forall j :: 0 <= j < |links| && j != i ==> links[j].1 != RelTypeNext
    ensures LinksFold(r, links, n) == RelStep(r, RelTypeNext, UrlQuery(links[i].0))
  {
    if n == i + 1 {
      NoNextLinks(r, links, i);
    } else {
      OnlyTheNextLinkCounts(r, links, i, n - 1);
      assert links[n - 1].1 != RelTypeNext;
    }
  }

  /** No recording, no next page. */
  lemma NothingRecordedNoNext()
    ensures NextParams(NothingRecorded) == None
  {
  }

  /** A header with only `prev` links names no next page. */
  lemma PrevLinksOnly(links: seq<(string, RelType)>)
    requires |links| >= 1 && PlainTargets(links)
    requires forall i :: 0 <= i < |links| ==> links[i].1 == RelTypePrev
    ensures NextQuery(Some(map["Link" := [RenderLinks(links)]])) == None
  {
    HeaderOfLinks(links);
    NoNextLinks(NothingRecorded, links, |links|);
  }

  /** The keys some sub-parser owns. */
  const PaginationKeys: set<string> := {"cursor", "before", "after", "page", "since"}

  /** A next link whose query is one pagination key carries exactly that key into the next request. */
  lemma {:induction false} OneKeyNext(k: string, v: string)
    requires k in PaginationKeys
    ensures NextParams(RelStep(NothingRecorded, RelTypeNext, Some(map[k := v]))) == Some(map[k := v])
  {
    var q := Some(map[k := v]);
    var w := if k == "cursor" then 0 else if k == "before" || k == "after" then 1 else if k == "page" then 2 else 3;
    assert k in SubParserKeys[w];
    assert Accepts(w, q);
    forall j | 0 <= j < w ensures !Accepts(j, q) {
      assert k !in SubParserKeys[j];
    }
    FirstAcceptingIsLeast(q, w);
    assert Restrict(map[k := v], SubParserKeys[w]) == map[k := v];
    var r := NothingRecorded[w := q];
    assert forall j :: 0 <= j < w ==> r[j].None?;
  }

  /**
   * A header whose one next link is `base?k=v` for a pagination key `k`, in
   * any order among `prev` links, names `{k: v}` as the next parameters.
   */
  lemma NextLinkAmongPrev(base: string, k: string, v: string, links: seq<(string, RelType)>, i: nat)
    requires PlainBase(base) && QueryWord(k) && QueryWord(v) && k in PaginationKeys
    requires i < |links| && links[i] == (base + "?" + (k + "=" + v), RelTypeNext)
    requires forall j :: 0 <= j < |links| && j != i ==> links[j].1 == RelTypePrev
    requires PlainTargets(links)
    ensures NextQuery(Some(map["Link" := [RenderLinks(links)]])) == Some(map[k := v])
  {
    HeaderOfLinks(links);
    OnlyTheNextLinkCounts(NothingRecorded, links, i, |links|);
    QueryOfOnePair(base, k, v);
    OneKeyNext(k, v);
  }

  /** `page=5&after=ABC` as a next relation: before/after outranks page and keeps only `after`. */
  lemma PageAfterStep()
    ensures NextParams(RelStep(NothingRecorded, RelTypeNext, Some(map["page" := "5", "after" := "ABC"])))
            == Some(map["after" := "ABC"])
  {
    var q := Some(map["page" := "5", "after" := "ABC"]);
    assert !Accepts(0, q) by {
      assert "cursor" !in q.value;
    }
    assert "after" in SubParserKeys[1];
    FirstAcceptingIsLeast(q, 1);
    assert Restrict(q.value, SubParserKeys[1]) == map["after" := "ABC"];
  }

  /** `page=10&since=ABC` as a next relation: page outranks since and keeps only `page`. */
  lemma PageSinceStep()
    ensures NextParams(RelStep(NothingRecorded, RelTypeNext, Some(map["page" := "10", "since" := "ABC"])))
            == Some(map["page" := "10"])
  {
    var q := Some(map["page" := "10", "since" := "ABC"]);
    assert !Accepts(0, q) by {
      assert "cursor" !in q.value;
    }
    assert !Accepts(1, q) by {
      assert "before" !in q.value && "after" !in q.value;
    }
    assert "page" in SubParserKeys[2];
    FirstAcceptingIsLeast(q, 2);
    assert Restrict(q.value, SubParserKeys[2]) == map["page" := "10"];
    var r := NothingRecorded[2 := Some(map["page" := "10"])];
    assert r[0].None? && r[1].None?;
  }

  /** A next link with two query pairs among prev links: the header yields what that one link's query records. */
  lemma NextLinkWithTwoPairs(base: string, k1: string, v1: string, k2: string, v2: string,
                             links: seq<(string, RelType)>, i: nat)
    requires PlainBase(base) && QueryWord(k1) && QueryWord(v1) && QueryWord(k2) && QueryWord(v2) && k1 != k2
    requires i < |links| && links[i] == (base + "?" + (k1 + "=" + v1 + "&" + k2 + "=" + v2), RelTypeNext)
    requires forall j :: 0 <= j < |links| && j != i ==> links[j].1 == RelTypePrev
    requires PlainTargets(links)
    ensures NextQuery(Some(map["Link" := [RenderLinks(links)]]))
            == NextParams(RelStep(NothingRecorded, RelTypeNext, Some(map[k1 := v1, k2 := v2])))
  {
    HeaderOfLinks(links);
    OnlyTheNextLinkCounts(NothingRecorded, links, i, |links|);
    QueryOfTwoPairs(base, k1, v1, k2, v2);
  }

  /** `base?rest` holds no `,` and no `;` when `rest` holds none. */
  lemma PlainHref(base: string, rest: string)
    requires PlainBase(base) && ',' !in rest && ';' !in rest
    ensures ',' !in base + "?" + rest && ';' !in base + "?" + rest
  {
    assert ',' !in base && ';' !in base;
  }

  /** The keys and values of the parser's test links are plain words. */
  lemma PlainWords()
    ensures QueryWord("page") && QueryWord("after") && QueryWord("since")
    ensures QueryWord("2") && QueryWord("5") && QueryWord("10") && QueryWord("ABC")
  {
  }

  /** A next link `base?page=5&after=ABC` among prev links: the next request carries `after=ABC` and not `page=5`. */
  lemma PageAfterNext(base: string, links: seq<(string, RelType)>, i: nat)
    requires PlainBase(base)
    requires i < |links| && links[i] == (base + "?" + "page=5&after=ABC", RelTypeNext)
    requires forall j :: 0 <= j < |links| && j != i ==> links[j].1 == RelTypePrev
    requires PlainTargets(links)
    ensures NextQuery(Some(map["Link" := [RenderLinks(links)]])) == Some(map["after" := "ABC"])
  {
    assert "page" + "=" + "5" + "&" + "after" + "=" + "ABC" == "page=5&after=ABC";
    PlainWords();
    NextLinkWithTwoPairs(base, "page", "5", "after", "ABC", links, i);
    PageAfterStep();
  }

  /** Next `page=5&after=ABC` before prev `before=ABC`: the next request carries `after=ABC` and not `page=5`. */
  lemma PageAndBeforeAfter(base: string)
    requires PlainBase(base)
    ensures NextQuery(Some(map["Link" := [RenderLinks([(base + "?" + "page=5&after=ABC", RelTypeNext),
                                                       (base + "?" + "before=ABC", RelTypePrev)])]]))
            == Some(map["after" := "ABC"])
  {
    PlainHref(base, "page=5&after=ABC");
    PlainHref(base, "before=ABC");
    PageAfterNext(base, [(base + "?" + "page=5&after=ABC", RelTypeNext), (base + "?" + "before=ABC", RelTypePrev)], 0);
  }

  /** The same two links with prev first: the order of the links does not matter. */
  lemma BeforeAfterAndPage(base: string)
    requires PlainBase(base)
    ensures NextQuery(Some(map["Link" := [RenderLinks([(base + "?" + "before=ABC", RelTypePrev),
                                                       (base + "?" + "page=5&after=ABC", RelTypeNext)])]]))
            == Some(map["after" := "ABC"])
  {
    PlainHref(base, "page=5&after=ABC");
    PlainHref(base, "before=ABC");
    PageAfterNext(base, [(base + "?" + "before=ABC", RelTypePrev), (base + "?" + "page=5&after=ABC", RelTypeNext)], 1);
  }

  /** Next `page=10&since=ABC`: the next request carries `page=10`; since is not used for paging here. */
  lemma SinceNotForPaging(base: string)
    requires PlainBase(base)
    ensures NextQuery(Some(map["Link" := [RenderLinks([(base + "?" + "page=10&since=ABC", RelTypeNext)])]]))
            == Some(map["page" := "10"])
  {
    assert "page" + "=" + "10" + "&" + "since" + "=" + "ABC" == "page=10&since=ABC";
    PlainHref(base, "page=10&since=ABC");
    PlainWords();
    NextLinkWithTwoPairs(base, "page", "10", "since", "ABC", [(base + "?" + "page=10&since=ABC", RelTypeNext)], 0);
    PageSinceStep();
  }

  /** Next `page=2` alone: the next request carries `page=2`. */
  lemma PageNextOnly(base: string)
    requires PlainBase(base)
    ensures NextQuery(Some(map["Link" := [RenderLinks([(base + "?" + "page=2", RelTypeNext)])]])) == Some(map["page" := "2"])
  {
    assert "page" + "=" + "2" == "page=2";
    PlainHref(base, "page=2");
    PlainWords();
    NextLinkAmongPrev(base, "page", "2", [(base + "?" + "page=2", RelTypeNext)], 0);
  }

  /* -------------------------------------- only pagination keys are ever set */

  /** Every sub-parser records only its own keys. */
  predicate KeysWithin(r: Recorded) {
    forall k :: 0 <= k < 4 && r[k].Some? ==> r[k].value.Keys <= SubParserKeys[k]
  }

  lemma {:induction false} SegmentsKeepKeysWithin(r: Recorded, segments: seq<string>, query: Option<Query>, n: nat)
    requires n <= |segments| && KeysWithin(r)
    ensures KeysWithin(SegmentsStep(r, segments, query, n))
  {
    if n > 0 {
      SegmentsKeepKeysWithin(r, segments, query, n - 1);
    }
  }

  lemma {:induction false} LinksKeepKeysWithin(r: Recorded, links: seq<string>, n: nat)
    requires n <= |links| && KeysWithin(r)
    ensures KeysWithin(LinksStep(r, links, n))
  {
    if n > 0 {
      LinksKeepKeysWithin(r, links, n - 1);
      var r' := LinksStep(r, links, n - 1);
      var segments := Split(TrimSpace(links[n - 1]), ';');
      if |segments| >= 2 {
        SegmentsKeepKeysWithin(r', segments[1..], HrefToQuery(segments[0]), |segments| - 1);
      }
    }
  }

  lemma {:induction false} HeaderKeepsKeysWithin(r: Recorded, values: seq<string>, n: nat)
    requires n <= |values| && KeysWithin(r)
    ensures KeysWithin(HeaderStep(r, values, n))
  {
    if n > 0 {
      HeaderKeepsKeysWithin(r, values, n - 1);
      var links := Split(values[n - 1], ',');
      LinksKeepKeysWithin(HeaderStep(r, values, n - 1), links, |links|);
    }
  }

  /** The next page's parameters never name anything but cursor, before, after, page and since. */
  lemma NextQueryKeys(header: Option<Header>)
    ensures NextQuery(header).Some? ==> NextQuery(header).value.Keys <= PaginationKeys
  {
    var values := LinkValues(header);
    if values.Some? {
      HeaderKeepsKeysWithin(NothingRecorded, values.value, |values.value|);
    }
  }

  /**
   * The next request is the previous one with at most the pagination keys
   * changed: method, URL and every other query parameter (per_page among
   * them) carry over.
   */
  lemma NextRequestKeepsTheRest(prev: RequestValue, header: Option<Header>)
    ensures NextRequest(prev, header).Some? ==>
              var next := NextRequest(prev, header).value;
              && next.verb == prev.verb && next.path == prev.path
              && prev.query.Keys <= next.query.Keys
              && forall k :: k in prev.query && k !in PaginationKeys ==> next.query[k] == prev.query[k]
  {
    NextQueryKeys(header);
  }
}
