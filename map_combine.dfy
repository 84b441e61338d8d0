/**
 * The GitHub envelope combiner: pages of the form
 * {"total_count": N, "incomplete_results": B, "items": [...]}
 * are digested one by one, summing the counts and OR-ing the flags, and the
 * merged items are wrapped back into the same envelope.
 */
module MapCombine {

  import opened Wrappers
  import opened GoErrors
  import opened JsonValues
  import opened Streams
  import Text

  /** The combiner's running totals. */
  datatype Counters = Counters(totalCount: int, incomplete: bool)

  const Zero := Counters(0, false)

  /** What one Digest leaves behind: the new totals, the page's items, the error. */
  datatype Digested = Digested(counters: Counters, items: Option<RawValue>, err: Option<Error>)

  /** The error encoding/json reports for a body that does not decode into the envelope. */
  const DecodeFailure := Plain("json: cannot unmarshal into the envelope")

  /** One Digest of a page on the running totals. */
  function DigestPage(c: Counters, page: JsonValue): (r: Digested)
    ensures r.err.None? <==> page.Object? && page.items.Some?
    ensures r.err.None? ==>
              && r.counters == Counters(c.totalCount + page.totalCount, c.incomplete || page.incomplete)
              && r.items == page.items
    ensures r.err.Some? ==> r.counters == c && r.items.None?
    ensures page.Object? && page.items.None? ==> r.err == Some(NotPaginatableDict)
    ensures !page.Object? ==> r.err == Some(Wrapped("failed to digest next map part", DecodeFailure))
  {
    match page
    case Object(total, incomplete, items) =>
      if items.None? then Digested(c, None, Some(NotPaginatableDict))
      else Digested(Counters(c.totalCount + total, c.incomplete || incomplete), items, None)
    case _ => Digested(c, None, Some(Wrapped("failed to digest next map part", DecodeFailure)))
  }

  const TotalCountKey := "{\"total_count\": "
  const IncompleteKey := ", \"incomplete_results\": "
  const ItemsKey := ", \"items\": "

  /** The text written before the merged items: `%d` for the count, `%v` for the flag. */
  function EnvelopePrefix(c: Counters): string
  {
    TotalCountKey + Text.Itoa(c.totalCount) + IncompleteKey + Text.BoolText(c.incomplete) + ItemsKey
  }

  /** The whole merged envelope around an items text. */
  function Envelope(c: Counters, items: string): string
  {
    EnvelopePrefix(c) + items + "}"
  }

  /** The text after `key`, when the text starts with it. */
  function StripKey(s: string, key: string): (r: Option<string>)
    ensures r.Some? ==> s == key + r.value
  {
    if |s| >= |key| && s[..|key|] == key then
      assert s == s[..|key|] + s[|key|..];
      Some(s[|key|..])
    else None
  }

  /** A decimal count up to the next comma, and the text from that comma on. */
  function ReadCount(s: string): Option<(int, string)>
  {
    if ',' !in s then None
    else
      var i := Text.IndexOf(s, ',');
      var count := Text.Atoi(s[..i]);
      if count.None? then None else Some((count.value, s[i..]))
  }

  /** A `true` or `false` followed by the items key, and the text after the key. */
  function ReadFlag(s: string): Option<(bool, string)>
  {
    match StripKey(s, "true" + ItemsKey)
    case Some(rest) => Some((true, rest))
    case None =>
      match StripKey(s, "false" + ItemsKey)
      case Some(rest) => Some((false, rest))
      case None => None
  }

  /** Reads the count and the flag back from the head of an envelope, and returns what follows `"items": `. */
  function ReadEnvelopeHead(s: string): Option<(Counters, string)>
  {
    match StripKey(s, TotalCountKey)
    case None => None
    case Some(afterKey) =>
      match ReadCount(afterKey)
      case None => None
      case Some((count, rest)) =>
        match StripKey(rest, IncompleteKey)
        case None => None
        case Some(flagAndItems) =>
          match ReadFlag(flagAndItems)
          case None => None
          case Some((flag, items)) => Some((Counters(count, flag), items))
  }

  /** The envelope written by Finalize gives back its count, its flag and the items text. */
  lemma EnvelopeReadsBack(c: Counters, items: string)
    ensures ReadEnvelopeHead(Envelope(c, items)) == Some((c, items + "}"))
  {
    var n := Text.Itoa(c.totalCount);
    var b := Text.BoolText(c.incomplete);
    var flagAndItems := b + ItemsKey + (items + "}");
    var tail := IncompleteKey + flagAndItems;
    EnvelopeShape(c, items);
    StripsKey(TotalCountKey, n + tail);
    ReadsCount(c.totalCount, tail);
    StripsKey(IncompleteKey, flagAndItems);
    ReadsFlag(c.incomplete, items + "}");
  }

  lemma EnvelopeShape(c: Counters, items: string)
    ensures Envelope(c, items)
            == TotalCountKey + (Text.Itoa(c.totalCount) + (IncompleteKey + (Text.BoolText(c.incomplete) + ItemsKey + (items + "}"))))
  {
    var n, b := Text.Itoa(c.totalCount), Text.BoolText(c.incomplete);
    Text.AppendAssociates(b + ItemsKey, items, "}");
    Text.AppendAssociates(IncompleteKey + b + ItemsKey, items, "}");
    Text.AppendAssociates(IncompleteKey, b + ItemsKey, items + "}");
    assert IncompleteKey + (b + ItemsKey) == IncompleteKey + b + ItemsKey;
    Text.AppendAssociates(TotalCountKey + n, IncompleteKey + b + ItemsKey, items + "}");
    Text.AppendAssociates(TotalCountKey, n, IncompleteKey + b + ItemsKey + (items + "}"));
    assert EnvelopePrefix(c) == TotalCountKey + n + (IncompleteKey + b + ItemsKey);
  }

  lemma ReadsFlag(flag: bool, items: string)
    ensures ReadFlag(Text.BoolText(flag) + ItemsKey + items) == Some((flag, items))
  {
    if flag {
      StripsKey("true" + ItemsKey, items);
    } else {
      StripsKey("false" + ItemsKey, items);
      assert StripKey("false" + ItemsKey + items, "true" + ItemsKey).None? by {
        assert ("false" + ItemsKey + items)[0] == 'f';
      }
    }
  }

  lemma StripsKey(key: string, rest: string)
    ensures StripKey(key + rest, key) == Some(rest)
  {
    assert (key + rest)[..|key|] == key;
    assert (key + rest)[|key|..] == rest;
  }

  lemma ReadsCount(n: int, tail: string)
    requires tail != [] && tail[0] == ','
    ensures ReadCount(Text.Itoa(n) + tail) == Some((n, tail))
  {
    var a := Text.Itoa(n);
    ItoaHasNoComma(n);
    FirstCommaAfter(a, tail);
    Text.AtoiItoa(n);
    assert (a + tail)[..|a|] == a;
    assert (a + tail)[|a|..] == tail;
  }

  lemma ItoaHasNoComma(n: int)
    ensures ',' !in Text.Itoa(n)
  {
    var r := Text.Itoa(n);
    if n < 0 {
      assert forall k :: 1 <= k < |r| ==> Text.IsDigit(r[k]);
    }
  }

  lemma FirstCommaAfter(a: string, tail: string)
    requires ',' !in a && tail != [] && tail[0] == ','
    ensures ',' in a + tail && Text.IndexOf(a + tail, ',') == |a|
  {
    assert (a + tail)[|a|] == ',';
  }

  /** The combiner; its fields are the running totals. */
  class GithubMapCombiner {
    var totalCount: int
    var incompleteResults: bool

    constructor ()
      ensures Totals() == Zero
    {
      totalCount := 0;
      incompleteResults := false;
    }

    function Totals(): Counters
      reads this
    {
      Counters(totalCount, incompleteResults)
    }

    /** Decodes the whole body as an envelope and adds it to the totals. */
    method Digest(reader: ReplayReader) returns (items: Option<RawValue>, err: Option<Error>)
      modifies this, reader, reader.source
      ensures Digested(Totals(), items, err) == DigestPage(old(Totals()), reader.source.decoded)
      ensures reader.Pending() == [] && reader.source.closeCount == old(reader.source.closeCount)
    {
      var _ := reader.ReadAll();
      match reader.source.decoded
      case Object(total, incomplete, pageItems) =>
        if pageItems.None? {
          items, err := None, Some(NotPaginatableDict);
        } else {
          totalCount := totalCount + total;
          incompleteResults := incompleteResults || incomplete;
          items, err := pageItems, None;
        }
      case _ =>
        items, err := None, Some(Wrapped("failed to digest next map part", DecodeFailure));
    }

    /** The merged envelope around the merged items. */
    function Finalize(sliceText: string): (r: string)
      reads this
      ensures ReadEnvelopeHead(r) == Some((Totals(), sliceText + "}"))
    {
      EnvelopeReadsBack(Totals(), sliceText);
      Envelope(Totals(), sliceText)
    }
  }

  /** Digesting pages one after another, stopping at the first error. */
  function DigestAll(c: Counters, pages: seq<JsonValue>): (r: (Counters, seq<RawValue>, Option<Error>))
    decreases |pages|
  {
    if pages == [] then (c, [], None)
    else
      var d := DigestPage(c, pages[0]);
      if d.err.Some? then (d.counters, [], d.err)
      else
        var (c', items, e) := DigestAll(d.counters, pages[1..]);
        (c', [d.items.value] + items, e)
  }

  function SumCounts(pages: seq<JsonValue>): int
    requires forall i :: 0 <= i < |pages| ==> pages[i].Object?
  {
    if pages == [] then 0 else pages[0].totalCount + SumCounts(pages[1..])
  }

  predicate AnyIncomplete(pages: seq<JsonValue>)
    requires forall i :: 0 <= i < |pages| ==> pages[i].Object?
  {
    exists i :: 0 <= i < |pages| && pages[i].incomplete
  }

  /** Over envelope pages: the count is the sum, the flag the OR, the items each page's in order. */
  lemma {:induction false} DigestAllSumsAndOrs(c: Counters, pages: seq<JsonValue>)
    requires forall i :: 0 <= i < |pages| ==> pages[i].Object? && pages[i].items.Some?
    ensures DigestAll(c, pages).2.None?
    ensures DigestAll(c, pages).0 == Counters(c.totalCount + SumCounts(pages), c.incomplete || AnyIncomplete(pages))
    ensures |DigestAll(c, pages).1| == |pages|
    ensures forall i :: 0 <= i < |pages| ==> DigestAll(c, pages).1[i] == pages[i].items.value
    decreases |pages|
  {
    if pages != [] {
      var d := DigestPage(c, pages[0]);
      DigestAllSumsAndOrs(d.counters, pages[1..]);
      assert AnyIncomplete(pages) <==> pages[0].incomplete || AnyIncomplete(pages[1..]) by {
        if AnyIncomplete(pages[1..]) {
          var i :| 0 <= i < |pages[1..]| && pages[1..][i].incomplete;
          assert pages[i + 1].incomplete;
        }
      }
    }
  }

  /** Once some page was incomplete, the merged flag stays set whatever follows. */
  lemma {:induction false} IncompleteIsSticky(c: Counters, pages: seq<JsonValue>)
    requires c.incomplete
    ensures DigestAll(c, pages).0.incomplete
    decreases |pages|
  {
    if pages != [] {
      var d := DigestPage(c, pages[0]);
      if d.err.None? {
        IncompleteIsSticky(d.counters, pages[1..]);
      }
    }
  }
}
