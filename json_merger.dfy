/**
 * The unified merger: the first page's shape picks an array merger or a
 * dictionary merger, and every later page must have the same shape.
 */
module JsonMerger {

  import opened Wrappers
  import opened GoErrors
  import opened JsonValues
  import opened Streams
  import opened DetectType
  import opened Slices
  import opened MapCombine
  import opened Maps
  import Text

  /** The unified merger's state: no shape yet, or the chosen merger's state. */
  datatype MergerState =
    | Untyped
    | ArrayMerging(fragments: seq<seq<string>>)
    | DictMerging(map_: MapState)
  {
    function Kind(): JsonType {
      match this
      case Untyped => Unknown
      case ArrayMerging(_) => JsonType.Array
      case DictMerging(_) => Dictionary
    }
  }

  /** initMerger's refusal of a page whose shape differs from the first page's. */
  const ShapeMismatch := Plain("expected the first page's JSON type, got another")

  /** The state once the shape is fixed: a fresh delegate for the detected shape on the first page. */
  function Initialized(s: MergerState, kind: JsonType): MergerState
  {
    if !s.Untyped? then s
    else if kind == JsonType.Array then ArrayMerging([])
    else DictMerging(EmptyMap)
  }

  /** initMerger's refusal of a detected type that is neither an array nor a dictionary. */
  const UnexpectedType := Plain("unexpected json type")

  /**
   * initMerger's error: the detector's; on the first page a type that has no
   * merger; on a later page a shape other than the one already fixed.
   */
  function InitError(fixed: JsonType, d: Detection): Option<Error>
  {
    if d.err.Some? then d.err
    else if fixed == Unknown then (if d.kind == Unknown then Some(UnexpectedType) else None)
    else if fixed != d.kind then Some(ShapeMismatch)
    else None
  }

  /** The chosen merger's ReadNext, once the shape is fixed. */
  function DelegateStep(s: MergerState, page: Page): (MergerState, Option<Error>)
    requires !s.Untyped?
  {
    match s
    case ArrayMerging(f) =>
      var (f', e) := SliceStep(f, page.decoded);
      (ArrayMerging(f'), e)
    case DictMerging(m) =>
      var (m', e) := MapStep(m, page);
      (DictMerging(m'), e)
  }

  /** One ReadNext: detect the shape, fix or check it, and hand the page to the chosen merger. */
  function MergerStep(s: MergerState, page: Page): (r: (MergerState, Option<Error>))
    ensures var d := Classify(page.text);
            d.err.Some? ==> r == (s, Some(Formatted("failed to init merger", d.err.value)))
    ensures (s.Kind() != Unknown && Classify(page.text).kind != Unknown && Classify(page.text).kind != s.Kind())
              ==> r == (s, Some(Formatted("failed to init merger", ShapeMismatch)))
    ensures s.Kind() != Unknown ==> r.0.Kind() == s.Kind()
    ensures s.Kind() == Unknown ==> r.0.Kind() == Classify(page.text).kind
  {
    var d := Classify(page.text);
    var e := InitError(s.Kind(), d);
    if e.Some? then (s, Some(Formatted("failed to init merger", e.value)))
    else DelegateStep(Initialized(s, d.kind), page)
  }

  /** Whether one ReadNext hands the page to a merger: the shape is detected and is the one fixed. */
  function Delegated(s: MergerState, page: Page): (b: bool)
    ensures b <==> Classify(page.text).err.None? && (s.Kind() == Unknown || s.Kind() == Classify(page.text).kind)
  {
    var d := Classify(page.text);
    d.err.None? && (s.Untyped? || s.Kind() == d.kind)
  }

  /**
   * How many times one ReadNext closes the page body: the array merger always
   * closes it; the dictionary merger once the page is an envelope with items;
   * a refused page is not closed.
   */
  function ClosesOnStep(s: MergerState, page: Page): nat
  {
    if !Delegated(s, page) then 0
    else if Classify(page.text).kind == JsonType.Array then 1
    else if page.decoded.Object? && page.decoded.items.Some? then 1
    else 0
  }

  /** The merged text, once a shape is known. */
  function MergedText(s: MergerState): string
    requires s.Kind() != Unknown
  {
    match s
    case ArrayMerging(f) => SliceMerged(f)
    case DictMerging(m) => MapMerged(m)
  }

  /** What the merged text decodes to. */
  function MergedValue(s: MergerState): JsonValue
    requires s.Kind() != Unknown
  {
    match s
    case ArrayMerging(f) => JsonValue.Array(Flatten(f))
    case DictMerging(m) => MapMergedValue(m)
  }

  /** The body the merger hands back: the merged text, closing without error. */
  function MergedPage(s: MergerState): Page
    requires s.Kind() != Unknown
  {
    Page(MergedText(s), MergedValue(s), None)
  }

  /** Feeding pages in turn, stopping at the first error. */
  function MergeAll(s: MergerState, pages: seq<Page>): (r: (MergerState, Option<Error>))
    decreases |pages|
  {
    if pages == [] then (s, None)
    else
      var (s', e) := MergerStep(s, pages[0]);
      if e.Some? then (s', e) else MergeAll(s', pages[1..])
  }

  class Merger {
    var mergerType: JsonType
    var arrayMerger: UnprocessedSlice?
    var mapMerger: UnprocessedMap?
    ghost var Repr: set<object>

    ghost predicate Valid()
      reads this, Repr
    {
      && this in Repr
      && match mergerType
         case Unknown => arrayMerger == null && mapMerger == null && Repr == {this}
         case Array => arrayMerger != null && mapMerger == null && Repr == {this, arrayMerger}
         case Dictionary =>
           && mapMerger != null && arrayMerger == null
           && Repr == {this, mapMerger, mapMerger.slice, mapMerger.combiner}
    }

    /** NewMerger: no shape, no delegate. */
    constructor ()
      ensures Valid() && fresh(Repr)
      ensures State() == Untyped && mergerType == Unknown
    {
      mergerType := Unknown;
      arrayMerger := null;
      mapMerger := null;
      Repr := {this};
    }

    ghost function State(): MergerState
      requires Valid()
      reads this, Repr
    {
      match mergerType
      case Unknown => Untyped
      case Array => ArrayMerging(arrayMerger.fragments)
      case Dictionary => DictMerging(mapMerger.State())
    }

    /**
     * initMerger: detects the page's shape, creates the delegate on the first
     * page and refuses a page of another shape; either way the page comes back
     * as a reader replaying what the detector read.
     */
    method InitMerger(reader: BodyReader) returns (replay: ReplayReader, err: Option<Error>)
      requires Valid()
      modifies this, reader
      ensures Valid() && fresh(Repr - old(Repr))
      ensures fresh(replay) && replay.source == reader && replay.Pending() == old(reader.pending)
      ensures LeftAfterReading(reader.pending, old(reader.pending)) && reader.closeCount == old(reader.closeCount)
      ensures err == InitError(old(mergerType), Classify(old(reader.pending)))
      ensures State() == if err.None? then Initialized(old(State()), Classify(old(reader.pending)).kind) else old(State())
    {
      var detection;
      detection, replay := DetectJsonType(reader);
      assert Valid() && State() == old(State());
      err := FixType(detection);
    }

    /** initMerger past detection: refuse a detector's error, fix the shape on the first page, or check it. */
    method FixType(detection: Detection) returns (err: Option<Error>)
      requires Valid()
      modifies this
      ensures Valid() && fresh(Repr - old(Repr))
      ensures err == InitError(old(mergerType), detection)
      ensures State() == if err.None? then Initialized(old(State()), detection.kind) else old(State())
    {
      err := None;
      if detection.err.Some? {
        err := detection.err;
      } else if mergerType == Unknown {
        if detection.kind == Unknown {
          err := Some(UnexpectedType);
        } else {
          SetType(detection.kind);
        }
      } else if mergerType != detection.kind {
        err := Some(ShapeMismatch);
      }
    }

    /** The first page's shape fixes the merger's: a new array merger or a new GitHub map merger. */
    method SetType(kind: JsonType)
      requires Valid() && mergerType == Unknown && kind != Unknown
      modifies this
      ensures Valid() && fresh(Repr - old(Repr))
      ensures mergerType == kind && State() == Initialized(Untyped, kind)
    {
      mergerType := kind;
      if kind == JsonType.Array {
        arrayMerger := new UnprocessedSlice();
        Repr := {this, arrayMerger};
      } else {
        mapMerger := new UnprocessedMap();
        Repr := {this, mapMerger, mapMerger.slice, mapMerger.combiner};
      }
    }

    /** ReadNext: initMerger, then the chosen merger's ReadNext on the replayed page. */
    method ReadNext(reader: BodyReader) returns (err: Option<Error>)
      requires Valid()
      modifies Repr, reader
      ensures Valid() && fresh(Repr - old(Repr))
      ensures (State(), err) == MergerStep(old(State()), old(reader.Snapshot()))
      ensures reader.closeCount == old(reader.closeCount) + ClosesOnStep(old(State()), old(reader.Snapshot()))
      ensures LeftAfterReading(reader.pending, old(reader.pending))
      ensures Delegated(old(State()), old(reader.Snapshot())) ==> reader.pending == []
    {
      ghost var page := reader.Snapshot();
      var replay, initErr := InitMerger(reader);
      if initErr.Some? {
        return Some(Formatted("failed to init merger", initErr.value));
      }
      assert MergerStep(old(State()), page) == DelegateStep(State(), page);
      err := Delegate(replay);
    }

    /** The chosen merger's ReadNext on the replayed page. */
    method Delegate(replay: ReplayReader) returns (err: Option<Error>)
      requires Valid() && mergerType != Unknown
      modifies Repr, replay, replay.source
      ensures Valid() && Repr == old(Repr)
      ensures (State(), err) == DelegateStep(old(State()), old(replay.Snapshot()))
      ensures replay.Pending() == []
      ensures replay.source.closeCount == old(replay.source.closeCount)
                + if mergerType == JsonType.Array || (replay.source.decoded.Object? && replay.source.decoded.items.Some?) then 1 else 0
    {
      if mergerType == JsonType.Array {
        err := arrayMerger.ReadNext(replay);
      } else {
        err := mapMerger.ReadNext(replay);
      }
    }

    /** Merged: the delegate's output (the source has no delegate before a page was read). */
    method Merged() returns (r: string)
      requires Valid() && mergerType != Unknown
      ensures r == MergedText(State())
    {
      if mergerType == JsonType.Array {
        r := arrayMerger.Merged();
      } else {
        r := mapMerger.Merged();
      }
    }

    /**
     * What a JSON decoder makes of Merged()'s text: the model carries each
     * body's decoded value beside its text rather than parsing JSON.
     */
    method MergedDecoded() returns (v: JsonValue)
      requires Valid() && mergerType != Unknown
      ensures v == MergedValue(State())
    {
      if mergerType == JsonType.Array {
        v := JsonValue.Array(Flatten(arrayMerger.fragments));
      } else {
        v := MapMergedValue(mapMerger.State());
      }
    }
  }

  /** A first page of a shape the detector accepts fixes the shape for good. */
  lemma {:induction false} ShapeNeverChanges(s: MergerState, pages: seq<Page>)
    requires s.Kind() != Unknown
    ensures MergeAll(s, pages).0.Kind() == s.Kind()
    decreases |pages|
  {
    if pages != [] {
      var (s', e) := MergerStep(s, pages[0]);
      if e.None? {
        ShapeNeverChanges(s', pages[1..]);
      }
    }
  }

  /** A page is well formed when its text starts the way its decoded value says. */
  predicate WellFormed(p: Page) {
    && (p.decoded.Array? ==> Classify(p.text).kind == JsonType.Array)
    && (p.decoded.Object? ==> Classify(p.text).kind == Dictionary)
  }

  function Elements(pages: seq<Page>): (r: seq<seq<string>>)
    requires forall i :: 0 <= i < |pages| ==> pages[i].decoded.Array?
    ensures |r| == |pages| && forall i :: 0 <= i < |pages| ==> r[i] == pages[i].decoded.elems
  {
    if pages == [] then [] else [pages[0].decoded.elems] + Elements(pages[1..])
  }

  /** One well-formed array page appends its elements and reports nothing. */
  lemma ArrayPageStep(fragments: seq<seq<string>>, p: Page)
    requires p.decoded.Array? && WellFormed(p)
    ensures MergerStep(ArrayMerging(fragments), p) == (ArrayMerging(fragments + [p.decoded.elems]), None)
  {
    var d := Classify(p.text);
    assert d.err.None?;
    var (f', e) := SliceStep(fragments, p.decoded);
    assert e.None? && f' == fragments + [p.decoded.elems];
  }

  /** Feeding pages: the first one, when it merges cleanly, then the rest. */
  lemma MergeAllFirst(s: MergerState, pages: seq<Page>)
    requires pages != [] && MergerStep(s, pages[0]).1.None?
    ensures MergeAll(s, pages) == MergeAll(MergerStep(s, pages[0]).0, pages[1..])
  {
  }

  /** The elements of array pages: the first page's, then the rest's. */
  lemma ElementsFirst(pages: seq<Page>)
    requires pages != [] && forall i :: 0 <= i < |pages| ==> pages[i].decoded.Array?
    ensures Elements(pages) == [pages[0].decoded.elems] + Elements(pages[1..])
  {
  }

  /**
   * Array pages merge, in submission order, into one array whose elements are
   * every page's elements one page after the other.
   */
  lemma {:induction false} ArrayPagesMerge(fragments: seq<seq<string>>, pages: seq<Page>)
    requires forall i :: 0 <= i < |pages| ==> pages[i].decoded.Array? && WellFormed(pages[i])
    ensures MergeAll(ArrayMerging(fragments), pages) == (ArrayMerging(fragments + Elements(pages)), None)
    decreases |pages|
  {
    if pages == [] {
      assert fragments + Elements(pages) == fragments;
    } else {
      ArrayPagesMerge(fragments + [pages[0].decoded.elems], pages[1..]);
      ArrayPageMergesFirst(fragments, pages);
      ElementsAfter(fragments, pages);
    }
  }

  /** A well-formed array page merges first, and the rest merge on top of it. */
  lemma ArrayPageMergesFirst(fragments: seq<seq<string>>, pages: seq<Page>)
    requires pages != [] && pages[0].decoded.Array? && WellFormed(pages[0])
    ensures MergeAll(ArrayMerging(fragments), pages) == MergeAll(ArrayMerging(fragments + [pages[0].decoded.elems]), pages[1..])
  {
    ArrayPageStep(fragments, pages[0]);
    MergeAllFirst(ArrayMerging(fragments), pages);
  }

  /** Appending the elements of array pages: the first page's, then the rest's. */
  lemma ElementsAfter(fragments: seq<seq<string>>, pages: seq<Page>)
    requires pages != [] && forall i :: 0 <= i < |pages| ==> pages[i].decoded.Array?
    ensures fragments + Elements(pages) == (fragments + [pages[0].decoded.elems]) + Elements(pages[1..])
  {
    ElementsFirst(pages);
    Text.AppendAssociates(fragments, [pages[0].decoded.elems], Elements(pages[1..]));
  }

  /** The first array page fixes the array shape and keeps its elements. */
  lemma FirstArrayPage(p: Page)
    requires p.decoded.Array? && WellFormed(p)
    ensures MergerStep(Untyped, p) == (ArrayMerging([p.decoded.elems]), None)
  {
    var d := Classify(p.text);
    assert d.err.None? && d.kind == JsonType.Array;
    ArrayPageStep([], p);
    assert [] + [p.decoded.elems] == [p.decoded.elems];
    assert MergerStep(Untyped, p) == MergerStep(ArrayMerging([]), p);
  }

  /**
   * From a fresh merger, array pages give one array holding every page's
   * elements in submission order.
   */
  lemma FreshArrayMerge(pages: seq<Page>)
    requires |pages| >= 1
    requires forall i :: 0 <= i < |pages| ==> pages[i].decoded.Array? && WellFormed(pages[i])
    ensures MergeAll(Untyped, pages) == (ArrayMerging(Elements(pages)), None)
  {
    var first := [pages[0].decoded.elems];
    FirstArrayPage(pages[0]);
    MergeAllFirst(Untyped, pages);
    ArrayPagesAfterFirst(pages);
    ArrayPagesMerge(first, pages[1..]);
    ElementsFirst(pages);
  }

  /** The pages after the first of well-formed array pages are well-formed array pages. */
  lemma ArrayPagesAfterFirst(pages: seq<Page>)
    requires |pages| >= 1
    requires forall i :: 0 <= i < |pages| ==> pages[i].decoded.Array? && WellFormed(pages[i])
    ensures forall i :: 0 <= i < |pages[1..]| ==> pages[1..][i].decoded.Array? && WellFormed(pages[1..][i])
  {
  }

  /** The body handed back after array pages from scratch: the array of all their elements. */
  lemma FreshArrayPage(pages: seq<Page>)
    requires |pages| >= 1
    requires forall i :: 0 <= i < |pages| ==> pages[i].decoded.Array? && WellFormed(pages[i])
    ensures MergeAll(Untyped, pages).1.None? && MergeAll(Untyped, pages).0.Kind() != Unknown
    ensures MergedPage(MergeAll(Untyped, pages).0)
            == Page(SliceMerged(Elements(pages)), JsonValue.Array(Flatten(Elements(pages))), None)
  {
    FreshArrayMerge(pages);
    var items := Elements(pages);
    assert MergeAll(Untyped, pages).0 == ArrayMerging(items);
  }

  /**
   * A page that merges without error has been closed exactly once, except a
   * dictionary without items, which the dictionary merger keeps open.
   */
  lemma MergedPageClosed(s: MergerState, p: Page)
    requires MergerStep(s, p).1.None?
    ensures Delegated(s, p)
    ensures ClosesOnStep(s, p) == if MergerStep(s, p).0.DictMerging? && p.decoded.Object? && p.decoded.items.None? then 0 else 1
  {
  }

  /** On the dictionary merger, dictionary-shaped pages merge exactly as the dictionary merger folds them. */
  lemma {:induction false} DictPagesMerge(m: MapState, pages: seq<Page>)
    requires forall i :: 0 <= i < |pages| ==> Classify(pages[i].text).kind == Dictionary
    ensures MergeAll(DictMerging(m), pages) == (DictMerging(MapFold(m, pages).0), MapFold(m, pages).1)
    decreases |pages|
  {
    if pages != [] {
      var (m', e) := MapStep(m, pages[0]);
      assert MergerStep(DictMerging(m), pages[0]) == (DictMerging(m'), e);
      if e.None? {
        DictPagesMerge(m', pages[1..]);
      }
    }
  }

  /** A fresh merger fed a dictionary-shaped page first behaves as a fresh dictionary merger. */
  lemma FirstDictPage(pages: seq<Page>)
    requires pages != [] && Classify(pages[0].text).kind == Dictionary
    ensures MergeAll(Untyped, pages) == MergeAll(DictMerging(EmptyMap), pages)
  {
    assert MergerStep(Untyped, pages[0]) == MergerStep(DictMerging(EmptyMap), pages[0]);
  }

  /**
   * From a fresh merger, envelope pages with items give the dictionary merger
   * holding the combiner's totals (the sum and the OR, by EnvelopeTotals) and
   * every page's items in order.
   */
  lemma FreshMapMerge(pages: seq<Page>)
    requires |pages| >= 1 && CleanEnvelopes(pages)
    requires forall i :: 0 <= i < |pages| ==> WellFormed(pages[i])
    ensures MergeAll(Untyped, pages) == (DictMerging(MapState(DigestAll(Zero, Decoded(pages)).0, ItemLists(pages), None)), None)
  {
    assert forall i :: 0 <= i < |pages| ==> Classify(pages[i].text).kind == Dictionary;
    FirstDictPage(pages);
    DictPagesMerge(EmptyMap, pages);
    EnvelopePagesMerge(EmptyMap, pages);
    assert [] + ItemLists(pages) == ItemLists(pages);
  }

  /**
   * The body a dictionary merger hands back: the page kept verbatim if there is
   * one, otherwise the envelope with its totals around one array of all the
   * items it holds.
   */
  lemma DictMergedPage(m: MapState)
    ensures m.unpaginated.Some? ==> MergedPage(DictMerging(m)) == Page(m.unpaginated.value.text, m.unpaginated.value.value, None)
    ensures m.unpaginated.None? ==>
              MergedPage(DictMerging(m))
                == Page(Envelope(m.counters, SliceMerged(m.fragments)),
                        Object(m.counters.totalCount, m.counters.incomplete, Some(ItemsOf(Flatten(m.fragments)))), None)
  {
  }

  /** A page of the other shape is refused and changes nothing. */
  lemma MismatchRefused(s: MergerState, p: Page)
    requires s.Kind() != Unknown && Classify(p.text).kind != Unknown && Classify(p.text).kind != s.Kind()
    ensures MergerStep(s, p) == (s, Some(Formatted("failed to init merger", ShapeMismatch)))
  {
  }
}
