/**
 * The array merger (UnprocessedSlice). Its source is not part of this model;
 * its behaviour here is the one the merger tests and the pagination tests
 * require: each page's elements are kept in submission order, the merged
 * output is one array holding all of them, and each page body is read to the
 * end and closed.
 */
module Slices {

  import opened Wrappers
  import opened GoErrors
  import opened JsonValues
  import opened Streams
  import Text

  /** The error the array merger reports for a body that is not a JSON array. */
  const NotAnArray := Plain("json: cannot unmarshal into a slice")

  /** One ReadNext on the array merger's list of pages. */
  function SliceStep(fragments: seq<seq<string>>, page: JsonValue): (r: (seq<seq<string>>, Option<Error>))
    ensures r.1.None? <==> page.Array?
    ensures r.1.None? ==> r.0 == fragments + [page.elems]
    ensures r.1.Some? ==> r.0 == fragments
  {
    if page.Array? then (fragments + [page.elems], None) else (fragments, Some(NotAnArray))
  }

  /** The text of the merged array. */
  function SliceMerged(fragments: seq<seq<string>>): (r: string)
  {
    ArrayText(Flatten(fragments))
  }

  class UnprocessedSlice {
    var fragments: seq<seq<string>>

    constructor ()
      ensures fragments == []
    {
      fragments := [];
    }

    method ReadNext(reader: ReplayReader) returns (err: Option<Error>)
      modifies this, reader, reader.source
      ensures (fragments, err) == SliceStep(old(fragments), reader.source.decoded)
      ensures reader.Pending() == [] && reader.source.closeCount == old(reader.source.closeCount) + 1
    {
      var _ := reader.ReadAll();
      var _ := reader.Close();
      if reader.source.decoded.Array? {
        fragments := fragments + [reader.source.decoded.elems];
        err := None;
      } else {
        err := Some(NotAnArray);
      }
    }

    function Merged(): (r: string)
      reads this
    {
      SliceMerged(fragments)
    }
  }

  /** Arrays read one after another merge to one array of all their elements, in order. */
  lemma {:induction false} SlicesInOrder(pages: seq<seq<string>>)
    ensures FoldSlices([], pages) == (pages, None)
  {
    FoldSlicesAppends([], pages);
    assert [] + pages == pages;
  }

  /** Reading every page in turn, stopping at the first error. */
  function FoldSlices(fragments: seq<seq<string>>, pages: seq<seq<string>>): (seq<seq<string>>, Option<Error>)
    decreases |pages|
  {
    if pages == [] then (fragments, None)
    else
      var (f, e) := SliceStep(fragments, Array(pages[0]));
      if e.Some? then (f, e) else FoldSlices(f, pages[1..])
  }

  lemma {:induction false} FoldSlicesAppends(fragments: seq<seq<string>>, pages: seq<seq<string>>)
    ensures FoldSlices(fragments, pages) == (fragments + pages, None)
    decreases |pages|
  {
    if pages != [] {
      FoldSlicesAppends(fragments + [pages[0]], pages[1..]);
      assert fragments + [pages[0]] + pages[1..] == fragments + pages;
    } else {
      assert fragments + pages == fragments;
    }
  }

  /** The three pages of the merger test, [1,2,3], [4,5,6] and [7,8,9], merge to the array [1,2,3,4,5,6,7,8,9]. */
  lemma ThreeArrays()
    ensures SliceMerged([["1", "2", "3"], ["4", "5", "6"], ["7", "8", "9"]])
            == ArrayText(["1", "2", "3", "4", "5", "6", "7", "8", "9"])
  {
    var a, b, c := ["1", "2", "3"], ["4", "5", "6"], ["7", "8", "9"];
    assert Flatten([a]) == a by { assert [a][..0] == []; }
    assert Flatten([a, b]) == a + b by { assert [a, b][..1] == [a]; }
    assert Flatten([a, b, c]) == a + b + c by { assert [a, b, c][..2] == [a, b]; }
    assert a + b + c == ["1", "2", "3", "4", "5", "6", "7", "8", "9"];
  }

}
