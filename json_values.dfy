/**
 * What encoding/json makes of a page body, as far as the core looks at it.
 *
 * The core never inspects JSON beyond its first token, the three envelope
 * fields and the elements of an array, so a decoded body is one of three
 * shapes; array elements stay raw text, exactly as json.RawMessage keeps them.
 */
module JsonValues {

  import opened Wrappers
  import Text

  datatype JsonValue =
    | Invalid                                   // text the decoder rejects for the target type
    | Array(elems: seq<string>)                 // a top-level array and its elements' raw text
    | Object(totalCount: int, incomplete: bool, items: Option<RawValue>)
                                                // a top-level object seen through the envelope's fields;
                                                // items is None when the field is absent or null

  /**
   * A json.RawMessage: the bytes of one JSON value, kept undecoded, and what
   * they decode to when read as a JSON array (Invalid for any other value).
   */
  datatype RawValue = RawValue(text: string, value: JsonValue)

  /** The raw items of an array with the given elements. */
  function ItemsOf(elems: seq<string>): RawValue
  {
    RawValue(ArrayText(elems), Array(elems))
  }

  /** The raw text of a JSON array with the given elements. */
  function ArrayText(elems: seq<string>): (r: string)
    ensures |r| >= 2 && r[0] == '[' && r[|r| - 1] == ']'
  {
    "[" + (if elems == [] then "" else Text.Join(elems, ',')) + "]"
  }

  /** The elements of several arrays, one array after the other. */
  function Flatten(arrays: seq<seq<string>>): (r: seq<string>)
    ensures arrays == [] ==> r == []
  {
    if arrays == [] then [] else Flatten(arrays[..|arrays| - 1]) + arrays[|arrays| - 1]
  }

  /** Flattening distributes over concatenation of the list of arrays. */
  lemma {:induction false} FlattenAppend(a: seq<seq<string>>, b: seq<seq<string>>)
    ensures Flatten(a + b) == Flatten(a) + Flatten(b)
    decreases |b|
  {
    if b != [] {
      assert (a + b)[..|a + b| - 1] == a + b[..|b| - 1];
      FlattenAppend(a, b[..|b| - 1]);
    } else {
      assert a + b == a;
    }
  }

  /** The flattened list holds as many elements as all the arrays together. */
  lemma {:induction false} FlattenLength(arrays: seq<seq<string>>)
    ensures |Flatten(arrays)| == SumOfLengths(arrays)
  {
    if arrays != [] {
      FlattenLength(arrays[..|arrays| - 1]);
    }
  }

  function SumOfLengths(arrays: seq<seq<string>>): nat
  {
    if arrays == [] then 0 else SumOfLengths(arrays[..|arrays| - 1]) + |arrays[|arrays| - 1]|
  }
}
