/**
 * Classifying a page body by its first JSON token (section 2 of RFC 8259):
 * `[` opens an array, `{` an object, and anything else is refused.
 */
module DetectType {

  import opened Wrappers
  import opened GoErrors
  import opened Streams
  import Text

  datatype JsonType = Unknown | Array | Dictionary

  /** The insignificant white space of section 2 of RFC 8259. */
  predicate IsJsonSpace(c: char) {
    c == ' ' || c == '\t' || c == '\n' || c == '\r'
  }

  /** The first character that is not JSON white space, if any. */
  function FirstSignificant(s: string): (r: Option<char>)
    ensures r.None? <==> forall i :: 0 <= i < |s| ==> IsJsonSpace(s[i])
    ensures r.Some? ==> exists i :: 0 <= i < |s| && s[i] == r.value && !IsJsonSpace(s[i])
                          && forall k :: 0 <= k < i ==> IsJsonSpace(s[k])
  {
    if s == [] then None
    else if IsJsonSpace(s[0]) then
      var r := FirstSignificant(s[1..]);
      assert forall i :: 1 <= i < |s| ==> s[i] == s[1..][i - 1];
      r
    else Some(s[0])
  }

  /** The first token as json.Decoder.Token reports it, told apart by its first character. */
  datatype Token = Delim(c: char) | Scalar | TokenFailure(err: Error)

  const EOF := Sentinel("EOF")

  function FirstToken(first: Option<char>): (t: Token)
  {
    match first
    case None => TokenFailure(EOF)
    case Some(c) =>
      if c == '[' || c == '{' then Delim(c)
      else if c == '"' || c == '-' || Text.IsDigit(c) || c == 't' || c == 'f' || c == 'n' then Scalar
      else TokenFailure(Plain("invalid character looking for beginning of value"))
  }

  /** The pair DetectJsonTypeUnsafe returns. */
  datatype Detection = Detection(kind: JsonType, err: Option<Error>)

  /** The classification DetectJsonTypeUnsafe makes of a body's text. */
  function Classify(s: string): (r: Detection)
    ensures r.err.Some? <==> r.kind == Unknown
    ensures r.kind == Array <==> FirstSignificant(s) == Some('[')
    ensures r.kind == Dictionary <==> FirstSignificant(s) == Some('{')
    ensures FirstSignificant(s).None? ==> r.err == Some(EOF)
  {
    ClassifyFirst(FirstSignificant(s))
  }

  /** The classification, from the first significant character alone. */
  function ClassifyFirst(first: Option<char>): (r: Detection)
  {
    match FirstToken(first)
    case TokenFailure(e) => Detection(Unknown, Some(e))
    case Scalar => Detection(Unknown, Some(Plain("expected json.Delim")))
    case Delim(c) =>
      if c == '[' then Detection(Array, None)
      else if c == '{' then Detection(Dictionary, None)
      else Detection(Unknown, Some(Plain("unexpected json.Delim")))
  }

  /**
   * DetectJsonTypeUnsafe on the first view of a lazy tee reader: reads one byte at
   * a time until the first significant one (or the end), and classifies it.
   */
  method DetectJsonTypeUnsafe(tee: LazyTeeReader) returns (r: Detection)
    modifies tee, tee.source
    ensures r == Classify(old(tee.source.pending))
    ensures tee.captured + tee.source.pending == old(tee.captured) + old(tee.source.pending)
    ensures tee.source.closeCount == old(tee.source.closeCount)
  {
    ghost var original := tee.source.pending;
    ghost var seen: string := [];
    var first: Option<char> := None;
    while true
      invariant original == seen + tee.source.pending
      invariant forall k :: 0 <= k < |seen| ==> IsJsonSpace(seen[k])
      invariant first.None?
      invariant tee.captured + tee.source.pending == old(tee.captured) + old(tee.source.pending)
      invariant tee.source.closeCount == old(tee.source.closeCount)
      decreases |tee.source.pending|
    {
      var before := tee.source.pending;
      var chunk := tee.Read(1);
      if chunk == [] {
        assert original == seen;
        assert FirstSignificant(original) == first;
        break;
      }
      if !IsJsonSpace(chunk[0]) {
        first := Some(chunk[0]);
        assert original == seen + [chunk[0]] + tee.source.pending;
        assert original[|seen|] == chunk[0];
        SignificantAfterSpaces(original, |seen|);
        assert FirstSignificant(original) == first;
        break;
      }
      seen := seen + chunk;
    }
    r := ClassifyFirst(first);
  }

  /**
   * Detection that hands the whole body on: the returned reader replays the
   * bytes the detector read and then the rest of the input, while the input
   * itself keeps only what nobody has read from it yet.
   */
  method DetectJsonType(input: BodyReader) returns (r: Detection, replay: ReplayReader)
    modifies input
    ensures r == Classify(old(input.pending))
    ensures fresh(replay) && replay.source == input && replay.Pending() == old(input.pending)
    ensures LeftAfterReading(input.pending, old(input.pending))
    ensures input.closeCount == old(input.closeCount)
  {
    var lazy := new LazyTeeReader(input);
    r := DetectJsonTypeUnsafe(lazy);
    assert old(input.pending) == lazy.captured + input.pending;
    replay := lazy.FinalReader();
  }

  lemma {:induction false} SignificantAfterSpaces(s: string, i: nat)
    requires i < |s| && !IsJsonSpace(s[i])
    requires forall k :: 0 <= k < i ==> IsJsonSpace(s[k])
    ensures FirstSignificant(s) == Some(s[i])
  {
    if i > 0 {
      SignificantAfterSpaces(s[1..], i - 1);
    }
  }

  /** A body whose first token is `[` is an array, with no error. */
  lemma ArrayBody(ws: string, rest: string)
    requires forall k :: 0 <= k < |ws| ==> IsJsonSpace(ws[k])
    ensures Classify(ws + "[" + rest) == Detection(Array, None)
  {
    SignificantAfterSpaces(ws + "[" + rest, |ws|);
  }

  /** A body whose first token is `{` is a dictionary, with no error. */
  lemma DictionaryBody(ws: string, rest: string)
    requires forall k :: 0 <= k < |ws| ==> IsJsonSpace(ws[k])
    ensures Classify(ws + "{" + rest) == Detection(Dictionary, None)
  {
    SignificantAfterSpaces(ws + "{" + rest, |ws|);
  }

  /** The JSON string "a" and the text `invalid json` are refused, as the detection test expects. */
  lemma RefusedBodies()
    ensures Classify("\"a\"") == Detection(Unknown, Some(Plain("expected json.Delim")))
    ensures Classify("invalid json").kind == Unknown && Classify("invalid json").err.Some?
    ensures Classify("") == Detection(Unknown, Some(EOF))
  {
    SignificantAfterSpaces("\"a\"", 0);
    SignificantAfterSpaces("invalid json", 0);
  }
}
