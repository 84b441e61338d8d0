/**
 * Readers over page bodies: the io.ReadCloser an HTTP response carries, and
 * the lazy tee reader that lets the type detector peek at a body's first
 * bytes and then hand the whole body on.
 */
module Streams {

  import opened Wrappers
  import opened GoErrors
  import opened JsonValues

  /** What a body reader holds at one moment: the bytes still to read, what the
      JSON decoder makes of the body, and the error its Close returns. */
  datatype Page = Page(text: string, decoded: JsonValue, closeError: Option<Error>)

  /** A response body: the bytes not read yet, what the JSON decoder makes of the
      whole body, and whether closing it fails. */
  class BodyReader {
    var pending: string
    const decoded: JsonValue
    const closeError: Option<Error>
    var closeCount: nat

    constructor (text: string, decoded: JsonValue, closeError: Option<Error>)
      ensures pending == text && this.decoded == decoded && this.closeError == closeError
      ensures closeCount == 0
    {
      pending := text;
      this.decoded := decoded;
      this.closeError := closeError;
      closeCount := 0;
    }

    function Snapshot(): Page
      reads this
    {
      Page(pending, decoded, closeError)
    }

    /** io.Reader.Read into a buffer of `max` bytes: as many bytes as fit, none at end of stream. */
    method Read(max: nat) returns (chunk: string)
      modifies this
      ensures |chunk| == if max < |old(pending)| then max else |old(pending)|
      ensures old(pending) == chunk + pending
      ensures closeCount == old(closeCount)
    {
      var n := if max < |pending| then max else |pending|;
      chunk := pending[..n];
      pending := pending[n..];
    }

    /** Reads the rest of the body, as a JSON decoder reading one whole value does. */
    method ReadAll() returns (all: string)
      modifies this
      ensures all == old(pending) && pending == []
      ensures closeCount == old(closeCount)
    {
      all := pending;
      pending := [];
    }

    /** io.Closer.Close. */
    method Close() returns (err: Option<Error>)
      modifies this
      ensures err == closeError
      ensures closeCount == old(closeCount) + 1 && pending == old(pending)
    {
      closeCount := closeCount + 1;
      err := closeError;
    }
  }

  /** What is left of `original` once some bytes were read off its front. */
  predicate LeftAfterReading(rest: string, original: string) {
    |rest| <= |original| && rest == original[|original| - |rest|..]
  }

  /**
   * The lazy tee reader: reads made before the final reader is requested are
   * remembered in `captured`; the final reader replays them ahead of the bytes
   * the source still holds, and closing it closes the source.
   */
  class LazyTeeReader {
    const source: BodyReader
    var captured: string

    constructor (source: BodyReader)
      ensures this.source == source && captured == []
    {
      this.source := source;
      captured := [];
    }

    /** A read through the first view: served by the source and remembered. */
    method Read(max: nat) returns (chunk: string)
      modifies this, source
      ensures |chunk| == if max < |old(source.pending)| then max else |old(source.pending)|
      ensures old(source.pending) == chunk + source.pending
      ensures captured == old(captured) + chunk
      ensures captured + source.pending == old(captured) + old(source.pending)
      ensures source.closeCount == old(source.closeCount)
    {
      chunk := source.Read(max);
      captured := captured + chunk;
    }

    /** GetFinalReader: a new reader over what was read so far followed by the rest of the source. */
    method FinalReader() returns (r: ReplayReader)
      ensures fresh(r) && r.replay == captured && r.source == source
    {
      r := new ReplayReader(captured, source);
    }
  }

  /**
   * The reader GetFinalReader hands out: the bytes the tee captured, read
   * again first, then the bytes the source still holds. Its reads past the
   * replayed bytes and its Close go to the source; the source itself keeps
   * only the bytes nobody has read from it yet.
   */
  class ReplayReader {
    var replay: string
    const source: BodyReader

    constructor (replay: string, source: BodyReader)
      ensures this.replay == replay && this.source == source
    {
      this.replay := replay;
      this.source := source;
    }

    /** Every byte a reader of it would still get. */
    function Pending(): string
      reads this, source
    {
      replay + source.pending
    }

    /** What it holds as a body: the bytes it still gives and what the whole body decodes to. */
    function Snapshot(): Page
      reads this, source
    {
      Page(Pending(), source.decoded, source.closeError)
    }

    /** A read: from the replayed bytes while any are left, from the source after that. */
    method Read(max: nat) returns (chunk: string)
      modifies this, source
      ensures old(Pending()) == chunk + Pending()
      ensures old(replay) != [] ==> |chunk| == (if max < |old(replay)| then max else |old(replay)|) && source.pending == old(source.pending)
      ensures old(replay) == [] ==> replay == [] && |chunk| == if max < |old(source.pending)| then max else |old(source.pending)|
      ensures source.closeCount == old(source.closeCount)
    {
      if replay != [] {
        var n := if max < |replay| then max else |replay|;
        chunk := replay[..n];
        replay := replay[n..];
        assert old(replay) == chunk + replay;
      } else {
        chunk := source.Read(max);
      }
    }

    /** Reads to the end, as a JSON decoder reading one whole value does: the source is drained too. */
    method ReadAll() returns (all: string)
      modifies this, source
      ensures all == old(Pending()) && replay == [] && source.pending == []
      ensures source.closeCount == old(source.closeCount)
    {
      var rest := source.ReadAll();
      all := replay + rest;
      replay := [];
    }

    /** Close closes the source. */
    method Close() returns (err: Option<Error>)
      modifies source
      ensures err == source.closeError
      ensures source.closeCount == old(source.closeCount) + 1 && source.pending == old(source.pending)
    {
      err := source.Close();
    }
  }

  /**
   * The lazy tee reader on a body "hello": two bytes peeked through the first
   * view come again from the final reader, then the rest, then nothing; closing
   * the final reader closes the source once.
   */
  method TeeReplays() returns (peeked: string, again: string, rest: string, atEnd: string, closes: nat)
    ensures peeked == "he" && again == "he" && rest == "llo" && atEnd == [] && closes == 1
  {
    var src := new BodyReader("hello", Invalid, None);
    var lazy := new LazyTeeReader(src);
    peeked := lazy.Read(2);
    assert peeked == "he" && src.pending == "llo" by {
      assert "hello" == peeked + src.pending;
      assert peeked == (peeked + src.pending)[..2] && src.pending == (peeked + src.pending)[2..];
    }
    var r := lazy.FinalReader();
    again := r.Read(2);
    assert again == "he" && r.Pending() == "llo" by {
      assert "hello" == again + r.Pending();
      assert again == (again + r.Pending())[..2] && r.Pending() == (again + r.Pending())[2..];
    }
    rest := r.Read(10);
    assert rest == "llo";
    atEnd := r.Read(10);
    var _ := r.Close();
    closes := src.closeCount;
  }
}
