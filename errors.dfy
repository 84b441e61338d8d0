/**
 * Go error values as the core produces and inspects them.
 *
 * `errors.New` makes a sentinel whose identity is what `errors.Is` compares;
 * `fmt.Errorf` with `%w` wraps a cause that `errors.Is` can still see, while
 * `fmt.Errorf` with `%v` only copies the cause's text into a new message.
 */
module GoErrors {

  import opened Wrappers

  datatype Error =
    | Sentinel(name: string)                     // a value made once by errors.New
    | Wrapped(context: string, cause: Error)     // fmt.Errorf("...: %w", cause)
    | Formatted(context: string, cause: Error)   // fmt.Errorf("...: %v", cause): the cause is text only
    | Plain(text: string)                        // any other error made from a message
    | NotPaginatableDict                         // *NotPaginatableDictError

  /** The chain `errors.Unwrap` walks, starting with the error itself. */
  function Chain(e: Error): (r: seq<Error>)
    ensures |r| >= 1 && r[0] == e
    ensures forall i :: 0 <= i < |r| - 1 ==> r[i].Wrapped? && r[i + 1] == r[i].cause
    ensures !r[|r| - 1].Wrapped?
  {
    if e.Wrapped? then [e] + Chain(e.cause) else [e]
  }

  /** errors.Is: the target is the error itself or somewhere down its `%w` chain. */
  predicate Is(e: Error, target: Error) {
    e == target || (e.Wrapped? && Is(e.cause, target))
  }

  /** errors.Is on a possibly nil error: nil is never any target. */
  predicate IsSome(e: Option<Error>, target: Error) {
    e.Some? && Is(e.value, target)
  }

  /** Wrapping n times with `%w`, as successive layers of context do. */
  function WrapN(n: nat, contexts: seq<string>, e: Error): (r: Error)
    requires |contexts| >= n
    decreases n
  {
    if n == 0 then e else Wrapped(contexts[n - 1], WrapN(n - 1, contexts, e))
  }

  /** `errors.Is` is exactly membership in the unwrap chain. */
  lemma {:induction false} IsIffInChain(e: Error, target: Error)
    ensures Is(e, target) <==> target in Chain(e)
  {
    if e.Wrapped? {
      IsIffInChain(e.cause, target);
    }
  }

  /** Any number of `%w` layers keeps the target visible to `errors.Is`. */
  lemma {:induction false} WrappingKeepsTarget(n: nat, contexts: seq<string>, target: Error)
    requires |contexts| >= n
    ensures Is(WrapN(n, contexts, target), target)
  {
    if n > 0 {
      WrappingKeepsTarget(n - 1, contexts, target);
    }
  }

}
