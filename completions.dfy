/**
 * Completion records (`src/completions/mod.rs`, ECMA-262 section 6.2.4)
 * and the bridge from a native operation's result to a completion.
 */
module Completions {
  import opened Wrappers
  import opened Errors

  datatype Completion<T> =
    | Normal(value: T)
    | Throw(error: CoreError)
    | Return(value: T)
    | Break(target: Option<string>)
    | Continue(target: Option<string>)

  /** `From<CoreResult<T>> for Completion<T>`: success is Normal, failure is Throw. */
  function FromResult<T>(result: CoreResult<T>): (c: Completion<T>)
    ensures result.Ok? ==> c == Normal(result.value)
    ensures result.Err? ==> c == Throw(result.error)
    ensures !c.Return? && !c.Break? && !c.Continue?
  {
    match result
    case Ok(value) => Normal(value)
    case Err(err) => Throw(err)
  }

  /** Reads a Normal or Throw completion back as the result it came from. */
  function ToResult<T>(c: Completion<T>): (r: CoreResult<T>)
    requires c.Normal? || c.Throw?
    ensures c.Normal? ==> r == Ok(c.value)
    ensures c.Throw? ==> r == Err(c.error)
  {
    if c.Normal? then Ok(c.value) else Err(c.error)
  }

  /** The conversion loses nothing: reading the completion back recovers the result. */
  lemma FromResultRoundTrip<T>(result: CoreResult<T>)
    ensures ToResult(FromResult(result)) == result
  {
  }

  /** Distinct results give distinct completions. */
  lemma FromResultInjective<T>(a: CoreResult<T>, b: CoreResult<T>)
    ensures FromResult(a) == FromResult(b) ==> a == b
  {
    if FromResult(a) == FromResult(b) {
      FromResultRoundTrip(a);
      FromResultRoundTrip(b);
    }
  }
}
