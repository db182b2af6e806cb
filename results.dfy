/** The success/failure container `Result<T, E>` and an `Option` standing for
    a TypeScript `T | null`.

    `Result` is failure-compatible: inside a function, `var x :- r; ...`
    extracts the held data of an `Ok` (what `r.unwrap()` does) and, on an
    `Err`, makes the whole function return that same `Err`. This is exactly
    the source's idiom of a block of `unwrap()` calls whose thrown error is
    caught and re-wrapped with `Err.new(e)` one level up.
 */
module Results {

  /** `None` is the TypeScript `null` of a `T | null` result. */
  datatype Option<T> = None | Some(value: T)

  /** `Ok.new(data)` and `Err.new(error)` are the two constructors. */
  datatype Result<T, E> = Ok(data: T) | Err(error: E) {

    /** `isOk()`: true exactly when the result is not an `Err`. */
    predicate IsOk(): (b: bool)
      ensures b <==> !Err?
    {
      Ok?
    }

    /** `isErr()`: true exactly when the result is not an `Ok`. */
    predicate IsErr(): (b: bool)
      ensures b <==> !Ok?
    {
      Err?
    }

    /** Applies `f` to the held data of an `Ok`; an `Err` passes through with
        its error untouched. */
    function Map<U>(f: T -> U): (r: Result<U, E>)
      ensures IsOk() ==> r.IsOk() && r.data == f(data)
      ensures IsErr() ==> r.IsErr() && r.error == error
    {
      match this
      case Ok(d) => Ok(f(d))
      case Err(e) => Err(e)
    }

    /** The held data. On an `Err` the source throws; the model makes that
        call impossible, and the fail-fast parsers use `:-` instead. */
    function Unwrap(): (d: T)
      requires IsOk()
      ensures Ok(d) == this
    {
      data
    }

    predicate IsFailure() {
      IsErr()
    }

    function PropagateFailure<U>(): (r: Result<U, E>)
      requires IsFailure()
      ensures r.IsErr() && r.error == error
    {
      Err(error)
    }

    function Extract(): T
      requires !IsFailure()
    {
      Unwrap()
    }
  }

  /** `isOk()` and `isErr()` always disagree, and each agrees with the
      variant tag (the `instanceof Ok` / `instanceof Err` test). */
  lemma OkErrExclusive<T, E>(r: Result<T, E>)
    ensures r.IsOk() != r.IsErr()
    ensures r.IsOk() <==> r.Ok?
    ensures r.IsErr() <==> r.Err?
  {
  }

  /** `Ok(v).map(f).unwrap() == f(v)`. */
  lemma MapThenUnwrap<T, U, E>(v: T, f: T -> U)
    ensures Result<T, E>.Ok(v).Map(f).IsOk()
    ensures Result<T, E>.Ok(v).Map(f).Unwrap() == f(v)
  {
  }
}
