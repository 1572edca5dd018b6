/** How a runner call ends: with a value, with a `RunnerError` returned to the
    caller, or with a panic raised by an `unwrap` in the runner. */
module Outcomes {
  import opened Uint128

  /** `test_tube::RunnerError`, with the decode and encode errors of the
      protobuf codec carried as their descriptions. */
  datatype RunnerError =
    | DecodeError(description: string)
    | EncodeError(description: string)
    | GenericError(message: string)

  /** Why the runner panicked: an `unwrap` of a failed coin-amount parse, or
      of a failed decode of the response payload. */
  datatype PanicCause =
    | UnwrapParseInt(kind: IntErrorKind)
    | UnwrapResponseDecode(description: string)

  datatype Outcome<+T> = Ok(value: T) | Err(error: RunnerError) | Panic(cause: PanicCause) {
    predicate IsFailure() {
      !Ok?
    }

    function PropagateFailure<U>(): (r: Outcome<U>)
      requires !Ok?
      ensures SameFailure(r, this)
    {
      if Err? then Err(error) else Panic(cause)
    }

    function Extract(): T
      requires Ok?
    {
      value
    }
  }

  /** Two outcomes that fail in the same way: the same error, or the same panic. */
  predicate SameFailure<A, B>(a: Outcome<A>, b: Outcome<B>) {
    || (a.Err? && b.Err? && a.error == b.error)
    || (a.Panic? && b.Panic? && a.cause == b.cause)
  }

  /** Element `k` is the first one of `os` that did not succeed. */
  predicate FirstFailure<T>(os: seq<Outcome<T>>, k: int) {
    0 <= k < |os| && !os[k].Ok? && forall i :: 0 <= i < k ==> os[i].Ok?
  }

  /** Collecting a lazily mapped sequence into `Result<Vec<_>, _>`: every value
      in order when all succeed, otherwise the first failure, after which no
      later element is evaluated (so a later panic never happens). */
  function Collect<T>(os: seq<Outcome<T>>): (r: Outcome<seq<T>>)
    ensures r.Ok? <==> forall i :: 0 <= i < |os| ==> os[i].Ok?
    ensures r.Ok? ==> |r.value| == |os| && forall i :: 0 <= i < |os| ==> os[i].Ok? && r.value[i] == os[i].value
    ensures !r.Ok? ==> exists k :: FirstFailure(os, k) && SameFailure(r, os[k])
  {
    if |os| == 0 then Ok([])
    else
      var v :- os[0];
      var vs :- Collect(os[1..]);
      Ok([v] + vs)
  }
}
