/** Absent-or-present values and success-or-error outcomes.
    `None` stands for a Java `null` reference throughout the model. */
module Wrappers {

  datatype Option<+T> = None | Some(value: T)

  datatype Result<+T, +E> = Success(value: T) | Failure(error: E)
}

/** The Java value types that the request records carry. */
module Primitives {

  /** A Java `int` / `Integer`: stored as given, never range-checked. */
  newtype Int32 = x: int | -0x8000_0000 <= x < 0x8000_0000

  /** A Java `double`, carried as its 64-bit pattern; the client does no
      arithmetic on coverage values, it only passes them along. */
  datatype Double = Double(bits: bv64)
}

/** What the HTTP layer hands back to the client. */
module Http {

  /** A response with its status code and deserialized body. */
  datatype Response<T> = Response(statusCode: int, value: T)

  /** An HTTP-level failure reported by the transport (an exception in the
      source, surfaced as the error of the asynchronous operation). */
  datatype ServiceError = ServiceError(statusCode: int, message: string)
}

/** `stream().map(f).collect(Collectors.toList())`. */
module Streams {

  /** Maps `f` over `xs`, keeping length and order. */
  function MapList<A, B>(xs: seq<A>, f: A -> B): (r: seq<B>)
    ensures |r| == |xs|
    ensures forall i :: 0 <= i < |xs| ==> r[i] == f(xs[i])
  {
    if xs == [] then [] else [f(xs[0])] + MapList(xs[1..], f)
  }
}
