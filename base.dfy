/** Small shared vocabulary: an optional value, Go's 64-bit integer range, and
    the abstract outcome of one HTTP GET whose transport is not modelled. */
module Base {

  datatype Option<+T> = None | Some(value: T)

  const MinInt64: int := -0x8000_0000_0000_0000
  const MaxInt64: int := 0x7FFF_FFFF_FFFF_FFFF

  /** Go's `int` and `int64` on a 64-bit platform. */
  type Int64 = x: int | MinInt64 <= x <= MaxInt64

  /** What reading the body of a response produced. */
  datatype Body<+T> =
    | Unreadable(err: string)   // reading the body failed
    | Malformed(err: string)    // the body is not the expected JSON
    | Decoded(value: T)         // the body decoded into the payload type

  /** What the HTTP client returned for one request: a transport error, or a
      response with its status code and body. The network is a parameter of
      every operation that performs a request. */
  datatype Reply<+T> =
    | NoResponse(err: string)
    | Response(status: int, body: Body<T>)
}
