/** Outcomes shared by every client: an optional value, and a result that is
    either a value or one of the failures the library raises. */
module Common {

  datatype Option<+T> = None | Some(value: T)

  /** The failure kinds the library surfaces. Each stands for one exception
      type (or one message) of the source; the message text is not modelled. */
  datatype Error =
    | InvalidUrl                  // the URL fails the client's classifier
    | InvalidLimit                // the page size lies outside the allowed range
    | RateLimited                 // the server answered 429 (too many requests)
    | RequestFailed(status: int)  // any other unsuccessful status, with its code
    | MalformedResponse           // the JSON text does not have the expected shape
    | NullReference               // a JSON null that the code goes on to dereference

  datatype Result<+T> = Ok(value: T) | Err(error: Error)

  /** The position of the first occurrence of `x` in `s`, or -1 when there is
      none (the contract of List<T>.IndexOf and String.IndexOf(char)). */
  function IndexOf<T(==)>(s: seq<T>, x: T): (k: int)
    ensures -1 <= k < |s|
    ensures k == -1 <==> x !in s
    ensures 0 <= k ==> s[k] == x && x !in s[..k]
  {
    if |s| == 0 then -1
    else if s[0] == x then 0
    else
      var k := IndexOf(s[1..], x);
      if k == -1 then -1
      else
        assert s[..k + 1] == [s[0]] + s[1..][..k];
        k + 1
  }
}
