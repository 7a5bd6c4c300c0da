/** What a client method hands to the transport instead of performing the
    HTTP exchange, and the exceptions it throws before getting that far. */
module Http {
  import opened Wrappers
  import opened Multimap

  datatype Verb = GET | POST | PUT | DELETE

  /** A call into `KillBillHttpClient`'s multimap entry points
      (`doGet(uri, queryParams, …)`, `doPostAndFollowLocation(uri, body,
      queryParams, [timeout,] …)`, …). `follow` is set for the
      `…AndFollowLocation` variants; `timeoutSec` holds an explicit timeout
      argument, `None` leaving the transport's own. */
  datatype Call<B> = Call(verb: Verb, path: string, body: Option<B>, query: Multimap,
                          follow: bool, timeoutSec: Option<int>)

  /** `RequestOptions`: the caller's query parameters, headers and the
      optional followLocation flag. */
  datatype Options = Options(queryParams: Multimap, headers: map<string, string>, followLocation: Option<bool>)

  /** A request from a generated `*Api` class: `doGet(uri, …, options)`,
      `doPost(uri, body, options)`, … */
  datatype ApiRequest<B> = ApiRequest(verb: Verb, path: string, body: Option<B>, options: Options)

  /** `NullPointerException` (from `Preconditions.checkNotNull` or a Guava
      collection refusing null), with or without a message, and
      `IllegalArgumentException` (from `Preconditions.checkArgument`). */
  datatype Error = NullPointer(message: string) | NullPointerNoMessage | IllegalArgument(message: string)

  /** `Preconditions.checkNotNull(o, message)`. */
  function CheckNotNull<T>(o: Option<T>, message: string): (r: Result<T, Error>)
    ensures o.Some? <==> r.Success?
    ensures r.Success? ==> r.value == o.value
    ensures r.Failure? ==> r.error == NullPointer(message)
  {
    match o
    case Some(v) => Success(v)
    case None => Failure(NullPointer(message))
  }

  /** Calling a method on a possibly null reference: a null one throws a
      `NullPointerException` without a message. */
  function Deref<T>(o: Option<T>): (r: Result<T, Error>)
    ensures o.Some? <==> r.Success?
    ensures r.Success? ==> r.value == o.value
    ensures r.Failure? ==> r.error == NullPointerNoMessage
  {
    match o
    case Some(v) => Success(v)
    case None => Failure(NullPointerNoMessage)
  }
}
