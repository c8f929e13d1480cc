/**
 * What an upstream call can come back with, and the ways an operation of the core can end
 * other than by returning: the exceptions of the evidence-source framework, the plugin's own
 * `NsgException`, `NotImplementedException` and the .NET runtime exceptions the code runs
 * into on unexpected data.
 */
module Outcomes {
  import Errors

  /** What `JsonConvert.DeserializeObject<T>` makes of a response body. */
  datatype Body<+T> = Unparseable | NullBody | Parsed(value: T)

  /**
   * What sending a request gives: an `HttpRequestException`, or an answer with its status,
   * its reason phrase and its body, deserialised as the expected payload and as an error
   * envelope (the core deserialises the same text as one or the other, depending on status).
   */
  datatype Reply<+T> =
    | NetworkFailure
    | Answer(status: int, reasonPhrase: string, payload: Body<T>, errorPayload: Body<Errors.ErrorEnvelope>)

  /** `HttpResponseMessage.IsSuccessStatusCode`. */
  predicate IsSuccessStatusCode(status: int) {
    200 <= status <= 299
  }

  /** The exceptions of the evidence-source framework, each with an error code and a message. */
  datatype EvidenceSourceException =
    | PermanentClient(errorCode: int, message: string)
    | PermanentServer(errorCode: int, message: string)
    | Transient(errorCode: int, message: string)

  /** The runtime exceptions the core can run into. */
  datatype Crash =
    | NullReference        // a member of a null reference
    | IndexOutOfRange      // an array index past the end
    | ArgumentNull         // a null sequence given to LINQ or `string.Join`
    | ArgumentOutOfRange   // `Substring` past the end; a cache entry's lifetime not positive
    | InvalidOperation     // `.Value` of an empty nullable
    | InvalidCast          // a cast of a non-string object to `string`
    | JsonReader           // a body that is not JSON of the expected shape
    | HttpRequest          // a network failure nobody catches
    | UnknownCode          // a legal form code outside `Code` ("Cannot unmarshal type Code")

  /** How an operation of the core fails. */
  datatype Fault =
    | Nsg(error: Errors.ErrorFields)
    | Evidence(exception: EvidenceSourceException)
    | NotImplemented
    | Unhandled(crash: Crash)
}
