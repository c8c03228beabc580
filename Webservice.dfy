/**
 * The fetch client: a resource pairs a URL with a parser, and `load` turns
 * the received body into one `Result` that is handed to the completion.
 * The HTTP transfer and the hop to the main queue are not modelled; `load`
 * is a function of the body that has already arrived.
 */
module Webservice {
  import opened Options
  import opened Json

  /** `enum WebserviceError { case other }` */
  datatype WebserviceError = Other

  /** Two-case result, never both. */
  datatype Result<+T> = Success(value: T) | Failure(error: WebserviceError)

  /** `Result(parsed, or: error)`: success when there is a value, else the failure. */
  function ResultFrom<T>(parsed: Option<T>, error: WebserviceError): (r: Result<T>)
    ensures r.Success? <==> parsed.Some?
    ensures r.Success? ==> r.value == parsed.value
    ensures r.Failure? ==> r.error == error
  {
    match parsed
    case Some(v) => Success(v)
    case None => Failure(error)
  }

  /**
   * A response body as the parser sees it once Foundation has tried to
   * deserialize it: either bytes that are not JSON, or a JSON value.
   */
  datatype Body = NotJson | JsonBody(json: Json)

  /** The HTTP status that came with a body; `load` never looks at it. */
  datatype HttpResponse = NoResponse | HttpResponse(statusCode: int)

  /** A URL as `NSURLComponents` assembles it. */
  datatype QueryItem = QueryItem(name: string, value: string)
  datatype Url = Url(scheme: string, host: string, path: string, queryItems: seq<QueryItem>)

  /** `Resource<A>`: a target URL and a parser from the body to an optional value. */
  datatype Resource<T> = Resource(url: Url, parse: Body -> Option<T>)

  /** The parser of a JSON resource: bodies that are not JSON parse to nothing. */
  function ParseJson<T>(parseJson: Json -> Option<T>, body: Body): (r: Option<T>)
    ensures body.NotJson? ==> r.None?
    ensures body.JsonBody? ==> r == parseJson(body.json)
  {
    match body
    case NotJson => None
    case JsonBody(j) => parseJson(j)
  }

  /**
   * What one `load` does once the data task finishes: with no data the
   * force unwrap `data!` traps and the completion is never called; otherwise
   * the completion is called once, with the single result computed here.
   */
  datatype LoadOutcome<+T> = Crashed | Completed(result: Result<T>)

  function Load<T>(resource: Resource<T>, data: Option<Body>, response: HttpResponse): (r: LoadOutcome<T>)
    ensures data.None? <==> r.Crashed?
    ensures data.Some? && resource.parse(data.value).Some? ==>
      r == Completed(Success(resource.parse(data.value).value))
    ensures data.Some? && resource.parse(data.value).None? ==>
      r == Completed(Failure(Other))
  {
    match data
    case None => Crashed
    case Some(d) => Completed(ResultFrom(resource.parse(d), Other))
  }

  /** A parser that never yields a value makes no load a success: with data the load ends in `failure(.other)`; with no data it traps. */
  lemma NeverParsingNeverSucceeds<T>(resource: Resource<T>, data: Option<Body>, response: HttpResponse)
    requires forall b :: resource.parse(b).None?
    ensures !(Load(resource, data, response).Completed? && Load(resource, data, response).result.Success?)
    ensures data.Some? ==> Load(resource, data, response) == Completed(Failure(Other))
  {
  }

  /** The status code, or the absence of a response, does not change the outcome. */
  lemma LoadIgnoresResponse<T>(resource: Resource<T>, data: Option<Body>, r1: HttpResponse, r2: HttpResponse)
    ensures Load(resource, data, r1) == Load(resource, data, r2)
  {
  }
}
