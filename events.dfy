/** The process-wide parameters, the request as the middleware delivers it, and the (event,
    context) pair that `modExecute` builds for the handler. */
module Events {
  import opened JsValues

  /** The parameters the process starts with (`AppParams`); never changed afterwards.
      The numeric settings are modelled as integers. */
  datatype Params = Params(
    requestMbLimit: int,
    moduleName: string,
    handler: string,
    timeout: int,
    port: int,
    runtime: string,
    memoryLimit: string)

  /** What the body parser left in `req.body`: the raw bytes of a non-multipart request
      that has a body, or the empty object placed there when no parser read the body
      (multipart requests and requests without a body). */
  datatype Body = Bytes(bytes: seq<byte>) | Unparsed

  /** An inbound request. `headers` maps lower-cased header names to their values;
      `isMultipart` and `isJson` are what `req.is` reports when asked about the multipart
      media types and about "application/json". */
  datatype Request = Request(
    httpMethod: string,
    headers: map<string, string>,
    isMultipart: bool,
    isJson: bool,
    body: Body)

  /** The payload `event.data` carries. */
  datatype Data = Raw(body: Body) | Parsed(value: JsValue) | Decoded(text: string)

  /** The event handed to the handler. `request` stands for the `extensions` slot. */
  datatype Event = Event(
    eventType: Option<string>,
    eventId: Option<string>,
    eventTime: Option<string>,
    eventNamespace: Option<string>,
    data: Data,
    request: Request)

  /** The context handed to the handler. */
  datatype Context = Context(
    functionName: string,
    timeout: int,
    runtime: string,
    memoryLimit: string)

  /** `req.body.length > 0`: the empty object has no length, so it never passes. */
  predicate HasContent(body: Body) {
    body.Bytes? && |body.bytes| > 0
  }

  /** `req.get(name)`. */
  function Header(req: Request, name: string): Option<string> {
    if name in req.headers then Some(req.headers[name]) else None
  }

  /** The value of `event.data`. `decode` is `Buffer.toString("utf-8")` and `parse` is
      `JSON.parse`; a parse failure is the error the surrounding try block catches. */
  function EventData(req: Request, decode: seq<byte> -> string, parse: string -> Result<JsValue>)
    : (r: Result<Data>)
    ensures r.Err? <==>
              !req.isMultipart && HasContent(req.body) && req.isJson &&
              parse(decode(req.body.bytes)).Err?
    ensures r.Ok? && r.value.Raw? <==> req.isMultipart || !HasContent(req.body)
    ensures r.Ok? && r.value.Raw? ==> r.value.body == req.body
    ensures r.Ok? && r.value.Parsed? ==>
              req.isJson && parse(decode(req.body.bytes)) == Ok(r.value.value)
    ensures !req.isMultipart && HasContent(req.body) && req.isJson &&
            parse(decode(req.body.bytes)).Ok? ==>
              r == Ok(Parsed(parse(decode(req.body.bytes)).value))
    ensures !req.isMultipart && HasContent(req.body) && !req.isJson ==>
              r == Ok(Decoded(decode(req.body.bytes)))
  {
    if !req.isMultipart && HasContent(req.body) then
      var text := decode(req.body.bytes);
      if req.isJson then
        (match parse(text)
         case Ok(v) => Ok(Parsed(v))
         case Err(e) => Err(e))
      else Ok(Decoded(text))
    else Ok(Raw(req.body))
  }

  /** The event record: four header fields, the data and the request itself. */
  function MakeEvent(req: Request, data: Data): Event {
    Event(Header(req, "event-type"), Header(req, "event-id"), Header(req, "event-time"),
          Header(req, "event-namespace"), data, req)
  }

  /** The context record: handler name, timeout, runtime and memory limit. */
  function MakeContext(p: Params): Context {
    Context(p.handler, p.timeout, p.runtime, p.memoryLimit)
  }
}
