/** The response sink: its state, the Express writes the pipeline performs on it, and the
    dispatch on the handler's result that `modFinalize` makes. */
module Replies {
  import opened JsValues

  /** What has been written as the body. `Json(v)` is the text `JSON.stringify(v)`;
      `ErrorJson(e)` is the rendering Express gives an Error object passed to `send`. */
  datatype Payload = Empty | Text(text: string) | Json(value: JsValue) | ErrorJson(error: JsError)

  /** A response: whether it has been ended, its status code, its headers (names lower
      case) and its body. */
  datatype ResponseState = ResponseState(
    finished: bool,
    status: int,
    headers: map<string, string>,
    body: Payload)

  const ContentType: string := "content-type"
  const HtmlType: string := "text/html; charset=utf-8"
  const JsonType: string := "application/json; charset=utf-8"

  /** A response as Express hands it to a route. */
  const Initial: ResponseState := ResponseState(false, 200, map[], Empty)

  /** `res.header(name, value)`. */
  function WithHeader(s: ResponseState, name: string, value: string): ResponseState {
    s.(headers := s.headers[name := value])
  }

  /** `res.status(code)`. */
  function WithStatus(s: ResponseState, code: int): ResponseState {
    s.(status := code)
  }

  /** `res.end(p)`. */
  function Ended(s: ResponseState, p: Payload): ResponseState {
    s.(finished := true, body := p)
  }

  /** `res.send(p)` (and `res.json(v)` as `res.send(Json(v))`): Express chooses a content
      type when none is set yet, HTML for text and JSON otherwise, then ends the response. */
  function Sent(s: ResponseState, p: Payload): (r: ResponseState)
    ensures r.finished && r.body == p && r.status == s.status
    ensures ContentType in r.headers
    ensures ContentType in s.headers ==> r.headers == s.headers
    ensures forall h :: h != ContentType ==> (h in r.headers <==> h in s.headers)
    ensures forall h :: h != ContentType && h in s.headers ==> r.headers[h] == s.headers[h]
  {
    var t := if p.Text? then HtmlType else JsonType;
    var headers := if ContentType in s.headers then s.headers else s.headers[ContentType := t];
    Ended(s.(headers := headers), p)
  }

  /** The write `modFinalize` performs when the response is still open. */
  datatype Write = EndWith(payload: Payload) | SendJson(value: JsValue)

  /** `modFinalize`'s switch on `typeof result`: a string is written verbatim, an object
      (null included) goes through `res.json`, undefined ends the response empty, and any
      other value is ended with `JSON.stringify(result)`, which is undefined, so an empty
      body, for a function. */
  function FinalWrite(v: JsValue): (w: Write)
    ensures w.SendJson? <==> TypeOf(v) == "object"
    ensures w.SendJson? ==> w.value == v
    ensures w == EndWith(Empty) <==> v.Undef? || v.Fn?
    ensures v.Str? ==> w == EndWith(Text(v.s))
    ensures w.EndWith? && w.payload.Json? ==> w.payload.value == v && (v.Bool? || v.Num?)
    ensures v.Bool? || v.Num? ==> w == EndWith(Json(v))
    ensures w.EndWith? ==> !w.payload.ErrorJson?
  {
    match v
    case Str(s) => EndWith(Text(s))
    case Null => SendJson(v)
    case Arr(_) => SendJson(v)
    case Obj(_) => SendJson(v)
    case Undef => EndWith(Empty)
    case Fn(_) => EndWith(Empty) // JSON.stringify gives undefined; res.end(undefined) writes nothing
    case _ => EndWith(Json(v))
  }

  function Apply(s: ResponseState, w: Write): ResponseState {
    match w
    case EndWith(p) => Ended(s, p)
    case SendJson(v) => Sent(s, Json(v))
  }

  /** The response after `modFinalize(v, res, end)`: untouched if it was already ended,
      otherwise ended once with the write chosen for `v`, its status kept. */
  function Finalized(s: ResponseState, v: JsValue): (r: ResponseState)
    ensures r.finished && r.status == s.status
    ensures s.finished ==> r == s
    ensures !s.finished ==> r.body == (match FinalWrite(v)
                                       case EndWith(p) => p
                                       case SendJson(x) => Json(x))
    ensures !s.finished && TypeOf(v) != "object" ==> r.headers == s.headers
  {
    if s.finished then s else Apply(s, FinalWrite(v))
  }

  /** The response object Express passes to the route; each method is one Express call. */
  class Response {
    var finished: bool
    var status: int
    var headers: map<string, string>
    var body: Payload

    function State(): ResponseState
      reads this
    {
      ResponseState(finished, status, headers, body)
    }

    constructor ()
      ensures State() == Initial
    {
      finished, status, headers, body := false, 200, map[], Empty;
    }

    /** Setting a header on an ended response throws in Express; the pipeline never does. */
    method Header(name: string, value: string)
      requires !finished
      modifies this
      ensures State() == WithHeader(old(State()), name, value)
    {
      headers := headers[name := value];
    }

    method Status(code: int)
      modifies this
      ensures State() == WithStatus(old(State()), code)
    {
      status := code;
    }

    method End(p: Payload)
      requires !finished
      modifies this
      ensures State() == Ended(old(State()), p)
    {
      finished, body := true, p;
    }

    method Send(p: Payload)
      requires !finished
      modifies this
      ensures State() == Sent(old(State()), p)
    {
      if ContentType !in headers {
        headers := headers[ContentType := if p.Text? then HtmlType else JsonType];
      }
      End(p);
    }
  }
}
