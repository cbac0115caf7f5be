/** What one request on the catch-all route comes to, as a function of the request, the
    parameters and what the foreign parts (the module loader, the user's handler) did:
    the handler pick and the try block of `modExecute`, the bootstrap script, the route's
    catch block, and the response and instrument updates each terminal branch makes. */
module Engine {
  import opened JsValues
  import opened Events
  import opened Replies
  import opened Telemetry

  /** The text the route's catch block looks for (a regular expression without
      metacharacters, so a substring test). */
  const TimeoutPattern: string := "Error: Script execution timed out"

  /** The error the vm module raises when the script outlives its budget of
      `timeout * 1000` milliseconds. */
  function TimeoutError(timeoutSeconds: int): JsError {
    JsError("Error: Script execution timed out after " + IntToString(timeoutSeconds * 1000) + "ms")
  }

  /** The error `modExecute` throws when the module handed over no handler. */
  function UnableToLoad(handler: JsValue): JsError {
    JsError("Error: Unable to load " + ToJsString(handler))
  }

  /** `err.toString().match("Error: Script execution timed out")`. */
  predicate IsTimeout(e: JsError): (r: bool)
    ensures r <==> exists j :: OccursAt(e.text, TimeoutPattern, j)
  {
    IndexOf(e.text, TimeoutPattern) >= 0
  }

  /** Every timeout the vm module raises is recognised as one. */
  lemma TimeoutErrorsAreRecognised(timeoutSeconds: int)
    ensures IsTimeout(TimeoutError(timeoutSeconds))
  {
    var text := TimeoutError(timeoutSeconds).text;
    assert text[..|TimeoutPattern|] == TimeoutPattern;
    assert OccursAt(text, TimeoutPattern, 0);
  }

  /** The two errors `modExecute` lets escape are never confused with each other. */
  lemma TimeoutIsNotUnableToLoad(timeoutSeconds: int, handler: JsValue)
    ensures TimeoutError(timeoutSeconds) != UnableToLoad(handler)
  {
    assert TimeoutError(timeoutSeconds).text[7] == 'S';
    assert UnableToLoad(handler).text[7] == 'U';
  }

  /** A response the handler wrote itself through the response handle in the event. */
  datatype OwnWrite = OwnWrite(status: int, body: Payload)

  /** What calling the handler did: it settled with a value (returned it, or returned a
      promise that resolved to it), returned a promise that was rejected, threw, or ran
      past the time budget. */
  datatype CallResult =
    | Returned(value: JsValue, own: Option<OwnWrite>)
    | Rejected(reason: JsError)
    | Threw(error: JsError)
    | TimedOut

  /** What `require(<module path>)` did in the bootstrap script. */
  datatype LoadResult = Loaded(exports: JsValue) | LoadThrew(error: JsError) | LoadTimedOut

  /** The foreign behaviour behind one request: the module load, and the user's handler
      as a function of the callable picked, the event and the context. */
  datatype Host = Host(load: LoadResult, call: (JsValue, Event, Context) -> CallResult)

  /** The value `modExecute` leaves in `func`; `None` stands for null. A function is used
      as it is; a non-null object gives its property named after the configured handler
      (which may be undefined or a non-callable); anything else leaves null. */
  function PickHandler(handler: JsValue, name: string): (func: Option<JsValue>)
    ensures handler.Fn? ==> func == Some(handler)
    ensures handler.Arr? || handler.Obj? ==> (func.None? <==> Get(handler, name).Null?)
    ensures func.Some? && !handler.Fn? ==> func.value == Get(handler, name)
    ensures !(handler.Fn? || handler.Arr? || handler.Obj?) ==> func.None?
  {
    var t := TypeOf(handler);
    if t == "function" then Some(handler)
    else if t == "object" && Truthy(handler) then
      var f := Get(handler, name);
      if f.Null? then None else Some(f)
    else None
  }

  /** The (event, context) pair, or the error building `event.data` threw. */
  function HandlerArguments(p: Params, decode: seq<byte> -> string,
                            parse: string -> Result<JsValue>, req: Request): Result<(Event, Context)>
  {
    match EventData(req, decode, parse)
    case Err(e) => Err(e)
    case Ok(data) => Ok((MakeEvent(req, data), MakeContext(p)))
  }

  /** The handler's context depends only on the parameters, never on the request. */
  lemma ContextIgnoresRequest(p: Params, decode: seq<byte> -> string,
                              parse: string -> Result<JsValue>, req1: Request, req2: Request)
    requires HandlerArguments(p, decode, parse, req1).Ok?
    requires HandlerArguments(p, decode, parse, req2).Ok?
    ensures HandlerArguments(p, decode, parse, req1).value.1 ==
            HandlerArguments(p, decode, parse, req2).value.1 ==
            Context(p.handler, p.timeout, p.runtime, p.memoryLimit)
  {
  }

  /** The event copies the four event headers and carries the data and the request. */
  lemma EventFromRequest(p: Params, decode: seq<byte> -> string,
                         parse: string -> Result<JsValue>, req: Request)
    requires HandlerArguments(p, decode, parse, req).Ok?
    ensures var e := HandlerArguments(p, decode, parse, req).value.0;
      && e.eventType == Header(req, "event-type") && e.eventId == Header(req, "event-id")
      && e.eventTime == Header(req, "event-time")
      && e.eventNamespace == Header(req, "event-namespace")
      && EventData(req, decode, parse) == Ok(e.data) && e.request == req
  {
  }

  /** How `modExecute` ends: the result reaches `modFinalize`, `handleError` runs with the
      request's label, or an exception escapes to the bootstrap script. */
  datatype Exec = Finish(value: JsValue, own: Option<OwnWrite>) | Fail | Throw(error: JsError)

  function Execute(p: Params, decode: seq<byte> -> string, parse: string -> Result<JsValue>,
                   req: Request, handler: JsValue, call: (JsValue, Event, Context) -> CallResult)
    : (x: Exec)
    ensures PickHandler(handler, p.handler).None? <==> x == Throw(UnableToLoad(handler))
    ensures x.Throw? ==> x.error == UnableToLoad(handler) || x.error == TimeoutError(p.timeout)
    ensures PickHandler(handler, p.handler).Some? && HandlerArguments(p, decode, parse, req).Err? ==>
              x == Fail
    ensures x.Finish? ==>
              && PickHandler(handler, p.handler).Some? && PickHandler(handler, p.handler).value.Fn?
              && HandlerArguments(p, decode, parse, req).Ok?
              && call(PickHandler(handler, p.handler).value,
                      HandlerArguments(p, decode, parse, req).value.0,
                      HandlerArguments(p, decode, parse, req).value.1) == Returned(x.value, x.own)
    ensures PickHandler(handler, p.handler).Some? && !PickHandler(handler, p.handler).value.Fn? ==>
              x == Fail
    ensures PickHandler(handler, p.handler).Some? && PickHandler(handler, p.handler).value.Fn? &&
            HandlerArguments(p, decode, parse, req).Ok? ==>
              var args := HandlerArguments(p, decode, parse, req).value;
              var r := call(PickHandler(handler, p.handler).value, args.0, args.1);
              && (r.Returned? ==> x == Finish(r.value, r.own))
              && (r.Threw? || r.Rejected? ==> x == Fail)
              && (r.TimedOut? ==> x == Throw(TimeoutError(p.timeout)))
  {
    match PickHandler(handler, p.handler)
    case None => Throw(UnableToLoad(handler))
    case Some(func) =>
      match HandlerArguments(p, decode, parse, req)
      case Err(_) => Fail
      case Ok(args) =>
        if !func.Fn? then Fail // calling a non-callable throws a TypeError inside the try block
        else match call(func, args.0, args.1)
          case Returned(v, own) => Finish(v, own)
          case Rejected(_) => Fail
          case Threw(_) => Fail
          case TimedOut =>
            TimeoutIsNotUnableToLoad(p.timeout, handler);
            Throw(TimeoutError(p.timeout))
  }

  /** The script `require("kubeless")(require(<module path>))`: the first require yields
      the execute binding, the second loads the module, then the binding runs `modExecute`
      on what it exported. Only three kinds of error escape it: what loading threw, the
      vm timeout, and "Unable to load". */
  function RunScript(p: Params, decode: seq<byte> -> string, parse: string -> Result<JsValue>,
                     req: Request, host: Host): (x: Exec)
    ensures x.Throw? ==>
              || host.load == LoadThrew(x.error)
              || x.error == TimeoutError(p.timeout)
              || (host.load.Loaded? && x.error == UnableToLoad(host.load.exports))
    ensures host.load.Loaded? ==> x == Execute(p, decode, parse, req, host.load.exports, host.call)
    ensures host.load.LoadThrew? ==> x == Throw(host.load.error)
    ensures host.load.LoadTimedOut? ==> x == Throw(TimeoutError(p.timeout))
  {
    match host.load
    case LoadThrew(e) => Throw(e)
    case LoadTimedOut => Throw(TimeoutError(p.timeout))
    case Loaded(exports) => Execute(p, decode, parse, req, exports, host.call)
  }

  /** The terminal branch a request reaches. `Answered` went through `modFinalize`;
      `Failed` through `handleError` with the given label; `Fatal` answered 408 and ended
      the process. */
  datatype Settlement =
    | Preflight
    | Answered(value: JsValue, own: Option<OwnWrite>)
    | Failed(series: Label)
    | Fatal(error: JsError)

  function Settle(p: Params, decode: seq<byte> -> string, parse: string -> Result<JsValue>,
                  req: Request, host: Host): (s: Settlement)
    ensures s.Fatal? ==> IsTimeout(s.error) && RunScript(p, decode, parse, req, host) == Throw(s.error)
    ensures s.Answered? ==> RunScript(p, decode, parse, req, host) == Finish(s.value, s.own)
    ensures s.Failed? && s.series.Named? ==> s.series == Named(FuncLabel(p.moduleName, req.httpMethod))
    ensures s == Failed(LabelFunction) <==>
              && req.httpMethod != "OPTIONS" && RunScript(p, decode, parse, req, host).Throw?
              && !IsTimeout(RunScript(p, decode, parse, req, host).error)
    ensures req.httpMethod != "OPTIONS" ==>
              match RunScript(p, decode, parse, req, host)
              case Finish(v, own) => s == Answered(v, own)
              case Fail => s == Failed(Named(FuncLabel(p.moduleName, req.httpMethod)))
              case Throw(e) => IsTimeout(e) ==> s == Fatal(e)
  {
    if req.httpMethod == "OPTIONS" then Preflight
    else match RunScript(p, decode, parse, req, host)
      case Finish(v, own) => Answered(v, own)
      case Fail => Failed(Named(FuncLabel(p.moduleName, req.httpMethod)))
      case Throw(e) => if IsTimeout(e) then Fatal(e) else Failed(LabelFunction)
  }

  // ---------------------------------------------------------------------------
  // Responses.

  const AllowOrigin: string := "access-control-allow-origin"
  const AllowMethods: string := "access-control-allow-methods"
  const AllowHeaders: string := "access-control-allow-headers"
  const FailureText: string := "Internal Server Error"

  /** `res.header(name, req.headers[h])`: Express writes `String(value)`, so a header the
      request lacks is echoed as "undefined". */
  function Echo(req: Request, h: string): string {
    if h in req.headers then req.headers[h] else "undefined"
  }

  /** Every response of the catch-all route allows any origin. */
  function Opened(): ResponseState {
    WithHeader(Initial, AllowOrigin, "*")
  }

  function OwnWritten(s: ResponseState, own: Option<OwnWrite>): ResponseState {
    match own
    case None => s
    case Some(w) => Ended(WithStatus(s, w.status), w.body)
  }

  /** `handleError`'s `res.status(500).send("Internal Server Error")`. */
  function FailureReply(s: ResponseState): (r: ResponseState)
    ensures r.finished && r.status == 500 && r.body == Text(FailureText)
    ensures ContentType !in s.headers ==> r.headers == s.headers[ContentType := HtmlType]
    ensures ContentType in s.headers ==> r.headers == s.headers
  {
    Sent(WithStatus(s, 500), Text(FailureText))
  }

  /** The response after `modExecute` ended as `x`. */
  function ExecReply(s: ResponseState, x: Exec): ResponseState {
    match x
    case Finish(v, own) => Finalized(OwnWritten(s, own), v)
    case Fail => FailureReply(s)
    case Throw(_) => s
  }

  /** The response the route leaves behind. */
  function ReplyOf(s: Settlement, req: Request): (r: ResponseState)
    ensures r.finished && AllowOrigin in r.headers && r.headers[AllowOrigin] == "*"
    ensures s.Failed? ==> r.status == 500 && r.body == Text(FailureText)
    ensures s.Fatal? ==> r.status == 408 && r.body == ErrorJson(s.error)
    ensures s.Answered? && s.own.None? ==> r.status == 200
  {
    match s
    case Preflight =>
      Ended(WithHeader(WithHeader(Opened(), AllowMethods, Echo(req, "access-control-request-method")),
                       AllowHeaders, Echo(req, "access-control-request-headers")), Empty)
    case Answered(v, own) => Finalized(OwnWritten(Opened(), own), v)
    case Failed(_) => FailureReply(Opened())
    case Fatal(e) => Sent(WithStatus(Opened(), 408), ErrorJson(e))
  }

  // ---------------------------------------------------------------------------
  // Instruments.

  /** The instruments after `modExecute` ended as `x`, with `l` the request's label and
      `end` its timer. */
  function ExecAccount(t: Tally, x: Exec, l: Label, end: Timer): Tally {
    match x
    case Finish(_, _) => t.(observed := Bump(t.observed, end.series))
    case Fail => t.(errors := Bump(t.errors, l), observed := Bump(t.observed, end.series))
    case Throw(_) => t
  }

  /** The instruments after a request whose label is `name` settled as `s`. */
  function Account(t: Tally, s: Settlement, name: string): (r: Tally)
    ensures forall l :: Count(r.calls, l) >= Count(t.calls, l) && Count(r.errors, l) >= Count(t.errors, l)
                     && Count(r.observed, l) >= Count(t.observed, l)
    ensures forall l :: Count(r.calls, l) - Count(t.calls, l) == Count(r.started, l) - Count(t.started, l)
    ensures forall l :: Count(r.observed, l) - Count(t.observed, l) <= Count(r.calls, l) - Count(t.calls, l)
  {
    var n := Named(name);
    match s
    case Preflight => t
    case Answered(_, _) =>
      t.(calls := Bump(t.calls, n), started := Bump(t.started, n), observed := Bump(t.observed, n))
    case Failed(l) =>
      t.(calls := Bump(t.calls, n), started := Bump(t.started, n), observed := Bump(t.observed, n),
         errors := Bump(t.errors, l))
    case Fatal(_) => t.(calls := Bump(t.calls, n), started := Bump(t.started, n))
  }

  /** The accounting invariant: every started timer was counted as a call; once no request
      is in flight every timer has been stopped; no label has more failures than calls. */
  ghost predicate Balanced(t: Tally, exited: bool) {
    && t.calls == t.started
    && (!exited ==> t.observed == t.started)
    && forall s :: Count(t.errors, Named(s)) <= Count(t.calls, Named(s))
  }

  // ---------------------------------------------------------------------------
  // Properties of the route.

  /** Only OPTIONS requests are answered as preflights, and a preflight leaves the
      instruments alone. */
  lemma PreflightExactlyForOptions(p: Params, decode: seq<byte> -> string,
                                   parse: string -> Result<JsValue>, req: Request, host: Host,
                                   t: Tally, name: string)
    ensures Settle(p, decode, parse, req, host).Preflight? <==> req.httpMethod == "OPTIONS"
    ensures Account(t, Preflight, name) == t
  {
  }

  /** The preflight answer: any origin, the requested method and headers echoed back as
      allowed, status 200 and an empty body. */
  lemma PreflightReply(req: Request)
    ensures var r := ReplyOf(Preflight, req);
      && r.finished && r.status == 200 && r.body == Empty
      && r.headers == map[AllowOrigin := "*",
                          AllowMethods := Echo(req, "access-control-request-method"),
                          AllowHeaders := Echo(req, "access-control-request-headers")]
  {
  }

  /** Every request that is not a preflight adds exactly one call under its own label,
      and no other call series changes. */
  lemma CallsCountedOnce(t: Tally, s: Settlement, name: string)
    ensures Count(Account(t, s, name).calls, Named(name)) ==
            Count(t.calls, Named(name)) + (if s.Preflight? then 0 else 1)
    ensures forall l :: l != Named(name) ==> Count(Account(t, s, name).calls, l) == Count(t.calls, l)
  {
  }

  /** The request's timer is stopped exactly once on the finalize and error branches, and
      not at all on the fatal branch, which ends the process instead. */
  lemma TimerStoppedOnceUnlessFatal(t: Tally, s: Settlement, name: string)
    ensures Count(Account(t, s, name).observed, Named(name)) ==
            Count(t.observed, Named(name)) + (if s.Answered? || s.Failed? then 1 else 0)
    ensures forall l :: l != Named(name) ==>
              Count(Account(t, s, name).observed, l) == Count(t.observed, l)
  {
  }

  /** Only the error branch counts a failure, once, under the label it was given. */
  lemma ErrorsOnlyOnFailure(t: Tally, s: Settlement, name: string)
    ensures Account(t, s, name).errors == if s.Failed? then Bump(t.errors, s.series) else t.errors
  {
  }

  /** Settling a request keeps the accounting invariant; only the fatal branch leaves a
      timer running. */
  lemma AccountKeepsBalance(t: Tally, s: Settlement, name: string)
    requires Balanced(t, false)
    requires s.Failed? && s.series.Named? ==> s.series == Named(name)
    ensures Balanced(Account(t, s, name), s.Fatal?)
  {
    var u := Account(t, s, name);
    forall x: string ensures Count(u.errors, Named(x)) <= Count(u.calls, Named(x)) {
      assert Count(t.errors, Named(x)) <= Count(t.calls, Named(x));
    }
  }

  /** A module whose loading runs out of time answers 408 and ends the process. */
  lemma LoadTimeoutIsFatal(p: Params, decode: seq<byte> -> string,
                           parse: string -> Result<JsValue>, req: Request, host: Host)
    requires req.httpMethod != "OPTIONS" && host.load == LoadTimedOut
    ensures Settle(p, decode, parse, req, host) == Fatal(TimeoutError(p.timeout))
    ensures ReplyOf(Settle(p, decode, parse, req, host), req).status == 408
  {
    TimeoutErrorsAreRecognised(p.timeout);
  }

  /** A handler that runs out of time answers 408 and ends the process; no failure is
      counted. */
  lemma CallTimeoutIsFatal(p: Params, decode: seq<byte> -> string,
                           parse: string -> Result<JsValue>, req: Request, host: Host, t: Tally)
    requires req.httpMethod != "OPTIONS" && host.load.Loaded?
    requires PickHandler(host.load.exports, p.handler).Some?
    requires PickHandler(host.load.exports, p.handler).value.Fn?
    requires HandlerArguments(p, decode, parse, req).Ok?
    requires var args := HandlerArguments(p, decode, parse, req).value;
      host.call(PickHandler(host.load.exports, p.handler).value, args.0, args.1) == TimedOut
    ensures Settle(p, decode, parse, req, host) == Fatal(TimeoutError(p.timeout))
    ensures Account(t, Settle(p, decode, parse, req, host),
                    FuncLabel(p.moduleName, req.httpMethod)).errors == t.errors
  {
    TimeoutErrorsAreRecognised(p.timeout);
  }

  /** A JSON body that does not parse is a failure of the request, answered with 500. */
  lemma ParseFailureFailsRequest(p: Params, decode: seq<byte> -> string,
                                 parse: string -> Result<JsValue>, req: Request, host: Host)
    requires req.httpMethod != "OPTIONS" && host.load.Loaded?
    requires PickHandler(host.load.exports, p.handler).Some?
    requires req.isJson && !req.isMultipart && HasContent(req.body)
    requires parse(decode(req.body.bytes)).Err?
    ensures Settle(p, decode, parse, req, host) == Failed(Named(FuncLabel(p.moduleName, req.httpMethod)))
    ensures var r := ReplyOf(Settle(p, decode, parse, req, host), req);
      r.status == 500 && r.body == Text(FailureText)
  {
  }

  /** Errors the handler throws or rejects with are failures under the request's label. */
  lemma HandlerErrorsFailRequest(p: Params, decode: seq<byte> -> string,
                                 parse: string -> Result<JsValue>, req: Request, host: Host)
    requires req.httpMethod != "OPTIONS" && host.load.Loaded?
    requires PickHandler(host.load.exports, p.handler).Some?
    requires PickHandler(host.load.exports, p.handler).value.Fn?
    requires HandlerArguments(p, decode, parse, req).Ok?
    requires var args := HandlerArguments(p, decode, parse, req).value;
      var r := host.call(PickHandler(host.load.exports, p.handler).value, args.0, args.1);
      r.Threw? || r.Rejected?
    ensures Settle(p, decode, parse, req, host) == Failed(Named(FuncLabel(p.moduleName, req.httpMethod)))
  {
  }

  /** A record without the configured handler property yields `func === undefined`, which
      is not null: the call inside the try block throws and the request fails under its
      own label. */
  lemma MissingHandlerPropertyFailsRequest(p: Params, decode: seq<byte> -> string,
                                           parse: string -> Result<JsValue>, req: Request,
                                           host: Host)
    requires req.httpMethod != "OPTIONS" && host.load.Loaded? && host.load.exports.Obj?
    requires Get(host.load.exports, p.handler) == Undef
    requires HandlerArguments(p, decode, parse, req).Ok?
    ensures Settle(p, decode, parse, req, host) == Failed(Named(FuncLabel(p.moduleName, req.httpMethod)))
  {
  }

  /** Any other error escaping the script is counted under the `funcLabel` method object,
      not under the request's label. */
  lemma ScriptErrorUsesFunctionLabel(p: Params, decode: seq<byte> -> string,
                                     parse: string -> Result<JsValue>, req: Request, host: Host,
                                     t: Tally)
    requires req.httpMethod != "OPTIONS" && host.load.LoadThrew? && !IsTimeout(host.load.error)
    ensures Settle(p, decode, parse, req, host) == Failed(LabelFunction)
    ensures var u := Account(t, Settle(p, decode, parse, req, host), FuncLabel(p.moduleName, req.httpMethod));
      && Count(u.errors, LabelFunction) == Count(t.errors, LabelFunction) + 1
      && Count(u.errors, Named(FuncLabel(p.moduleName, req.httpMethod))) ==
         Count(t.errors, Named(FuncLabel(p.moduleName, req.httpMethod)))
  {
  }

  /** A module exporting undefined throws "Unable to load undefined" out of the script:
      a failure under the `funcLabel` method object. */
  lemma UndefinedExportUsesFunctionLabel(p: Params, decode: seq<byte> -> string,
                                         parse: string -> Result<JsValue>, req: Request,
                                         host: Host)
    requires req.httpMethod != "OPTIONS" && host.load == Loaded(Undef)
    ensures Settle(p, decode, parse, req, host) == Failed(LabelFunction)
  {
    ShortTextHasNoMatch(UnableToLoad(Undef).text, TimeoutPattern);
  }

  /** Whenever the export yields no handler (a primitive, null, or a record whose handler
      property is null), "Unable to load" escapes the script. It is a failure under the
      `funcLabel` method object unless its text happens to contain the timeout pattern. */
  lemma UnloadableExportEscapesScript(p: Params, decode: seq<byte> -> string,
                                      parse: string -> Result<JsValue>, req: Request, host: Host)
    requires req.httpMethod != "OPTIONS" && host.load.Loaded?
    requires PickHandler(host.load.exports, p.handler).None?
    ensures RunScript(p, decode, parse, req, host) == Throw(UnableToLoad(host.load.exports))
    ensures Settle(p, decode, parse, req, host) ==
            if IsTimeout(UnableToLoad(host.load.exports)) then Fatal(UnableToLoad(host.load.exports))
            else Failed(LabelFunction)
  {
  }

  /** The catch block tests the error's text, so a module exporting any string that
      contains the timeout text is taken for a timeout: 408 and the process ends. */
  lemma TimeoutLookalikeExportIsFatal(p: Params, decode: seq<byte> -> string,
                                      parse: string -> Result<JsValue>, req: Request, host: Host,
                                      s: string, j: int)
    requires req.httpMethod != "OPTIONS" && host.load == Loaded(Str(s))
    requires OccursAt(s, TimeoutPattern, j)
    ensures Settle(p, decode, parse, req, host).Fatal?
  {
    var text := UnableToLoad(Str(s)).text;
    assert text == "Error: Unable to load " + s;
    assert text[22 + j..22 + j + |TimeoutPattern|] == s[j..j + |TimeoutPattern|];
    assert OccursAt(text, TimeoutPattern, 22 + j);
  }

  /** What the handler's result turns into when it did not write the response itself:
      status 200 in every case, a string verbatim, undefined as an empty body, and an
      object as JSON with a JSON content type. */
  lemma AnsweredReplies(v: JsValue, req: Request)
    ensures var r := ReplyOf(Answered(v, None), req);
      && r.finished && r.status == 200 && r.headers[AllowOrigin] == "*"
      && (v.Str? ==> r.body == Text(v.s))
      && (v.Undef? ==> r.body == Empty)
      && (TypeOf(v) == "object" ==> r.body == Json(v) && r.headers[ContentType] == JsonType)
  {
  }

  /** A handler that returns a value without writing the response itself has that value
      finalized: status 200, any origin, and the body `modFinalize` chooses for it. */
  lemma ReturnedValueIsAnswered(p: Params, decode: seq<byte> -> string,
                                parse: string -> Result<JsValue>, req: Request, host: Host,
                                v: JsValue)
    requires req.httpMethod != "OPTIONS" && host.load.Loaded?
    requires PickHandler(host.load.exports, p.handler).Some?
    requires PickHandler(host.load.exports, p.handler).value.Fn?
    requires HandlerArguments(p, decode, parse, req).Ok?
    requires var args := HandlerArguments(p, decode, parse, req).value;
      host.call(PickHandler(host.load.exports, p.handler).value, args.0, args.1) == Returned(v, None)
    ensures Settle(p, decode, parse, req, host) == Answered(v, None)
    ensures var r := ReplyOf(Settle(p, decode, parse, req, host), req);
      && r.finished && r.status == 200
      && r.body == (match FinalWrite(v) case EndWith(b) => b case SendJson(x) => Json(x))
  {
  }

  /** A handler that ended the response itself keeps its own status and body:
      `modFinalize` writes nothing more. */
  lemma OwnWriteIsKept(v: JsValue, w: OwnWrite, req: Request)
    ensures ReplyOf(Answered(v, Some(w)), req) == Ended(WithStatus(Opened(), w.status), w.body)
  {
  }
}
