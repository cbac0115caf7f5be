/** The `App` class: the fields its constructor assigns, and the per-request methods that
    update the instruments and the response step by step. Each method is proved against
    the functions of Engine that say what the request comes to. */
module Application {
  import opened JsValues
  import opened Events
  import opened Replies
  import opened Telemetry
  import opened Engine
  import Resolver

  class App {
    const params: Params
    const dependencies: seq<string>
    const metrics: Metrics
    /** `Buffer.toString("utf-8")`. */
    const decode: seq<byte> -> string
    /** `JSON.parse`. */
    const parse: string -> Result<JsValue>
    /** Set by `process.exit(1)`; no request is served afterwards. */
    var exited: bool

    ghost predicate Valid()
      reads this, metrics
    {
      Balanced(metrics.Snapshot(), exited)
    }

    /** `manifest` is what reading and parsing the manifest gave. */
    constructor (params: Params, manifest: Result<JsValue>,
                 decode: seq<byte> -> string, parse: string -> Result<JsValue>)
      ensures this.params == params && this.decode == decode && this.parse == parse
      ensures dependencies == Resolver.Dependencies(manifest)
      ensures fresh(metrics) && metrics.Snapshot() == Zero
      ensures !exited && Valid()
    {
      this.params := params;
      this.dependencies := Resolver.Dependencies(manifest);
      this.metrics := new Metrics();
      this.decode := decode;
      this.parse := parse;
      this.exited := false;
    }

    /** `handleError`: one failure under `l`, status 500 with a generic body, and the
        request's timer stopped. */
    method HandleError(l: Label, res: Response, end: Timer)
      requires !res.finished
      modifies metrics, res
      ensures metrics.Snapshot() ==
              old(metrics.Snapshot()).(errors := Bump(old(metrics.errors), l),
                                       observed := Bump(old(metrics.observed), end.series))
      ensures res.State() == FailureReply(old(res.State()))
    {
      metrics.IncErrors(l);
      res.Status(500);
      res.Send(Text(FailureText));
      metrics.EndTimer(end);
    }

    /** `modFinalize`: write the result unless the response was already ended, then stop
        the timer. */
    method Finalize(result: JsValue, res: Response, end: Timer)
      modifies metrics, res
      ensures metrics.Snapshot() == old(metrics.Snapshot()).(observed := Bump(old(metrics.observed), end.series))
      ensures res.State() == Finalized(old(res.State()), result)
    {
      if !res.finished {
        var kind := TypeOf(result);
        if kind == "string" {
          res.End(Text(result.s));
        } else if kind == "object" {
          res.Send(Json(result));
        } else if kind == "undefined" {
          res.End(Empty);
        } else {
          res.End(if result.Fn? then Empty else Json(result));
        }
      }
      metrics.EndTimer(end);
    }

    /** `modExecute`: pick the handler, build the event and the context, call the handler
        and route its outcome. An exception escaping the method is returned in `thrown`. */
    method ModExecute(handler: JsValue, req: Request, res: Response, end: Timer,
                      call: (JsValue, Event, Context) -> CallResult)
      returns (thrown: Option<JsError>)
      requires !res.finished
      modifies metrics, res
      ensures var x := Execute(params, decode, parse, req, handler, call);
        && thrown == (if x.Throw? then Some(x.error) else None)
        && res.State() == ExecReply(old(res.State()), x)
        && metrics.Snapshot() ==
           ExecAccount(old(metrics.Snapshot()), x, Named(FuncLabel(params.moduleName, req.httpMethod)), end)
    {
      var func := PickHandler(handler, params.handler);
      if func.None? {
        return Some(UnableToLoad(handler));
      }
      var series := Named(FuncLabel(params.moduleName, req.httpMethod));
      var data := EventData(req, decode, parse);
      if data.Err? {
        HandleError(series, res, end);
        return None;
      }
      var event := MakeEvent(req, data.value);
      var context := MakeContext(params);
      if !func.value.Fn? {
        HandleError(series, res, end);
        return None;
      }
      match call(func.value, event, context) {
        case Returned(v, own) =>
          if own.Some? {
            res.Status(own.value.status);
            res.End(own.value.body);
          }
          Finalize(v, res, end);
        case Rejected(_) =>
          HandleError(series, res, end);
        case Threw(_) =>
          HandleError(series, res, end);
        case TimedOut =>
          return Some(TimeoutError(params.timeout));
      }
      return None;
    }

    /** The bootstrap script: its first `require` is answered by `modRequire` with the
        execute binding, whatever the dependencies declare; the binding is then applied to
        what loading the module gave. */
    method RunScript(req: Request, res: Response, end: Timer, host: Host)
      returns (thrown: Option<JsError>)
      requires !res.finished
      modifies metrics, res
      ensures var x := Engine.RunScript(params, decode, parse, req, host);
        && thrown == (if x.Throw? then Some(x.error) else None)
        && res.State() == ExecReply(old(res.State()), x)
        && metrics.Snapshot() ==
           ExecAccount(old(metrics.Snapshot()), x, Named(FuncLabel(params.moduleName, req.httpMethod)), end)
    {
      var binding := Resolver.Resolve(dependencies, Resolver.ReservedBinding);
      assert binding.ExecuteBinding?;
      match host.load {
        case LoadThrew(e) =>
          thrown := Some(e);
        case LoadTimedOut =>
          thrown := Some(TimeoutError(params.timeout));
        case Loaded(exports) =>
          thrown := ModExecute(exports, req, res, end, host.call);
      }
    }

    /** An invocation on the catch-all route: count the call under the request's label,
        start its timer, run the script, and handle what escapes it — 408 and exit for a
        timeout, `handleError` under the function-valued label otherwise. */
    method Invoke(req: Request, host: Host, res: Response)
      requires req.httpMethod != "OPTIONS" && !exited
      requires res.State() == Opened()
      modifies this, metrics, res
      ensures var s := Settle(params, decode, parse, req, host);
        && res.State() == ReplyOf(s, req)
        && metrics.Snapshot() == Account(old(metrics.Snapshot()), s, FuncLabel(params.moduleName, req.httpMethod))
        && exited == s.Fatal?
    {
      var series := Named(FuncLabel(params.moduleName, req.httpMethod));
      var end := metrics.StartTimer(series);
      metrics.IncCalls(series);
      var thrown := RunScript(req, res, end, host);
      if thrown.Some? {
        if IsTimeout(thrown.value) {
          res.Status(408);
          res.Send(ErrorJson(thrown.value));
          exited := true;
        } else {
          HandleError(LabelFunction, res, end);
        }
      }
    }

    /** The catch-all route: every response allows any origin; an OPTIONS request is
        answered as a preflight and any other is an invocation. */
    method Route(req: Request, host: Host) returns (res: Response)
      requires Valid() && !exited
      modifies this, metrics
      ensures fresh(res) && Valid()
      ensures var s := Settle(params, decode, parse, req, host);
        && res.State() == ReplyOf(s, req)
        && metrics.Snapshot() == Account(old(metrics.Snapshot()), s, FuncLabel(params.moduleName, req.httpMethod))
        && exited == s.Fatal?
    {
      res := new Response();
      res.Header(AllowOrigin, "*");
      if req.httpMethod == "OPTIONS" {
        res.Header(AllowMethods, Echo(req, "access-control-request-method"));
        res.Header(AllowHeaders, Echo(req, "access-control-request-headers"));
        res.End(Empty);
      } else {
        Invoke(req, host, res);
      }
      AccountKeepsBalance(old(metrics.Snapshot()), Settle(params, decode, parse, req, host),
                          FuncLabel(params.moduleName, req.httpMethod));
    }
  }
}
