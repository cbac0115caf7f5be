# kubeless Node.js runtime: the invocation core

This project models the request pipeline of the kubeless Node.js runtime's `App` class
(`src/app.ts`). For each request a two-line bootstrap script runs in a new vm context
(`src/app.ts:203-216`). Its `require` calls go to `modRequire` (`src/app.ts:207`).
- The first call, `require("kubeless")`, returns the binding that runs `modExecute`.
- The second, `require(<module path>)`, falls through to the last rule (the path is
  absolute and normally undeclared). That rule calls Node's own `require`
  (`src/app.ts:177`), which evaluates the function's module in the host's context and
  caches it across requests. The per-request `Host.load` value stands for what that call
  gave, whether from a fresh load or from the cache.

The handler the module exports is called with an (event, context) pair built from the HTTP
request, and its result becomes the HTTP response.
Three Prometheus instruments count each invocation: a duration histogram, a calls counter and
an errors counter.

The model has seven modules:

- `JsValues`: the JavaScript values the pipeline inspects. It models `typeof`, truthiness,
  own-property reads, `Object.getOwnPropertyNames`, `String(v)` and `indexOf`.
- `Resolver`: `modRequire`'s resolution order and `getDependencies`.
- `Events`: the parameters, the request as the body parsers leave it, and `event.data`,
  the event and the context that `modExecute` builds.
- `Replies`: the response state and the Express writes on it (`header`, `status`, `end`,
  `send`/`json`), a `Response` class holding that state, and `modFinalize`'s switch on
  `typeof`.
- `Telemetry`: `funcLabel` and the three instruments, kept as counts per label in a
  `Metrics` class.
- `Engine`: what one request on the catch-all route comes to, as pure functions.
  - `Execute` is `modExecute`.
  - `RunScript` is the bootstrap script `require("kubeless")(require(<module>))`.
  - `Settle` is the terminal branch the request reaches.
  - `ReplyOf` and `Account` give the response and the instrument updates of that branch.

  The properties of the route are proved about these functions.
- `Application`: the `App` class. Its constructor reads the dependencies. Its methods
  `HandleError`, `Finalize`, `ModExecute`, `RunScript`, `Invoke` and `Route` change the
  response and the instruments step by step, as the source does. Each method's
  postcondition ties the new state to the Engine functions. `Route` also keeps the
  accounting invariant `Balanced`:
  - the call counter equals the number of timers started;
  - while the process lives, every started timer has been stopped;
  - no string label has more failures than calls.

Foreign behaviour enters as parameters:

- `Buffer.toString("utf-8")` is a function `decode` over bytes;
- `JSON.parse` is a function `parse` returning a result;
- reading the manifest file is the `Result` handed to the constructor;
- what loading the user module did is a `Host.load` value;
- what calling the handler did is a `Host.call` function of the callable, the event and
  the context: it returned (possibly after writing its own status and body), rejected,
  threw, or ran out of time.

## Behaviour of the code that the model keeps

- **Timeout reply body.** The timeout reply is not the raw error text. The code calls
  `res.status(408).send(err)` with an Error object (`src/app.ts:219`), which Express
  renders as JSON. The model records the body as `ErrorJson(e)`.
- **Timer on timeout.** On the timeout branch the code calls `process.exit(1)` and never
  calls the timer's `end()` (`src/app.ts:218-223`). So a request's timer is not stopped
  on every outcome.
  - `Engine.TimerStoppedOnceUnlessFatal` and `Engine.Balanced` state this.
  - A timed-out request leaves its timer running, and the process then ends.
- **JSON parse failures.** A JSON body that does not parse makes `JSON.parse` throw inside
  the try block (`src/app.ts:143`), so building the event can fail. The request then ends
  in `handleError` under its own label. `Engine.ParseFailureFailsRequest` states this.
- **Label of script errors.** Errors other than timeouts that escape the script go to
  `handleError` with `this.funcLabel` (`src/app.ts:225`). That is the method object, not
  its result, so those failures are counted under a label different from every request
  label. Examples are a module that throws while loading and "Unable to load …".
  - The model keeps this as `Telemetry.LabelFunction`.
  - `Engine.ScriptErrorUsesFunctionLabel` and `Engine.UnloadableExportEscapesScript`
    state it.
- **A missing handler property.** A record export without the configured handler
  property gives `func === undefined`, which is not `null`, so the "Unable to load" check
  at `src/app.ts:136` does not fire. Calling `undefined` then throws inside the try block,
  and the request fails under its own label. `Engine.MissingHandlerPropertyFailsRequest`
  states this.
- **Timeout detection by text.** The timeout test at `src/app.ts:218` matches the error's
  text, so any error whose text contains "Error: Script execution timed out" is taken for
  a timeout. `Engine.TimeoutLookalikeExportIsFatal` shows this with a string export.
- **Runaway handlers.** A handler that outruns the vm time budget (`src/app.ts:216`) is
  terminated by the vm module. JavaScript code cannot catch that termination, so
  `modExecute`'s try block does not catch it. It reaches the route's catch block as the
  timeout error.
- **Asynchronous results.** The vm budget covers only the synchronous run of the script.
  A promise the handler returns (`src/app.ts:162-166`) is not bounded by it. In the model
  that promise settles within the same request.

## Model

| member | source | states |
|---|---|---|
| JsValues.OwnPropertyNames | src/app.ts:72 | The names listed are exactly the own properties: a record's keys, or an array's index names and "length". |
| JsValues.IndexOf | src/app.ts:176 | The result is -1 exactly when the pattern does not occur; otherwise it is the first position where it occurs. |
| Resolver.Resolve | src/app.ts:173-178 | Rules apply in order:<br>- the execute binding exactly for "kubeless";<br>- the library directory exactly for other declared names;<br>- the host's loader exactly for undeclared names not starting with "./".<br>Every name except "kubeless" is resolved under its own name. |
| Resolver.ReservedBindingWins | src/app.ts:174 | "kubeless" yields the execute binding even when a dependency of that name is declared. |
| Resolver.DeclaredBeforeRelative | src/app.ts:175 | A declared dependency goes to the library directory, even when it starts with "./". |
| Resolver.SiblingExactlyForDotSlash | src/app.ts:176 | A name is resolved next to the module exactly when it is not "kubeless", not declared, and starts with "./". |
| Resolver.ParentPathIsGlobal | src/app.ts:176-177 | An undeclared "../" name is not relative in this sense and goes to the host's loader. |
| Resolver.Dependencies | src/app.ts:68-76 | A read or parse error gives []. A null or undefined manifest gives [] (reading its field throws). Otherwise the list is the own property names of `dependencies` when that field is a non-null object, and [] otherwise. |
| Resolver.ArrayDependencies | src/app.ts:72 | A dependencies array declares its index names and "length", and nothing else. |
| Resolver.DeclaredRecordKeysResolveToLibs | src/app.ts:72 | Every key of a dependencies record other than "kubeless" resolves to the library directory. |
| Events.EventData | src/app.ts:139-147 | Multipart or empty requests: exactly these keep the untouched body.<br>A JSON body: `Parsed` of the parse result when it parses, an error exactly when it does not. Only JSON bodies are parsed.<br>Any other body: the decoded text. |
| Telemetry.FuncLabel | src/app.ts:98-100 | Every request label starts with the module name followed by a dash. |
| Engine.Execute | src/app.ts:126-171 | "Unable to load" escapes exactly when the pick is null. The only other error that escapes is the vm timeout. An unbuildable event or a non-callable pick fails the request. Once the handler is called:<br>- a returned value reaches finalize, and exactly such values do;<br>- a throw or rejection fails the request;<br>- a timeout escapes as the vm timeout error. |
| Engine.TimeoutIsNotUnableToLoad | src/app.ts:137 | The two errors `modExecute` lets escape are distinct. |
| Engine.RunScript | src/app.ts:210-216 | A loaded export is handed to `modExecute`. A load error escapes as it is, and a load timeout as the vm timeout error. Only these and "Unable to load" escape. |
| Engine.Settle | src/app.ts:191-227 | For an invocation:<br>- a finalized result is answered;<br>- a handled failure fails under the request's label;<br>- an escaping timeout-matching error is fatal;<br>- the method-object label is used exactly when a non-timeout error escaped.<br>Conversely, a fatal settlement always carries a timeout-matching escaped error, and an answer what reached finalize. |
| Engine.FailureReply | src/app.ts:104 | Status 500 with "Internal Server Error". The content type is set to HTML only when none was set; headers are otherwise unchanged. |
| Engine.ReplyOf | src/app.ts:191-227 | Every reply of the route is ended and allows any origin. Failures answer 500 with the generic text, timeouts 408 with the error, and answers without an own write 200. |
| Engine.UnloadableExportEscapesScript | src/app.ts:136-137 | Any export whose pick is null throws "Unable to load" out of the script. It settles as a failure under the method-object label, unless its text matches the timeout pattern. |
| Engine.PickHandler | src/app.ts:127-138 | A function is used as it is. A non-null object gives its property named after the handler, and null exactly when that property is null. Any other value gives null. |
| Engine.EventFromRequest | src/app.ts:148-155 | The event copies the four event headers and carries the data and the request. |
| Engine.ContextIgnoresRequest | src/app.ts:156-161 | The context is the handler name, the timeout, the runtime and the memory limit, whatever the request. |
| Engine.IsTimeout | src/app.ts:218 | An error counts as a timeout exactly when "Error: Script execution timed out" occurs somewhere in its text. |
| Engine.Account | src/app.ts:199-227 | Counters only grow. Calls and started timers grow together, and no series gets more observations than calls. Its lemmas add:<br>- `CallsCountedOnce`: one call exactly for each invocation;<br>- `TimerStoppedOnceUnlessFatal`: one observation on finalize and error, none on exit;<br>- `ErrorsOnlyOnFailure`: one failure exactly on the error branch, under its label (including the method-object label of `src/app.ts:225`). |
| Engine.TimeoutErrorsAreRecognised | src/app.ts:216-218 | Every timeout error of the vm module matches the catch block's pattern. |
| Engine.PreflightExactlyForOptions | src/app.ts:193-198 | A request settles as a preflight exactly when its method is OPTIONS, and a preflight changes no instrument. |
| Engine.PreflightReply | src/app.ts:192-197 | A preflight ends with status 200 and an empty body. Its headers are any origin plus the requested method and headers echoed ("undefined" when absent). |
| Engine.CallsCountedOnce | src/app.ts:199-201 | Every request that is not a preflight adds exactly one call under its own label, and no other call series changes. |
| Engine.TimerStoppedOnceUnlessFatal | src/app.ts:102-124 | The request's timer is stopped exactly once on the finalize and error branches, and not on the timeout branch. |
| Engine.ErrorsOnlyOnFailure | src/app.ts:102-107 | Only the error branch counts a failure, once, under the label it was given. |
| Engine.AccountKeepsBalance | src/app.ts:199-227 | Settling a request keeps the accounting invariant; only the timeout branch leaves a timer running. |
| Engine.LoadTimeoutIsFatal | src/app.ts:215-223 | A module whose loading outruns the budget settles as fatal and is answered with 408. |
| Engine.CallTimeoutIsFatal | src/app.ts:215-223 | A handler that outruns the budget settles as fatal, and no failure is counted. |
| Engine.ParseFailureFailsRequest | src/app.ts:139-169 | A JSON body that does not parse fails the request under its own label: 500 with "Internal Server Error". |
| Engine.HandlerErrorsFailRequest | src/app.ts:162-169 | A handler that throws or rejects fails the request under its own label. |
| Engine.MissingHandlerPropertyFailsRequest | src/app.ts:133-169 | A record lacking the handler property fails the request under its own label, not as "Unable to load". |
| Engine.ScriptErrorUsesFunctionLabel | src/app.ts:224-226 | A load error that is not a timeout is counted once under the `funcLabel` method object and never under the request's label. |
| Engine.UndefinedExportUsesFunctionLabel | src/app.ts:136-137 | An undefined export throws "Unable to load undefined", which fails under the `funcLabel` method object. |
| Engine.TimeoutLookalikeExportIsFatal | src/app.ts:218 | Any string export containing the timeout text, at any position, is taken for a timeout and settles as fatal. |
| Engine.AnsweredReplies | src/app.ts:109-124 | An answered request has status 200 and allows any origin. A string becomes the body verbatim, undefined an empty body, and an object JSON with a JSON content type. |
| Engine.ReturnedValueIsAnswered | src/app.ts:162-164 | A handler that returns a value without writing the response itself is answered: finished, status 200, with the body `modFinalize` chooses for the value. |
| Engine.OwnWriteIsKept | src/app.ts:110 | A handler that ended the response itself keeps its own status and body. |
| Replies.FinalWrite | src/app.ts:110-122 | `res.json` is used exactly for typeof "object" (null included). A string is written verbatim. Undefined and functions (for which `JSON.stringify` gives undefined) end with an empty body. Numbers and booleans end with their JSON text. |
| Replies.Finalized | src/app.ts:109-124 | The response is ended with its status kept. An already ended response is left as it was. Otherwise its body is the write chosen for the result, and non-objects leave the headers alone. |
| Telemetry.LabelRoundTrip | src/app.ts:98-100 | The method can be read back from a request's label. |
| Telemetry.LabelSeparatesMethods | src/app.ts:98-100 | Distinct methods of one module are counted under distinct labels. |
| Telemetry.Metrics.IncCalls | src/app.ts:201 | One more call under the label; nothing else changes. |
| Telemetry.Metrics.IncErrors | src/app.ts:103 | One more failure under the label; nothing else changes. |
| Telemetry.Metrics.StartTimer | src/app.ts:200 | Returns a timer bound to the label and records one started timer. |
| Telemetry.Metrics.EndTimer | src/app.ts:106 | One more observation under the timer's label; nothing else changes. |
| Replies.Response.Header | src/app.ts:192 | `res.header`: sets one header; nothing else changes. |
| Replies.Response.Status | src/app.ts:104 | `res.status`: sets the status code; nothing else changes. |
| Replies.Response.End | src/app.ts:112 | `res.end`: ends the response with the given body. |
| Replies.Response.Send | src/app.ts:104 | `res.send`: ends the response with the body, choosing a content type when none is set. |
| Application.App.constructor | src/app.ts:35-43 | The dependency list is `Dependencies` of the manifest. The instruments start empty and the invariant holds. |
| Application.App.HandleError | src/app.ts:102-107 | One failure under the given label, then status 500 with "Internal Server Error", then one observation under the timer's label. |
| Application.App.Finalize | src/app.ts:109-124 | The response becomes `Finalized` of the result, and the timer gets exactly one observation. |
| Application.App.ModExecute | src/app.ts:126-171 | The exception thrown, the response and the instruments are those that `Engine.Execute`'s outcome prescribes. |
| Application.App.RunScript | src/app.ts:173-174 | The script's first `require` is resolved through `Resolver.Resolve` on the app's dependencies, giving the execute binding. Then, as `ModExecute`, the outcome is that of `Engine.RunScript`. |
| Application.App.Invoke | src/app.ts:198-227 | The response, the instruments and the exit flag are `ReplyOf`, `Account` and "fatal" of `Engine.Settle`. |
| Application.App.Route | src/app.ts:191-229 | As `Invoke`, with OPTIONS answered as a preflight; the accounting invariant `Balanced` is kept. |

## Left out

- The Express setup: morgan logging and the body-parser configuration with its size limits
  (`src/app.ts:45-55`). The parsers' decisions are inputs of the model: `Request.body`,
  `isMultipart` and `isJson`.
- `getPaths` (`src/app.ts:57-66`) and the sandbox globals `__filename`, `__dirname` and
  `module`. Paths only feed Node's module loader, which is not part of this model, so
  `Resolution` names the directory rule rather than a joined path.
- The loads that `modRequire` delegates to Node's `require` (library directory, sibling,
  host loader). Their outcome is the `Host.load` input.
- The user module's own `require` calls go to Node's standard `require`, not to
  `modRequire`. `Resolver.Resolve` states what `modRequire` does for any name it is asked.
- `prepareStatistics` (`src/app.ts:78-96`). The instrument names, help texts, histogram
  buckets and measured durations are not modelled; the instruments are counts per label.
- The `/healthz` and `/metrics` routes (`src/app.ts:180-189`) and `start()`
  (`src/app.ts:232-234`). These are network serving and the metrics exposition format.
- Console logging (`src/app.ts:105`, `src/app.ts:222`).
- `process.exit(1)` is modelled as the `exited` flag. Nothing after it is modelled.
- Concurrency and the event loop. A handler's returned promise settles within the same
  `Route` call, and requests are not interleaved.
- Clocks. The vm time budget is an outcome (`TimedOut`, `LoadTimedOut`) supplied by the
  host.
- Errors thrown by `modFinalize` itself, such as `res.json` on a circular value, which
  would reach the `.catch` at `src/app.ts:166`.
- Header writes by the handler through `event.extensions.response`. A handler's own
  write is a status and a body, and only on a normal return.
- Application.App.Route: `Balanced`'s "while the process lives, every started timer has
  been stopped" holds only because every handler's returned promise settles. In the
  source, a promise that never settles gets no reply and its timer is never stopped
  (`src/app.ts:162-166`); the vm budget does not cover it.
- Application.App.Route: the accounting invariant `Balanced` and "a timeout is fatal"
  are proved only for handlers that write the response themselves solely on a normal
  return. Suppose a handler ends the response itself and then throws, rejects or times
  out.
  - `res.send` inside `handleError` (`src/app.ts:104`) throws "headers already sent"
    after the failure was counted, so the timer is never stopped.
  - A synchronous throw then escapes the script, and a second failure is counted under
    the method-object label (`src/app.ts:225`).
  - A rejection becomes an unhandled rejection.
  - On the timeout branch, `send(err)` throws before `process.exit(1)`
    (`src/app.ts:219-223`).

  The same two properties also rely on every thrown or rejected reason being a real error
  value (`JsError` cannot be null or undefined). Suppose a handler calls `reject()` or
  throws `undefined` or `null`.
  - `handleError` counts the failure and sends the 500, then `err.stack`
    (`src/app.ts:105`) throws, so `end()` (`src/app.ts:106`) never runs.
  - For a rejection, that TypeError becomes an unhandled rejection.
  - For a synchronous throw, it escapes the script. `src/app.ts:225` counts a second
    failure under the method-object label, and its `res.send` throws "headers already
    sent".
  - A module that throws null or undefined while loading makes `err.toString()`
    (`src/app.ts:218`) throw, so nothing is counted and no timer is stopped.
- Writes after the response has ended are excluded by preconditions, since Express throws
  on them. An example is a rejection after the handler ended the response itself.
- Numbers are integers. Floating point, NaN, fractional timeouts, symbols and big
  integers are not modelled.
- Property reads see own properties only, never the prototype chain. `String(v)` of a
  record is "[object Object]", so a user-defined `toString` is not modelled.
- Thrown values are modelled by their text, as Error objects. A non-Error value whose
  text contains the timeout pattern would be sent by Express as text rather than as JSON.
- The `Json` and `ErrorJson` payloads stand for the text Express writes; the JSON
  serialiser itself is not modelled.
- The vm module's own checks on the timeout value are not modelled.
- Express behaviour beyond status, body and the content type:
  - the `ETag` and `Content-Length` headers that `res.send` adds;
  - the 304 with an empty body that `res.send` gives a GET whose `If-None-Match`
    matches, which object results can reach through `res.json`;
  - the `X-Powered-By` header Express adds;
  - HEAD requests, which `express.all("*")` also serves. For them `res.send` ends the
    response without a body, so the `Text(FailureText)` of `FailureReply` and the
    `Json(v)` of `Finalized` are not sent;
  - the charset `res.send` appends to an existing string content type that lacks one.
    `Replies.Sent` keeps such a header unchanged; no path of the pipeline sets one
    before `send`.
