# graphql-http-lambda in Dafny

A model of the adapter that turns an HTTP-style serverless event into a call
of a GraphQL engine and turns the engine's outcome back into an HTTP-style
response, with proofs of the behaviour its code and tests promise.

- `js.dfy` (module `Js`): JavaScript values (`JsVal`) and the pieces of
  JavaScript semantics the adapter relies on: truthiness, `a || b`,
  `v && v[key]`, destructuring defaults (taken only for `undefined`),
  property reads and `String(v)`.
- `http_error.dfy` (module `HttpErrors`): the `HttpError` class as a value,
  its constructor `NewHttpError`, the other thrown values (`Exn`) and
  `Outcome<T>`, which stands for a call that returns or throws (an async call
  that resolves or rejects).
- `required_param.dfy` (module `RequiredParam`): the error a missing required
  option raises, `<name> is required`.
- `get_graphql_response.dfy` (module `GraphqlResponse`): the normaliser and
  the mapper. The validators and extractors are functions returning an
  `Outcome`. `Respond` specifies one call of `getGraphqlResponse`: how it
  settles, the engine call it makes and the value it logs.
  `GetGraphqlResponse` and `Attempt` are the step-by-step method. They
  reassign `query`, `operation` and `variables` as the source does, call the
  engine object and log through the logger object, and they are proved equal
  to `Respond`. The lemmas state the response for every branch.
- `graphql_lambda.dfy` (module `GraphqlLambda`): the handler composition.
  `GraphqlHandler` is a class holding the shared context. `Invoke` writes
  `request` into that context, delegates with the merged fields and reports
  through a callback object that records its calls.

Collaborators:
- The GraphQL engine (`Engine`) and the delegated `getGraphqlResponse`
  (`Delegate`) are objects that record every call they get. Each answers a
  call with a fixed outcome function.
- `buildSchema`, `JSON.parse` and `JSON.stringify` are function-valued
  parameters.
- The logger (`Logger`) and the platform callback (`Callback`) record their calls.

Three behaviours of the code that are easy to miss:
- Query-string values fill a JSON-body field only when that field is
  `undefined`, not whenever the body lacks a value for it. A body of `null` or `""` puts
  that value in every field, so a query-string query is then ignored and the
  request is a 400 (`NullBodyHidesQueryStringQuery`).
- Query-string `variables` are parsed only when truthy, not whenever present.
- A missing `schema` rejects the promise instead of producing a response. Its
  default is evaluated with the parameters, outside the `try`.

## Model

| member | source | states |
|---|---|---|
| `HttpErrors.NewHttpError` | src/utils/http-error.js:2-7 | `null` throws a TypeError. Any other argument that is not an object (undefined included) gives undefined fields and an empty message. For an object, `body`, `headers` and `statusCode` are exactly the argument's (undefined when left out). In every case `name` is `HttpError` and `message` is empty for an undefined body and `String(body)` otherwise |
| `HttpErrors.ConstructedFromBody` | src/utils/http-error.js:2-7 | built from `{statusCode, headers, body: text}`, the error has exactly those fields, and both `body` and the inherited message equal the text |
| `GraphqlResponse.CreateGetGraphqlResponse` | src/graphql-response/get-graphql-response.js:4-7 | no argument is a TypeError. A missing `graphql` fails with `options.graphql is required`, checked before `buildSchema`. A missing `buildSchema` fails with `options.buildSchema is required`. Otherwise the responder holds exactly the two options |
| `GraphqlResponse.RequestError` | src/graphql-response/get-graphql-response.js:78-81 | the raised error carries the status, the headers (undefined when not passed) and the text, as body and as message |
| `GraphqlResponse.RequestErrorAsWritten` | src/graphql-response/get-graphql-response.js:87-90 | built as the call sites write it (text under `message`), the error keeps status and headers but its body is undefined and its message empty |
| `GraphqlResponse.ValidateMethod` | src/graphql-response/get-graphql-response.js:72-83 | passes exactly `GET` and `POST`. Anything else throws the 405 with headers `[{Accept: 'GET, POST'}]` and the literal text |
| `GraphqlResponse.ValidateQuery` | src/graphql-response/get-graphql-response.js:85-92 | passes exactly a truthy query. Otherwise it throws the 400 `Bad Request. Request must contain a GaphQL Query` |
| `GraphqlResponse.ParseVariables` | src/graphql-response/get-graphql-response.js:100-112 | a falsy value is returned unparsed. A truthy one gives the parse result. A SyntaxError becomes the literal 400, and any other throw is rethrown unchanged |
| `GraphqlResponse.GetGraphqlFromQueryString` | src/graphql-response/get-graphql-response.js:94-98 | absent parameters give three undefined fields. Otherwise `query`/`operation` are the parameters, `variables` is what ParseVariables decodes, and its throw is the only failure |
| `GraphqlResponse.GetGraphqlFromJsonBody` | src/graphql-response/get-graphql-response.js:114-131 | a falsy body is not parsed and fills every field with itself. A truthy body that parses gives its three guarded fields. A SyntaxError becomes the literal 400 and any other throw goes through |
| `GraphqlResponse.Extract` | src/graphql-response/get-graphql-response.js:21-35 | the definition of the fields the try block extracts, against which Normalize and the lemmas below are stated. It succeeds only for GET or POST, a rejected method reaches it as the 405 unchanged, and with the GraphQL content type a truthy body is the query |
| `GraphqlResponse.Normalize` | src/graphql-response/get-graphql-response.js:21-37 | a normalised request always has an accepted method and a truthy query, and every failure before the query check is passed on unchanged |
| `GraphqlResponse.TryBlock` | src/graphql-response/get-graphql-response.js:20-55 | the definition of the try block, against which `Attempt` and the lemmas below are stated. The engine is called only on a normalised request with a truthy query, the block returns only after an engine call and then with status 200, and a failed normalisation is thrown on unchanged without an engine call |
| `GraphqlResponse.Respond` | src/graphql-response/get-graphql-response.js:8-69 | the definition of one call, against which `GetGraphqlResponse` and the lemmas below are stated. It rejects exactly when the schema is missing, so given a schema every call settles to a response. A value is logged only when the response is the opaque 500, and when the engine was called that value is the engine's rejection |
| `GraphqlResponse.Attempt` | src/graphql-response/get-graphql-response.js:20-55 | the step-by-step try block ends as `TryBlock` says, and the engine records exactly the call `TryBlock` names (or none) |
| `GraphqlResponse.GetGraphqlResponse` | src/graphql-response/get-graphql-response.js:8-69 | settles as `Respond` says. The engine gets exactly `Respond`'s call, the request's logger (or `console` when absent) gets exactly `Respond`'s logged value, and the other logger is untouched |
| `GraphqlResponse.Engine.Execute` | src/graphql-response/get-graphql-response.js:40-47 | an engine call is recorded and answered by the engine's outcome |
| `GraphqlResponse.Logger.Error` | src/graphql-response/get-graphql-response.js:64 | `logger.error(e)` appends `e` to the logged values |
| `GraphqlResponse.MethodNotAllowedResponse` | src/graphql-response/get-graphql-response.js:72-83 | any method but GET/POST is exactly `{405, [{Accept:'GET, POST'}], 'Method not allowed. See Accept header for allowed methods.'}`, whatever else the request holds. The engine is not called and nothing is logged |
| `GraphqlResponse.BadVariablesResponse` | src/graphql-response/get-graphql-response.js:23-24 | after the method check, truthy query-string variables that fail to parse with a SyntaxError give exactly the 400 variables error. This holds whatever the headers and the body hold, even a body with its own variables, and there is no engine call |
| `GraphqlResponse.FalsyVariablesUnparsed` | src/graphql-response/get-graphql-response.js:102 | falsy query-string variables pass through unparsed and cannot fail |
| `GraphqlResponse.BadBodyResponse` | src/graphql-response/get-graphql-response.js:114-131 | without the GraphQL content type, once method and variables pass, a truthy body that fails with a SyntaxError gives exactly the 400 body error, and there is no engine call |
| `GraphqlResponse.MissingQueryResponse` | src/graphql-response/get-graphql-response.js:37 | a request that gets through extraction with a falsy query gives exactly `{400, 'Bad Request. Request must contain a GaphQL Query'}`, with no engine call |
| `GraphqlResponse.GraphqlBodyIsQuery` | src/graphql-response/get-graphql-response.js:27-28 | with `Content-Type` exactly `application/graphql`, the query is the raw body verbatim, or the query-string query when the body is falsy. Operation and variables come from the query string only |
| `GraphqlResponse.GraphqlBodyNeverParsed` | src/graphql-response/get-graphql-response.js:27-35 | with the GraphQL content type the body is never JSON-parsed: any two parsers that agree on the query-string variables give the same reply |
| `GraphqlResponse.JsonBodyFieldsWin` | src/graphql-response/get-graphql-response.js:29-35 | with a JSON body that parses, each of `query`/`operation`/`variables` is the body's value. The query-string value is used only where the body's value is undefined |
| `GraphqlResponse.AbsentBodyUsesQueryString` | src/graphql-response/get-graphql-response.js:30-34 | with no body and without the GraphQL content type, `query`, `operation` and the decoded `variables` are exactly the query string's, and a query-string failure is the request's failure. A truthy query-string query is then the normalised query the engine gets |
| `GraphqlResponse.NullBodyHidesQueryStringQuery` | src/graphql-response/get-graphql-response.js:30-34 | a falsy body other than `undefined` (`null`, `""`) without the GraphQL content type is the missing-query 400, even when the query string holds a query |
| `GraphqlResponse.SuccessResponse` | src/graphql-response/get-graphql-response.js:39-55 | a normalised request is answered as follows when the schema builds and the engine resolves. The engine gets `(buildSchema(schema), query, resolver, context, variables, operation)`. The response is `{200, {'Content-Type':'application/json'}, stringify(result)}`, and nothing is logged |
| `GraphqlResponse.EngineCalledOnlyWithQuery` | src/graphql-response/get-graphql-response.js:37-47 | whenever the engine is called, the method was accepted and the query is truthy. The call carries the normalised fields, the request's resolver and context, and the built schema |
| `GraphqlResponse.HttpErrorPassesThrough` | src/graphql-response/get-graphql-response.js:57-63 | a thrown HttpError becomes `{statusCode, headers, body: message}` of that error with nothing added, and nothing is logged |
| `GraphqlResponse.UnexpectedFailureIsInternalError` | src/graphql-response/get-graphql-response.js:64-68 | any other thrown value gives exactly `{500, 'Internal Server Error'}` without headers. It is logged once, as thrown |
| `GraphqlResponse.EngineRejectionIsInternalError` | src/graphql-response/get-graphql-response.spec.js:150-177 | an engine rejection gives the opaque 500, after the one engine call, and logs the rejection value |
| `GraphqlResponse.VariablesParserFailureIsInternalError` | src/graphql-response/get-graphql-response.js:110 | a variables parse failure that is not a SyntaxError is rethrown and ends as the logged 500, with no engine call |
| `GraphqlResponse.SchemaRequired` | src/graphql-response/get-graphql-response.js:17 | a missing schema rejects with `options.schema is required`. Nothing is called and nothing is logged |
| `GraphqlResponse.AsWrittenErrorLosesText` | src/utils/http-error.js:2-4 | an error built as the call sites write it yields an empty response body, which differs from the text |
| `GraphqlLambda.CreateGraphqlLambda` | src/graphql-lambda/graphql-lambda.js:3-4 | succeeds exactly when `getGraphqlResponse` is given (the argument defaults to `{}`), and the factory holds it. Otherwise it fails with `options.getGraphqlResponse is required` |
| `GraphqlLambda.CreateGraphqlHandler` | src/graphql-lambda/graphql-lambda.js:6-13 | fails with `options.schema is required` exactly when no schema is given. Otherwise the handler holds the delegate, schema, resolver and logger. Its context is the given one, or one fresh empty object when none is given |
| `GraphqlLambda.DelegateFields` | src/graphql-lambda/graphql-lambda.js:17-23 | the delegated fields are the event's own fields, with `logger`, `resolver` and `schema` taken from the handler config. `context` is never taken from the event |
| `GraphqlLambda.ContextHoldsLastEvent` | src/graphql-lambda/graphql-lambda.js:16 | after any run of invocations the shared context's `request` is the last event. Its other properties are as before |
| `GraphqlLambda.ContextAfterSnoc` | src/graphql-lambda/graphql-lambda.js:16 | one more invocation after a run is one more `context.request = event` on what the run left |
| `GraphqlLambda.GraphqlHandler.Invoke` | src/graphql-lambda/graphql-lambda.js:14-28 | sets `context.request = event` before delegating: the delegate sees it. The delegate gets the merged fields and the context object, and the callback gets `(null, response)` for a resolved outcome and `(error)` for a failure. A context that is not an object is reported as a TypeError without delegating |
| `GraphqlLambda.GraphqlHandler.InvokeAll` | src/graphql-lambda/graphql-lambda.js:14-28 | invoking the handler over a run of events, on a shared context, gives the delegate exactly one call per event, in order. Each call carries the merged fields of its event and the context with that event attached, and the callback gets each call's `(null, response)` or `(error)`. The context ends as `ContextAfter` of the events, which holds the last event by `ContextHoldsLastEvent`. A context that is not an object answers every event with a TypeError and never delegates |
| `GraphqlLambda.Delegate.Call` | src/graphql-lambda/graphql-lambda.js:17-23 | each delegated call is recorded with the context's properties at that moment and is answered by the delegate's outcome |
| `GraphqlLambda.Callback.Call` | src/graphql-lambda/graphql-lambda.js:24-26 | each callback call is recorded in order |

## Findings

| source | as written | input that shows it | evidently intended | confidence | as-written member | corrected member |
|---|---|---|---|---|---|---|
| src/utils/http-error.js:2-4 | the four call sites (get-graphql-response.js:78-81, 87-90, 105-108, 124-127) pass their text as `message`. The constructor reads only `body`, so `body` is undefined and the inherited message is `""`. The mapper sends `e.message` | `httpMethod: 'FOO'` gives status 405 with body `""` | the text is the response body, as get-graphql-response.spec.js:28, :194 and :213 expect | medium; not executed | `GraphqlResponse.AsWrittenErrorLosesText` | `GraphqlResponse.RequestError` |

The rest of the model raises its errors through `RequestError`.

## Left out

- src/graphql-response/index.js and src/graphql-lambda/index.js only wire in the real `graphql` library. The engine, the schema builder and the delegate are abstract collaborators, so the model does not compose the lambda with `getGraphqlResponse`.
- test/e2e.spec.js: its expected bodies come from the real GraphQL engine, which is not part of this model. wallaby.js is test-runner configuration.
- `JSON.parse`, `JSON.stringify`, `buildSchema` and `graphql` are oracles: their internals are not modelled.
- Promises and `await`: each await is a sequential call, and a rejection is a throw.
- The logger's real sink (`console`): it is only a recorded list of `error` calls. A logger that is `null`, has no `error` or throws from it is not modelled.
- `required-param.js` is not part of this model. Only its tested message, `<name> is required`, is modelled.
- The unused `lambdaContext` argument of the handler.
- `null` as the options argument of `createGraphqlLambda`, `createGraphqlHandler` or `getGraphqlResponse`: JavaScript throws a TypeError, and this is not modelled. Option values that are not functions are not modelled either.
- Spreading an event that is a string or an array: JavaScript copies it index by index, but the model copies nothing.
- Numbers are integers: NaN, -0 and fractions are not modelled.
- Property reads see only own properties. No key the adapter reads exists on a prototype.
- An absent response property and one that holds `undefined` are the same value here, as they are to Jest's `toEqual`.
- A callback that throws: the source would then call it a second time with the error.
- A delegate that writes to the shared context.
