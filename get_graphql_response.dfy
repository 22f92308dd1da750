/**
  The request normaliser and response mapper: `createGetGraphqlResponse` and the
  `getGraphqlResponse` function it returns, with its validators and extractors.

  The GraphQL engine (`graphql`), the schema builder (`buildSchema`), `JSON.parse`
  and `JSON.stringify` are collaborators whose internals are not modelled: the
  engine is an object that records the calls it receives and answers each with
  a fixed outcome function, the others are function-valued parameters. The
  logger records the values passed to its `error` operation.

  Error text and the HttpError constructor: the code that raises the four
  request errors passes the text under the key `message`, but the HttpError
  constructor reads it from `body`, so as written the text is dropped and the
  response body is empty. The tests expect the text as the response body; this
  model raises the errors with the text under `body` (RequestError), which gives
  exactly that, and keeps the as-written construction (RequestErrorAsWritten)
  beside it to exhibit the difference.
 */
module GraphqlResponse {
  import opened Js
  import opened HttpErrors
  import opened RequiredParam

  const AcceptedMethods: seq<string> := ["GET", "POST"]
  const GraphqlContentType := "application/graphql"
  const JsonContentType := "application/json"

  const MethodNotAllowedText := "Method not allowed. See Accept header for allowed methods."
  const BadVariablesText := "Bad Request. Variables property is not a valid JSON string."
  const BadBodyText := "Bad Request. Body is not a valid JSON string. If you are trying to send graphql as the body, please set your \"Content-Type\" header to \"application/graphql\""
  const MissingQueryText := "Bad Request. Request must contain a GaphQL Query"
  const InternalErrorText := "Internal Server Error"

  /** The host's JSON functions: `JSON.parse` may throw; `JSON.stringify` may give `undefined`. */
  datatype Host = Host(parse: JsVal -> Outcome<JsVal>, stringify: JsVal -> JsVal)

  /** The fields of the argument of `getGraphqlResponse`, other than `logger`; an absent field is `Undefined`. */
  datatype GraphqlRequest = GraphqlRequest(
    body: JsVal,
    context: JsVal,
    headers: JsVal,
    httpMethod: JsVal,
    queryStringParameters: JsVal,
    resolver: JsVal,
    schema: JsVal)

  /** `{ query, operation, variables }` as the extractors return it. */
  datatype GraphqlFields = GraphqlFields(query: JsVal, operation: JsVal, variables: JsVal)

  /** `{ statusCode, headers, body }`; an absent `headers` is `Undefined`. */
  datatype Response = Response(statusCode: JsVal, headers: JsVal, body: JsVal)

  /** The arguments of one engine call, `graphql(schemaObject, query, resolver, context, variables, operation)`. */
  datatype EngineCall = EngineCall(
    schemaObject: JsVal,
    query: JsVal,
    resolver: JsVal,
    context: JsVal,
    variables: JsVal,
    operation: JsVal)

  /** The GraphQL engine: every call is recorded and answered by `outcome`. */
  class Engine {
    const outcome: EngineCall -> Outcome<JsVal>
    var calls: seq<EngineCall>

    constructor (outcome: EngineCall -> Outcome<JsVal>)
      ensures this.outcome == outcome && calls == []
    {
      this.outcome := outcome;
      calls := [];
    }

    method Execute(call: EngineCall) returns (r: Outcome<JsVal>)
      modifies this
      ensures calls == old(calls) + [call]
      ensures r == outcome(call)
    {
      calls := calls + [call];
      r := outcome(call);
    }
  }

  /** A logger: the values passed to `error`, in order. */
  class Logger {
    var errors: seq<Exn>

    constructor ()
      ensures errors == []
    {
      errors := [];
    }

    method Error(e: Exn)
      modifies this
      ensures errors == old(errors) + [e]
    {
      errors := errors + [e];
    }
  }

  /** What `createGetGraphqlResponse` captures: the engine and the schema builder. */
  datatype Responder = Responder(graphql: Engine, buildSchema: JsVal -> Outcome<JsVal>)

  /** The options object of `createGetGraphqlResponse`; `None` is an undefined option. */
  datatype ResponderOptions = ResponderOptions(graphql: Option<Engine>, buildSchema: Option<JsVal -> Outcome<JsVal>>)

  /**
    `createGetGraphqlResponse(options)`: both options are required and `graphql`
    is checked first; calling it with no argument at all fails to destructure.
   */
  function CreateGetGraphqlResponse(options: Option<ResponderOptions>): (r: Outcome<Responder>)
    ensures options.None? ==> r == Throw(TypeErr)
    ensures options.Some? && options.value.graphql.None? ==>
      r == Throw(Err(PlainError, "options.graphql is required"))
    ensures options.Some? && options.value.graphql.Some? && options.value.buildSchema.None? ==>
      r == Throw(Err(PlainError, "options.buildSchema is required"))
    ensures r.Return? <==> options.Some? && options.value.graphql.Some? && options.value.buildSchema.Some?
    ensures r.Return? ==>
      r.value.graphql == options.value.graphql.value && r.value.buildSchema == options.value.buildSchema.value
  {
    if options.None? then Throw(TypeErr)
    else if options.value.graphql.None? then
      assert "options.graphql" + " is required" == "options.graphql is required";
      Throw(RequiredParamError("options.graphql"))
    else if options.value.buildSchema.None? then
      assert "options.buildSchema" + " is required" == "options.buildSchema is required";
      Throw(RequiredParamError("options.buildSchema"))
    else Return(Responder(options.value.graphql.value, options.value.buildSchema.value))
  }

  // ---------------------------------------------------------------------------
  // The errors the normaliser raises

  /**
    The HttpError the normaliser raises, built the way the tests expect: the
    text is passed as `body`, so it is both the `body` field and the message.
   */
  function RequestError(statusCode: int, headers: Option<JsVal>, text: string): (h: HttpError)
    ensures h == HttpError(Str(text), if headers.Some? then headers.value else Undefined, HttpErrorName, Num(statusCode), text)
  {
    NewHttpError(ErrorOptions(statusCode, headers, "body", text)).value
  }

  /** The HttpError as the call sites construct it, with the text under `message`. */
  function RequestErrorAsWritten(statusCode: int, headers: Option<JsVal>, text: string): (h: HttpError)
    ensures h.body == Undefined && h.message == ""
    ensures h.statusCode == Num(statusCode) && h.headers == (if headers.Some? then headers.value else Undefined)
  {
    NewHttpError(ErrorOptions(statusCode, headers, "message", text)).value
  }

  /** The literal errors, as the tests state them. */
  const MethodNotAllowedError := HttpError(Str(MethodNotAllowedText), Arr([Obj(map["Accept" := Str("GET, POST")])]), "HttpError", Num(405), MethodNotAllowedText)
  const BadVariablesError := HttpError(Str(BadVariablesText), Undefined, "HttpError", Num(400), BadVariablesText)
  const BadBodyError := HttpError(Str(BadBodyText), Undefined, "HttpError", Num(400), BadBodyText)
  const MissingQueryError := HttpError(Str(MissingQueryText), Undefined, "HttpError", Num(400), MissingQueryText)

  predicate IsSyntaxError(e: Exn) {
    e.Err? && e.kind == SyntaxError
  }

  // ---------------------------------------------------------------------------
  // Validators and extractors

  /** `validateMethod`: only GET and POST pass; anything else is a 405 advertising them. */
  function ValidateMethod(httpMethod: JsVal): (r: Outcome<()>)
    ensures r.Return? <==> httpMethod == Str("GET") || httpMethod == Str("POST")
    ensures r.Throw? ==> r.exn == HttpErr(MethodNotAllowedError)
  {
    if httpMethod.Str? && httpMethod.s in AcceptedMethods then Return(())
    else
      assert Join(AcceptedMethods, ", ") == "GET, POST";
      Throw(HttpErr(RequestError(405, Some(Arr([Obj(map["Accept" := Str(Join(AcceptedMethods, ", "))])])), MethodNotAllowedText)))
  }

  /** `validateQuery`: a falsy query is a 400. */
  function ValidateQuery(query: JsVal): (r: Outcome<()>)
    ensures r.Return? <==> IsTruthy(query)
    ensures r.Throw? ==> r.exn == HttpErr(MissingQueryError)
  {
    if IsFalsy(query) then Throw(HttpErr(RequestError(400, None, MissingQueryText))) else Return(())
  }

  /**
    `parseVariables`: a falsy value is returned unparsed; a truthy one is
    JSON-parsed, a SyntaxError becomes a 400 and any other throw goes through.
   */
  function ParseVariables(variables: JsVal, parse: JsVal -> Outcome<JsVal>): (r: Outcome<JsVal>)
    ensures IsFalsy(variables) ==> r == Return(variables)
    ensures IsTruthy(variables) && parse(variables).Return? ==> r == parse(variables)
    ensures IsTruthy(variables) && parse(variables).Throw? ==>
      r == Throw(if IsSyntaxError(parse(variables).exn) then HttpErr(BadVariablesError) else parse(variables).exn)
  {
    if IsFalsy(variables) then Return(variables)
    else
      match parse(variables)
      case Return(v) => Return(v)
      case Throw(e) =>
        if IsSyntaxError(e) then Throw(HttpErr(RequestError(400, None, BadVariablesText))) else Throw(e)
  }

  /** `queryStringParameters || {}`, then a field of it. */
  function QueryStringField(queryStringParameters: JsVal, key: string): JsVal
  {
    if IsFalsy(queryStringParameters) then Undefined else Get(queryStringParameters, key)
  }

  /**
    `getGraphqlFromQueryString`: `query` and `operation` are taken as they are,
    `variables` is decoded by ParseVariables; absent parameters give undefined fields.
   */
  function GetGraphqlFromQueryString(queryStringParameters: JsVal, parse: JsVal -> Outcome<JsVal>): (r: Outcome<GraphqlFields>)
    ensures IsFalsy(queryStringParameters) ==> r == Return(GraphqlFields(Undefined, Undefined, Undefined))
    ensures var decoded := ParseVariables(QueryStringField(queryStringParameters, "variables"), parse);
      (r.Throw? <==> decoded.Throw?) &&
      (r.Throw? ==> r.exn == decoded.exn) &&
      (r.Return? ==> r.value == GraphqlFields(QueryStringField(queryStringParameters, "query"),
                                             QueryStringField(queryStringParameters, "operation"),
                                             decoded.value))
  {
    var params := if IsTruthy(queryStringParameters) then queryStringParameters else Obj(map[]);
    var variables :- ParseVariables(Get(params, "variables"), parse);
    Return(GraphqlFields(Get(params, "query"), Get(params, "operation"), variables))
  }

  /**
    `getGraphqlFromJsonBody`: a truthy body is JSON-parsed and its three fields
    read (each guarded by `bodyAsJson &&`); a SyntaxError becomes a 400. A falsy
    body is not parsed, and every field is that falsy value itself.
   */
  function GetGraphqlFromJsonBody(body: JsVal, parse: JsVal -> Outcome<JsVal>): (r: Outcome<GraphqlFields>)
    ensures IsFalsy(body) ==> r == Return(GraphqlFields(body, body, body))
    ensures IsTruthy(body) && parse(body).Throw? ==>
      r == Throw(if IsSyntaxError(parse(body).exn) then HttpErr(BadBodyError) else parse(body).exn)
    ensures IsTruthy(body) && parse(body).Return? ==>
      var json := parse(body).value;
      r == Return(GraphqlFields(AndGet(json, "query"), AndGet(json, "operation"), AndGet(json, "variables")))
  {
    var parsed := if IsFalsy(body) then Return(body) else parse(body);
    match parsed
    case Throw(e) =>
      if IsSyntaxError(e) then Throw(HttpErr(RequestError(400, None, BadBodyText))) else Throw(e)
    case Return(bodyAsJson) =>
      Return(GraphqlFields(AndGet(bodyAsJson, "query"), AndGet(bodyAsJson, "operation"), AndGet(bodyAsJson, "variables")))
  }

  /** `headers && headers['Content-Type'] === 'application/graphql'`: an exact, case-sensitive match. */
  predicate IsGraphqlContentType(headers: JsVal) {
    IsTruthy(headers) && Get(headers, "Content-Type") == Str(GraphqlContentType)
  }

  // ---------------------------------------------------------------------------
  // The specification of getGraphqlResponse

  /**
    The query, operation and variables the try block arrives at before
    `validateQuery`: the method check, the query-string fields, then either the
    raw GraphQL body or the JSON body with the query-string values as defaults.
   */
  function Extract(request: GraphqlRequest, parse: JsVal -> Outcome<JsVal>): (r: Outcome<GraphqlFields>)
    ensures r.Return? ==> request.httpMethod == Str("GET") || request.httpMethod == Str("POST")
    ensures ValidateMethod(request.httpMethod).Throw? ==> r == Throw(HttpErr(MethodNotAllowedError))
    ensures r.Return? && IsGraphqlContentType(request.headers) && IsTruthy(request.body) ==> r.value.query == request.body
  {
    var _ :- ValidateMethod(request.httpMethod);
    var fromQueryString :- GetGraphqlFromQueryString(request.queryStringParameters, parse);
    if IsGraphqlContentType(request.headers) then
      Return(GraphqlFields(Or(request.body, fromQueryString.query), fromQueryString.operation, fromQueryString.variables))
    else
      var fromBody :- GetGraphqlFromJsonBody(request.body, parse);
      Return(GraphqlFields(
        DefaultIfUndefined(fromBody.query, fromQueryString.query),
        DefaultIfUndefined(fromBody.operation, fromQueryString.operation),
        DefaultIfUndefined(fromBody.variables, fromQueryString.variables)))
  }

  /** The normalised request: what Extract gives, once the query has been checked. */
  function Normalize(request: GraphqlRequest, parse: JsVal -> Outcome<JsVal>): (r: Outcome<GraphqlFields>)
    ensures r.Return? ==> IsTruthy(r.value.query)
    ensures r.Return? ==> request.httpMethod == Str("GET") || request.httpMethod == Str("POST")
    ensures Extract(request, parse).Throw? ==> r == Extract(request, parse)
  {
    var fields :- Extract(request, parse);
    var _ :- ValidateQuery(fields.query);
    Return(fields)
  }

  /** `{ statusCode: 200, headers: { 'Content-Type': 'application/json' }, body }` */
  function JsonResponse(body: JsVal): Response
  {
    Response(Num(200), Obj(map["Content-Type" := Str(JsonContentType)]), body)
  }

  /** The catch block's answer to an HttpError: its own status, headers and message. */
  function HttpErrorResponse(h: HttpError): Response
  {
    Response(h.statusCode, h.headers, Str(h.message))
  }

  /** `{ body: 'Internal Server Error', statusCode: 500 }`, without headers. */
  const InternalServerError := Response(Num(500), Undefined, Str(InternalErrorText))

  /** How the try block ends, and the engine call it made, if any. */
  datatype Attempted = Attempted(outcome: Outcome<Response>, engineCall: Option<EngineCall>)

  /** The try block of `getGraphqlResponse`. */
  function TryBlock(responder: Responder, host: Host, request: GraphqlRequest): (r: Attempted)
    ensures r.engineCall.Some? ==> Normalize(request, host.parse).Return? && IsTruthy(r.engineCall.value.query)
    ensures r.outcome.Return? ==> r.engineCall.Some? && r.outcome.value.statusCode == Num(200)
    ensures Normalize(request, host.parse).Throw? ==>
      r.outcome == Throw(Normalize(request, host.parse).exn) && r.engineCall == None
  {
    match Normalize(request, host.parse)
    case Throw(e) => Attempted(Throw(e), None)
    case Return(fields) =>
      match responder.buildSchema(request.schema)
      case Throw(e) => Attempted(Throw(e), None)
      case Return(schemaObject) =>
        var call := EngineCall(schemaObject, fields.query, request.resolver, request.context, fields.variables, fields.operation);
        match responder.graphql.outcome(call)
        case Throw(e) => Attempted(Throw(e), Some(call))
        case Return(result) => Attempted(Return(JsonResponse(host.stringify(result))), Some(call))
  }

  /**
    One call of `getGraphqlResponse`: how its promise settles, the engine call
    it made, and the value it logged.
   */
  datatype Reply = Reply(result: Outcome<Response>, engineCall: Option<EngineCall>, logged: Option<Exn>)

  /**
    A missing `schema` rejects before the try block (its default is evaluated
    with the parameters); everything else settles to a response.
   */
  function Respond(responder: Responder, host: Host, request: GraphqlRequest): (r: Reply)
    ensures r.result.Throw? <==> request.schema.Undefined?
    ensures r.logged.Some? ==> r.result == Return(InternalServerError)
    ensures r.logged.Some? ==> r.engineCall.None? || responder.graphql.outcome(r.engineCall.value) == Throw(r.logged.value)
  {
    if request.schema.Undefined? then Reply(Throw(RequiredParamError("options.schema")), None, None)
    else
      var attempted := TryBlock(responder, host, request);
      match attempted.outcome
      case Return(response) => Reply(Return(response), attempted.engineCall, None)
      case Throw(HttpErr(h)) => Reply(Return(HttpErrorResponse(h)), attempted.engineCall, None)
      case Throw(e) => Reply(Return(InternalServerError), attempted.engineCall, Some(e))
  }

  function AsSeq<T>(o: Option<T>): seq<T>
  {
    if o.Some? then [o.value] else []
  }

  // ---------------------------------------------------------------------------
  // getGraphqlResponse, step by step

  /** The try block, reassigning `query`, `operation` and `variables` as the source does. */
  method Attempt(responder: Responder, host: Host, request: GraphqlRequest) returns (o: Outcome<Response>)
    modifies responder.graphql
    ensures o == TryBlock(responder, host, request).outcome
    ensures responder.graphql.calls == old(responder.graphql.calls) + AsSeq(TryBlock(responder, host, request).engineCall)
  {
    var _ :- ValidateMethod(request.httpMethod);
    var fromQueryString :- GetGraphqlFromQueryString(request.queryStringParameters, host.parse);
    var query, operation, variables := fromQueryString.query, fromQueryString.operation, fromQueryString.variables;
    if IsGraphqlContentType(request.headers) {
      query := Or(request.body, query);
    } else {
      var fromBody :- GetGraphqlFromJsonBody(request.body, host.parse);
      query := DefaultIfUndefined(fromBody.query, query);
      operation := DefaultIfUndefined(fromBody.operation, operation);
      variables := DefaultIfUndefined(fromBody.variables, variables);
    }
    var _ :- ValidateQuery(query);
    var schemaObject :- responder.buildSchema(request.schema);
    var resolvedQuery :- responder.graphql.Execute(EngineCall(schemaObject, query, request.resolver, request.context, variables, operation));
    o := Return(JsonResponse(host.stringify(resolvedQuery)));
  }

  /**
    `getGraphqlResponse(request)`, with `logger` the request's logger (`null`
    when absent, so that `console` is used).
   */
  method GetGraphqlResponse(responder: Responder, host: Host, request: GraphqlRequest, logger: Logger?, console: Logger)
    returns (r: Outcome<Response>)
    modifies responder.graphql, logger, console
    ensures r == Respond(responder, host, request).result
    ensures responder.graphql.calls == old(responder.graphql.calls) + AsSeq(Respond(responder, host, request).engineCall)
    ensures var sink := if logger == null then console else logger;
      sink.errors == old(sink.errors) + AsSeq(Respond(responder, host, request).logged)
    ensures logger != null && logger != console ==> console.errors == old(console.errors)
  {
    if request.schema.Undefined? {
      r := Throw(RequiredParamError("options.schema"));
      return;
    }
    var sink := if logger == null then console else logger;
    var attempted := Attempt(responder, host, request);
    match attempted
    case Return(response) =>
      r := Return(response);
    case Throw(e) =>
      if e.HttpErr? {
        r := Return(HttpErrorResponse(e.error));
      } else {
        sink.Error(e);
        r := Return(InternalServerError);
      }
  }

  // ---------------------------------------------------------------------------
  // Properties of getGraphqlResponse

  /** An unaccepted method is answered with the literal 405 whatever else the request holds; the engine is not called. */
  lemma MethodNotAllowedResponse(responder: Responder, host: Host, request: GraphqlRequest)
    requires request.schema != Undefined
    requires request.httpMethod != Str("GET") && request.httpMethod != Str("POST")
    ensures Respond(responder, host, request) == Reply(Return(Response(
      Num(405),
      Arr([Obj(map["Accept" := Str("GET, POST")])]),
      Str("Method not allowed. See Accept header for allowed methods."))), None, None)
  {
  }

  /**
    After the method check, a truthy but malformed `variables` query-string
    parameter is the literal 400, whatever the headers and the body hold (a
    body with its own variables included).
   */
  lemma BadVariablesResponse(responder: Responder, host: Host, request: GraphqlRequest)
    requires request.schema != Undefined
    requires request.httpMethod == Str("GET") || request.httpMethod == Str("POST")
    requires var variables := QueryStringField(request.queryStringParameters, "variables");
      IsTruthy(variables) && host.parse(variables).Throw? && IsSyntaxError(host.parse(variables).exn)
    ensures Respond(responder, host, request) == Reply(Return(Response(
      Num(400), Undefined, Str("Bad Request. Variables property is not a valid JSON string."))), None, None)
  {
  }

  /** Falsy `variables` are passed through unparsed, so the parser is not consulted for them. */
  lemma FalsyVariablesUnparsed(queryStringParameters: JsVal, parse: JsVal -> Outcome<JsVal>)
    requires IsFalsy(QueryStringField(queryStringParameters, "variables"))
    ensures GetGraphqlFromQueryString(queryStringParameters, parse).Return?
    ensures GetGraphqlFromQueryString(queryStringParameters, parse).value.variables
         == QueryStringField(queryStringParameters, "variables")
  {
  }

  /**
    Without the GraphQL content type, a truthy body that is not JSON is the
    literal 400 (once the method and the query-string variables have passed).
   */
  lemma BadBodyResponse(responder: Responder, host: Host, request: GraphqlRequest)
    requires request.schema != Undefined
    requires request.httpMethod == Str("GET") || request.httpMethod == Str("POST")
    requires GetGraphqlFromQueryString(request.queryStringParameters, host.parse).Return?
    requires !IsGraphqlContentType(request.headers)
    requires IsTruthy(request.body) && host.parse(request.body).Throw? && IsSyntaxError(host.parse(request.body).exn)
    ensures Respond(responder, host, request) == Reply(Return(Response(
      Num(400), Undefined,
      Str("Bad Request. Body is not a valid JSON string. If you are trying to send graphql as the body, please set your \"Content-Type\" header to \"application/graphql\""))),
      None, None)
  {
  }

  /** A request that gets past extraction with a falsy query is the literal 400, typo included; the engine is not called. */
  lemma MissingQueryResponse(responder: Responder, host: Host, request: GraphqlRequest)
    requires request.schema != Undefined
    requires Extract(request, host.parse).Return? && IsFalsy(Extract(request, host.parse).value.query)
    ensures Respond(responder, host, request) == Reply(Return(Response(
      Num(400), Undefined, Str("Bad Request. Request must contain a GaphQL Query"))), None, None)
  {
  }

  /**
    With the GraphQL content type the query is the raw body verbatim (the
    query-string query when the body is falsy), and operation and variables
    come from the query string only.
   */
  lemma GraphqlBodyIsQuery(request: GraphqlRequest, parse: JsVal -> Outcome<JsVal>)
    requires request.httpMethod == Str("GET") || request.httpMethod == Str("POST")
    requires IsGraphqlContentType(request.headers)
    requires GetGraphqlFromQueryString(request.queryStringParameters, parse).Return?
    ensures var fromQueryString := GetGraphqlFromQueryString(request.queryStringParameters, parse).value;
      Extract(request, parse).Return? &&
      Extract(request, parse).value.query == (if IsTruthy(request.body) then request.body else fromQueryString.query) &&
      Extract(request, parse).value.operation == QueryStringField(request.queryStringParameters, "operation") &&
      Extract(request, parse).value.variables == fromQueryString.variables
  {
  }

  /**
    With the GraphQL content type the body is never JSON-parsed: two parsers that
    agree on the query-string variables give the same reply.
   */
  lemma GraphqlBodyNeverParsed(responder: Responder, parse1: JsVal -> Outcome<JsVal>, parse2: JsVal -> Outcome<JsVal>,
                               stringify: JsVal -> JsVal, request: GraphqlRequest)
    requires IsGraphqlContentType(request.headers)
    requires var variables := QueryStringField(request.queryStringParameters, "variables");
      parse1(variables) == parse2(variables)
    ensures Respond(responder, Host(parse1, stringify), request) == Respond(responder, Host(parse2, stringify), request)
  {
    assert Extract(request, parse1) == Extract(request, parse2);
  }

  /**
    Without the GraphQL content type, the fields of a body that parses win, and
    a query-string value only fills a field the body leaves undefined.
   */
  lemma JsonBodyFieldsWin(request: GraphqlRequest, parse: JsVal -> Outcome<JsVal>, key: string)
    requires request.httpMethod == Str("GET") || request.httpMethod == Str("POST")
    requires !IsGraphqlContentType(request.headers)
    requires GetGraphqlFromQueryString(request.queryStringParameters, parse).Return?
    requires IsTruthy(request.body) && parse(request.body).Return?
    requires key in {"query", "operation", "variables"}
    ensures var fromQueryString := GetGraphqlFromQueryString(request.queryStringParameters, parse).value;
      var fromBody := AndGet(parse(request.body).value, key);
      var fallback := if key == "query" then fromQueryString.query
                      else if key == "operation" then fromQueryString.operation
                      else fromQueryString.variables;
      var fields := Extract(request, parse);
      var field := if key == "query" then fields.value.query
                   else if key == "operation" then fields.value.operation
                   else fields.value.variables;
      fields.Return? && field == (if fromBody != Undefined then fromBody else fallback)
  {
  }

  /**
    Without a body and without the GraphQL content type, the JSON body gives
    three undefined fields, so every field comes from the query string: the
    extracted fields are exactly what the query string decodes to, its failure
    included, and a truthy query-string query is the normalised query.
   */
  lemma AbsentBodyUsesQueryString(request: GraphqlRequest, parse: JsVal -> Outcome<JsVal>)
    requires request.httpMethod == Str("GET") || request.httpMethod == Str("POST")
    requires !IsGraphqlContentType(request.headers)
    requires request.body == Undefined
    ensures Extract(request, parse) == GetGraphqlFromQueryString(request.queryStringParameters, parse)
    ensures GetGraphqlFromQueryString(request.queryStringParameters, parse).Return? &&
            IsTruthy(GetGraphqlFromQueryString(request.queryStringParameters, parse).value.query) ==>
      Normalize(request, parse) == GetGraphqlFromQueryString(request.queryStringParameters, parse)
  {
  }

  /**
    A body of `null` (or another falsy value but `undefined`) fills every field
    with itself, so the query-string query is not used and the request is a 400
    even though the query string holds a query.
   */
  lemma NullBodyHidesQueryStringQuery(responder: Responder, host: Host, request: GraphqlRequest)
    requires request.schema != Undefined
    requires request.httpMethod == Str("GET") || request.httpMethod == Str("POST")
    requires !IsGraphqlContentType(request.headers)
    requires IsFalsy(request.body) && request.body != Undefined
    requires GetGraphqlFromQueryString(request.queryStringParameters, host.parse).Return?
    ensures Respond(responder, host, request).result == Return(HttpErrorResponse(MissingQueryError))
  {
  }

  /**
    A request that normalises, with a schema that builds and an engine that
    resolves, is a 200 with the serialised result; the engine gets
    `(schemaObject, query, resolver, context, variables, operation)`.
   */
  lemma SuccessResponse(responder: Responder, host: Host, request: GraphqlRequest)
    requires request.schema != Undefined
    requires Normalize(request, host.parse).Return?
    requires responder.buildSchema(request.schema).Return?
    ensures var fields := Normalize(request, host.parse).value;
      var call := EngineCall(responder.buildSchema(request.schema).value, fields.query, request.resolver,
                             request.context, fields.variables, fields.operation);
      responder.graphql.outcome(call).Return? ==>
        Respond(responder, host, request) == Reply(Return(Response(
          Num(200), Obj(map["Content-Type" := Str("application/json")]),
          host.stringify(responder.graphql.outcome(call).value))), Some(call), None)
  {
  }

  /** The engine is called at most once, and only for an accepted method and a truthy query, with the request's resolver and context. */
  lemma EngineCalledOnlyWithQuery(responder: Responder, host: Host, request: GraphqlRequest)
    requires Respond(responder, host, request).engineCall.Some?
    ensures var call := Respond(responder, host, request).engineCall.value;
      (request.httpMethod == Str("GET") || request.httpMethod == Str("POST")) &&
      IsTruthy(call.query) &&
      Normalize(request, host.parse) == Return(GraphqlFields(call.query, call.operation, call.variables)) &&
      call.resolver == request.resolver && call.context == request.context &&
      Return(call.schemaObject) == responder.buildSchema(request.schema)
  {
  }

  /** A thrown HttpError becomes the response, with its status, headers and message and nothing added; nothing is logged. */
  lemma HttpErrorPassesThrough(responder: Responder, host: Host, request: GraphqlRequest, h: HttpError)
    requires request.schema != Undefined
    requires TryBlock(responder, host, request).outcome == Throw(HttpErr(h))
    ensures Respond(responder, host, request).result == Return(Response(h.statusCode, h.headers, Str(h.message)))
    ensures Respond(responder, host, request).logged == None
  {
  }

  /**
    Any other failure (an engine rejection, a throwing schema builder, a parser
    error that is not a SyntaxError) is the opaque 500 without headers, and
    that failure is logged, once.
   */
  lemma UnexpectedFailureIsInternalError(responder: Responder, host: Host, request: GraphqlRequest, e: Exn)
    requires request.schema != Undefined
    requires TryBlock(responder, host, request).outcome == Throw(e) && !e.HttpErr?
    ensures Respond(responder, host, request).result == Return(Response(Num(500), Undefined, Str("Internal Server Error")))
    ensures Respond(responder, host, request).logged == Some(e)
  {
  }

  /** An engine rejection is logged and answered with the opaque 500, after the one engine call. */
  lemma EngineRejectionIsInternalError(responder: Responder, host: Host, request: GraphqlRequest)
    requires request.schema != Undefined
    requires Normalize(request, host.parse).Return?
    requires responder.buildSchema(request.schema).Return?
    ensures var fields := Normalize(request, host.parse).value;
      var call := EngineCall(responder.buildSchema(request.schema).value, fields.query, request.resolver,
                             request.context, fields.variables, fields.operation);
      var outcome := responder.graphql.outcome(call);
      outcome.Throw? && !outcome.exn.HttpErr? ==>
        Respond(responder, host, request) == Reply(Return(InternalServerError), Some(call), Some(outcome.exn))
  {
  }

  /** A parser failure that is not a SyntaxError is rethrown by parseVariables and ends as the logged 500. */
  lemma VariablesParserFailureIsInternalError(responder: Responder, host: Host, request: GraphqlRequest)
    requires request.schema != Undefined
    requires request.httpMethod == Str("GET") || request.httpMethod == Str("POST")
    requires var variables := QueryStringField(request.queryStringParameters, "variables");
      IsTruthy(variables) && host.parse(variables).Throw? && !IsSyntaxError(host.parse(variables).exn)
      && !host.parse(variables).exn.HttpErr?
    ensures var variables := QueryStringField(request.queryStringParameters, "variables");
      Respond(responder, host, request) == Reply(Return(InternalServerError), None, Some(host.parse(variables).exn))
  {
  }

  /** A missing schema rejects with `options.schema is required`, before anything else happens. */
  lemma SchemaRequired(responder: Responder, host: Host, request: GraphqlRequest)
    requires request.schema == Undefined
    ensures Respond(responder, host, request) == Reply(Throw(Err(PlainError, "options.schema is required")), None, None)
  {
    assert "options.schema" + " is required" == "options.schema is required";
  }

  /**
    As written, the call sites pass the text under `message`, which the
    HttpError constructor does not read: the response body is empty, not the
    text the tests expect.
   */
  lemma AsWrittenErrorLosesText(statusCode: int, headers: Option<JsVal>, text: string)
    requires text != ""
    ensures HttpErrorResponse(RequestErrorAsWritten(statusCode, headers, text)).body == Str("")
    ensures HttpErrorResponse(RequestErrorAsWritten(statusCode, headers, text)).body
         != HttpErrorResponse(RequestError(statusCode, headers, text)).body
  {
  }
}
