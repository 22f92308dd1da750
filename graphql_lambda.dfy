/**
  The handler composition: `createGraphqlLambda` takes the function that turns
  a request into a response, `createGraphqlHandler` fixes the schema, resolver,
  context and logger, and the handler it returns serves one invocation at a
  time, attaching the event to the shared context and reporting through the
  platform's callback.

  The delegated function is a collaborator: an object that records the calls
  it receives (with the context as it stands at the call) and answers each with
  a fixed outcome function. It is assumed not to write to the context itself.
  The callback records its calls and is assumed not to throw.
 */
module GraphqlLambda {
  import opened Js
  import opened HttpErrors
  import opened RequiredParam

  /** A mutable JavaScript object with identity: the context shared by the invocations of one handler. */
  class JsObject {
    var props: map<string, JsVal>

    constructor ()
      ensures props == map[]
    {
      props := map[];
    }
  }

  /** A non-object value: assigning a property to one throws a TypeError in strict-mode code. */
  type Primitive = v: JsVal | v.Null? || v.Bool? || v.Num? || v.Str? witness Null

  /** The handler's `context`: a shared object or a value that is not one. */
  datatype HandlerContext = Shared(obj: JsObject) | NotAnObject(value: Primitive)

  /** What the handler passes to the delegated function: the plain fields and the context object. */
  datatype DelegateArgs = DelegateArgs(fields: map<string, JsVal>, context: JsObject)

  /** One delegated call, with the properties the context held when it was made. */
  datatype DelegateCall = DelegateCall(args: DelegateArgs, contextProps: map<string, JsVal>)

  /** The `getGraphqlResponse` option: every call is recorded and answered by `outcome`. */
  class Delegate {
    const outcome: DelegateCall -> Outcome<JsVal>
    var calls: seq<DelegateCall>

    constructor (outcome: DelegateCall -> Outcome<JsVal>)
      ensures this.outcome == outcome && calls == []
    {
      this.outcome := outcome;
      calls := [];
    }

    method Call(args: DelegateArgs) returns (r: Outcome<JsVal>)
      modifies this
      ensures calls == old(calls) + [DelegateCall(args, args.context.props)]
      ensures r == outcome(DelegateCall(args, args.context.props))
    {
      var call := DelegateCall(args, args.context.props);
      calls := calls + [call];
      r := outcome(call);
    }
  }

  /** A callback call: `callback(null, response)` or `callback(error)`. */
  datatype CallbackCall = Resolved(response: JsVal) | Failed(error: Exn)

  /** The platform's completion callback: the calls it received, in order. */
  class Callback {
    var calls: seq<CallbackCall>

    constructor ()
      ensures calls == []
    {
      calls := [];
    }

    method Call(c: CallbackCall)
      modifies this
      ensures calls == old(calls) + [c]
    {
      calls := calls + [c];
    }
  }

  /** How a delegated call is reported: a resolved value goes second after `null`, a failure goes alone. */
  function Report(o: Outcome<JsVal>): CallbackCall
  {
    match o
    case Return(response) => Resolved(response)
    case Throw(error) => Failed(error)
  }

  /** The options of `createGraphqlLambda`; `None` is an undefined option. */
  datatype LambdaOptions = LambdaOptions(getGraphqlResponse: Option<Delegate>)

  /** What `createGraphqlLambda` returns: the handler factory, closed over the delegate. */
  datatype HandlerFactory = HandlerFactory(getGraphqlResponse: Delegate)

  /** `createGraphqlLambda(options)`: the argument defaults to `{}` and `getGraphqlResponse` is required. */
  function CreateGraphqlLambda(options: Option<LambdaOptions>): (r: Outcome<HandlerFactory>)
    ensures r.Return? <==> options.Some? && options.value.getGraphqlResponse.Some?
    ensures r.Throw? ==> r.exn == Err(PlainError, "options.getGraphqlResponse is required")
    ensures r.Return? ==> r.value.getGraphqlResponse == options.value.getGraphqlResponse.value
  {
    if options.Some? && options.value.getGraphqlResponse.Some? then
      Return(HandlerFactory(options.value.getGraphqlResponse.value))
    else
      assert "options.getGraphqlResponse" + " is required" == "options.getGraphqlResponse is required";
      Throw(RequiredParamError("options.getGraphqlResponse"))
  }

  /** The options of `createGraphqlHandler`; an undefined field is `Undefined`, an undefined context `None`. */
  datatype HandlerOptions = HandlerOptions(schema: JsVal, resolver: JsVal, context: Option<HandlerContext>, logger: JsVal)

  /**
    The own properties `{ ...event }` copies. Only an object event has any here;
    spreading a string or an array (which JavaScript copies index by index) is
    not modelled.
   */
  function Spread(event: JsVal): map<string, JsVal>
  {
    if event.Obj? then event.props else map[]
  }

  /**
    The plain fields of `{ ...event, context, logger, resolver, schema }`: the
    handler's logger, resolver and schema override the event's, every other
    event field is copied, and `context` travels as the object reference in
    DelegateArgs, never as the event's own `context` field.
   */
  function DelegateFields(event: JsVal, logger: JsVal, resolver: JsVal, schema: JsVal): (r: map<string, JsVal>)
    ensures "context" !in r
    ensures forall k :: k in r <==> k == "logger" || k == "resolver" || k == "schema" || (k in Spread(event) && k != "context")
    ensures "logger" in r && r["logger"] == logger
    ensures "resolver" in r && r["resolver"] == resolver
    ensures "schema" in r && r["schema"] == schema
    ensures forall k :: k in Spread(event) && k != "context" && k != "logger" && k != "resolver" && k != "schema" ==>
      k in r && r[k] == Spread(event)[k]
  {
    (Spread(event) - {"context"})["logger" := logger]["resolver" := resolver]["schema" := schema]
  }

  /** `context.request = event` */
  function AttachRequest(props: map<string, JsVal>, event: JsVal): map<string, JsVal>
  {
    props["request" := event]
  }

  /** What a shared context holds after the handler has been invoked with `events`, in order. */
  function ContextAfter(props: map<string, JsVal>, events: seq<JsVal>): map<string, JsVal>
    decreases |events|
  {
    if events == [] then props else ContextAfter(AttachRequest(props, events[0]), events[1..])
  }

  /**
    The shared context is overwritten, not accumulated: after any run of
    invocations its `request` is the last event and every other property is
    what it was before.
   */
  lemma {:induction false} ContextHoldsLastEvent(props: map<string, JsVal>, events: seq<JsVal>)
    requires events != []
    ensures ContextAfter(props, events) == props["request" := events[|events| - 1]]
    decreases |events|
  {
    if |events| == 1 {
      assert events[1..] == [];
    } else {
      ContextHoldsLastEvent(AttachRequest(props, events[0]), events[1..]);
      assert events[1..][|events[1..]| - 1] == events[|events| - 1];
      assert AttachRequest(props, events[0])["request" := events[|events| - 1]] == props["request" := events[|events| - 1]];
    }
  }

  /** Attaching one more event to a run is one more `context.request = event`. */
  lemma {:induction false} ContextAfterSnoc(props: map<string, JsVal>, events: seq<JsVal>, event: JsVal)
    ensures ContextAfter(props, events + [event]) == AttachRequest(ContextAfter(props, events), event)
    decreases |events|
  {
    if events == [] {
      assert [event][1..] == [];
    } else {
      assert (events + [event])[1..] == events[1..] + [event];
      ContextAfterSnoc(AttachRequest(props, events[0]), events[1..], event);
    }
  }

  /** The handler `createGraphqlHandler` returns. */
  class GraphqlHandler {
    const getGraphqlResponse: Delegate
    const schema: JsVal
    const resolver: JsVal
    const logger: JsVal
    const context: HandlerContext

    constructor (getGraphqlResponse: Delegate, schema: JsVal, resolver: JsVal, logger: JsVal, context: HandlerContext)
      ensures this.getGraphqlResponse == getGraphqlResponse && this.schema == schema && this.resolver == resolver
      ensures this.logger == logger && this.context == context
    {
      this.getGraphqlResponse := getGraphqlResponse;
      this.schema := schema;
      this.resolver := resolver;
      this.logger := logger;
      this.context := context;
    }

    /** The objects an invocation writes besides the delegate and the callback. */
    function ContextObjects(): set<object>
    {
      if context.Shared? then {context.obj} else {}
    }

    /**
      One invocation, `handler(event, lambdaContext, callback)`: attach the event
      to the context, delegate with the merged fields, and report the outcome.
      A context that is not an object makes the attachment throw, which is
      reported before anything is delegated.
     */
    method Invoke(event: JsVal, callback: Callback)
      modifies ContextObjects(), getGraphqlResponse, callback
      ensures context.NotAnObject? ==>
        callback.calls == old(callback.calls) + [Failed(TypeErr)] &&
        getGraphqlResponse.calls == old(getGraphqlResponse.calls)
      ensures context.Shared? ==>
        var call := DelegateCall(DelegateArgs(DelegateFields(event, logger, resolver, schema), context.obj),
                                 AttachRequest(old(context.obj.props), event));
        context.obj.props == AttachRequest(old(context.obj.props), event) &&
        getGraphqlResponse.calls == old(getGraphqlResponse.calls) + [call] &&
        callback.calls == old(callback.calls) + [Report(getGraphqlResponse.outcome(call))]
    {
      match context
      case NotAnObject(_) =>
        callback.Call(Failed(TypeErr));
      case Shared(obj) =>
        obj.props := AttachRequest(obj.props, event);
        var response := getGraphqlResponse.Call(DelegateArgs(DelegateFields(event, logger, resolver, schema), obj));
        if response.Return? {
          callback.Call(Resolved(response.value));
        } else {
          callback.Call(Failed(response.exn));
        }
    }

    /**
      The delegated call the `i`-th of a run of invocations makes on a shared
      context that held `props0` before the run: its merged fields, and the
      context as it stands once that event has been attached.
     */
    function CallAt(props0: map<string, JsVal>, events: seq<JsVal>, i: nat): DelegateCall
      requires context.Shared? && i < |events|
    {
      DelegateCall(DelegateArgs(DelegateFields(events[i], logger, resolver, schema), context.obj),
                   ContextAfter(props0, events[..i + 1]))
    }

    /**
      A run of invocations of this handler, one after another, all reporting to
      `callback`. On a shared context the delegate gets exactly one call per
      event, in order, and the callback exactly the report of each; the
      context ends as ContextAfter says (so, by ContextHoldsLastEvent, it holds
      the last event). A context that is not an object answers every event
      with a TypeError and never delegates.
     */
    method InvokeAll(events: seq<JsVal>, callback: Callback)
      modifies ContextObjects(), getGraphqlResponse, callback
      ensures context.Shared? ==> context.obj.props == ContextAfter(old(context.obj.props), events)
      ensures |callback.calls| == |old(callback.calls)| + |events|
      ensures context.Shared? ==> |getGraphqlResponse.calls| == |old(getGraphqlResponse.calls)| + |events|
      ensures context.NotAnObject? ==> getGraphqlResponse.calls == old(getGraphqlResponse.calls)
      ensures context.Shared? ==>
        getGraphqlResponse.calls == old(getGraphqlResponse.calls) +
          seq(|events|, i requires 0 <= i < |events| => CallAt(old(context.obj.props), events, i))
      ensures context.Shared? ==>
        callback.calls == old(callback.calls) +
          seq(|events|, i requires 0 <= i < |events| => Report(getGraphqlResponse.outcome(CallAt(old(context.obj.props), events, i))))
      ensures context.NotAnObject? ==>
        callback.calls == old(callback.calls) + seq(|events|, _ => Failed(TypeErr))
    {
      ghost var props0 := if context.Shared? then context.obj.props else map[];
      ghost var delegated0 := getGraphqlResponse.calls;
      ghost var reported0 := callback.calls;
      var i := 0;
      while i < |events|
        invariant 0 <= i <= |events|
        invariant context.Shared? ==> props0 == old(context.obj.props)
        invariant context.Shared? ==> context.obj.props == ContextAfter(props0, events[..i])
        invariant context.Shared? ==>
          getGraphqlResponse.calls == delegated0 + seq(i, j requires 0 <= j < i => CallAt(props0, events, j))
        invariant context.Shared? ==>
          callback.calls == reported0 + seq(i, j requires 0 <= j < i => Report(getGraphqlResponse.outcome(CallAt(props0, events, j))))
        invariant context.NotAnObject? ==> callback.calls == reported0 + seq(i, _ => Failed(TypeErr))
        invariant context.NotAnObject? ==> getGraphqlResponse.calls == delegated0
      {
        if context.Shared? {
          ContextAfterSnoc(props0, events[..i], events[i]);
          assert events[..i] + [events[i]] == events[..i + 1];
        }
        Invoke(events[i], callback);
        i := i + 1;
      }
      assert events[..i] == events;
    }
  }

  /**
    `createGraphqlHandler(options)`: the argument defaults to `{}`, `schema` is
    required, and an undefined context defaults to one fresh empty object that
    every invocation of this handler then shares.
   */
  method CreateGraphqlHandler(factory: HandlerFactory, options: Option<HandlerOptions>) returns (r: Outcome<GraphqlHandler>)
    ensures r.Throw? <==> options.None? || options.value.schema.Undefined?
    ensures r.Throw? ==> r.exn == Err(PlainError, "options.schema is required")
    ensures r.Return? ==>
      fresh(r.value) && r.value.getGraphqlResponse == factory.getGraphqlResponse &&
      r.value.schema == options.value.schema && r.value.resolver == options.value.resolver &&
      r.value.logger == options.value.logger
    ensures r.Return? && options.value.context.Some? ==> r.value.context == options.value.context.value
    ensures r.Return? && options.value.context.None? ==>
      r.value.context.Shared? && fresh(r.value.context.obj) && r.value.context.obj.props == map[]
  {
    if options.None? || options.value.schema.Undefined? {
      assert "options.schema" + " is required" == "options.schema is required";
      return Throw(RequiredParamError("options.schema"));
    }
    var context: HandlerContext;
    if options.value.context.Some? {
      context := options.value.context.value;
    } else {
      var empty := new JsObject();
      context := Shared(empty);
    }
    var handler := new GraphqlHandler(factory.getGraphqlResponse, options.value.schema, options.value.resolver,
                                      options.value.logger, context);
    return Return(handler);
  }
}
