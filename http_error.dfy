/**
  The `HttpError` class of the adapter, and the other values JavaScript code
  can throw, as far as the adapter tells them apart.
 */
module HttpErrors {
  import opened Js

  /**
    An `HttpError` instance. `body`, `headers` and `statusCode` are the fields
    its constructor assigns; `message` is the one it inherits from `Error`.
   */
  datatype HttpError = HttpError(body: JsVal, headers: JsVal, name: string, statusCode: JsVal, message: string)

  /** The built-in error classes the adapter tests for with `instanceof`. */
  datatype ErrorKind = PlainError | SyntaxError

  /**
    A thrown value: an HttpError, an instance of a built-in error class, a
    host TypeError (whose message is engine-specific and not modelled), or
    any other value.
   */
  datatype Exn =
    | HttpErr(error: HttpError)
    | Err(kind: ErrorKind, message: string)
    | TypeErr
    | Foreign(value: JsVal)

  /** How a JavaScript call ends: it returns a value or it throws (an async call: resolves or rejects). */
  datatype Outcome<T> = Return(value: T) | Throw(exn: Exn) {
    /** With these three members `:-` propagates a throw the way an uncaught exception does. */
    predicate IsFailure() {
      Throw?
    }

    function PropagateFailure<U>(): Outcome<U>
      requires Throw?
    {
      Throw(exn)
    }

    function Extract(): T
      requires Return?
    {
      value
    }
  }

  const HttpErrorName := "HttpError"

  /**
    `new HttpError(arg)`. The constructor destructures `{ body, headers, statusCode }`
    from its argument (which defaults to `{}`), passes `body` to `Error` (which
    leaves `message` empty when it is undefined and otherwise sets it to
    `String(body)`), and then assigns the fields. `null` cannot be
    destructured: that throws a TypeError.
   */
  function NewHttpError(arg: JsVal): (r: Outcome<HttpError>)
    ensures r.Throw? <==> arg.Null?
    ensures r.Throw? ==> r.exn == TypeErr
    ensures r.Return? ==> r.value.name == "HttpError"
    ensures r.Return? ==> r.value.message == (if r.value.body.Undefined? then "" else ToString(r.value.body))
    ensures !arg.Null? && !arg.Obj? ==> r == Return(HttpError(Undefined, Undefined, "HttpError", Undefined, ""))
    ensures r.Return? && arg.Obj? ==>
      (r.value.body == (if "body" in arg.props then arg.props["body"] else Undefined)) &&
      (r.value.headers == (if "headers" in arg.props then arg.props["headers"] else Undefined)) &&
      (r.value.statusCode == (if "statusCode" in arg.props then arg.props["statusCode"] else Undefined))
  {
    if arg.Null? then Throw(TypeErr)
    else
      var options := if arg.Undefined? then Obj(map[]) else arg;
      var body := Get(options, "body");
      var message := if body.Undefined? then "" else ToString(body);
      Return(HttpError(body, Get(options, "headers"), HttpErrorName, Get(options, "statusCode"), message))
  }

  /** The object literal `{ statusCode, headers, <textKey>: text }`; `headers` is left out when `None`. */
  function ErrorOptions(statusCode: int, headers: Option<JsVal>, textKey: string, text: string): JsVal
  {
    var props := map["statusCode" := Num(statusCode), textKey := Str(text)];
    if headers.Some? then Obj(props["headers" := headers.value]) else Obj(props)
  }

  /** Constructing from `{ statusCode, headers, body }`: every field is exactly what was passed, and the message is the body text. */
  lemma ConstructedFromBody(statusCode: int, headers: Option<JsVal>, text: string)
    ensures NewHttpError(ErrorOptions(statusCode, headers, "body", text))
         == Return(HttpError(Str(text), if headers.Some? then headers.value else Undefined, "HttpError", Num(statusCode), text))
  {
  }
}
