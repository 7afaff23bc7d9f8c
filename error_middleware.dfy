/** The Express error middleware: `notFound` for unmatched routes and
    `errorHandler`, which turns a thrown error and the status already set on
    the response into the final status and JSON body. */
module ErrorMiddleware {

  import opened Js
  import JsText

  /** A thrown value as the handler reads it through optional chaining. `values`
      stands for `Object.values(err.errors)` in property order, `None` when
      `err.errors` is `null` or `undefined`, where `Object.values` throws. */
  datatype ErrorValue =
    | Nothing
    | Error(name: JsVal, message: JsVal, kind: JsVal, code: JsVal, values: Option<seq<JsVal>>, stack: JsVal)

  /** The JSON body of the error response; `success` is always false. */
  datatype Body = Body(success: bool, message: JsVal, stack: JsVal)

  /** What the handler does: answer with a status and body, or throw itself. */
  datatype Outcome = Respond(status: int, body: Body) | HandlerThrows

  function Name(err: ErrorValue): JsVal { if err.Error? then err.name else Undefined }
  function Message(err: ErrorValue): JsVal { if err.Error? then err.message else Undefined }
  function Kind(err: ErrorValue): JsVal { if err.Error? then err.kind else Undefined }
  function Code(err: ErrorValue): JsVal { if err.Error? then err.code else Undefined }
  function Stack(err: ErrorValue): JsVal { if err.Error? then err.stack else Undefined }

  predicate IsObjectIdCast(err: ErrorValue) {
    Name(err) == Str("CastError") && Kind(err) == Str("ObjectId")
  }

  predicate IsDuplicateKey(err: ErrorValue) {
    Code(err) == Num(11000)
  }

  predicate IsValidation(err: ErrorValue) {
    Name(err) == Str("ValidationError")
  }

  /** The status before any override: a response still at 200 becomes 500. */
  function BaseStatus(resStatus: int): (s: int)
    ensures s != 200
    ensures resStatus == 200 ==> s == 500
    ensures resStatus != 200 ==> s == resStatus
  {
    if resStatus == 200 then 500 else resStatus
  }

  /** `values.map(val => val.message)`; `None` when an element is `null` or `undefined`. */
  function Messages(values: seq<JsVal>): (r: Option<seq<JsVal>>)
    ensures r.Some? <==> forall i :: 0 <= i < |values| ==> Accessible(values[i])
    ensures r.Some? ==> |r.value| == |values|
    ensures r.Some? ==> forall i :: 0 <= i < |values| ==> r.value[i] == Prop(values[i], "message")
    decreases |values|
  {
    if values == [] then Some([])
    else
      var init := values[..|values| - 1];
      var last := values[|values| - 1];
      match Messages(init)
      case None => None
      case Some(ms) =>
        if Accessible(last) then Some(ms + [Prop(last, "message")]) else None
  }

  /** How `join` prints an element: `null` and `undefined` as "", others as `String(v)`. */
  function JoinText(v: JsVal): string {
    if v.Null? || v.Undefined? then "" else ToText(v)
  }

  /** `messages.join(", ")` */
  function JoinComma(messages: seq<JsVal>): string {
    JsText.Join(seq(|messages|, (i: int) requires 0 <= i < |messages| => JoinText(messages[i])), ", ")
  }

  /** The message of a validation error; `None` when building it throws. */
  function ValidationMessage(err: ErrorValue): Option<string> {
    if !err.Error? || err.values.None? then None
    else match Messages(err.values.value)
      case None => None
      case Some(ms) => Some(JoinComma(ms))
  }

  /** `errorHandler(err, req, res, next)` with `res.statusCode == resStatus`;
      `production` is `process.env.NODE_ENV === "production"`. */
  function HandleError(err: ErrorValue, resStatus: int, production: bool): (r: Outcome)
    ensures r.HandlerThrows? <==> IsValidation(err) && ValidationMessage(err).None?
    ensures r.Respond? ==> r.status != 200 && !r.body.success
    ensures r.Respond? ==> r.body.stack == if production then Null else Stack(err)
  {
    var status0 := BaseStatus(resStatus);
    var message0 := Or(Message(err), Str("Server Error"));
    var (status1, message1) :=
      if IsObjectIdCast(err) then (404, Str("Resource not found")) else (status0, message0);
    var (status2, message2) :=
      if IsDuplicateKey(err) then (400, Str("Duplicate field value entered")) else (status1, message1);
    if IsValidation(err) then
      match ValidationMessage(err)
      case None => HandlerThrows
      case Some(m) => Respond(400, Body(false, Str(m), if production then Null else Stack(err)))
    else Respond(status2, Body(false, message2, if production then Null else Stack(err)))
  }

  /** An error of no recognised kind keeps the status already set (500 for a
      200) and its own message, or "Server Error" when it has none. */
  lemma PlainErrorKeepsStatus(err: ErrorValue, resStatus: int, production: bool)
    requires !IsObjectIdCast(err) && !IsDuplicateKey(err) && !IsValidation(err)
    ensures HandleError(err, resStatus, production).Respond?
    ensures HandleError(err, resStatus, production).status == BaseStatus(resStatus)
    ensures HandleError(err, resStatus, production).body.message
      == if Truthy(Message(err)) then Message(err) else Str("Server Error")
    ensures Truthy(HandleError(err, resStatus, production).body.message)
  {
  }

  /** A cast error on an ObjectId answers 404 "Resource not found", whatever status was set. */
  lemma ObjectIdCastIsNotFound(err: ErrorValue, resStatus: int, production: bool)
    requires IsObjectIdCast(err) && !IsDuplicateKey(err)
    ensures HandleError(err, resStatus, production).Respond?
    ensures HandleError(err, resStatus, production).status == 404
    ensures HandleError(err, resStatus, production).body.message == Str("Resource not found")
  {
  }

  /** A duplicate-key error answers 400, even when it is also an ObjectId cast error. */
  lemma DuplicateKeyIsBadRequest(err: ErrorValue, resStatus: int, production: bool)
    requires IsDuplicateKey(err) && !IsValidation(err)
    ensures HandleError(err, resStatus, production).Respond?
    ensures HandleError(err, resStatus, production).status == 400
    ensures HandleError(err, resStatus, production).body.message == Str("Duplicate field value entered")
  {
  }

  /** A validation error answers 400 with the field messages joined by ", ",
      whatever else the error carries; with a single field its message is the whole text. */
  lemma ValidationErrorWins(err: ErrorValue, resStatus: int, production: bool)
    requires IsValidation(err) && ValidationMessage(err).Some?
    ensures HandleError(err, resStatus, production).Respond?
    ensures HandleError(err, resStatus, production).status == 400
    ensures HandleError(err, resStatus, production).body.message == Str(ValidationMessage(err).value)
    ensures |err.values.value| == 1 ==>
      ValidationMessage(err).value == JoinText(Prop(err.values.value[0], "message"))
  {
  }

  /** `notFound`: the status is set to 404 and an error naming the URL is passed on. */
  function NotFound(originalUrl: string, stack: JsVal): (r: (int, ErrorValue))
    ensures r.0 == 404 && r.1.Error?
    ensures !IsObjectIdCast(r.1) && !IsDuplicateKey(r.1) && !IsValidation(r.1)
  {
    (404, Error(Str("Error"), Str("Not Found - " + originalUrl), Undefined, Undefined, None, stack))
  }

  /** An unmatched route is answered with 404 and "Not Found - " followed by the URL. */
  lemma UnmatchedRouteAnswer(originalUrl: string, stack: JsVal, production: bool)
    ensures var (status, err) := NotFound(originalUrl, stack);
      var r := HandleError(err, status, production);
      r.Respond? && r.status == 404 && r.body.message == Str("Not Found - " + originalUrl)
  {
    var (status, err) := NotFound(originalUrl, stack);
    PlainErrorKeepsStatus(err, status, production);
    assert Truthy(Str("Not Found - " + originalUrl));
  }
}
