/** The two notification endpoints: `POST /api/notifications/medication-reminder`
    and `POST /api/notifications/meal-reminder`. Each validates the request,
    looks up the user's address, sends one e-mail and answers with JSON; a
    thrown error goes, with the status set so far, to the error middleware. */
module NotificationController {

  import opened Js
  import EmailService
  import EM = ErrorMiddleware

  /** The outcome of `User.findById(userId).select('email name')`. */
  datatype UserLookup = LookupThrew(error: EM.ErrorValue) | NoUser | User(email: JsVal)

  datatype Details =
    | MedicationDetails(email: JsVal, notificationType: JsVal, medicationName: JsVal)
    | MealDetails(email: JsVal, mealName: JsVal)

  /** The JSON a response carries. */
  datatype Reply = SuccessReply(success: bool, message: string, details: Details) | ErrorReply(body: EM.Body)

  /** The services and settings the handlers use: `process.env.EMAIL_USER`,
      whether `NODE_ENV` is "production", the server's date formatting, the
      mail transport and the e-mail wording (`EmailService.SourceTexts` in the
      server as written). */
  datatype Env = Env(emailUser: JsVal, production: bool, localeDate: JsVal -> string,
                     transport: EmailService.MailOptions -> bool, texts: EmailService.Texts)

  const SentMessage: string := "Email notification sent successfully"
  const SendFailed: string := "Failed to send email notification"

  /** The Express response: its status code, 200 until set, and the JSON sent. */
  class Response {
    var statusCode: int
    var reply: Option<Reply>

    constructor ()
      ensures statusCode == 200 && reply == None
    {
      statusCode := 200;
      reply := None;
    }

    /** `res.status(code)` */
    method Status(code: int)
      modifies this
      ensures statusCode == code && reply == old(reply)
    {
      statusCode := code;
    }

    /** `res.json(r)` */
    method Json(r: Reply)
      modifies this
      ensures reply == Some(r) && statusCode == old(statusCode)
    {
      reply := Some(r);
    }
  }

  /** `new Error(message)`; stack traces are not modelled. */
  function Raise(message: JsVal): EM.ErrorValue {
    EM.Error(Str("Error"), message, Undefined, Undefined, None, Undefined)
  }

  /** What the `catch` block rethrows for an error caught inside the `try`. */
  function Rethrown(caught: EM.ErrorValue): EM.ErrorValue {
    Raise(Or(EM.Message(caught), Str(SendFailed)))
  }

  /** Where a handler's own code ends: a success reply, or a throw with the
      status set so far; `emailed` is the message handed to `sendEmail`, if any. */
  datatype Exit = Replied(reply: Reply) | Threw(status: int, error: EM.ErrorValue)
  datatype Decision = Decision(exit: Exit, emailed: Option<EmailService.EmailContent>)

  /** The final status and JSON once `asyncHandler` has passed a throw to
      `errorHandler`. `None` means that this app sends no JSON: `errorHandler`
      itself threw, Express's own fallback handler answers, and the status is
      the one on `res` when `errorHandler` threw. */
  function Final(exit: Exit, production: bool): (int, Option<Reply>) {
    match exit
    case Replied(r) => (200, Some(r))
    case Threw(s, e) =>
      match EM.HandleError(e, s, production)
      case Respond(status, body) => (status, Some(ErrorReply(body)))
      case HandlerThrows => (s, None)
  }

  /** `errorHandler` applied to the response. */
  method ErrorHandler(err: EM.ErrorValue, res: Response, production: bool)
    requires res.reply == None
    modifies res
    ensures (res.statusCode, res.reply) == Final(Threw(old(res.statusCode), err), production)
  {
    var out := EM.HandleError(err, res.statusCode, production);
    if out.Respond? {
      res.Status(out.status);
      res.Json(ErrorReply(out.body));
    }
  }

  /** The response and the pending throw match where the handler's code ended. */
  predicate Reached(exit: Exit, statusCode: int, reply: Option<Reply>, thrown: Option<EM.ErrorValue>) {
    match exit
    case Replied(r) => statusCode == 200 && reply == Some(r) && thrown == None
    case Threw(s, e) => statusCode == s && reply == None && thrown == Some(e)
  }

  /** `asyncHandler`: a throw from the handler goes to the error middleware. */
  method Dispatch(exit: Exit, thrown: Option<EM.ErrorValue>, res: Response, production: bool)
    requires Reached(exit, res.statusCode, res.reply, thrown)
    modifies res
    ensures (res.statusCode, res.reply) == Final(exit, production)
  {
    if thrown.Some? {
      ErrorHandler(thrown.value, res, production);
    }
  }

  /** The e-mail the `try` block builds for a notification type, `None` for a
      type it rejects. */
  function MedicationEmail(texts: EmailService.Texts, medication: JsVal, notificationType: JsVal, days: JsVal,
                           localeDate: JsVal -> string): Option<EmailService.EmailContent>
    requires Accessible(medication)
  {
    if notificationType == Str("reminder") then Some(EmailService.MedicationReminderEmail(texts, medication))
    else if notificationType == Str("expiry") && days.Num? then
      Some(EmailService.MedicationExpiryEmail(texts, medication, days.n, localeDate))
    else None
  }

  /** The message of the error the `try` block throws for a rejected type. */
  function RejectionMessage(notificationType: JsVal): string {
    if notificationType == Str("expiry") then "Days until expiry is required for expiry notifications"
    else "Invalid notification type"
  }

  /** Sending a built e-mail and answering: the success JSON when `sendEmail`
      reports success, otherwise the error the `catch` block rethrows with 500. */
  function Deliver(content: EmailService.EmailContent, email: JsVal, env: Env, details: Details): Decision {
    if EmailService.SendEmail(env.texts, env.emailUser, email, content.subject, content.html, env.transport).0 then
      Decision(Replied(SuccessReply(true, SentMessage, details)), Some(content))
    else Decision(Threw(500, Rethrown(Raise(Str(SendFailed)))), Some(content))
  }

  method DeliverStep(content: EmailService.EmailContent, email: JsVal, env: Env, details: Details, res: Response)
    returns (emailed: Option<EmailService.EmailContent>, thrown: Option<EM.ErrorValue>)
    requires res.statusCode == 200 && res.reply == None
    modifies res
    ensures emailed == Deliver(content, email, env, details).emailed
    ensures Reached(Deliver(content, email, env, details).exit, res.statusCode, res.reply, thrown)
  {
    emailed := Some(content);
    thrown := None;
    var caught: Option<EM.ErrorValue> := None;
    var sent := EmailService.SendEmail(env.texts, env.emailUser, email, content.subject, content.html, env.transport).0;
    if sent {
      res.Json(SuccessReply(true, SentMessage, details));
    } else {
      caught := Some(Raise(Str(SendFailed)));
    }
    // catch
    if caught.Some? {
      res.Status(500);
      thrown := Some(Rethrown(caught.value));
    }
  }

  /** The `try` block of `sendMedicationReminder`, once the user's address is known. */
  function MedicationTry(medication: JsVal, t: JsVal, days: JsVal, email: JsVal, env: Env): Decision
    requires Accessible(medication)
  {
    match MedicationEmail(env.texts, medication, t, days, env.localeDate)
    case None => Decision(Threw(500, Rethrown(Raise(Str(RejectionMessage(t))))), None)
    case Some(content) => Deliver(content, email, env, MedicationDetails(email, t, Prop(medication, "name")))
  }

  /** The template choice at the start of the `try` block: the e-mail, or the
      status 400 and the error thrown for a rejected type. */
  method ChooseTemplate(medication: JsVal, t: JsVal, days: JsVal, env: Env, res: Response)
    returns (content: Option<EmailService.EmailContent>, caught: Option<EM.ErrorValue>)
    requires Accessible(medication)
    modifies res
    ensures content == MedicationEmail(env.texts, medication, t, days, env.localeDate)
    ensures content.None? ==> res.statusCode == 400 && caught == Some(Raise(Str(RejectionMessage(t))))
    ensures content.Some? ==> res.statusCode == old(res.statusCode)
    ensures res.reply == old(res.reply)
  {
    content := None;
    caught := None;
    if t == Str("reminder") {
      content := Some(EmailService.MedicationReminderEmail(env.texts, medication));
    } else if t == Str("expiry") {
      if !days.Num? {
        res.Status(400);
        caught := Some(Raise(Str("Days until expiry is required for expiry notifications")));
      } else {
        content := Some(EmailService.MedicationExpiryEmail(env.texts, medication, days.n, env.localeDate));
      }
    } else {
      res.Status(400);
      caught := Some(Raise(Str("Invalid notification type")));
    }
  }

  /** The `try` and `catch` blocks of `sendMedicationReminder`, step by step. */
  method MedicationTryStep(medication: JsVal, t: JsVal, days: JsVal, email: JsVal, env: Env, res: Response)
    returns (emailed: Option<EmailService.EmailContent>, thrown: Option<EM.ErrorValue>)
    requires Accessible(medication)
    requires res.statusCode == 200 && res.reply == None
    modifies res
    ensures emailed == MedicationTry(medication, t, days, email, env).emailed
    ensures Reached(MedicationTry(medication, t, days, email, env).exit, res.statusCode, res.reply, thrown)
  {
    var content, caught := ChooseTemplate(medication, t, days, env, res);
    if content.Some? {
      emailed, thrown := DeliverStep(content.value, email, env, MedicationDetails(email, t, Prop(medication, "name")), res);
    } else {
      // catch
      emailed := None;
      res.Status(500);
      thrown := Some(Rethrown(caught.value));
    }
  }

  /** The decision `sendMedicationReminder` makes for a parsed request body, as written. */
  function MedicationReminderDecision(body: JsVal, lookup: UserLookup, env: Env): Decision
    requires Accessible(body)
  {
    var medication := Prop(body, "medication");
    if !Truthy(medication) || !Truthy(Prop(body, "type")) then
      Decision(Threw(400, Raise(Str("Missing required fields"))), None)
    else match lookup
      case LookupThrew(e) => Decision(Threw(200, e), None)
      case NoUser => Decision(Threw(404, Raise(Str("User email not found"))), None)
      case User(email) =>
        if !Truthy(email) then Decision(Threw(404, Raise(Str("User email not found"))), None)
        else MedicationTry(medication, Prop(body, "type"), Prop(body, "daysUntilExpiry"), email, env)
  }

  /** `sendMedicationReminder` on a fresh response, followed by the error middleware. */
  method SendMedicationReminder(body: JsVal, lookup: UserLookup, env: Env, res: Response)
    returns (emailed: Option<EmailService.EmailContent>)
    requires Accessible(body)
    requires res.statusCode == 200 && res.reply == None
    modifies res
    ensures emailed == MedicationReminderDecision(body, lookup, env).emailed
    ensures (res.statusCode, res.reply) == Final(MedicationReminderDecision(body, lookup, env).exit, env.production)
  {
    var thrown;
    emailed, thrown := MedicationReminderHandler(body, lookup, env, res);
    Dispatch(MedicationReminderDecision(body, lookup, env).exit, thrown, res, env.production);
  }

  /** The body of `sendMedicationReminder`, step by step: the status it sets,
      the JSON it sends or the error it throws. */
  method MedicationReminderHandler(body: JsVal, lookup: UserLookup, env: Env, res: Response)
    returns (emailed: Option<EmailService.EmailContent>, thrown: Option<EM.ErrorValue>)
    requires Accessible(body)
    requires res.statusCode == 200 && res.reply == None
    modifies res
    ensures emailed == MedicationReminderDecision(body, lookup, env).emailed
    ensures Reached(MedicationReminderDecision(body, lookup, env).exit, res.statusCode, res.reply, thrown)
  {
    emailed := None;
    var medication := Prop(body, "medication");
    var t := Prop(body, "type");
    var days := Prop(body, "daysUntilExpiry");
    if !Truthy(medication) || !Truthy(t) {
      res.Status(400);
      thrown := Some(Raise(Str("Missing required fields")));
    } else if lookup.LookupThrew? {
      thrown := Some(lookup.error);
    } else if lookup.NoUser? || !Truthy(lookup.email) {
      res.Status(404);
      thrown := Some(Raise(Str("User email not found")));
    } else {
      emailed, thrown := MedicationTryStep(medication, t, days, lookup.email, env, res);
    }
  }

  /** The decision `sendMealReminder` makes for a parsed request body. */
  function MealReminderDecision(body: JsVal, lookup: UserLookup, env: Env): Decision
    requires Accessible(body)
  {
    var mealName := Prop(body, "mealName");
    var mealContent := Prop(body, "mealContent");
    if !Truthy(mealName) || !Truthy(mealContent) then
      Decision(Threw(400, Raise(Str("Missing required fields"))), None)
    else match lookup
      case LookupThrew(e) => Decision(Threw(200, e), None)
      case NoUser => Decision(Threw(404, Raise(Str("User email not found"))), None)
      case User(email) =>
        if !Truthy(email) then Decision(Threw(404, Raise(Str("User email not found"))), None)
        else Deliver(EmailService.MealPlanReminderEmail(env.texts, mealName, mealContent), email, env, MealDetails(email, mealName))
  }

  /** `sendMealReminder` on a fresh response, followed by the error middleware. */
  method SendMealReminder(body: JsVal, lookup: UserLookup, env: Env, res: Response)
    returns (emailed: Option<EmailService.EmailContent>)
    requires Accessible(body)
    requires res.statusCode == 200 && res.reply == None
    modifies res
    ensures emailed == MealReminderDecision(body, lookup, env).emailed
    ensures (res.statusCode, res.reply) == Final(MealReminderDecision(body, lookup, env).exit, env.production)
  {
    var thrown;
    emailed, thrown := MealReminderHandler(body, lookup, env, res);
    Dispatch(MealReminderDecision(body, lookup, env).exit, thrown, res, env.production);
  }

  /** The body of `sendMealReminder`, step by step. */
  method MealReminderHandler(body: JsVal, lookup: UserLookup, env: Env, res: Response)
    returns (emailed: Option<EmailService.EmailContent>, thrown: Option<EM.ErrorValue>)
    requires Accessible(body)
    requires res.statusCode == 200 && res.reply == None
    modifies res
    ensures emailed == MealReminderDecision(body, lookup, env).emailed
    ensures Reached(MealReminderDecision(body, lookup, env).exit, res.statusCode, res.reply, thrown)
  {
    emailed := None;
    var mealName := Prop(body, "mealName");
    var mealContent := Prop(body, "mealContent");
    if !Truthy(mealName) || !Truthy(mealContent) {
      res.Status(400);
      thrown := Some(Raise(Str("Missing required fields")));
    } else if lookup.LookupThrew? {
      thrown := Some(lookup.error);
    } else if lookup.NoUser? || !Truthy(lookup.email) {
      res.Status(404);
      thrown := Some(Raise(Str("User email not found")));
    } else {
      var content := EmailService.MealPlanReminderEmail(env.texts, mealName, mealContent);
      emailed, thrown := DeliverStep(content, lookup.email, env, MealDetails(lookup.email, mealName), res);
    }
  }

  /** The JSON error answer with a given status and message; the stack is
      `undefined` for errors built with `new Error` and `null` in production. */
  function ErrorAnswer(status: int, message: string, production: bool): (int, Option<Reply>) {
    (status, Some(ErrorReply(EM.Body(false, Str(message), if production then Null else Undefined))))
  }

  /** An error the handler raises itself reaches the client with the status set
      before the throw (500 when none was set) and its own message. */
  lemma RaisedAnswer(status: int, message: string, production: bool)
    requires message != ""
    ensures Final(Threw(status, Raise(Str(message))), production)
      == ErrorAnswer(if status == 200 then 500 else status, message, production)
  {
    EM.PlainErrorKeepsStatus(Raise(Str(message)), status, production);
  }

  /** A request without a medication or a type is answered 400 "Missing
      required fields" before the user is looked up, and no e-mail is sent. */
  lemma MedicationMissingFields(body: JsVal, lookup: UserLookup, env: Env)
    requires Accessible(body)
    requires !Truthy(Prop(body, "medication")) || !Truthy(Prop(body, "type"))
    ensures MedicationReminderDecision(body, lookup, env).emailed == None
    ensures Final(MedicationReminderDecision(body, lookup, env).exit, env.production)
      == ErrorAnswer(400, "Missing required fields", env.production)
  {
    RaisedAnswer(400, "Missing required fields", env.production);
  }

  /** A complete request for a user without an address is answered 404 "User
      email not found", and no e-mail is sent. */
  lemma MedicationUnknownUser(body: JsVal, lookup: UserLookup, env: Env)
    requires Accessible(body)
    requires Truthy(Prop(body, "medication")) && Truthy(Prop(body, "type"))
    requires lookup.NoUser? || (lookup.User? && !Truthy(lookup.email))
    ensures MedicationReminderDecision(body, lookup, env).emailed == None
    ensures Final(MedicationReminderDecision(body, lookup, env).exit, env.production)
      == ErrorAnswer(404, "User email not found", env.production)
  {
    RaisedAnswer(404, "User email not found", env.production);
  }

  /** An e-mail goes out only for a complete request of a known type from a user
      with an address, and it is the template for that type. */
  lemma MedicationEmailOnlyWhenValid(body: JsVal, lookup: UserLookup, env: Env)
    requires Accessible(body)
    requires MedicationReminderDecision(body, lookup, env).emailed.Some?
    ensures Truthy(Prop(body, "medication")) && Truthy(Prop(body, "type"))
    ensures lookup.User? && Truthy(lookup.email)
    ensures MedicationReminderDecision(body, lookup, env).emailed
      == MedicationEmail(env.texts, Prop(body, "medication"), Prop(body, "type"), Prop(body, "daysUntilExpiry"), env.localeDate)
  {
  }

  /** Once the e-mail is built, the request succeeds exactly when the transport
      accepts the message: the success JSON echoes the address, the type and the
      medication's name; otherwise the answer is 500 "Failed to send email notification". */
  lemma MedicationSentIffAccepted(body: JsVal, email: JsVal, env: Env)
    requires Accessible(body)
    requires Truthy(Prop(body, "medication")) && Truthy(Prop(body, "type")) && Truthy(email)
    requires MedicationEmail(env.texts, Prop(body, "medication"), Prop(body, "type"),
                             Prop(body, "daysUntilExpiry"), env.localeDate).Some?
    ensures var content := MedicationEmail(env.texts, Prop(body, "medication"), Prop(body, "type"),
                                           Prop(body, "daysUntilExpiry"), env.localeDate).value;
      var accepted := env.transport(EmailService.MailOptionsFor(env.texts, env.emailUser, email, content.subject, content.html));
      var answer := Final(MedicationReminderDecision(body, User(email), env).exit, env.production);
      && (accepted ==> answer == (200, Some(SuccessReply(true, SentMessage,
                         MedicationDetails(email, Prop(body, "type"), Prop(Prop(body, "medication"), "name"))))))
      && (!accepted ==> answer == ErrorAnswer(500, SendFailed, env.production))
  {
    RaisedAnswer(500, SendFailed, env.production);
  }

  /** As written: a notification type other than "reminder" and "expiry", or an
      expiry request without a numeric day count, is answered 500, because the
      `catch` block overwrites the 400 set inside the `try`. The message survives. */
  lemma MedicationRejectedTypeAnswers500(body: JsVal, email: JsVal, env: Env)
    requires Accessible(body)
    requires Truthy(Prop(body, "medication")) && Truthy(Prop(body, "type")) && Truthy(email)
    requires MedicationEmail(env.texts, Prop(body, "medication"), Prop(body, "type"),
                             Prop(body, "daysUntilExpiry"), env.localeDate).None?
    ensures MedicationReminderDecision(body, User(email), env).emailed == None
    ensures Final(MedicationReminderDecision(body, User(email), env).exit, env.production)
      == ErrorAnswer(500, RejectionMessage(Prop(body, "type")), env.production)
  {
    RaisedAnswer(500, RejectionMessage(Prop(body, "type")), env.production);
  }

  /** A request that shows it: type "weekly" for a user with an address is answered 500, not 400. */
  lemma MedicationRejectedTypeExample(env: Env)
    ensures var body := Obj(map["medication" := Obj(map["name" := Str("Aspirin")]), "type" := Str("weekly")]);
      Final(MedicationReminderDecision(body, User(Str("ana@example.com")), env).exit, env.production).0 == 500
  {
    var body := Obj(map["medication" := Obj(map["name" := Str("Aspirin")]), "type" := Str("weekly")]);
    assert Prop(body, "type") == Str("weekly");
    MedicationRejectedTypeAnswers500(body, Str("ana@example.com"), env);
  }

  /** The `try` block as evidently intended: a rejected type keeps its 400 (the
      `catch` sets 500 only when no status was set in the `try`). */
  function MedicationTryIntended(medication: JsVal, t: JsVal, days: JsVal, email: JsVal, env: Env): Decision
    requires Accessible(medication)
  {
    match MedicationEmail(env.texts, medication, t, days, env.localeDate)
    case None => Decision(Threw(400, Raise(Str(RejectionMessage(t)))), None)
    case Some(content) => Deliver(content, email, env, MedicationDetails(email, t, Prop(medication, "name")))
  }

  /** `sendMedicationReminder` as evidently intended. */
  function MedicationReminderDecisionIntended(body: JsVal, lookup: UserLookup, env: Env): Decision
    requires Accessible(body)
  {
    var medication := Prop(body, "medication");
    if !Truthy(medication) || !Truthy(Prop(body, "type")) then
      Decision(Threw(400, Raise(Str("Missing required fields"))), None)
    else match lookup
      case LookupThrew(e) => Decision(Threw(200, e), None)
      case NoUser => Decision(Threw(404, Raise(Str("User email not found"))), None)
      case User(email) =>
        if !Truthy(email) then Decision(Threw(404, Raise(Str("User email not found"))), None)
        else MedicationTryIntended(medication, Prop(body, "type"), Prop(body, "daysUntilExpiry"), email, env)
  }

  /** Corrected: a rejected type is answered 400 with the rejection message, and
      every other request is answered exactly as by the handler as written. */
  lemma MedicationRejectedTypeIntended(body: JsVal, lookup: UserLookup, env: Env)
    requires Accessible(body)
    ensures var medication := Prop(body, "medication");
      var t := Prop(body, "type");
      var rejected := Truthy(medication) && Truthy(t) && lookup.User? && Truthy(lookup.email)
                      && MedicationEmail(env.texts, medication, t, Prop(body, "daysUntilExpiry"), env.localeDate).None?;
      && (rejected ==> Final(MedicationReminderDecisionIntended(body, lookup, env).exit, env.production)
                       == ErrorAnswer(400, RejectionMessage(t), env.production))
      && (!rejected ==> MedicationReminderDecisionIntended(body, lookup, env) == MedicationReminderDecision(body, lookup, env))
  {
    RaisedAnswer(400, RejectionMessage(Prop(body, "type")), env.production);
  }

  /** A meal reminder without a meal name or content is answered 400 "Missing
      required fields", and no e-mail is sent. */
  lemma MealMissingFields(body: JsVal, lookup: UserLookup, env: Env)
    requires Accessible(body)
    requires !Truthy(Prop(body, "mealName")) || !Truthy(Prop(body, "mealContent"))
    ensures MealReminderDecision(body, lookup, env).emailed == None
    ensures Final(MealReminderDecision(body, lookup, env).exit, env.production)
      == ErrorAnswer(400, "Missing required fields", env.production)
  {
    RaisedAnswer(400, "Missing required fields", env.production);
  }

  /** A complete meal reminder for a user without an address is answered 404. */
  lemma MealUnknownUser(body: JsVal, lookup: UserLookup, env: Env)
    requires Accessible(body)
    requires Truthy(Prop(body, "mealName")) && Truthy(Prop(body, "mealContent"))
    requires lookup.NoUser? || (lookup.User? && !Truthy(lookup.email))
    ensures MealReminderDecision(body, lookup, env).emailed == None
    ensures Final(MealReminderDecision(body, lookup, env).exit, env.production)
      == ErrorAnswer(404, "User email not found", env.production)
  {
    RaisedAnswer(404, "User email not found", env.production);
  }

  /** A complete meal reminder for a user with an address sends the meal
      template and succeeds exactly when the transport accepts it, echoing the
      address and the meal name; otherwise the answer is 500. */
  lemma MealSentIffAccepted(body: JsVal, email: JsVal, env: Env)
    requires Accessible(body)
    requires Truthy(Prop(body, "mealName")) && Truthy(Prop(body, "mealContent")) && Truthy(email)
    ensures var content := EmailService.MealPlanReminderEmail(env.texts, Prop(body, "mealName"), Prop(body, "mealContent"));
      var accepted := env.transport(EmailService.MailOptionsFor(env.texts, env.emailUser, email, content.subject, content.html));
      var answer := Final(MealReminderDecision(body, User(email), env).exit, env.production);
      && MealReminderDecision(body, User(email), env).emailed == Some(content)
      && (accepted ==> answer == (200, Some(SuccessReply(true, SentMessage, MealDetails(email, Prop(body, "mealName"))))))
      && (!accepted ==> answer == ErrorAnswer(500, SendFailed, env.production))
  {
    RaisedAnswer(500, SendFailed, env.production);
  }

  /** A failure of the user lookup itself reaches the client through the error
      middleware with no status set: a plain error is answered 500. */
  lemma LookupFailureAnswers500(body: JsVal, err: EM.ErrorValue, env: Env)
    requires Accessible(body)
    requires Truthy(Prop(body, "medication")) && Truthy(Prop(body, "type"))
    requires !EM.IsObjectIdCast(err) && !EM.IsDuplicateKey(err) && !EM.IsValidation(err)
    ensures MedicationReminderDecision(body, LookupThrew(err), env).emailed == None
    ensures Final(MedicationReminderDecision(body, LookupThrew(err), env).exit, env.production).0 == 500
  {
    EM.PlainErrorKeepsStatus(err, 200, env.production);
  }
}
