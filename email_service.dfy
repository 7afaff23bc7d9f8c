/** The notification e-mails: the three message templates (subject and HTML
    body) and the envelope `sendEmail` hands to the mail transport. Field
    values are inserted as `String(v)` would print them, without HTML escaping. */
module EmailService {

  import opened Js

  /** The fixed wording of the messages, piece by piece between the inserted
      values. The template functions take it as a parameter; `SourceTexts`
      is the wording the server sends. */
  datatype Texts = Texts(
    styles: string, containerOpen: string, footer: string,
    reminderHead: string, reminderDosage: string, reminderTime: string,
    reminderFrequency: string, reminderTail: string,
    expiryHead: string, expiryNoticeOpen: string, expiryName: string, expiryDosage: string,
    expiryDate: string, expiryAction: string, expiryTail: string,
    mealHead: string, mealContentOpen: string, mealTail: string)

  const SourceTexts: Texts := Texts(
    styles :=
      "\n"
      + "  <style>\n"
      + "    .email-container {\n"
      + "      font-family: Arial, sans-serif;\n"
      + "      max-width: 600px;\n"
      + "      margin: 0 auto;\n"
      + "      padding: 20px;\n"
      + "      background-color: #f9f9f9;\n"
      + "    }\n"
      + "    .header {\n"
      + "      background-color: #4A90E2;\n"
      + "      color: white;\n"
      + "      padding: 20px;\n"
      + "      text-align: center;\n"
      + "      border-radius: 8px 8px 0 0;\n"
      + "    }\n"
      + "    .content {\n"
      + "      background-color: white;\n"
      + "      padding: 20px;\n"
      + "      border-radius: 0 0 8px 8px;\n"
      + "      box-shadow: 0 2px 4px rgba(0,0,0,0.1);\n"
      + "    }\n"
      + "    .info-list {\n"
      + "      list-style: none;\n"
      + "      padding: 0;\n"
      + "    }\n"
      + "    .info-list li {\n"
      + "      padding: 10px 0;\n"
      + "      border-bottom: 1px solid #eee;\n"
      + "    }\n"
      + "    .footer {\n"
      + "      text-align: center;\n"
      + "      margin-top: 20px;\n"
      + "      color: #666;\n"
      + "      font-size: 12px;\n"
      + "    }\n"
      + "    .alert {\n"
      + "      padding: 10px;\n"
      + "      border-radius: 4px;\n"
      + "      margin: 10px 0;\n"
      + "    }\n"
      + "    .alert-warning {\n"
      + "      background-color: #fff3cd;\n"
      + "      border: 1px solid #ffeeba;\n"
      + "      color: #856404;\n"
      + "    }\n"
      + "    .alert-danger {\n"
      + "      background-color: #f8d7da;\n"
      + "      border: 1px solid #f5c6cb;\n"
      + "      color: #721c24;\n"
      + "    }\n"
      + "  </style>\n",
    containerOpen :=
      "\n"
      + "        <div class=\"email-container\">\n"
      + "          ",
    footer :=
      "\n"
      + "          <div class=\"footer\">\n"
      + "            <p>This is an automated message from your Health & Fitness App.</p>\n"
      + "            <p>If you have any questions, please contact support.</p>\n"
      + "          </div>\n"
      + "        </div>\n"
      + "      ",
    reminderHead :=
      "\n"
      + "      <div class=\"header\">\n"
      + "        <h2>\U{1F514} Medication Reminder</h2>\n"
      + "      </div>\n"
      + "      <div class=\"content\">\n"
      + "        <p>Hello! This is a reminder that it's time to take your medication:</p>\n"
      + "        <ul class=\"info-list\">\n"
      + "          <li><strong>Medication:</strong> ",
    reminderDosage :=
      "</li>\n"
      + "          <li><strong>Dosage:</strong> ",
    reminderTime :=
      "</li>\n"
      + "          <li><strong>Time:</strong> ",
    reminderFrequency :=
      "</li>\n"
      + "          <li><strong>Frequency:</strong> ",
    reminderTail :=
      "</li>\n"
      + "        </ul>\n"
      + "        <div class=\"alert alert-warning\">\n"
      + "          <p>\U{26A0}\U{FE0F} Please make sure to take your medication as prescribed.</p>\n"
      + "        </div>\n"
      + "      </div>\n"
      + "    ",
    expiryHead :=
      "\n"
      + "      <div class=\"header\">\n"
      + "        <h2>\U{1F3E5} Medication Expiry Alert</h2>\n"
      + "      </div>\n"
      + "      <div class=\"content\">\n"
      + "        <div class=\"alert ",
    expiryNoticeOpen :=
      "\">\n"
      + "          <p>",
    expiryName :=
      "</p>\n"
      + "        </div>\n"
      + "        <ul class=\"info-list\">\n"
      + "          <li><strong>Medication:</strong> ",
    expiryDosage :=
      "</li>\n"
      + "          <li><strong>Dosage:</strong> ",
    expiryDate :=
      "</li>\n"
      + "          <li><strong>Expiry Date:</strong> ",
    expiryAction :=
      "</li>\n"
      + "        </ul>\n"
      + "        <p><strong>Action Required:</strong></p>\n"
      + "        <p>",
    expiryTail :=
      "</p>\n"
      + "      </div>\n"
      + "    ",
    mealHead :=
      "\n"
      + "      <div class=\"header\">\n"
      + "        <h2>\U{1F37D}\U{FE0F} Meal Time Reminder</h2>\n"
      + "      </div>\n"
      + "      <div class=\"content\">\n"
      + "        <p>Hello! It's time for your ",
    mealContentOpen :=
      "!</p>\n"
      + "        <div style=\"background-color: #e8f4fd; padding: 15px; border-radius: 8px; margin: 15px 0;\">\n"
      + "          <h3>\U{1F4DD} Your Planned Meal:</h3>\n"
      + "          <p style=\"font-size: 16px;\">",
    mealTail :=
      "</p>\n"
      + "        </div>\n"
      + "        <p>Remember to:</p>\n"
      + "        <ul>\n"
      + "          <li>Take your time and eat mindfully</li>\n"
      + "          <li>Drink plenty of water</li>\n"
      + "          <li>Enjoy your meal!</li>\n"
      + "        </ul>\n"
      + "        <p>\U{1F31F} Stay on track with your health goals!</p>\n"
      + "      </div>\n"
      + "    "
  )

  /** `{ subject, html }` as the template builders return it. */
  datatype EmailContent = EmailContent(subject: string, html: string)

  /** The message handed to the transport. */
  datatype MailOptions = MailOptions(from: string, to: JsVal, subject: string, html: string)

  const WarningSign: string := "\U{26A0}\U{FE0F} "
  const ReminderPrefix: string := "Medication Reminder: Time to take "
  const ExpiryPrefix: string := "Medication Expiry Alert: "
  const MealPrefix: string := "\U{1F37D}\U{FE0F} Meal Time Reminder: "

  const ExpiredNotice: string := WarningSign + "Your medication has expired!"
  const ExpiredAction: string :=
    "\U{2757} Please consult your healthcare provider for a new prescription. Do not take expired medications."
  const RefillAction: string :=
    "\U{1F4CB} Please plan to refill your prescription soon to ensure continuous treatment."

  /** `text` holds `part` verbatim at offset `at`. */
  predicate Verbatim(text: string, at: nat, part: string) {
    at + |part| <= |text| && text[at..at + |part|] == part
  }

  lemma VerbatimAt(a: string, b: string, c: string)
    ensures Verbatim(a + (b + c), |a|, b)
  {
    assert (a + (b + c))[|a|..|a| + |b|] == b;
  }

  lemma VerbatimExtend(x: string, at: nat, part: string, y: string)
    requires Verbatim(x, at, part)
    ensures Verbatim(x + y, at, part)
  {
    assert (x + y)[at..at + |part|] == x[at..at + |part|];
  }

  /** The rest of `s` after `prefix`, when `s` starts with it. */
  function After(prefix: string, s: string): Option<string> {
    if |prefix| <= |s| && s[..|prefix|] == prefix then Some(s[|prefix|..]) else None
  }

  lemma AfterPrefix(prefix: string, rest: string)
    ensures After(prefix, prefix + rest) == Some(rest)
  {
    assert (prefix + rest)[..|prefix|] == prefix;
  }

  lemma NotAfter(prefix: string, s: string, k: nat)
    requires k < |prefix| && k < |s| && prefix[k] != s[k]
    ensures After(prefix, s).None?
  {
    if |prefix| <= |s| {
      assert s[..|prefix|][k] != prefix[k];
    }
  }

  /** What a subject line announces, read back from its text. */
  datatype SubjectInfo =
    | ReminderSubject(name: string)
    | ExpirySubject(expired: bool, name: string)
    | MealSubject(mealName: string)
    | OtherSubject

  function ReadSubject(s: string): SubjectInfo {
    if After(ReminderPrefix, s).Some? then ReminderSubject(After(ReminderPrefix, s).value)
    else if After(WarningSign + ExpiryPrefix, s).Some? then ExpirySubject(true, After(WarningSign + ExpiryPrefix, s).value)
    else if After(ExpiryPrefix, s).Some? then ExpirySubject(false, After(ExpiryPrefix, s).value)
    else if After(MealPrefix, s).Some? then MealSubject(After(MealPrefix, s).value)
    else OtherSubject
  }

  /** An expiry e-mail is about an expired medication exactly when the day count is at most 0. */
  predicate IsExpired(daysUntilExpiry: int) {
    daysUntilExpiry <= 0
  }

  function AlertClass(expired: bool): string {
    if expired then "alert-danger" else "alert-warning"
  }

  /** The alert box's sentence. */
  function ExpiryNotice(daysUntilExpiry: int): (n: string)
    ensures IsExpired(daysUntilExpiry) <==> n == ExpiredNotice
  {
    if IsExpired(daysUntilExpiry) then ExpiredNotice
    else
      var n := WarningSign + "Your medication will expire in " + IntToDecimal(daysUntilExpiry) + " days.";
      assert n[|WarningSign| + 16] == 'w' && ExpiredNotice[|WarningSign| + 16] == 'h';
      n
  }

  /** Different day counts are announced differently. */
  lemma ExpiryNoticeIdentifiesDays(a: int, b: int)
    requires !IsExpired(a) && !IsExpired(b)
    requires ExpiryNotice(a) == ExpiryNotice(b)
    ensures a == b
  {
    var head := WarningSign + "Your medication will expire in ";
    var ta := IntToDecimal(a);
    var tb := IntToDecimal(b);
    assert ExpiryNotice(a) == head + ta + " days.";
    assert ExpiryNotice(b) == head + tb + " days.";
    assert |ta| == |tb|;
    assert ta == ExpiryNotice(a)[|head|..|head| + |ta|];
    assert tb == ExpiryNotice(b)[|head|..|head| + |tb|];
    IntToDecimalInjective(a, b);
  }

  /** Which alert class the expiry body carries, read back from its text. */
  function AlertInHtml(texts: Texts, html: string): Option<bool> {
    if After(texts.expiryHead + AlertClass(true) + texts.expiryNoticeOpen, html).Some? then Some(true)
    else if After(texts.expiryHead + AlertClass(false) + texts.expiryNoticeOpen, html).Some? then Some(false)
    else None
  }

  lemma AlertClassReadBack(texts: Texts, expired: bool, rest: string)
    ensures AlertInHtml(texts, texts.expiryHead + AlertClass(expired) + texts.expiryNoticeOpen + rest) == Some(expired)
  {
    var danger := texts.expiryHead + AlertClass(true) + texts.expiryNoticeOpen;
    var warning := texts.expiryHead + AlertClass(false) + texts.expiryNoticeOpen;
    var html := texts.expiryHead + AlertClass(expired) + texts.expiryNoticeOpen + rest;
    if expired {
      AfterPrefix(danger, rest);
    } else {
      var k := |texts.expiryHead| + 6;
      assert danger[k] == 'd';
      assert html[k] == 'w';
      NotAfter(danger, html, k);
      AfterPrefix(warning, rest);
    }
  }

  /** `createMedicationReminderEmail(medication)` */
  function MedicationReminderEmail(texts: Texts, medication: JsVal): (r: EmailContent)
    requires Accessible(medication)
    ensures ReadSubject(r.subject) == ReminderSubject(ToText(Prop(medication, "name")))
    ensures Verbatim(r.html, |texts.reminderHead|, ToText(Prop(medication, "name")))
  {
    var name := ToText(Prop(medication, "name"));
    var subject := ReminderPrefix + name;
    AfterPrefix(ReminderPrefix, name);
    var rest := texts.reminderDosage + ToText(Prop(medication, "dosage"))
      + texts.reminderTime + ToText(Prop(medication, "time"))
      + texts.reminderFrequency + ToText(Prop(medication, "frequency")) + texts.reminderTail;
    VerbatimAt(texts.reminderHead, name, rest);
    EmailContent(subject, texts.reminderHead + (name + rest))
  }

  lemma ExpirySubjectReadBack(expired: bool, name: string)
    ensures ReadSubject((if expired then WarningSign else "") + ExpiryPrefix + name) == ExpirySubject(expired, name)
  {
    var s := (if expired then WarningSign else "") + ExpiryPrefix + name;
    if expired {
      assert s == WarningSign + ExpiryPrefix + name;
      NotAfter(ReminderPrefix, s, 0);
      AfterPrefix(WarningSign + ExpiryPrefix, name);
    } else {
      assert s == ExpiryPrefix + name;
      NotAfter(ReminderPrefix, s, 11);
      NotAfter(WarningSign + ExpiryPrefix, s, 0);
      AfterPrefix(ExpiryPrefix, name);
    }
  }

  /** `createMedicationExpiryEmail(medication, daysUntilExpiry)`; `localeDate(v)` is
      `new Date(v).toLocaleDateString()`, which depends on the server's locale. */
  function MedicationExpiryEmail(texts: Texts, medication: JsVal, daysUntilExpiry: int, localeDate: JsVal -> string): (r: EmailContent)
    requires Accessible(medication)
    ensures ReadSubject(r.subject) == ExpirySubject(IsExpired(daysUntilExpiry), ToText(Prop(medication, "name")))
    ensures AlertInHtml(texts, r.html) == Some(IsExpired(daysUntilExpiry))
    ensures Verbatim(r.html, |texts.expiryHead| + |AlertClass(IsExpired(daysUntilExpiry))| + |texts.expiryNoticeOpen|,
                     ExpiryNotice(daysUntilExpiry))
  {
    var expired := IsExpired(daysUntilExpiry);
    var name := ToText(Prop(medication, "name"));
    var subject := (if expired then WarningSign else "") + ExpiryPrefix + name;
    ExpirySubjectReadBack(expired, name);
    var head := texts.expiryHead + AlertClass(expired) + texts.expiryNoticeOpen;
    var notice := ExpiryNotice(daysUntilExpiry);
    var tail := texts.expiryName + name + texts.expiryDosage + ToText(Prop(medication, "dosage"))
      + texts.expiryDate + localeDate(Prop(medication, "endDate"))
      + texts.expiryAction + (if expired then ExpiredAction else RefillAction) + texts.expiryTail;
    AlertClassReadBack(texts, expired, notice + tail);
    VerbatimAt(head, notice, tail);
    EmailContent(subject, head + (notice + tail))
  }

  /** `createMealPlanReminderEmail(mealName, mealContent)` */
  function MealPlanReminderEmail(texts: Texts, mealName: JsVal, mealContent: JsVal): (r: EmailContent)
    ensures ReadSubject(r.subject) == MealSubject(ToText(mealName))
    ensures Verbatim(r.html, |texts.mealHead|, ToText(mealName))
    ensures Verbatim(r.html, |texts.mealHead| + |ToText(mealName)| + |texts.mealContentOpen|, ToText(mealContent))
  {
    var name := ToText(mealName);
    var content := ToText(mealContent);
    var subject := MealPrefix + name;
    NotAfter(ReminderPrefix, subject, 0);
    NotAfter(WarningSign + ExpiryPrefix, subject, 0);
    NotAfter(ExpiryPrefix, subject, 0);
    AfterPrefix(MealPrefix, name);
    var lead := texts.mealHead + (name + texts.mealContentOpen);
    VerbatimAt(texts.mealHead, name, texts.mealContentOpen);
    VerbatimExtend(lead, |texts.mealHead|, name, content + texts.mealTail);
    VerbatimAt(lead, content, texts.mealTail);
    EmailContent(subject, lead + (content + texts.mealTail))
  }

  /** The frame `sendEmail` puts before the template's html: the style block and the container. */
  function WrapHead(texts: Texts): string {
    "\n        " + texts.styles + texts.containerOpen
  }

  /** The body `sendEmail` sends: the style block, the container, the template's html, the footer. */
  function WrapHtml(texts: Texts, html: string): string {
    WrapHead(texts) + (html + texts.footer)
  }

  /** The template html inside a sent body, when the body has the fixed frame. */
  function UnwrapHtml(texts: Texts, body: string): Option<string> {
    var head := WrapHead(texts);
    if |head| + |texts.footer| <= |body| && body[..|head|] == head && body[|body| - |texts.footer|..] == texts.footer
    then Some(body[|head|..|body| - |texts.footer|])
    else None
  }

  /** The `mailOptions` of `sendEmail(to, subject, html)`; `emailUser` is `process.env.EMAIL_USER`. */
  function MailOptionsFor(texts: Texts, emailUser: JsVal, to: JsVal, subject: string, html: string): (o: MailOptions)
    ensures o.to == to && o.subject == subject
    ensures UnwrapHtml(texts, o.html) == Some(html)
  {
    var head := WrapHead(texts);
    var body := WrapHtml(texts, html);
    assert body[..|head|] == head;
    assert body[|body| - |texts.footer|..] == texts.footer;
    assert body[|head|..|body| - |texts.footer|] == html;
    MailOptions("\"Health & Fitness App\" <" + ToText(emailUser) + ">", to, subject, body)
  }

  /** `sendEmail`, with the message it hands to the transport: the result is
      `true` exactly when the transport accepts that message (a transport error
      is caught and reported as `false`). `transport` stands for
      `transporter.sendMail`. */
  function SendEmail(texts: Texts, emailUser: JsVal, to: JsVal, subject: string, html: string,
                     transport: MailOptions -> bool): (r: (bool, MailOptions))
    ensures r.1.to == to && r.1.subject == subject
    ensures UnwrapHtml(texts, r.1.html) == Some(html)
    ensures r.0 <==> transport(r.1)
  {
    var message := MailOptionsFor(texts, emailUser, to, subject, html);
    (transport(message), message)
  }

  /** The three kinds of subject are never confused with one another. */
  lemma SubjectsDistinguishable(texts: Texts, medication: JsVal, days: int, localeDate: JsVal -> string,
                                mealName: JsVal, mealContent: JsVal)
    requires Accessible(medication)
    ensures MedicationReminderEmail(texts, medication).subject != MedicationExpiryEmail(texts, medication, days, localeDate).subject
    ensures MedicationReminderEmail(texts, medication).subject != MealPlanReminderEmail(texts, mealName, mealContent).subject
    ensures MedicationExpiryEmail(texts, medication, days, localeDate).subject != MealPlanReminderEmail(texts, mealName, mealContent).subject
  {
  }
}
