# Shape-Up health tracker: reminder matcher, medication pages and notification backend

This project models, in Dafny, the decision logic of the Shape-Up health and
fitness app. That logic lives in its reminder and medication screens and in its
notification back end. It covers the following parts.

- **Reminder matcher** (`reminders.dfy`). One evaluation pass over the
  medication and meal-plan snapshots decides which toasts fire, and which email
  requests go with them. Those are dosing reminders, expired and expiring
  alerts, and meal reminders. `now` is a parameter of the pass. Clock readings
  go through `clock.dfy`, which models the date-fns calls the matcher uses:
  - `format(now, 'HH:mm')` as minutes since midnight;
  - `differenceInDays` as whole days, truncated toward zero;
  - `format(d, 'yyyy-MM-dd')` as a day number.
- **Expiry badge** (`expiry_warning.dfy`). A five-band classification of the
  day count, with the badge's colour classes, message and icon.
- **QR payload parser** (`qr_scanner.dfy`). `parseQRData` works in three tiers:
  a JSON record with field aliases, then a pipe-separated positional record,
  then raw text used as the name.
- **Medications page** (`medications_page.dfy`). A class whose fields are the
  page's state: `medicationList`, `formData`, `editingMedication`, `showForm`
  and `showScanner`. Its methods are the page's handlers, each proved against
  the list and form functions it is specified by.
- **Dashboard** (`dashboard.dfy`). Meal-slot labels, the meal count, the meal
  chips and the active-medication filter.
- **Exercise browser** (`exercise_db.dfy`). A class over the browser's state.
  It models pagination, the page buttons, `capitalizeFirstLetter` and the
  search request URL, including `encodeURIComponent`.
- **E-mail service** (`email_service.dfy`). The three templates and the frame
  `sendEmail` puts around them. The fixed wording is a `Texts` record:
  - the templates are proved for any wording;
  - `SourceTexts` holds the server's exact wording;
  - subjects can be read back from their text;
  - inserted values appear verbatim, with no escaping.
- **Error middleware** (`error_middleware.dfy`). `notFound`, and
  `errorHandler`'s mapping from an error and the status already set to the
  final status and JSON body.
- **Notification controller** (`notification_controller.dfy`). The two POST
  handlers work step by step on a `Response` object, whose `statusCode` and
  `reply` fields they update. The error middleware then finishes the response.
  Each handler is proved against a decision function. Lemmas about that function
  state the final status, and whether an e-mail was sent, for every kind of
  request.

The shared modules are:
- `js.dfy`: JavaScript values, truthiness, property access and `String(v)`;
- `js_text.dfy`: `trim`, `split` and `join`;
- `seqs.dfy`: `Array.prototype.filter`;
- `schema.dfy`: the medication and meal-plan documents as the client sees them.

Some behaviour of the code that is easy to miss, and that the model keeps:
- The early `return` for an inactive medication at
  frontend/src/components/NotificationSystem.js:42 skips the expiry check as
  well as the dosing check (`Reminders.InactiveMedicationSilent`).
- The expiry check reads `endDate` (NotificationSystem.js:60-62), not the
  separate `expiryDate` field.
- The meal check uses only the first plan dated today, found by `find` at
  NotificationSystem.js:89-91. Later plans dated today are ignored
  (`Reminders.FirstPlanDatedToday`).
- A meal plan whose date is not a valid date makes `format` throw inside that
  `find`. The throw ends the meal check of the pass
  (`Reminders.CheckMealPlans` reports it as `threw`).
- On the first pass, run when the component mounts or the snapshots change
  (NotificationSystem.js:135-137), that throw also leaves the effect callback
  before `setInterval` at line 140. So no periodic pass is ever scheduled for
  that snapshot, and the error goes on to React. `Reminders.Mount` reports
  whether the interval was registered.

## Model

| member | source | states |
|---|---|---|
| Js.NatToDecimalRoundTrip | frontend/src/components/NotificationSystem.js:72 | `String(n)` of a natural number is a non-empty digit string that reads back as n, with no leading zero except for 0 |
| Js.IntToDecimalInjective | backend/utils/emailService.js:147 | two different integers never print the same, so an interpolated day count identifies the count |
| JsText.TrimEmptyIffBlank | frontend/src/pages/Dashboard.js:109 | `s.trim()` is empty exactly when every character of s is JavaScript whitespace |
| JsText.SplitJoin | frontend/src/components/MedicationQRScanner.js:113 | `split('\|')` gives one more piece than there are separators, no piece holds a separator, and joining the pieces gives the text back |
| JsText.JoinSplit | frontend/src/components/MedicationQRScanner.js:113-125 | joining separator-free pieces and splitting again gives the pieces back |
| Seqs.FilterMembers | frontend/src/pages/Dashboard.js:58 | `filter` keeps exactly the elements that satisfy the predicate, and never lengthens the list |
| Seqs.FilterConcat | frontend/src/pages/MedicationsPage.js:103 | filtering a concatenation is the concatenation of the filtered parts, so kept elements stay in order |
| Seqs.FilterPartition | frontend/src/pages/MedicationsPage.js:138-143 | filtering by a predicate and by its negation gives two lists whose lengths add up to the original's |
| Clock.DifferenceInDays | frontend/src/components/NotificationSystem.js:62 | the result is the number of whole days between the instants, rounded toward zero, in both directions |
| Clock.MinuteOfDay | frontend/src/components/NotificationSystem.js:39 | a clock reading lies in 0..1439 minutes |
| Clock.DifferenceWithinADay | frontend/src/components/NotificationSystem.js:62 | instants less than a day apart, in either direction, are 0 days apart |
| Clock.MinuteOfDayAdvance | frontend/src/components/NotificationSystem.js:140-143 | k minutes later within the same day, the clock reads k minutes more |
| Reminders.CheckMedications | frontend/src/components/NotificationSystem.js:37-81 | the loop over the snapshot emits exactly `MedicationSweep`: each medication's events in list order |
| Reminders.CheckMealPlans | frontend/src/components/NotificationSystem.js:84-133 | the loop over the six slots emits exactly the slot sweep of the first plan dated today; `threw` holds exactly when `find` reaches a plan with an invalid date |
| Reminders.EvaluationPass | frontend/src/components/NotificationSystem.js:135-137 | a pass emits all medication events first and then the meal events |
| Reminders.Mount | frontend/src/components/NotificationSystem.js:135-145 | the first pass emits the medication events and then the meal events; the interval is registered exactly when the meal check did not throw |
| Reminders.ValidDatesRegisterInterval | frontend/src/components/NotificationSystem.js:89-91 | when every plan has a valid date, `find` never throws, so the interval is always registered |
| Reminders.InactiveMedicationSilent | frontend/src/components/NotificationSystem.js:41-42 | an inactive medication produces no events: no dosing reminder and no expiry alert |
| Reminders.DosingReminderIff | frontend/src/components/NotificationSystem.js:44-58 | a dosing reminder fires exactly when the medication is active, its time parses, and the clock's minute of the day is within 15 of the dose time |
| Reminders.NoWrapAtMidnight | frontend/src/components/NotificationSystem.js:45-52 | a 00:05 medication does not fire at 23:55: there is no wrap-around at midnight |
| Reminders.UnparseableTimeNeverReminds | frontend/src/components/NotificationSystem.js:45-52 | a time that does not parse as HH:mm never gives a 'reminder' event |
| Reminders.ExpiryAlertBands | frontend/src/components/NotificationSystem.js:60-79 | with an end date and day difference d: d ≤ 0 gives exactly one "has expired!" error, 1..7 exactly one "will expire in d days" warning, more than 7 none; both carry type 'expiry' and d; without a valid end date there is no alert |
| Reminders.ReminderPayload | frontend/src/components/NotificationSystem.js:53-57 | a dosing reminder is an info toast whose request has type 'reminder' and no day count |
| Reminders.EndDateWithinTheDayIsExpired | frontend/src/components/NotificationSystem.js:62-70 | an end date later the same day, under 24 hours ahead, already raises the "expired" alert with day count 0 |
| Reminders.MedicationEventsAbout | frontend/src/components/NotificationSystem.js:41-80 | every event of one medication's callback is about that medication |
| Reminders.MedicationSweepMembers | frontend/src/components/NotificationSystem.js:41-80 | the sweep's events are exactly the events of the individual medications |
| Reminders.SweepOnlyActive | frontend/src/components/NotificationSystem.js:41-42 | every medication event names an active medication of the snapshot |
| Reminders.RemindersRepeatAcrossPasses | frontend/src/components/NotificationSystem.js:139-143 | with a 5-minute period and a 15-minute window, the reminder fires at each of seven consecutive pass times; those passes run only when `Mount` registered the interval |
| Reminders.FirstPlanDatedToday | frontend/src/components/NotificationSystem.js:89-91 | the first plan dated today is chosen, when every plan before it has a valid, different date |
| Reminders.OtherDatesNeverFire | frontend/src/components/NotificationSystem.js:89-93 | with no plan dated today, no meal reminder fires, whatever the time |
| Reminders.SlotSweepMembers | frontend/src/components/NotificationSystem.js:113-131 | the slot sweep holds a slot's meal event exactly when that slot is due, and holds nothing else |
| Reminders.SlotNamesDistinct | frontend/src/components/NotificationSystem.js:104-111 | the six slot labels are pairwise different |
| Reminders.MealSlotFiresIff | frontend/src/components/NotificationSystem.js:113-131 | with today's plan found, a slot fires exactly when its text is non-empty and the clock is within 30 minutes of its fixed time; the event carries the label and the text verbatim |
| Reminders.AtMostOneMealEvent | frontend/src/components/NotificationSystem.js:95-102 | the slot times are more than an hour apart, so a pass fires at most one meal reminder |
| Reminders.SlotSweepLength | frontend/src/components/NotificationSystem.js:113-131 | the slot sweep has one event per due slot |
| ExpiryWarning.NoEndDateNoBadge | frontend/src/components/MedicationExpiryWarning.js:6-8 | with no end date, nothing is rendered, whatever the expiry date field holds |
| ExpiryWarning.BandRanges | frontend/src/components/MedicationExpiryWarning.js:18-40 | the bands are grey for d < 0, red for 0..2, orange for 3..7, blue for 8..14 and green for d ≥ 15, and every integer falls in exactly one |
| ExpiryWarning.ColorClassesDistinct | frontend/src/components/MedicationExpiryWarning.js:20-38 | each band has its own colour classes |
| ExpiryWarning.AlertIconIff | frontend/src/components/MedicationExpiryWarning.js:44-48 | with an end date a badge is shown, and the alert icon appears exactly when d ≤ 7 |
| ExpiryWarning.MessageWording | frontend/src/components/MedicationExpiryWarning.js:21-27 | day 0 reads "Expires today!", day 1 "Expires in 1 day" (singular), day 2 "Expires in 2 days", and day −3 "Expired 3 days ago" |
| ExpiryWarning.MessageIdentifiesDays | frontend/src/components/MedicationExpiryWarning.js:18-40 | different day counts give different messages |
| ExpiryWarning.MessageFacts | frontend/src/components/MedicationExpiryWarning.js:21-39 | where the tense, the "today" case and the digits of \|d\| sit in every message |
| ExpiryWarning.DayZeroDisagreement | frontend/src/components/MedicationExpiryWarning.js:25-26 | on day 0 the badge says "Expires today!" in red, while the reminder matcher raises "has expired!" for the same medication |
| QrScanner.JsonAliases | frontend/src/components/MedicationQRScanner.js:99-110 | each JSON field takes the first truthy of its aliases (e.g. name ← name, medicationName, medication), then its default |
| QrScanner.JsonDefaults | frontend/src/components/MedicationQRScanner.js:101-109 | an empty JSON object gets "" texts, null optional dates, now as the start date, and no name |
| QrScanner.NumericTextHasNoName | frontend/src/components/MedicationQRScanner.js:99-101 | the text "42", which JSON reads as a number, takes the JSON branch and gets no name |
| QrScanner.NullJsonFallsThrough | frontend/src/components/MedicationQRScanner.js:97-112 | JSON `null` throws on the first property read and falls through, as a syntax error does |
| QrScanner.PipeTier | frontend/src/components/MedicationQRScanner.js:113-125 | for any non-JSON text of three or more '\|'-separated parts, the record is built positionally: the first three parts are copied as they are, an empty or missing time is "", an empty or missing start date is now, an empty or missing optional date is null, and empty or missing notes are 'Imported from QR code'; parts after the ninth are ignored |
| QrScanner.PipeRoundTrip | frontend/src/components/MedicationQRScanner.js:113-125 | non-JSON text with nine or more non-empty pipe fields maps them positionally to the nine record fields, and ignores the rest |
| QrScanner.PipeEmptyPositions | frontend/src/components/MedicationQRScanner.js:115-124 | for "Aspirin\|\|daily", the empty and missing positions become "" or null, the start date is now, and the notes default to 'Imported from QR code' |
| QrScanner.RawTextTier | frontend/src/components/MedicationQRScanner.js:128-139 | non-JSON text with fewer than three pipe parts becomes the name as it is, with 'Scanned from QR code' notes |
| MedicationsPage.DefaultForm | frontend/src/pages/MedicationsPage.js:15-26 | the initial form has every field |
| MedicationsPage.Submitted | frontend/src/pages/MedicationsPage.js:82-86 | the submitted record carries the given id; a falsy end date becomes null and a truthy one is kept; every other field is the form's |
| MedicationsPage.EditForm | frontend/src/pages/MedicationsPage.js:61-73 | loading fails exactly when a date conversion throws; otherwise the form has every field, copies the name and the active flag, converts the dates, leaves a falsy end date "", and keeps the notes' truthiness |
| MedicationsPage.ScanForm | frontend/src/pages/MedicationsPage.js:119-131 | a scan merge has every field, sets active to true, defaults the notes to 'Imported from QR code scan', the name to "" and the start date to today, uses today for a start date that is missing or fails to convert, and "" for such an expiry date |
| MedicationsPage.Page.constructor | frontend/src/pages/MedicationsPage.js:11-26 | empty list, dialogs closed, nothing being edited, default form |
| MedicationsPage.Page.HandleChange | frontend/src/pages/MedicationsPage.js:29-35 | only the named field changes, to `checked` for a checkbox and to `value` otherwise; the rest of the state is unchanged |
| MedicationsPage.Page.ResetForm | frontend/src/pages/MedicationsPage.js:38-52 | default form and nothing being edited; the list and dialogs are unchanged |
| MedicationsPage.Page.OpenAddForm | frontend/src/pages/MedicationsPage.js:55-58 | default form, nothing being edited, the form dialog open |
| MedicationsPage.Page.OpenEditForm | frontend/src/pages/MedicationsPage.js:61-76 | on success, the form holds `EditForm(m)`, m is being edited and the dialog is open; a throwing conversion changes nothing |
| MedicationsPage.Page.HandleSubmit | frontend/src/pages/MedicationsPage.js:79-98 | when editing, the list becomes `ReplaceById` of the submitted record under the edited id; otherwise the record with id `Date.now()` is appended; afterwards the form is reset, nothing is being edited and the dialog is closed |
| MedicationsPage.Page.HandleDelete | frontend/src/pages/MedicationsPage.js:101-105 | when confirmed, the list becomes `RemoveById(list, id)`; otherwise nothing changes |
| MedicationsPage.Page.HandleScanComplete | frontend/src/pages/MedicationsPage.js:108-135 | the form becomes `ScanForm(scan)`, the scanner closes and the form opens; the list and `editingMedication` are unchanged |
| MedicationsPage.Page.CloseForm | frontend/src/pages/MedicationsPage.js:429 | closing the dialog only hides it; `editingMedication` stays set |
| MedicationsPage.Page.OpenScanner | frontend/src/pages/MedicationsPage.js:183 | only the scanner dialog opens |
| MedicationsPage.Page.CloseScanner | frontend/src/pages/MedicationsPage.js:595 | only the scanner dialog closes |
| MedicationsPage.Page.HandleScanCompleteAsNew | frontend/src/pages/MedicationsPage.js:108-135 | corrected scan handler: as `HandleScanComplete`, and also nothing is being edited afterwards |
| MedicationsPage.Page.GroupedMedications | frontend/src/pages/MedicationsPage.js:138-143 | the active and inactive groups hold exactly the list's active and inactive medications, in list order, and their lengths add up to the list's |
| MedicationsPage.GroupingKeepsOrder | frontend/src/pages/MedicationsPage.js:140-141 | grouping distributes over concatenation, so each group keeps list order |
| MedicationsPage.ReplaceByIdSpec | frontend/src/pages/MedicationsPage.js:88-91 | replacing by id keeps the length, puts the record at every position with that id, and leaves every other entry in place |
| MedicationsPage.RemoveByIdSpec | frontend/src/pages/MedicationsPage.js:101-105 | deleting by id keeps exactly the entries with another id |
| MedicationsPage.RemoveAbsentId | frontend/src/pages/MedicationsPage.js:103 | deleting an id no entry has leaves the list unchanged |
| MedicationsPage.EditSubmitRoundTrip | frontend/src/pages/MedicationsPage.js:61-86 | opening a saved medication for editing and saving it unchanged gives back the same record, when its dates are as the form stores them and its notes are text |
| MedicationsPage.EditDismissScanSubmit | frontend/src/pages/MedicationsPage.js:88-135 | as written: edit, close the dialog, scan, save — the scanned record replaces the edited medication instead of being added, and the list keeps its length |
| MedicationsPage.EditDismissScanSubmitAsNew | frontend/src/pages/MedicationsPage.js:88-135 | corrected: the same steps append the scanned record and keep the edited medication |
| Dashboard.GetMealLabel | frontend/src/pages/Dashboard.js:92-102 | an unknown key is returned unchanged, and a slot key is mapped to a label that is not a slot key |
| Dashboard.CountThrowsIff | frontend/src/pages/Dashboard.js:104-111 | `getMealCount` throws exactly when a slot holds a truthy value that is not a string |
| Dashboard.CountIsFilledSlots | frontend/src/pages/Dashboard.js:104-111 | the count is the number of slot entries holding text with a non-whitespace character |
| Dashboard.CountIsFilledKeys | frontend/src/pages/Dashboard.js:105-110 | with distinct keys, the count equals the number of distinct filled slot keys |
| Dashboard.MealCountAtMostSix | frontend/src/pages/Dashboard.js:104-111 | the count lies in 0..6 |
| Dashboard.ChipsMatchCount | frontend/src/pages/Dashboard.js:255-302 | the row shows as many chips as the count, and both throw on the same plans |
| Dashboard.ChipLabelsWording | frontend/src/pages/Dashboard.js:255-302 | the chips are "<Label>: <value>", one per filled slot, in property order |
| Dashboard.ActiveMedicationsMembers | frontend/src/pages/Dashboard.js:57-58 | the active list holds exactly the medications whose `active` is truthy |
| Dashboard.NoDataNoMedications | frontend/src/pages/Dashboard.js:57-58 | a response without data lists no medications |
| ExerciseDb.PageCount | frontend/src/components/ExerciseDB.js:116 | the page count is ⌈n/10⌉ |
| ExerciseDb.PageButtons | frontend/src/components/ExerciseDB.js:113-126 | no buttons for n ≤ 10; otherwise ⌈n/10⌉ ≥ 2 buttons numbered 1.., and exactly the current page's button is active |
| ExerciseDb.PageBounds | frontend/src/components/ExerciseDB.js:43-48 | a page shows at most 10 exercises, at least one on every numbered page, and none past the last page |
| ExerciseDb.ExerciseOnItsPage | frontend/src/components/ExerciseDB.js:43-48 | exercise i is shown on page i/10 + 1, at position i mod 10 |
| ExerciseDb.PagesUpToPrefix | frontend/src/components/ExerciseDB.js:43-48 | pages 1..k together are the first 10k exercises, clipped to the list |
| ExerciseDb.PagesCoverResults | frontend/src/components/ExerciseDB.js:43-48 | the numbered pages together show every exercise once, in order |
| ExerciseDb.ButtonsLeadToResults | frontend/src/components/ExerciseDB.js:113-126 | every page button leads to a non-empty page |
| ExerciseDb.CapitalizeFirstLetter | frontend/src/components/ExerciseDB.js:54-56 | only the first character is upper-cased, the rest is kept, and "" maps to "" |
| ExerciseDb.CapitalizeIdempotent | frontend/src/components/ExerciseDB.js:54-56 | capitalising twice is capitalising once |
| ExerciseDb.EncodedIsOneSegment | frontend/src/components/ExerciseDB.js:25 | every character of the encoded muscle group is unreserved, '%' or a hex digit, so it has no '/', '?', '#' or space and stays one path segment |
| ExerciseDb.EncodeDecodeAscii | frontend/src/components/ExerciseDB.js:25 | for ASCII text, `DecodeEncoded` (which reads upper-case `%XY` escapes) turns the `encodeURIComponent` form back into the text |
| ExerciseDb.ExercisePage.constructor | frontend/src/components/ExerciseDB.js:5-11 | no muscle selected, no exercises, page 1, no error, not loading |
| ExerciseDb.ExercisePage.HandleMuscleChange | frontend/src/components/ExerciseDB.js:13-15 | only the selected muscle changes |
| ExerciseDb.ExercisePage.Paginate | frontend/src/components/ExerciseDB.js:50-52 | only the page number changes |
| ExerciseDb.ExercisePage.HandleSearch | frontend/src/components/ExerciseDB.js:17-41 | with no muscle selected nothing changes; otherwise a result replaces the list and clears the error, a failure keeps the list and sets the error message, loading ends, and the page number is kept |
| ExerciseDb.ExercisePage.HandleSearchFromFirstPage | frontend/src/components/ExerciseDB.js:17-41 | corrected search: as `HandleSearch`, but a successful search returns to page 1, whose exercises are then shown |
| ExerciseDb.StalePageAfterSearch | frontend/src/components/ExerciseDB.js:17-48 | as written: after page 2 of a long result, a search with at most 10 results shows an empty page |
| ExerciseDb.FreshPageAfterSearch | frontend/src/components/ExerciseDB.js:17-48 | corrected: the same steps show the new results |
| EmailService.MedicationReminderEmail | backend/utils/emailService.js:111-132 | the subject reads back as a reminder for exactly the medication's name, and the name appears verbatim in the body |
| EmailService.MedicationExpiryEmail | backend/utils/emailService.js:134-164 | the subject reads back as an expiry alert with the warning sign exactly when d ≤ 0, for the name; the alert class is alert-danger exactly when d ≤ 0; the notice sentence appears verbatim |
| EmailService.MealPlanReminderEmail | backend/utils/emailService.js:166-189 | the subject reads back as a meal reminder for the meal name; the name and the content appear verbatim in the body |
| EmailService.ExpiryNotice | backend/utils/emailService.js:144-148 | the notice is "Your medication has expired!" exactly when d ≤ 0 |
| EmailService.ExpiryNoticeIdentifiesDays | backend/utils/emailService.js:147 | different positive day counts give different notices |
| EmailService.AlertClassReadBack | backend/utils/emailService.js:143 | the alert class can be read back from the expiry body |
| EmailService.ExpirySubjectReadBack | backend/utils/emailService.js:137 | the expiry subject reads back as expired-or-not and the name |
| EmailService.SubjectsDistinguishable | backend/utils/emailService.js:113-168 | the reminder, expiry and meal subjects never coincide |
| EmailService.MailOptionsFor | backend/utils/emailService.js:85-99 | the mail goes to `to` with the given subject, and its html is the template html inside the fixed style, container and footer frame |
| EmailService.SendEmail | backend/utils/emailService.js:83-108 | `sendEmail` hands the transport a message addressed to `to`, with the given subject and the template html inside the fixed style, container and footer frame; it reports true exactly when the transport accepts that message |
| ErrorMiddleware.BaseStatus | backend/middleware/errorMiddleware.js:8 | never 200: a set status is kept, and 200 becomes 500 |
| ErrorMiddleware.Messages | backend/middleware/errorMiddleware.js:23 | mapping `val.message` succeeds exactly when every value can be read, and then gives their messages in order |
| ErrorMiddleware.HandleError | backend/middleware/errorMiddleware.js:7-31 | the handler itself throws exactly for a validation error whose sub-errors cannot be read; otherwise the status is not 200, success is false, and the stack is null in production |
| ErrorMiddleware.PlainErrorKeepsStatus | backend/middleware/errorMiddleware.js:8-9 | an error of no recognised kind keeps the base status and its own message, or "Server Error" when the message is empty or missing |
| ErrorMiddleware.ObjectIdCastIsNotFound | backend/middleware/errorMiddleware.js:11-14 | a CastError on an ObjectId gives 404 "Resource not found" |
| ErrorMiddleware.DuplicateKeyIsBadRequest | backend/middleware/errorMiddleware.js:16-19 | code 11000 gives 400 "Duplicate field value entered" |
| ErrorMiddleware.ValidationErrorWins | backend/middleware/errorMiddleware.js:21-24 | a ValidationError gives 400 and the sub-messages joined by ", ", overriding the earlier rules |
| ErrorMiddleware.NotFound | backend/middleware/errorMiddleware.js:1-5 | `notFound` sets 404 and passes on a plain error |
| ErrorMiddleware.UnmatchedRouteAnswer | backend/middleware/errorMiddleware.js:1-5 | an unmatched route is answered 404 "Not Found - " followed by the URL |
| NotificationController.Response.Status | backend/controllers/NotificationController.js:16 | `res.status(code)` sets only the status |
| NotificationController.Response.Json | backend/controllers/NotificationController.js:49 | `res.json(r)` sets only the reply |
| NotificationController.ErrorHandler | backend/middleware/errorMiddleware.js:26-30 | the response ends as `Final` says for the thrown error and the status set so far |
| NotificationController.Dispatch | backend/controllers/NotificationController.js:8 | `asyncHandler` passes a pending throw to the error handler, so the response ends as `Final` says |
| NotificationController.DeliverStep | backend/controllers/NotificationController.js:46-65 | sending and answering leave the response as `Deliver` decides: the success JSON, or a rethrow with 500 |
| NotificationController.ChooseTemplate | backend/controllers/NotificationController.js:31-42 | 'reminder' chooses the reminder template and 'expiry' with a numeric day count the expiry template; any other request sets 400 and raises the rejection message |
| NotificationController.MedicationTryStep | backend/controllers/NotificationController.js:29-65 | the try and catch blocks leave the response as `MedicationTry` decides |
| NotificationController.MedicationReminderHandler | backend/controllers/NotificationController.js:8-66 | the handler's steps leave the status, the reply and the pending throw as `MedicationReminderDecision` decides |
| NotificationController.SendMedicationReminder | backend/controllers/NotificationController.js:8-66 | handler plus error middleware: the final status and JSON are `Final` of the decision, and the e-mail sent is the decision's |
| NotificationController.MealReminderHandler | backend/controllers/NotificationController.js:71-115 | the handler's steps leave the status, the reply and the pending throw as `MealReminderDecision` decides |
| NotificationController.SendMealReminder | backend/controllers/NotificationController.js:71-115 | handler plus error middleware: the final status and JSON are `Final` of the decision, and the e-mail sent is the decision's |
| NotificationController.RaisedAnswer | backend/controllers/NotificationController.js:16-17 | an error the handler raises reaches the client with the status set before it (500 if none) and its own message |
| NotificationController.MedicationMissingFields | backend/controllers/NotificationController.js:15-18 | a missing medication or type is answered 400 "Missing required fields", and no e-mail is sent |
| NotificationController.MedicationUnknownUser | backend/controllers/NotificationController.js:21-25 | a missing user or user e-mail is answered 404 "User email not found", and no e-mail is sent |
| NotificationController.LookupFailureAnswers500 | backend/controllers/NotificationController.js:21 | a plain error from the user lookup is answered 500, and no e-mail is sent |
| NotificationController.MedicationEmailOnlyWhenValid | backend/controllers/NotificationController.js:31-46 | an e-mail is sent only for a complete request of a known type from a user with an address, and it is that type's template |
| NotificationController.MedicationSentIffAccepted | backend/controllers/NotificationController.js:46-60 | the answer is 200 with the success JSON (address, type and medication name) exactly when the transport accepts the message; otherwise it is 500 "Failed to send email notification" |
| NotificationController.MedicationRejectedTypeAnswers500 | backend/controllers/NotificationController.js:34-65 | as written: an unknown type, or 'expiry' without a numeric day count, is answered 500, not 400, and keeps its message |
| NotificationController.MedicationRejectedTypeExample | backend/controllers/NotificationController.js:39-42 | type "weekly" for a user with an address is answered 500 |
| NotificationController.MedicationRejectedTypeIntended | backend/controllers/NotificationController.js:34-42 | corrected: a rejected type is answered 400 with its message, and every other request is answered as by the handler as written |
| NotificationController.MealMissingFields | backend/controllers/NotificationController.js:78-81 | an empty meal name or content is answered 400 "Missing required fields", and no e-mail is sent |
| NotificationController.MealUnknownUser | backend/controllers/NotificationController.js:84-88 | a missing user or user e-mail is answered 404, and no e-mail is sent |
| NotificationController.MealSentIffAccepted | backend/controllers/NotificationController.js:92-109 | the meal template is sent; the answer is 200 with the address and the meal name exactly when the transport accepts it, and 500 otherwise |

## Left out

- Time zones and daylight saving time are not modelled. Instants are integer milliseconds of local time.
- date-fns `parse(time, 'HH:mm')` is modelled as the medication's `time` read as `Option<int>` minutes, with `None` when it does not parse. `parseISO` of a date field is modelled as a `DateField` (missing, not a date, or an instant).
- `JSON.parse` is a parameter of `QrScanner.ParseQrData`: the parsed value, or `None` for a syntax error.
- `processQRFromImage`, `resetImageUpload`, jsQR, canvas and FileReader are not part of this model. They are image decoding and component state outside the parser.
- Toasts and the e-mail POSTs of the matcher are modelled as the `Event` sequence a pass returns. `setInterval`/`clearInterval` appear only as the 5-minute period. Effect cleanup and async ordering are concurrency, not logic.
- JavaScript numbers are integers in this model. Fractional values do not occur in the modelled paths. NaN is modelled only where the code can produce it, as a missing time or date.
- ExerciseDb.CapitalizeFirstLetter: upper-cases ASCII letters only, because Unicode case mapping is not modelled.
- ExerciseDb.EncodeDecodeAscii: the round trip is proved for ASCII text only. Its decoder, `ExerciseDb.DecodeEncoded`, only inverts the encoder's own output. It is not `decodeURIComponent`: lower-case hex, invalid escapes and multi-byte UTF-8 sequences are not modelled. The encoding itself is modelled for every character.
- Several inputs are parameters rather than modelled:
  - `new Date().toISOString()` and `Date.now()` (`today`, `nowIso`, `nowMs`);
  - the date conversion `new Date(v).toISOString().substr(0, 10)` (`toDay`, with `None` when it throws);
  - `toLocaleDateString` (`localeDate`);
  - `window.confirm` (a boolean).
- The request URL of a search is modelled; the fetch itself is not. `axios.request` is modelled as its outcome, the exercises or a failure. The API key header and `loading` being true while the request is in flight are not modelled.
- The JSX rendering of the pages is not modelled, except for the chip labels, the badge contents and the page buttons.
- The nodemailer transporter and its configuration are modelled as a function from the mail options to success. Console logging is not modelled.
- The Express request body is assumed to have been parsed to a value that can be read (`Accessible(body)`), and `req.user` to be set by the authentication middleware. `User.findById` is modelled as its outcome (`UserLookup`).
- Stack traces are not modelled. An error the handlers raise carries an `undefined` stack, so outside production the error JSON's `stack` is `undefined` rather than a trace.
- The e-mail templates are proved for any `Texts` wording. `EmailService.SourceTexts` records the server's exact wording and is what the deployed handlers use.

## Findings

| source | as written | input that shows it | evidently intended | confidence | as-written member | corrected member |
|---|---|---|---|---|---|---|
| frontend/src/pages/MedicationsPage.js:108-135 | closing the edit dialog keeps `editingMedication`, and `handleScanComplete` does not clear it, so saving a scanned medication overwrites the one last opened for editing | open medication 1 for editing, close the dialog, scan a QR code, press Save: medication 1 is replaced and nothing is added | a scan starts a new medication ("Default to active for new medications"), so the scanned record is appended | medium, not executed | MedicationsPage.EditDismissScanSubmit | MedicationsPage.EditDismissScanSubmitAsNew |
| frontend/src/components/ExerciseDB.js:17-41 | `handleSearch` keeps `currentPage`, so after browsing to a later page a new search with fewer results shows an empty page | search a group with 11+ exercises, go to page 2, search a group with at most 10: the list is empty though results exist | a new search starts at page 1 | medium, not executed | ExerciseDb.StalePageAfterSearch | ExerciseDb.FreshPageAfterSearch |
| backend/controllers/NotificationController.js:34-65 | the 400 set for an invalid type, or for 'expiry' without a numeric day count, is overwritten by the `catch` block's `res.status(500)` | body `{medication: {name: "Aspirin"}, type: "weekly"}` for a user with an e-mail: answered 500 "Invalid notification type" | a rejected request is answered 400 | high, not executed | NotificationController.MedicationRejectedTypeAnswers500 | NotificationController.MedicationRejectedTypeIntended |
