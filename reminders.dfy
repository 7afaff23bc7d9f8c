/** The reminder matcher: one evaluation pass over the medications and the meal
    plans decides which reminders fire. Every event stands for a toast shown to
    the user and the email request posted alongside it; the clock reading `now`
    is a parameter of the pass. */
module Reminders {

  import opened Js
  import opened Clock
  import opened Schema
  import Seqs

  /** A dosing reminder fires within this many minutes of the medication time. */
  const DosingWindow := 15
  /** A meal reminder fires within this many minutes of the slot time. */
  const MealWindow := 30
  /** An end date at most this many days ahead raises an expiry warning. */
  const ExpiryWarningDays := 7
  /** Once `Mount` has registered the interval, a pass runs every this many minutes. */
  const PassPeriod := 5

  datatype Severity = Info | Warning | Error

  /** The body of the email request that goes with a toast. */
  datatype Post =
    | MedicationPost(medication: Med, notificationType: string, daysUntilExpiry: Option<int>)
    | MealPost(mealName: string, mealContent: string)

  /** A toast of the given severity and text, and the email request sent with it. */
  datatype Event = Event(severity: Severity, message: string, post: Post)

  /** The fixed time of each slot, in minutes since midnight. */
  function SlotTime(s: Slot): int {
    match s
    case Meal1 => 8 * 60
    case Meal2 => 10 * 60 + 30
    case Meal3 => 13 * 60
    case Meal4 => 16 * 60
    case Meal5 => 19 * 60
    case Snacks => 20 * 60 + 30
  }

  /** The label a meal reminder uses for each slot. */
  function SlotName(s: Slot): string {
    match s
    case Meal1 => "Breakfast"
    case Meal2 => "Morning Snack"
    case Meal3 => "Lunch"
    case Meal4 => "Afternoon Snack"
    case Meal5 => "Dinner"
    case Snacks => "Evening Snacks"
  }

  /** Both clock readings are placed on the same reference day, so the
      difference never wraps around midnight. */
  predicate DosingDue(m: Med, now: int) {
    m.time.Some? && Abs(MinuteOfDay(now) - m.time.value) <= DosingWindow
  }

  /** `differenceInDays(endDate, now)`; `None` when there is no end date or it is not a date (NaN). */
  function DaysUntilExpiry(m: Med, now: int): Option<int> {
    match m.endDate
    case At(t) => Some(DifferenceInDays(t, now))
    case _ => None
  }

  function ReminderEvent(m: Med): Event {
    Event(Info, "Time to take " + m.name + " (" + m.dosage + ")", MedicationPost(m, "reminder", None))
  }

  function ExpiredEvent(m: Med, days: int): Event {
    Event(Error, m.name + " has expired!", MedicationPost(m, "expiry", Some(days)))
  }

  function ExpiringEvent(m: Med, days: int): Event {
    Event(Warning, m.name + " will expire in " + IntToDecimal(days) + " days",
          MedicationPost(m, "expiry", Some(days)))
  }

  /** The callback run for one medication. */
  function MedicationEvents(m: Med, now: int): seq<Event> {
    if !m.active then []
    else
      (if DosingDue(m, now) then [ReminderEvent(m)] else [])
      + match DaysUntilExpiry(m, now)
        case None => []
        case Some(d) =>
          if d <= 0 then [ExpiredEvent(m, d)]
          else if d <= ExpiryWarningDays then [ExpiringEvent(m, d)]
          else []
  }

  /** The events of the medication sweep: each medication's events, in list order. */
  function MedicationSweep(meds: seq<Med>, now: int): seq<Event>
    decreases |meds|
  {
    if meds == [] then []
    else MedicationSweep(meds[..|meds| - 1], now) + MedicationEvents(meds[|meds| - 1], now)
  }

  /** The outcome of looking for today's plan with `Array.prototype.find`. A plan
      whose date is not a valid date makes `format` throw, which ends the meal check. */
  datatype PlanLookup = NoPlanToday | TodaysPlan(plan: MealPlan) | DateError

  function FindTodaysPlan(plans: seq<MealPlan>, today: int): PlanLookup
    decreases |plans|
  {
    if plans == [] then NoPlanToday
    else match plans[0].date
      case At(t) =>
        if CalendarDay(t) == today then TodaysPlan(plans[0]) else FindTodaysPlan(plans[1..], today)
      case _ => DateError
  }

  predicate MealDue(p: MealPlan, s: Slot, now: int) {
    Content(p, s) != "" && Abs(MinuteOfDay(now) - SlotTime(s)) <= MealWindow
  }

  function MealEvent(p: MealPlan, s: Slot): Event {
    Event(Info, "Time for " + SlotName(s) + ": " + Content(p, s), MealPost(SlotName(s), Content(p, s)))
  }

  /** The events of the slot sweep over `slots`, in order. */
  function SlotSweep(p: MealPlan, slots: seq<Slot>, now: int): seq<Event>
    decreases |slots|
  {
    if slots == [] then []
    else
      var s := slots[|slots| - 1];
      SlotSweep(p, slots[..|slots| - 1], now) + (if MealDue(p, s, now) then [MealEvent(p, s)] else [])
  }

  /** The events of the meal check: the slot sweep over the first plan dated today, if any. */
  function MealEvents(plans: seq<MealPlan>, now: int): seq<Event> {
    match FindTodaysPlan(plans, CalendarDay(now))
    case TodaysPlan(p) => SlotSweep(p, Slots, now)
    case _ => []
  }

  /** `checkMedications`: appends each medication's events in list order. */
  method CheckMedications(meds: seq<Med>, now: int) returns (events: seq<Event>)
    ensures events == MedicationSweep(meds, now)
  {
    events := [];
    var i := 0;
    while i < |meds|
      invariant 0 <= i <= |meds|
      invariant events == MedicationSweep(meds[..i], now)
    {
      var m := meds[i];
      ghost var before := events;
      if m.active {
        if DosingDue(m, now) {
          events := events + [ReminderEvent(m)];
        }
        match m.endDate {
          case At(t) =>
            var days := DifferenceInDays(t, now);
            if days <= 0 {
              events := events + [ExpiredEvent(m, days)];
            } else if days <= ExpiryWarningDays {
              events := events + [ExpiringEvent(m, days)];
            }
          case _ =>
        }
      }
      assert events == before + MedicationEvents(m, now);
      assert meds[..i + 1][..i] == meds[..i];
      i := i + 1;
    }
    assert meds[..i] == meds;
  }

  /** `checkMealPlans`: finds today's plan, then checks the six slots in order.
      `threw` reports the `format` exception on a plan with an invalid date. */
  method CheckMealPlans(plans: seq<MealPlan>, now: int) returns (events: seq<Event>, threw: bool)
    ensures threw <==> FindTodaysPlan(plans, CalendarDay(now)).DateError?
    ensures events == MealEvents(plans, now)
  {
    events := [];
    var lookup := FindTodaysPlan(plans, CalendarDay(now));
    threw := lookup.DateError?;
    if lookup.TodaysPlan? {
      var plan := lookup.plan;
      var i := 0;
      while i < |Slots|
        invariant 0 <= i <= |Slots|
        invariant events == SlotSweep(plan, Slots[..i], now)
      {
        var s := Slots[i];
        if Content(plan, s) != "" && Abs(MinuteOfDay(now) - SlotTime(s)) <= MealWindow {
          events := events + [MealEvent(plan, s)];
        }
        assert Slots[..i + 1][..i] == Slots[..i];
        i := i + 1;
      }
      assert Slots[..i] == Slots;
    }
  }

  /** One evaluation pass: all medication events first, then the meal events. */
  method EvaluationPass(meds: seq<Med>, plans: seq<MealPlan>, now: int)
    returns (events: seq<Event>, mealCheckThrew: bool)
    ensures events == MedicationSweep(meds, now) + MealEvents(plans, now)
    ensures mealCheckThrew <==> FindTodaysPlan(plans, CalendarDay(now)).DateError?
  {
    var medEvents := CheckMedications(meds, now);
    var mealEvents;
    mealEvents, mealCheckThrew := CheckMealPlans(plans, now);
    events := medEvents + mealEvents;
  }

  /** The effect body, run on mount and whenever the snapshots change: a first
      pass, then `setInterval` registers the periodic passes. A `format` throw in
      the first meal check leaves the callback before `setInterval` is reached, so
      no periodic pass is ever scheduled for that snapshot; the medication events
      of the first pass have already been shown by then. */
  method Mount(meds: seq<Med>, plans: seq<MealPlan>, now: int)
    returns (events: seq<Event>, intervalRegistered: bool)
    ensures events == MedicationSweep(meds, now) + MealEvents(plans, now)
    ensures intervalRegistered <==> !FindTodaysPlan(plans, CalendarDay(now)).DateError?
  {
    var threw;
    events, threw := EvaluationPass(meds, plans, now);
    intervalRegistered := !threw;
  }

  /** Plans whose dates are all valid never make `find` throw, so mounting with
      them always registers the periodic passes. */
  lemma {:induction false} ValidDatesRegisterInterval(plans: seq<MealPlan>, today: int)
    requires forall j :: 0 <= j < |plans| ==> plans[j].date.At?
    ensures !FindTodaysPlan(plans, today).DateError?
    decreases |plans|
  {
    if plans != [] && CalendarDay(plans[0].date.instant) != today {
      ValidDatesRegisterInterval(plans[1..], today);
    }
  }

  /** The expiry alerts among `events`: those whose request has type 'expiry'. */
  function ExpiryAlerts(events: seq<Event>): seq<Event> {
    Seqs.Filter(events, (e: Event) => e.post.MedicationPost? && e.post.notificationType == "expiry")
  }

  /** The early `return` for an inactive medication skips the dosing check and the expiry check alike. */
  lemma InactiveMedicationSilent(m: Med, now: int)
    requires !m.active
    ensures MedicationEvents(m, now) == []
  {
  }

  /** A dosing reminder fires exactly when the medication is active, its time parses
      and the two clock readings are at most 15 minutes apart on the same day. */
  lemma DosingReminderIff(m: Med, now: int)
    ensures ReminderEvent(m) in MedicationEvents(m, now)
        <==> m.active && m.time.Some? && -15 <= MinuteOfDay(now) - m.time.value <= 15
  {
  }

  /** There is no wrap-around at midnight: 00:05 is not within 15 minutes of 23:55. */
  lemma NoWrapAtMidnight(m: Med, now: int)
    requires m.time == Some(5) && MinuteOfDay(now) == 23 * 60 + 55
    ensures ReminderEvent(m) !in MedicationEvents(m, now)
  {
  }

  /** A time that does not parse as HH:mm never yields a dosing reminder. */
  lemma UnparseableTimeNeverReminds(m: Med, now: int)
    requires m.time.None?
    ensures forall e :: e in MedicationEvents(m, now) ==> e.post.notificationType != "reminder"
  {
  }

  /** With an end date, the alerts of an active medication are decided by the day
      difference d alone: d <= 0 gives one "expired" error, 1..7 one "will expire in
      d days" warning, more than 7 nothing; both carry type 'expiry' and d. An end
      date that is not a date gives no alert. */
  lemma ExpiryAlertBands(m: Med, now: int)
    requires m.active
    ensures m.endDate.At? ==>
      var d := DifferenceInDays(m.endDate.instant, now);
      ExpiryAlerts(MedicationEvents(m, now))
        == if d <= 0 then [Event(Error, m.name + " has expired!", MedicationPost(m, "expiry", Some(d)))]
           else if d <= 7 then [Event(Warning, m.name + " will expire in " + IntToDecimal(d) + " days",
                                      MedicationPost(m, "expiry", Some(d)))]
           else []
    ensures !m.endDate.At? ==> ExpiryAlerts(MedicationEvents(m, now)) == []
  {
    var dosing := if DosingDue(m, now) then [ReminderEvent(m)] else [];
    var expiry := MedicationEvents(m, now)[|dosing|..];
    assert MedicationEvents(m, now) == dosing + expiry;
    Seqs.FilterConcat(dosing, expiry, (e: Event) => e.post.MedicationPost? && e.post.notificationType == "expiry");
    assert ExpiryAlerts(dosing) == [];
  }

  /** A dosing reminder is an info toast whose request has type 'reminder' and no day count. */
  lemma ReminderPayload(m: Med, now: int)
    ensures forall e :: (e in MedicationEvents(m, now) && e.post.notificationType == "reminder"
                         ==> e.severity == Info && e.post.daysUntilExpiry.None? && e.post.medication == m)
  {
  }

  /** An end date later today, less than a whole day ahead, already counts as expired. */
  lemma EndDateWithinTheDayIsExpired(m: Med, now: int)
    requires m.active && m.endDate.At? && now <= m.endDate.instant < now + MsPerDay
    ensures Event(Error, m.name + " has expired!", MedicationPost(m, "expiry", Some(0))) in MedicationEvents(m, now)
  {
    DifferenceWithinADay(m.endDate.instant, now);
  }

  /** Every event of one medication's callback is about that medication, which is active. */
  lemma MedicationEventsAbout(m: Med, now: int)
    ensures forall e :: (e in MedicationEvents(m, now)
                         ==> e.post.MedicationPost? && e.post.medication == m && m.active)
  {
  }

  /** The sweep's events are exactly the events of the individual medications. */
  lemma {:induction false} MedicationSweepMembers(meds: seq<Med>, now: int)
    ensures forall e :: (e in MedicationSweep(meds, now)
                         <==> exists i :: 0 <= i < |meds| && e in MedicationEvents(meds[i], now))
    decreases |meds|
  {
    if meds != [] {
      var init := meds[..|meds| - 1];
      MedicationSweepMembers(init, now);
      assert forall i :: 0 <= i < |init| ==> init[i] == meds[i];
      assert MedicationSweep(meds, now) == MedicationSweep(init, now) + MedicationEvents(meds[|meds| - 1], now);
    }
  }

  /** Only active medications produce events, and every event names a medication of the snapshot. */
  lemma SweepOnlyActive(meds: seq<Med>, now: int)
    ensures forall e :: (e in MedicationSweep(meds, now)
                         ==> e.post.MedicationPost? && e.post.medication in meds && e.post.medication.active)
  {
    MedicationSweepMembers(meds, now);
    forall e | e in MedicationSweep(meds, now)
      ensures e.post.MedicationPost? && e.post.medication in meds && e.post.medication.active
    {
      var i :| 0 <= i < |meds| && e in MedicationEvents(meds[i], now);
      MedicationEventsAbout(meds[i], now);
    }
  }

  /** The 15-minute window is re-checked every 5 minutes, so a reminder fires at
      each of the seven pass times from 15 minutes before to 15 minutes after its
      time. Those passes run only when `Mount` registered the interval. */
  lemma RemindersRepeatAcrossPasses(m: Med, now0: int, k: nat)
    requires m.active && m.time.Some? && MinuteOfDay(now0) == m.time.value - 15
    requires m.time.value + 15 < MinutesPerDay
    requires k <= 6
    ensures ReminderEvent(m) in MedicationEvents(m, now0 + k * PassPeriod * MsPerMinute)
  {
    MinuteOfDayAdvance(now0, k * PassPeriod);
    assert now0 + k * PassPeriod * MsPerMinute == now0 + (k * PassPeriod) * MsPerMinute;
  }

  /** The first plan dated today is the one used, provided every plan before it has a
      valid date; later plans dated today are ignored. */
  lemma {:induction false} FirstPlanDatedToday(plans: seq<MealPlan>, today: int, i: nat)
    requires i < |plans| && plans[i].date.At? && CalendarDay(plans[i].date.instant) == today
    requires forall j :: 0 <= j < i ==> plans[j].date.At? && CalendarDay(plans[j].date.instant) != today
    ensures FindTodaysPlan(plans, today) == TodaysPlan(plans[i])
    decreases i
  {
    if i > 0 {
      FirstPlanDatedToday(plans[1..], today, i - 1);
    }
  }

  /** When no plan is dated today, the meal check fires nothing whatever the time. */
  lemma {:induction false} OtherDatesNeverFire(plans: seq<MealPlan>, now: int)
    requires forall j :: 0 <= j < |plans| ==> !(plans[j].date.At? && CalendarDay(plans[j].date.instant) == CalendarDay(now))
    ensures MealEvents(plans, now) == []
    decreases |plans|
  {
    if plans != [] && plans[0].date.At? {
      assert forall j :: 0 <= j < |plans[1..]| ==> plans[1..][j] == plans[j + 1];
      OtherDatesNeverFire(plans[1..], now);
    }
  }

  /** The slot sweep holds a meal event for a slot exactly when that slot is due. */
  lemma {:induction false} SlotSweepMembers(p: MealPlan, slots: seq<Slot>, now: int)
    ensures forall s :: MealEvent(p, s) in SlotSweep(p, slots, now) <==> s in slots && MealDue(p, s, now)
    ensures forall e :: e in SlotSweep(p, slots, now) ==> exists s :: s in slots && e == MealEvent(p, s)
    decreases |slots|
  {
    if slots != [] {
      SlotSweepMembers(p, slots[..|slots| - 1], now);
      assert slots == slots[..|slots| - 1] + [slots[|slots| - 1]];
      forall s ensures MealEvent(p, s) in SlotSweep(p, slots, now) <==> s in slots && MealDue(p, s, now) {
        if s != slots[|slots| - 1] {
          SlotNamesDistinct(s, slots[|slots| - 1]);
        }
      }
    }
  }

  lemma SlotNamesDistinct(s: Slot, t: Slot)
    requires s != t
    ensures SlotName(s) != SlotName(t)
  {
  }

  /** With today's plan found, a slot fires exactly when its text is non-empty and
      the clock is within 30 minutes of the slot time; the event carries the slot
      label and the text verbatim. */
  lemma MealSlotFiresIff(plans: seq<MealPlan>, now: int, s: Slot)
    requires FindTodaysPlan(plans, CalendarDay(now)).TodaysPlan?
    ensures var p := FindTodaysPlan(plans, CalendarDay(now)).plan;
      Event(Info, "Time for " + SlotName(s) + ": " + Content(p, s), MealPost(SlotName(s), Content(p, s)))
        in MealEvents(plans, now)
      <==> Content(p, s) != "" && -30 <= MinuteOfDay(now) - SlotTime(s) <= 30
  {
    var p := FindTodaysPlan(plans, CalendarDay(now)).plan;
    SlotSweepMembers(p, Slots, now);
    assert s in Slots;
  }

  /** Slot times are more than an hour apart, so one pass fires at most one meal reminder. */
  lemma AtMostOneMealEvent(plans: seq<MealPlan>, now: int)
    ensures |MealEvents(plans, now)| <= 1
  {
    if FindTodaysPlan(plans, CalendarDay(now)).TodaysPlan? {
      var p := FindTodaysPlan(plans, CalendarDay(now)).plan;
      SlotSweepLength(p, Slots, now);
      forall i, j | 0 <= i < j < |Slots|
        ensures !(MealDue(p, Slots[i], now) && MealDue(p, Slots[j], now))
      {
        assert SlotTime(Slots[j]) - SlotTime(Slots[i]) > 2 * MealWindow;
      }
      Seqs.FilterAtMostOne(Slots, (s: Slot) => MealDue(p, s, now));
    }
  }

  lemma {:induction false} SlotSweepLength(p: MealPlan, slots: seq<Slot>, now: int)
    ensures |SlotSweep(p, slots, now)| == |Seqs.Filter(slots, (s: Slot) => MealDue(p, s, now))|
    decreases |slots|
  {
    if slots != [] {
      SlotSweepLength(p, slots[..|slots| - 1], now);
    }
  }
}
