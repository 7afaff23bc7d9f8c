/** The expiry badge shown next to a medication: a five-band classification of
    the whole days left until its end date, with a colour, a message and an icon. */
module ExpiryWarning {

  import opened Js
  import opened Clock
  import opened Schema
  import Reminders

  datatype Band = Gray | Red | Orange | Blue | Green

  /** The rendered badge: its colour classes, its text and whether the alert icon
      (rather than the clock icon) is shown. */
  datatype Badge = Badge(band: Band, colorClass: string, message: string, alertIcon: bool)

  function ColorClass(b: Band): string {
    match b
    case Gray => "bg-gray-100 text-gray-500 border-gray-200"
    case Red => "bg-red-100 text-red-700 border-red-200"
    case Orange => "bg-orange-100 text-orange-700 border-orange-200"
    case Blue => "bg-blue-100 text-blue-700 border-blue-200"
    case Green => "bg-green-100 text-green-700 border-green-200"
  }

  /** The band of a day count; `None` stands for NaN, which fails every comparison
      of the if/else-if chain and so lands in the last band. */
  function BandOf(days: Option<int>): Band {
    match days
    case None => Green
    case Some(d) =>
      if d < 0 then Gray
      else if d <= 2 then Red
      else if d <= 7 then Orange
      else if d <= 14 then Blue
      else Green
  }

  function MessageFor(days: Option<int>): string {
    match days
    case None => "Expires in NaN days"
    case Some(d) =>
      if d < 0 then "Expired " + IntToDecimal(Abs(d)) + " days ago"
      else if d <= 2 then
        (if d == 0 then "Expires today!" else "Expires in " + IntToDecimal(d) + " day" + (if d > 1 then "s" else ""))
      else "Expires in " + IntToDecimal(d) + " days"
  }

  /** The badge for a medication at instant `now`; nothing is rendered without an end date. */
  function ExpiryBadge(m: Med, now: int): Option<Badge> {
    match m.endDate
    case Absent => None
    case Unparseable => Some(Badge(BandOf(None), ColorClass(BandOf(None)), MessageFor(None), false))
    case At(t) =>
      var d := DifferenceInDays(t, now);
      Some(Badge(BandOf(Some(d)), ColorClass(BandOf(Some(d))), MessageFor(Some(d)), d <= 7))
  }

  /** Without an end date nothing is rendered, whatever the other date fields hold. */
  lemma NoEndDateNoBadge(m: Med, now: int)
    requires m.endDate.Absent?
    ensures ExpiryBadge(m, now).None?
    ensures forall e: DateField :: ExpiryBadge(m.(expiryDate := e), now).None?
  {
  }

  /** The five bands, stated as day ranges; every integer falls in exactly one. */
  lemma BandRanges(d: int)
    ensures BandOf(Some(d)) == Gray <==> d < 0
    ensures BandOf(Some(d)) == Red <==> 0 <= d <= 2
    ensures BandOf(Some(d)) == Orange <==> 3 <= d <= 7
    ensures BandOf(Some(d)) == Blue <==> 8 <= d <= 14
    ensures BandOf(Some(d)) == Green <==> d >= 15
  {
  }

  /** Each band has its own colour classes. */
  lemma ColorClassesDistinct(a: Band, b: Band)
    requires a != b
    ensures ColorClass(a) != ColorClass(b)
  {
  }

  /** The alert icon is shown exactly when the end date is at most 7 days ahead
      (or past); an end date that is not a date shows the clock icon. */
  lemma AlertIconIff(m: Med, now: int)
    requires m.endDate.At?
    ensures ExpiryBadge(m, now).Some?
    ensures ExpiryBadge(m, now).value.alertIcon <==> DifferenceInDays(m.endDate.instant, now) <= 7
  {
  }

  /** The message reads "Expires today!" on day 0 and uses the singular on day 1. */
  lemma MessageWording(d: int)
    ensures d == 0 ==> MessageFor(Some(d)) == "Expires today!"
    ensures d == 1 ==> MessageFor(Some(d)) == "Expires in 1 day"
    ensures d == 2 ==> MessageFor(Some(d)) == "Expires in 2 days"
    ensures d == -3 ==> MessageFor(Some(d)) == "Expired 3 days ago"
  {
  }

  /** Different day counts give different messages, so the text identifies the count. */
  lemma MessageIdentifiesDays(a: int, b: int)
    requires MessageFor(Some(a)) == MessageFor(Some(b))
    ensures a == b
  {
    MessageFacts(a);
    MessageFacts(b);
    if a < 0 && b < 0 {
      IntToDecimalInjective(-a, -b);
    } else if a >= 2 && b >= 2 {
      IntToDecimalInjective(a, b);
    }
  }

  /** Where the parts of a message sit: the character that tells past from future,
      the one that tells day 0 from later days, and the digits of the count. */
  lemma MessageFacts(d: int)
    ensures var m := MessageFor(Some(d));
      |m| >= 9
      && (m[6] == 'd' <==> d < 0)
      && (d >= 0 ==> (m[8] == 't' <==> d == 0))
      && (d < 0 ==> |m| >= 17 && m[8..|m| - 9] == IntToDecimal(-d))
      && (d == 1 ==> |m| == 16)
      && (d >= 2 ==> |m| >= 17 && m[11..|m| - 5] == IntToDecimal(d))
  {
    var m := MessageFor(Some(d));
    if d < 0 {
      NatToDecimalRoundTrip(-d);
      assert m == "Expired " + IntToDecimal(-d) + " days ago";
    } else if d >= 1 {
      NatToDecimalRoundTrip(d);
      if d == 1 || d == 2 {
        assert " day" + "s" == " days";
      }
      if d >= 2 {
        assert m == "Expires in " + IntToDecimal(d) + " days";
      }
    }
  }

  /** On day 0 the badge and the reminder matcher disagree: the badge says
      "Expires today!" in red while the matcher raises an "expired" error. */
  lemma DayZeroDisagreement(m: Med, now: int)
    requires m.active && m.endDate.At? && DifferenceInDays(m.endDate.instant, now) == 0
    ensures ExpiryBadge(m, now) == Some(Badge(Red, ColorClass(Red), "Expires today!", true))
    ensures Reminders.Event(Reminders.Error, m.name + " has expired!",
                            Reminders.MedicationPost(m, "expiry", Some(0)))
              in Reminders.MedicationEvents(m, now)
  {
  }
}
