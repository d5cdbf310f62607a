/** The status a discount card shows: whether the discount is active,
    expired or upcoming, and how many calendar days are left. Instants are
    milliseconds on the local clock, so a local calendar day is a whole
    number of `MsPerDay`; a date the browser parses without a time is the
    midnight that starts its day. */
module DiscountCard {
  import opened Json
  import DiscountController

  const MsPerDay: int := 24 * 60 * 60 * 1000

  /** The local calendar day an instant falls on. */
  function DayOf(t: int): int
  {
    t / MsPerDay
  }

  /** The midnight that starts calendar day `d`. */
  function Midnight(d: int): int
  {
    d * MsPerDay
  }

  lemma DayOfWithinDay(d: int, t: int)
    requires Midnight(d) <= t < Midnight(d) + MsPerDay
    ensures DayOf(t) == d
  {
    var r := t - Midnight(d);
    assert t == d * MsPerDay + r && 0 <= r < MsPerDay;
  }

  /** `if (field) { parsed = parseISO(field); date = isValid(parsed) ? parsed : null }`:
      a missing, empty or unparseable date is null. `parse` is the date
      parser, `None` for an invalid date. */
  function ParseDate(field: Option<Json>, parse: string -> Option<int>): (r: Option<int>)
    ensures !Present(field) ==> r.None?
    ensures r.Some? ==> field.Some? && field.value.Str? && parse(field.value.s) == r
    ensures Present(field) && field.value.Str? ==> r == parse(field.value.s)
  {
    if Present(field) && field.value.Str? then parse(field.value.s) else None
  }

  /** The three derived values of the card. */
  datatype CardView = CardView(isActive: bool, isExpired: bool, daysLeft: Option<int>)

  /** The classification as written: instants compared to the millisecond. */
  function Classify(start: Option<int>, end: Option<int>, now: int): (v: CardView)
    ensures v.daysLeft.Some? <==> end.Some?
    ensures end.Some? ==> v.daysLeft.value == DayOf(end.value) - DayOf(now)
  {
    var isActive := start.Some? && end.Some? && !(now < start.value) && !(now > end.value);
    var isExpired := end.Some? && now > end.value;
    CardView(isActive, isExpired, if end.Some? then Some(DayOf(end.value) - DayOf(now)) else None)
  }

  /** Active and Expired exclude each other; both need their dates. */
  lemma ClassifyExclusive(start: Option<int>, end: Option<int>, now: int)
    ensures var v := Classify(start, end, now);
            && !(v.isActive && v.isExpired)
            && (v.isActive <==> start.Some? && end.Some? && start.value <= now <= end.value)
            && (v.isExpired <==> end.Some? && end.value < now)
  {
  }

  /** Without an end date nothing is active or expired: the card is
      upcoming. */
  lemma NoEndDateIsUpcoming(start: Option<int>, now: int)
    ensures Badges(Classify(start, None, now)) == [Upcoming]
    ensures Classify(start, None, now).daysLeft == None
  {
  }

  datatype Badge = Active | Expired | Upcoming

  /** The badges rendered, in page order. */
  function Badges(v: CardView): seq<Badge>
  {
    (if v.isActive then [Active] else [])
    + (if v.isExpired then [Expired] else [])
    + (if !v.isActive && !v.isExpired then [Upcoming] else [])
  }

  function FooterText(b: Badge): string
  {
    match b
    case Active => "🔥 Currently active"
    case Expired => "⚠️ This discount has expired"
    case Upcoming => "⏳ Upcoming discount"
  }

  /** The footer lines rendered, in page order. */
  function Footers(v: CardView): seq<string>
  {
    (if v.isActive then [FooterText(Active)] else [])
    + (if v.isExpired then [FooterText(Expired)] else [])
    + (if !v.isActive && !v.isExpired then [FooterText(Upcoming)] else [])
  }

  /** When Active and Expired exclude each other, exactly one badge shows
      and the footer is the one that goes with it. */
  lemma OneBadgeOneFooter(v: CardView)
    requires !(v.isActive && v.isExpired)
    ensures |Badges(v)| == 1
    ensures Footers(v) == [FooterText(Badges(v)[0])]
    ensures Badges(v)[0] == Active <==> v.isActive
    ensures Badges(v)[0] == Expired <==> v.isExpired
  {
  }

  /** `daysLeft === 1 ? "day" : "days"`. */
  function DayWord(daysLeft: int): (w: string)
    ensures w == "day" <==> daysLeft == 1
  {
    if daysLeft == 1 then "day" else "days"
  }

  /** The "Sale ends in" line shows only on an active card. */
  predicate ShowsEndsIn(v: CardView)
  {
    v.isActive && v.daysLeft.Some?
  }

  /** On an active card the days left are never negative. */
  lemma ActiveDaysLeftNonNegative(start: Option<int>, end: Option<int>, now: int)
    requires Classify(start, end, now).isActive
    ensures ShowsEndsIn(Classify(start, end, now))
    ensures Classify(start, end, now).daysLeft.value >= 0
  {
    DayOfMonotone(now, end.value);
  }

  lemma DayOfMonotone(a: int, b: int)
    requires a <= b
    ensures DayOf(a) <= DayOf(b)
  {
    var qa, qb := a / MsPerDay, b / MsPerDay;
    assert a == qa * MsPerDay + a % MsPerDay;
    assert b == qb * MsPerDay + b % MsPerDay;
  }

  /** As written, a discount that the server lists under `?date=today`
      shows as Expired for the whole of its last day after midnight. */
  lemma EndDayShowsExpired(row: DiscountController.JoinedRow, now: int)
    requires row.discount.start_date <= row.discount.end_date
    requires Midnight(row.discount.end_date) < now < Midnight(row.discount.end_date) + MsPerDay
    ensures DiscountController.ClauseHolds(DiscountController.Today, row, DayOf(now))
    ensures var v := Classify(Some(Midnight(row.discount.start_date)), Some(Midnight(row.discount.end_date)), now);
            v.isExpired && !v.isActive && Badges(v) == [Expired]
  {
    DayOfWithinDay(row.discount.end_date, now);
  }

  /** The classification by calendar day: the end date's whole day counts
      as active, as the server's `today` filter has it. */
  function ClassifyByDay(start: Option<int>, end: Option<int>, now: int): (v: CardView)
    ensures !(v.isActive && v.isExpired)
    ensures v.daysLeft.Some? <==> end.Some?
    ensures end.Some? ==> v.daysLeft.value == DayOf(end.value) - DayOf(now)
    ensures v.isActive ==> v.daysLeft.Some? && v.daysLeft.value >= 0
  {
    var today := DayOf(now);
    var isActive := start.Some? && end.Some? && DayOf(start.value) <= today <= DayOf(end.value);
    var isExpired := end.Some? && today > DayOf(end.value);
    CardView(isActive, isExpired, if end.Some? then Some(DayOf(end.value) - today) else None)
  }

  /** For the dates the server sends, the corrected card is active exactly
      when the server's `today` filter lists the row, and expired exactly
      when its last day has passed. */
  lemma ClassifyByDayMatchesTodayFilter(row: DiscountController.JoinedRow, now: int)
    ensures var v := ClassifyByDay(Some(Midnight(row.discount.start_date)), Some(Midnight(row.discount.end_date)), now);
            && (v.isActive <==> DiscountController.ClauseHolds(DiscountController.Today, row, DayOf(now)))
            && (v.isExpired <==> DayOf(now) > row.discount.end_date)
  {
    DayOfWithinDay(row.discount.start_date, Midnight(row.discount.start_date));
    DayOfWithinDay(row.discount.end_date, Midnight(row.discount.end_date));
  }

  /** The card as rendered, with the corrected classification. */
  function CardBadges(start: Option<int>, end: Option<int>, now: int): (b: seq<Badge>)
    ensures |b| == 1
    ensures end.None? ==> b == [Upcoming]
  {
    var v := ClassifyByDay(start, end, now);
    OneBadgeOneFooter(v);
    Badges(v)
  }
}
