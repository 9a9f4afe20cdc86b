/** The card that shows the current subscription: its title and status badge, the price, the
    features, either a live countdown or an expiry notice, the payment details and the action
    button. Only the decisions the card makes are modelled; layout and animation are not. */
module SubscriptionCard {
  import opened Js
  import opened AppState
  import opened Countdown
  import opened DisplayText

  const ActiveClass := "bg-green-100 text-green-800 dark:bg-green-900/20 dark:text-green-400"
  const ExpiredClass := "bg-red-100 text-red-800 dark:bg-red-900/20 dark:text-red-400"
  const CancelledClass := "bg-gray-100 text-gray-800 dark:bg-gray-900/20 dark:text-gray-400"
  const OtherClass := "bg-blue-100 text-blue-800 dark:bg-blue-900/20 dark:text-blue-400"

  const RenewLabel := "Renew Package"
  const UpgradeLabel := "Upgrade Package"

  /** `getStatusColor`: green for active, red for expired, gray for cancelled, blue for any
      other status, and each colour for its status only. */
  function StatusColor(status: string): (r: string)
    ensures r == ActiveClass <==> status == "active"
    ensures r == ExpiredClass <==> status == "expired"
    ensures r == CancelledClass <==> status == "cancelled"
    ensures r == OtherClass <==> status !in {"active", "expired", "cancelled"}
  {
    match status
    case "active" => ActiveClass
    case "expired" => ExpiredClass
    case "cancelled" => CancelledClass
    case _ => OtherClass
  }

  /** `subscription.package?.name || subscription.packageName`. */
  function Title(sub: Subscription): (r: string)
    ensures sub.packageInfo.Some? && sub.packageInfo.value.name != "" ==> r == sub.packageInfo.value.name
    ensures sub.packageInfo.None? || sub.packageInfo.value.name == "" ==> r == sub.packageName
    ensures r == "" ==> sub.packageName == ""
    ensures r == OrElse(if sub.packageInfo.Some? then Some(sub.packageInfo.value.name) else None, sub.packageName)
  {
    if sub.packageInfo.Some? && sub.packageInfo.value.name != "" then sub.packageInfo.value.name
    else sub.packageName
  }

  /** `subscription.package?.price || subscription.price`: a package price of 0 is falsy and
      falls through to the subscription's own price. */
  function ShownPrice(sub: Subscription): (r: int)
    ensures sub.packageInfo.Some? && sub.packageInfo.value.price != 0 ==> r == sub.packageInfo.value.price
    ensures sub.packageInfo.None? || sub.packageInfo.value.price == 0 ==> r == sub.price
    ensures r == 0 ==> sub.price == 0
  {
    if sub.packageInfo.Some? && sub.packageInfo.value.price != 0 then sub.packageInfo.value.price
    else sub.price
  }

  /** What the card shows. `countdownCells` is the countdown panel (days, hours, minutes,
      seconds) when it is shown; `methodLine` and `referenceLine` are the payment details. */
  datatype CardView = CardView(
    title: string,
    badge: string,
    badgeClass: string,
    price: int,
    features: seq<string>,
    countdownCells: Option<seq<string>>,
    expiredNotice: bool,
    methodLine: Option<string>,
    referenceLine: Option<string>,
    action: string)

  /** The card for `sub`, with `countdown` the countdown's current value for its end date. */
  function View(sub: Subscription, countdown: TimeLeft): (v: CardView)
    ensures v.expiredNotice <==> countdown.isExpired || sub.status == "expired"
    ensures v.countdownCells.Some? <==> !v.expiredNotice && sub.status == "active"
    ensures !(v.countdownCells.Some? && v.expiredNotice)
    ensures v.action == RenewLabel <==> v.expiredNotice
    ensures v.action == UpgradeLabel <==> !v.expiredNotice
    ensures v.countdownCells.Some? ==> |v.countdownCells.value| == 4
    ensures v.methodLine.Some? <==> Truthy(sub.paymentMethod)
    ensures v.referenceLine.Some? <==> Truthy(sub.paymentMethod) && Truthy(sub.paymentReference)
    ensures v.features != [] ==> sub.packageInfo.Some? && v.features == sub.packageInfo.value.features
    ensures sub.packageInfo.Some? ==> v.features == sub.packageInfo.value.features
    ensures v.title == Title(sub) && v.price == ShownPrice(sub)
    ensures v.badge == StatusBadge(sub.status) && v.badgeClass == StatusColor(sub.status)
    ensures v.countdownCells.Some? ==> v.countdownCells.value == CountdownCells(countdown)
    ensures v.methodLine.Some? ==> v.methodLine.value == MethodLabel(sub.paymentMethod.value)
    ensures v.referenceLine.Some? ==> v.referenceLine.value == sub.paymentReference.value
  {
    var isExpired := countdown.isExpired || sub.status == "expired";
    CardView(
      Title(sub),
      StatusBadge(sub.status),
      StatusColor(sub.status),
      ShownPrice(sub),
      if sub.packageInfo.Some? then sub.packageInfo.value.features else [],
      if !isExpired && sub.status == "active" then Some(CountdownCells(countdown)) else None,
      isExpired,
      if Truthy(sub.paymentMethod) then Some(MethodLabel(sub.paymentMethod.value)) else None,
      if Truthy(sub.paymentMethod) && Truthy(sub.paymentReference) then Some(sub.paymentReference.value) else None,
      if isExpired then RenewLabel else UpgradeLabel)
  }

  /** The four cells of the countdown panel: days, hours, minutes, seconds. */
  function CountdownCells(t: TimeLeft): (r: seq<string>)
    ensures |r| == 4
  {
    [CountdownCell(t.days), CountdownCell(t.hours), CountdownCell(t.minutes), CountdownCell(t.seconds)]
  }

  /** Within the countdown's bounds, the hour, minute and second cells are exactly two digits
      that read back as the values, and the day cell is at least two digits that read back as
      the number of days. */
  lemma CountdownCellsReadBack(t: TimeLeft)
    requires 0 <= t.days && 0 <= t.hours < 24 && 0 <= t.minutes < 60 && 0 <= t.seconds < 60
    ensures var c := CountdownCells(t);
      && |c[0]| >= 2
      && ReadsAs(c[0], t.days)
      && TwoDigitsOf(c[1], t.hours)
      && TwoDigitsOf(c[2], t.minutes)
      && TwoDigitsOf(c[3], t.seconds)
  {
    var c := CountdownCells(t);
    assert |c[0]| >= 2 && ReadsAs(c[0], t.days) by {
      CellReadsBack(t.days);
    }
    assert TwoDigitsOf(c[1], t.hours) by {
      CellReadsBack(t.hours);
    }
    assert TwoDigitsOf(c[2], t.minutes) by {
      CellReadsBack(t.minutes);
    }
    assert TwoDigitsOf(c[3], t.seconds) by {
      CellReadsBack(t.seconds);
    }
  }

  /** An active subscription with time left shows the countdown panel, with the cells above. */
  lemma CountdownPanelShows(sub: Subscription, countdown: TimeLeft)
    requires sub.status == "active" && !countdown.isExpired
    ensures View(sub, countdown).countdownCells == Some(CountdownCells(countdown))
  {
  }

  /** A subscription whose status is "expired" reads as expired whatever the countdown says:
      the notice shows, the countdown does not, and the button offers a renewal. */
  lemma ExpiredStatusWins(sub: Subscription, countdown: TimeLeft)
    requires sub.status == "expired"
    ensures var v := View(sub, countdown);
      v.expiredNotice && v.countdownCells.None? && v.action == RenewLabel && v.badgeClass == ExpiredClass
  {
  }
}
