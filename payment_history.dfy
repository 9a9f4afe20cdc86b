/** The payment list: one row per payment with a status icon, a description, the method and
    reference, the amount and a status badge, and an empty-state notice when there are none. */
module PaymentHistory {
  import opened Js
  import opened AppState
  import opened DisplayText

  /** The colour family a status is shown in. */
  datatype Tone = Green | Yellow | Red | Gray

  /** The status each tone stands for: completed, pending, failed, anything else. */
  function ToneOf(status: string): Tone {
    if status == "completed" then Green
    else if status == "pending" then Yellow
    else if status == "failed" then Red
    else Gray
  }

  datatype Glyph = CheckCircle | Clock | XCircle

  /** An icon: its shape and its class. */
  datatype Icon = Icon(glyph: Glyph, className: string)

  const GreenIcon := "w-4 h-4 text-green-500"
  const YellowIcon := "w-4 h-4 text-yellow-500"
  const RedIcon := "w-4 h-4 text-red-500"
  const GrayIcon := "w-4 h-4 text-gray-500"

  const GreenBadge := "bg-green-100 text-green-800 dark:bg-green-900/20 dark:text-green-400"
  const YellowBadge := "bg-yellow-100 text-yellow-800 dark:bg-yellow-900/20 dark:text-yellow-400"
  const RedBadge := "bg-red-100 text-red-800 dark:bg-red-900/20 dark:text-red-400"
  const GrayBadge := "bg-gray-100 text-gray-800 dark:bg-gray-900/20 dark:text-gray-400"

  /** `getStatusIcon`. */
  function StatusIcon(status: string): (r: Icon)
    ensures r.glyph == CheckCircle <==> status == "completed"
    ensures r.glyph == XCircle <==> status == "failed"
  {
    match status
    case "completed" => Icon(CheckCircle, GreenIcon)
    case "pending" => Icon(Clock, YellowIcon)
    case "failed" => Icon(XCircle, RedIcon)
    case _ => Icon(Clock, GrayIcon)
  }

  /** `getStatusColor`. */
  function StatusColor(status: string): string {
    match status
    case "completed" => GreenBadge
    case "pending" => YellowBadge
    case "failed" => RedBadge
    case _ => GrayBadge
  }

  /** The tone an icon class or a badge class is drawn in. */
  function IconTone(className: string): Option<Tone> {
    if className == GreenIcon then Some(Green)
    else if className == YellowIcon then Some(Yellow)
    else if className == RedIcon then Some(Red)
    else if className == GrayIcon then Some(Gray)
    else None
  }

  function BadgeTone(className: string): Option<Tone> {
    if className == GreenBadge then Some(Green)
    else if className == YellowBadge then Some(Yellow)
    else if className == RedBadge then Some(Red)
    else if className == GrayBadge then Some(Gray)
    else None
  }

  /** The icon and the badge of a status agree on its colour: green for completed, yellow for
      pending, red for failed, gray for any other status. */
  lemma IconAndBadgeAgree(status: string)
    ensures IconTone(StatusIcon(status).className) == Some(ToneOf(status))
    ensures BadgeTone(StatusColor(status)) == Some(ToneOf(status))
  {
  }

  /** `getPaymentDescription`: the subscription's package name, else the description, else
      "Payment"; empty strings fall through. The result is never empty. */
  function Description(p: Payment): (r: string)
    ensures p.subscription.Some? && Truthy(p.subscription.value.packageName) ==> r == p.subscription.value.packageName.value
    ensures !(p.subscription.Some? && Truthy(p.subscription.value.packageName)) && Truthy(p.description) ==> r == p.description.value
    ensures !(p.subscription.Some? && Truthy(p.subscription.value.packageName)) && !Truthy(p.description) ==> r == "Payment"
    ensures r != ""
    ensures r == OrElse(if p.subscription.Some? then p.subscription.value.packageName else None, OrElse(p.description, "Payment"))
  {
    if p.subscription.Some? && Truthy(p.subscription.value.packageName) then p.subscription.value.packageName.value
    else OrElse(p.description, "Payment")
  }

  /** One row of the list. */
  datatype Row = Row(
    key: int,
    icon: Icon,
    description: string,
    methodSuffix: Option<string>,
    referenceLine: Option<string>,
    amount: int,
    currency: string,
    badge: string,
    badgeClass: string)

  /** The row for one payment. */
  function RowOf(p: Payment): (r: Row)
    ensures r.key == p.id
    ensures r.methodSuffix.Some? <==> Truthy(p.paymentMethod)
    ensures r.referenceLine.Some? <==> Truthy(p.reference)
    ensures IconTone(r.icon.className) == BadgeTone(r.badgeClass) == Some(ToneOf(p.status))
    ensures r.icon == StatusIcon(p.status) && r.description == Description(p)
    ensures r.badge == StatusBadge(p.status) && r.badgeClass == StatusColor(p.status)
    ensures r.methodSuffix.Some? ==> r.methodSuffix.value == MethodLabel(p.paymentMethod.value)
    ensures r.referenceLine.Some? ==> r.referenceLine.value == p.reference.value
    ensures r.amount == p.amount && r.currency == p.currency
  {
    IconAndBadgeAgree(p.status);
    Row(
      p.id,
      StatusIcon(p.status),
      Description(p),
      if Truthy(p.paymentMethod) then Some(MethodLabel(p.paymentMethod.value)) else None,
      if Truthy(p.reference) then Some(p.reference.value) else None,
      p.amount,
      p.currency,
      StatusBadge(p.status),
      StatusColor(p.status))
  }

  /** What the list shows. */
  datatype HistoryView = HistoryView(rows: seq<Row>, emptyState: bool)

  /** The list for `payments`: one row per payment, in the same order, keyed by its id, and
      the empty-state notice exactly when there is no payment. */
  function View(payments: seq<Payment>): (v: HistoryView)
    ensures |v.rows| == |payments|
    ensures forall i :: 0 <= i < |payments| ==> v.rows[i] == RowOf(payments[i]) && v.rows[i].key == payments[i].id
    ensures v.emptyState <==> v.rows == []
  {
    HistoryView(seq(|payments|, i requires 0 <= i < |payments| => RowOf(payments[i])), |payments| == 0)
  }

  /** Row keys are distinct exactly when payment ids are. */
  lemma KeysDistinctIffIds(payments: seq<Payment>)
    ensures var rows := View(payments).rows;
      (forall i, j :: 0 <= i < j < |rows| ==> rows[i].key != rows[j].key) <==>
      (forall i, j :: 0 <= i < j < |payments| ==> payments[i].id != payments[j].id)
  {
  }

  /** The list follows the payments: adding a payment (as ADD_PAYMENT does) adds its row on top. */
  lemma NewPaymentOnTop(payments: seq<Payment>, p: Payment)
    ensures View([p] + payments).rows == [RowOf(p)] + View(payments).rows
    ensures !View([p] + payments).emptyState
  {
    var a := View([p] + payments).rows;
    var b := [RowOf(p)] + View(payments).rows;
    assert |a| == |b|;
    forall i | 0 <= i < |a|
      ensures a[i] == b[i]
    {
      if i > 0 {
        assert ([p] + payments)[i] == payments[i - 1];
      }
    }
  }
}
