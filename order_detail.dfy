/**
 * The customer's order detail screen: reading the stored status, the step
 * indicator with its cancel and review buttons, live status updates, and
 * cancelling an order.
 */
module OrderDetail {
  import opened Text
  import opened Firestore
  import opened OrderStatuses
  import Orders

  /** `getOrderStatus`: the status named by the upper-cased text, ORDERED
      when there is none. */
  function GetOrderStatus(s: string): (r: OrderStatus)
    ensures (exists t :: Name(t) == Upper(s)) ==> Name(r) == Upper(s)
    ensures (forall t :: Name(t) != Upper(s)) ==> r == Ordered
  {
    ValueOf(Upper(s)).OrElse(Ordered)
  }

  /** A stored enum name, in any case, reads back as itself. */
  lemma GetOrderStatusRoundTrip(t: OrderStatus, s: string)
    requires Upper(s) == Name(t)
    ensures GetOrderStatus(s) == t
  {
  }

  /** `canCancelOrder`: the customer may cancel only an order the status
      rules still let move to CANCELLED, and never a delivered one. */
  function CanCancelOrder(s: OrderStatus): (b: bool)
    ensures b ==> Cancelled in Successors(s)
    ensures b ==> s != Delivered && s != Cancelled && s != Paid
  {
    s == Ordered || s == Processing
  }

  /** The steps of the indicator. */
  function Steps(): (r: seq<OrderStatus>)
    ensures |r| == 5 && r[|r| - 1] == Paid
    ensures Cancelled !in r && Processing !in r && ReadyForDelivery !in r
  {
    [Ordered, Confirmed, Shipped, Delivered, Paid]
  }

  /** The steps are the customer-visible statuses, in their order, with
      CANCELLED taken out. */
  lemma StepsAreVisibleStatuses()
    ensures var v := CustomerVisibleStatuses();
            v[4] == Cancelled && Steps() == v[..4] + v[5..]
    ensures forall t :: t in Steps() <==> t in CustomerVisibleStatuses() && t != Cancelled
  {
    var v := CustomerVisibleStatuses();
    assert v[..4] + v[5..] == [Ordered, Confirmed, Shipped, Delivered, Paid];
  }

  /** The step shown for a status: its position, or the first step for a
      status that has none. */
  function StepIndex(s: OrderStatus): (i: nat)
    ensures i < |Steps()|
    ensures s in Steps() ==> Steps()[i] == s
    ensures s !in Steps() ==> i == 0
  {
    match s
    case Ordered => 0
    case Confirmed => 1
    case Shipped => 2
    case Delivered => 3
    case Paid => 4
    case _ => 0
  }

  /** What the screen shows. */
  datatype View =
    | CancelledView
    | NormalView(stepIndex: nat, done: bool, cancelVisible: bool, reviewVisible: bool)

  /** `showNormalOrderUI` as written: the review button is tied to the last
      step, which is PAID, while it asks for DELIVERED. */
  function NormalViewAsWritten(s: OrderStatus): (v: View)
    ensures v.NormalView? && v.stepIndex == StepIndex(s)
    ensures v.done <==> StepIndex(s) == |Steps()| - 1
    ensures v.cancelVisible <==> CanCancelOrder(s)
    ensures !v.reviewVisible
  {
    var i := StepIndex(s);
    if i == |Steps()| - 1 then NormalView(i, true, false, s == Delivered)
    else if CanCancelOrder(s) then NormalView(i, false, true, false)
    else NormalView(i, false, false, false)
  }

  /** As written, no status ever shows the review button. */
  lemma ReviewNeverShownAsWritten(s: OrderStatus)
    ensures !NormalViewAsWritten(s).reviewVisible
    ensures s == Delivered ==> NormalViewAsWritten(s) == NormalView(3, false, false, false)
  {
  }

  /** `showNormalOrderUI` with the review rule evidently intended: a
      delivered order shows the review button and no cancel button. */
  function NormalViewFor(s: OrderStatus): (v: View)
    ensures v.NormalView? && v.stepIndex == StepIndex(s)
    ensures v.done <==> StepIndex(s) == |Steps()| - 1
  {
    var i := StepIndex(s);
    if i == |Steps()| - 1 || s == Delivered then NormalView(i, i == |Steps()| - 1, false, s == Delivered)
    else if CanCancelOrder(s) then NormalView(i, false, true, false)
    else NormalView(i, false, false, false)
  }

  /** The review button shows exactly for a delivered order, the cancel
      button exactly when the order can still be cancelled, and never both. */
  lemma ButtonsFollowStatus(s: OrderStatus)
    ensures NormalViewFor(s).reviewVisible <==> s == Delivered
    ensures NormalViewFor(s).cancelVisible <==> CanCancelOrder(s)
    ensures !(NormalViewFor(s).reviewVisible && NormalViewFor(s).cancelVisible)
  {
  }

  /** The corrected view differs from the written one only for DELIVERED. */
  lemma CorrectionOnlyForDelivered(s: OrderStatus)
    ensures NormalViewFor(s) == NormalViewAsWritten(s) <==> s != Delivered
  {
  }

  /** The view for a status: the cancelled view hides steps and buttons. */
  function ViewFor(s: OrderStatus): (v: View)
    ensures v.CancelledView? <==> s == Cancelled
    ensures !v.CancelledView? ==> v == NormalViewFor(s)
  {
    if s == Cancelled then CancelledView else NormalViewFor(s)
  }

  /** The fields the cancel button writes to the order document. */
  function CancelUpdates(now: int): (m: Fields)
    ensures m.Keys == {"orderStatus", "cancellationDate"}
    ensures m["orderStatus"] == VStr(Name(Cancelled))
    ensures m["cancellationDate"] == VLong(now)
  {
    map["orderStatus" := VStr(Name(Cancelled)), "cancellationDate" := VLong(now)]
  }

  /** A document after an update: the listed fields replaced. */
  function ApplyUpdates(data: Fields, updates: Fields): (r: Fields)
    ensures r.Keys == data.Keys + updates.Keys
    ensures forall k :: k in updates ==> r[k] == updates[k]
    ensures forall k :: k in data && k !in updates ==> r[k] == data[k]
  {
    map k | k in data.Keys + updates.Keys :: if k in updates then updates[k] else data[k]
  }

  /** A cancelled order document reads back as CANCELLED. */
  lemma CancelledDocumentReadsCancelled(data: Fields, now: int)
    ensures GetString(ApplyUpdates(data, CancelUpdates(now)), "orderStatus") == Some("CANCELLED")
    ensures GetOrderStatus("CANCELLED") == Cancelled
  {
    var u := CancelUpdates(now);
    assert "orderStatus" in u;
    GetOrderStatusRoundTrip(Cancelled, "CANCELLED");
  }

  class OrderDetailFragment {
    var currentOrderStatus: OrderStatus
    /** When the order was cancelled, in milliseconds; shown formatted. */
    var cancellationDate: Option<int>
    var view: View

    predicate Valid()
      reads this
    {
      view == ViewFor(currentOrderStatus)
    }

    /** The screen opens on an order. */
    constructor(order: Orders.Order)
      ensures Valid()
      ensures currentOrderStatus == GetOrderStatus(order.orderStatus)
      ensures cancellationDate.None?
    {
      currentOrderStatus := GetOrderStatus(order.orderStatus);
      cancellationDate := None;
      view := ViewFor(GetOrderStatus(order.orderStatus));
    }

    /** `updateOrderStatus`: a status equal to the current one changes
        nothing; any other one is taken and the screen redrawn. */
    method UpdateOrderStatus(newStatus: string)
      requires Valid()
      modifies this
      ensures Valid()
      ensures currentOrderStatus == GetOrderStatus(newStatus)
      ensures old(currentOrderStatus) == GetOrderStatus(newStatus) ==> view == old(view)
      ensures cancellationDate == old(cancellationDate)
    {
      var parsed := GetOrderStatus(newStatus);
      if currentOrderStatus != parsed {
        currentOrderStatus := parsed;
        view := ViewFor(parsed);
      }
    }

    /** The order document changed: a stored cancellation time is kept, and
        a string status is applied; a document without one is ignored. */
    method OnOrderSnapshot(data: Fields)
      requires Valid()
      modifies this
      ensures Valid()
      ensures GetString(data, "orderStatus").None? ==>
                currentOrderStatus == old(currentOrderStatus) && cancellationDate == old(cancellationDate)
      ensures GetString(data, "orderStatus").Some? ==>
                currentOrderStatus == GetOrderStatus(GetString(data, "orderStatus").value)
      ensures GetString(data, "orderStatus").Some? && "cancellationDate" in data && data["cancellationDate"].VLong? ==>
                cancellationDate == Some(data["cancellationDate"].n)
    {
      var status := GetString(data, "orderStatus");
      if status.None? {
        return;
      }
      if "cancellationDate" in data && data["cancellationDate"].VLong? {
        cancellationDate := Some(data["cancellationDate"].n);
      }
      UpdateOrderStatus(status.value);
    }

    /** `cancelOrder`: the update to write; once the store accepts it the
        order is cancelled at `now` and the cancelled view is shown. */
    method CancelOrder(now: int, accepted: bool) returns (updates: Fields)
      requires Valid()
      modifies this
      ensures Valid()
      ensures updates == CancelUpdates(now)
      ensures accepted ==> currentOrderStatus == Cancelled && cancellationDate == Some(now) && view == CancelledView
      ensures !accepted ==> currentOrderStatus == old(currentOrderStatus) && cancellationDate == old(cancellationDate)
    {
      updates := CancelUpdates(now);
      if accepted {
        cancellationDate := Some(now);
        currentOrderStatus := Cancelled;
        view := CancelledView;
      }
    }
  }
}
