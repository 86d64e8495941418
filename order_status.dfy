/**
 * The order lifecycle the customer and pharmacist screens share: the eight
 * statuses, which of them customers see, and which statuses a pharmacist
 * may move an order to next.
 */
module OrderStatuses {
  import opened Text

  datatype OrderStatus =
    | Ordered | Confirmed | Processing | ReadyForDelivery | Shipped | Delivered | Cancelled | Paid

  /** The enum constant's name. */
  function Name(s: OrderStatus): string
  {
    match s
    case Ordered => "ORDERED"
    case Confirmed => "CONFIRMED"
    case Processing => "PROCESSING"
    case ReadyForDelivery => "READY_FOR_DELIVERY"
    case Shipped => "SHIPPED"
    case Delivered => "DELIVERED"
    case Cancelled => "CANCELLED"
    case Paid => "PAID"
  }

  /** The status text shown to customers (the pharmacist display name is the
      same text). */
  function Status(s: OrderStatus): string
  {
    match s
    case Ordered => "Ordered"
    case Confirmed => "Confirmed"
    case Processing => "Processing"
    case ReadyForDelivery => "Ready for Delivery"
    case Shipped => "Shipped"
    case Delivered => "Delivered"
    case Cancelled => "Cancelled"
    case Paid => "Paid"
  }

  /** The `isCustomerVisible` flag: off for the two pharmacist-only
      statuses, which are both still open to the pharmacist. */
  function IsCustomerVisible(s: OrderStatus): (r: bool)
    ensures r <==> Name(s) != "PROCESSING" && Name(s) != "READY_FOR_DELIVERY"
    ensures !r ==> IsPharmacistActionable(s)
  {
    !(s == Processing || s == ReadyForDelivery)
  }

  /** The `isPharmacistActionable` flag: off for the three final statuses. */
  function IsPharmacistActionable(s: OrderStatus): (r: bool)
    ensures !r <==> Name(s) == "DELIVERED" || Name(s) == "CANCELLED" || Name(s) == "PAID"
  {
    !(s == Delivered || s == Cancelled || s == Paid)
  }

  /** `values()`, in declaration order. */
  function Values(): (r: seq<OrderStatus>)
    ensures |r| == 8
  {
    [Ordered, Confirmed, Processing, ReadyForDelivery, Shipped, Delivered, Cancelled, Paid]
  }

  lemma ValuesComplete(s: OrderStatus)
    ensures s in Values()
  {
    var r := Values();
    if s == Ordered { assert r[0] == s; }
    else if s == Confirmed { assert r[1] == s; }
    else if s == Processing { assert r[2] == s; }
    else if s == ReadyForDelivery { assert r[3] == s; }
    else if s == Shipped { assert r[4] == s; }
    else if s == Delivered { assert r[5] == s; }
    else if s == Cancelled { assert r[6] == s; }
    else { assert r[7] == s; }
  }

  /** The customer-visible statuses of `xs`, in order. */
  function VisibleAmong(xs: seq<OrderStatus>): seq<OrderStatus>
  {
    if xs == [] then []
    else (if IsCustomerVisible(xs[0]) then [xs[0]] else []) + VisibleAmong(xs[1..])
  }

  /** `getCustomerVisibleStatuses()`: everything but the two pharmacist-only
      statuses, in declaration order. */
  function CustomerVisibleStatuses(): (r: seq<OrderStatus>)
    ensures r == [Ordered, Confirmed, Shipped, Delivered, Cancelled, Paid]
  {
    VisibleAmong(Values())
  }

  /** `getPharmacistActionableStatuses(s)`: the statuses a pharmacist may
      move an order in status `s` to. */
  function Successors(s: OrderStatus): (r: seq<OrderStatus>)
    ensures r == [] <==> !IsPharmacistActionable(s)
    ensures forall t :: t in r ==> t != s && t != Ordered && t != Paid
    ensures Cancelled in r <==> s in {Ordered, Confirmed, Processing, ReadyForDelivery}
  {
    match s
    case Ordered => [Confirmed, Processing, Cancelled]
    case Confirmed => [Processing, ReadyForDelivery, Cancelled]
    case Processing => [ReadyForDelivery, Cancelled]
    case ReadyForDelivery => [Shipped, Cancelled]
    case Shipped => [Delivered]
    case _ => []
  }

  /** Each step of `p` is a transition of the table. */
  predicate IsPath(p: seq<OrderStatus>)
  {
    forall i :: 0 <= i < |p| - 1 ==> p[i + 1] in Successors(p[i])
  }

  /** Position along the delivery route. */
  function Stage(s: OrderStatus): nat
  {
    match s
    case Ordered => 0
    case Confirmed => 1
    case Processing => 2
    case ReadyForDelivery => 3
    case Shipped => 4
    case _ => 5
  }

  /** A route from any status a pharmacist can still act on to DELIVERED,
      always taking the first listed successor. */
  function RouteToDelivered(s: OrderStatus): (p: seq<OrderStatus>)
    requires IsPharmacistActionable(s)
    ensures |p| >= 2 && p[0] == s && p[|p| - 1] == Delivered
    ensures IsPath(p)
    decreases 5 - Stage(s)
  {
    if s == Shipped then [Shipped, Delivered]
    else
      var rest := RouteToDelivered(Successors(s)[0]);
      assert Successors(s)[0] in Successors(s);
      [s] + rest
  }

  /** The enum constant named exactly `n` (`valueOf`), if there is one. */
  function ValueOf(n: string): (r: Option<OrderStatus>)
    ensures r.Some? ==> Name(r.value) == n
    ensures r.None? ==> forall s :: Name(s) != n
  {
    if n == "ORDERED" then Some(Ordered)
    else if n == "CONFIRMED" then Some(Confirmed)
    else if n == "PROCESSING" then Some(Processing)
    else if n == "READY_FOR_DELIVERY" then Some(ReadyForDelivery)
    else if n == "SHIPPED" then Some(Shipped)
    else if n == "DELIVERED" then Some(Delivered)
    else if n == "CANCELLED" then Some(Cancelled)
    else if n == "PAID" then Some(Paid)
    else None
  }

  /** Names are upper case, so they survive `uppercase()`. */
  lemma NameIsUpper(s: OrderStatus)
    ensures Upper(Name(s)) == Name(s)
  {
    var n := Name(s);
    assert forall i :: 0 <= i < |n| ==> !IsLower(n[i]);
  }
}
