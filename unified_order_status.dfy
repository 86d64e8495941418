/**
 * The unified order status vocabulary: stored names, display names, which
 * statuses are final, the successor table and the lenient string lookup.
 */
module UnifiedOrderStatuses {
  import opened Text

  datatype UnifiedOrderStatus =
    | Ordered | Confirmed | Processing | ReadyForDelivery | Shipped | Delivered | Cancelled | Pending

  /** The enum constant's name; the stored status string is the same text. */
  function Name(s: UnifiedOrderStatus): string
  {
    match s
    case Ordered => "ORDERED"
    case Confirmed => "CONFIRMED"
    case Processing => "PROCESSING"
    case ReadyForDelivery => "READY_FOR_DELIVERY"
    case Shipped => "SHIPPED"
    case Delivered => "DELIVERED"
    case Cancelled => "CANCELLED"
    case Pending => "PENDING"
  }

  function Status(s: UnifiedOrderStatus): string
  {
    Name(s)
  }

  /** The display name: the constant's name in title case, with spaces for
      underscores. */
  function DisplayName(s: UnifiedOrderStatus): (r: string)
    ensures |r| == |Name(s)|
    ensures forall i :: 0 <= i < |r| ==>
              if Name(s)[i] == '_' then r[i] == ' ' else UpperChar(r[i]) == Name(s)[i]
  {
    match s
    case Ordered => "Ordered"
    case Confirmed => "Confirmed"
    case Processing => "Processing"
    case ReadyForDelivery => "Ready for Delivery"
    case Shipped => "Shipped"
    case Delivered => "Delivered"
    case Cancelled => "Cancelled"
    case Pending => "Pending"
  }

  /** The `isCustomerVisible` flag: off only for PROCESSING, which the
      pharmacist can still act on. */
  function IsCustomerVisible(s: UnifiedOrderStatus): (r: bool)
    ensures r <==> Name(s) != "PROCESSING"
    ensures !r ==> IsPharmacistActionable(s)
  {
    s != Processing
  }

  /** The `isPharmacistActionable` flag: off for DELIVERED and CANCELLED. */
  function IsPharmacistActionable(s: UnifiedOrderStatus): (r: bool)
    ensures !r <==> Name(s) == "DELIVERED" || Name(s) == "CANCELLED"
  {
    s != Delivered && s != Cancelled
  }

  /** The `isFinalState` flag: set exactly where the pharmacist flag is off. */
  function IsFinalState(s: UnifiedOrderStatus): (r: bool)
    ensures r <==> !IsPharmacistActionable(s)
  {
    s == Delivered || s == Cancelled
  }

  /** `values()`, in declaration order. */
  function Values(): (r: seq<UnifiedOrderStatus>)
    ensures |r| == 8
  {
    [Ordered, Confirmed, Processing, ReadyForDelivery, Shipped, Delivered, Cancelled, Pending]
  }

  lemma ValuesComplete(s: UnifiedOrderStatus)
    ensures s in Values()
  {
    var r := Values();
    if s == Ordered { assert r[0] == s; }
    else if s == Confirmed { assert r[1] == s; }
    else if s == Processing { assert r[2] == s; }
    else if s == ReadyForDelivery { assert r[3] == s; }
    else if s == Shipped { assert r[4] == s; }
    else if s == Delivered { assert r[5] == s; }
    else if s == Cancelled { assert r[6] == s; }
    else { assert r[7] == s; }
  }

  /** Names differ pairwise even ignoring case. */
  lemma NamesDistinct(a: UnifiedOrderStatus, b: UnifiedOrderStatus)
    requires a != b
    ensures !EqualsIgnoreCase(Name(a), Name(b))
  {
    var x, y := Name(a), Name(b);
    if |x| != |y| {
      DifferInLength(x, y);
    } else if LowerChar(x[0]) != LowerChar(y[0]) {
      DifferAt(x, y, 0);
    } else {
      DifferAt(x, y, 1);
    }
  }

  /** The lookup's test: the input is the name or the status, ignoring case. */
  predicate Matches(s: UnifiedOrderStatus, v: string)
  {
    EqualsIgnoreCase(Name(s), v) || EqualsIgnoreCase(Status(s), v)
  }

  function FirstMatch(xs: seq<UnifiedOrderStatus>, v: string): (r: Option<UnifiedOrderStatus>)
    ensures r.Some? ==> r.value in xs && Matches(r.value, v)
    ensures r.None? ==> forall s :: s in xs ==> !Matches(s, v)
  {
    if xs == [] then None
    else if Matches(xs[0], v) then Some(xs[0])
    else FirstMatch(xs[1..], v)
  }

  /** `fromString(v)`: the value whose name or status equals `v` ignoring
      case, PENDING when there is none. */
  function FromString(v: string): (r: UnifiedOrderStatus)
    ensures (exists s :: Matches(s, v)) ==> Matches(r, v)
    ensures (forall s :: !Matches(s, v)) ==> r == Pending
  {
    assert forall s :: s in Values() by {
      forall s ensures s in Values() { ValuesComplete(s); }
    }
    FirstMatch(Values(), v).OrElse(Pending)
  }

  /** Reading back a stored name or status, in any case, gives the value. */
  lemma {:induction false} FromStringRoundTrip(s: UnifiedOrderStatus, v: string)
    requires EqualsIgnoreCase(v, Name(s)) || EqualsIgnoreCase(v, Status(s))
    ensures FromString(v) == s
  {
    var r := FromString(v);
    assert Matches(s, v);
    assert EqualsIgnoreCase(Name(r), v);
    if r != s {
      NamesDistinct(r, s);
    }
  }

  function VisibleAmong(xs: seq<UnifiedOrderStatus>): seq<UnifiedOrderStatus>
  {
    if xs == [] then []
    else (if IsCustomerVisible(xs[0]) then [xs[0]] else []) + VisibleAmong(xs[1..])
  }

  /** `getCustomerVisibleStatuses()`: every value but PROCESSING, in
      declaration order. */
  function CustomerVisibleStatuses(): (r: seq<UnifiedOrderStatus>)
    ensures r == [Ordered, Confirmed, ReadyForDelivery, Shipped, Delivered, Cancelled, Pending]
  {
    VisibleAmong(Values())
  }

  /** `getNextValidStatuses(s)`. */
  function NextValidStatuses(s: UnifiedOrderStatus): (r: seq<UnifiedOrderStatus>)
    ensures r == [] <==> s in {Delivered, Cancelled, Pending}
    ensures IsFinalState(s) ==> r == []
    ensures s == Processing ==> Shipped in r
    ensures forall t :: t in r ==> t != s && t != Ordered && t != Pending
  {
    match s
    case Ordered => [Confirmed, Processing, Cancelled]
    case Confirmed => [Processing, ReadyForDelivery, Cancelled]
    case Processing => [ReadyForDelivery, Shipped, Cancelled]
    case ReadyForDelivery => [Shipped, Cancelled]
    case Shipped => [Delivered]
    case _ => []
  }

  predicate IsPath(p: seq<UnifiedOrderStatus>)
  {
    forall i :: 0 <= i < |p| - 1 ==> p[i + 1] in NextValidStatuses(p[i])
  }

  /** A height that every transition raises. */
  function Height(s: UnifiedOrderStatus): nat
  {
    match s
    case Pending => 0
    case Ordered => 0
    case Confirmed => 1
    case Processing => 2
    case ReadyForDelivery => 3
    case Shipped => 4
    case Delivered => 5
    case Cancelled => 6
  }

  lemma StepRaises(s: UnifiedOrderStatus, t: UnifiedOrderStatus)
    requires t in NextValidStatuses(s)
    ensures Height(s) < Height(t)
  {
  }

  /** Along any path of two or more statuses the height strictly grows. */
  lemma {:induction false} PathRaises(p: seq<UnifiedOrderStatus>)
    requires IsPath(p) && |p| >= 2
    ensures Height(p[0]) < Height(p[|p| - 1])
    decreases |p|
  {
    StepRaises(p[0], p[1]);
    if |p| > 2 {
      assert IsPath(p[1..]);
      PathRaises(p[1..]);
    }
  }

  /** The transition table has no cycle: no path returns to where it
      started. */
  lemma Acyclic(p: seq<UnifiedOrderStatus>)
    requires IsPath(p) && |p| >= 2
    ensures p[0] != p[|p| - 1]
  {
    PathRaises(p);
  }
}
