/**
 * One row of the customer's order list: the id label, the date line with
 * its item count, and the lenient reading of the stored status.
 */
module AllOrders {
  import opened Text
  import opened OrderStatuses

  /** The first status of `xs` whose display text equals `s` ignoring
      case (`find`). */
  function FindByStatus(xs: seq<OrderStatus>, s: string): (r: Option<OrderStatus>)
    ensures r.Some? ==> r.value in xs && EqualsIgnoreCase(Status(r.value), s)
    ensures r.None? ==> forall t :: t in xs ==> !EqualsIgnoreCase(Status(t), s)
    ensures r.Some? ==> exists i :: 0 <= i < |xs| && xs[i] == r.value
                                   && forall j :: 0 <= j < i ==> !EqualsIgnoreCase(Status(xs[j]), s)
  {
    if xs == [] then None
    else if EqualsIgnoreCase(Status(xs[0]), s) then
      assert xs[0] == xs[0];
      Some(xs[0])
    else
      var r := FindByStatus(xs[1..], s);
      assert r.Some? ==> exists i :: 0 <= i < |xs| && xs[i] == r.value
                                     && forall j :: 0 <= j < i ==> !EqualsIgnoreCase(Status(xs[j]), s) by {
        if r.Some? {
          var i :| 0 <= i < |xs[1..]| && xs[1..][i] == r.value
                   && forall j :: 0 <= j < i ==> !EqualsIgnoreCase(Status(xs[1..][j]), s);
          assert xs[i + 1] == r.value;
          forall j | 0 <= j < i + 1 ensures !EqualsIgnoreCase(Status(xs[j]), s) {
            if j > 0 { assert xs[j] == xs[1..][j - 1]; }
          }
        }
      }
      r
  }

  /** `getOrderStatusByString`: null or blank text is ORDERED; then the
      status whose name is the upper-cased text; then the first whose
      display text matches ignoring case; ORDERED otherwise. */
  function OrderStatusByString(s: Option<string>): (r: OrderStatus)
    ensures s.None? || IsBlank(s.value) ==> r == Ordered
    ensures s.Some? && !IsBlank(s.value) && (exists t :: Name(t) == Upper(s.value)) ==>
              Name(r) == Upper(s.value)
    ensures s.Some? && !IsBlank(s.value) && (forall t :: Name(t) != Upper(s.value))
              && (exists t :: EqualsIgnoreCase(Status(t), s.value)) ==>
              EqualsIgnoreCase(Status(r), s.value)
    ensures s.Some? && (forall t :: Name(t) != Upper(s.value) && !EqualsIgnoreCase(Status(t), s.value)) ==>
              r == Ordered
  {
    if s.None? || IsBlank(s.value) then Ordered
    else match ValueOf(Upper(s.value))
      case Some(t) => t
      case None =>
        assert forall t :: t in Values() by {
          forall t ensures t in Values() { ValuesComplete(t); }
        }
        FindByStatus(Values(), s.value).OrElse(Ordered)
  }

  /** Text whose upper-case form is a name reads as that status. */
  lemma ReadsByName(s: string, t: OrderStatus)
    requires !IsBlank(s) && Upper(s) == Name(t)
    ensures OrderStatusByString(Some(s)) == t
  {
    assert ValueOf(Upper(s)).Some?;
  }

  /** A stored enum name reads back as itself. */
  lemma NameReadsBack(t: OrderStatus)
    ensures OrderStatusByString(Some(Name(t))) == t
  {
    NameIsUpper(t);
    assert !IsSpace(Name(t)[0]);
    ReadsByName(Name(t), t);
  }

  /** Upper-casing a one-word display text gives the name. */
  lemma UpperStatusIsName(t: OrderStatus)
    requires t != ReadyForDelivery
    ensures Upper(Status(t)) == Name(t)
  {
    var s, n := Status(t), Name(t);
    assert |Upper(s)| == |n|;
    forall i | 0 <= i < |n| ensures Upper(s)[i] == n[i] {
      assert Upper(s)[i] == UpperChar(s[i]);
    }
  }

  /** "Ready for Delivery", in any case, is found by the second test. */
  lemma ReadyForDeliveryReadsBack(s: string)
    requires EqualsIgnoreCase(s, Status(ReadyForDelivery))
    ensures OrderStatusByString(Some(s)) == ReadyForDelivery
  {
    var d := Status(ReadyForDelivery);
    assert |s| == |d| by { assert |Lower(s)| == |Lower(d)|; }
    assert !IsBlank(s) by {
      assert Lower(s)[0] == Lower(d)[0];
      assert LowerChar(s[0]) == 'r';
    }
    assert Upper(s)[5] == ' ' by {
      assert Lower(s)[5] == Lower(d)[5];
    }
    forall u ensures Name(u) != Upper(s) {
      if |Name(u)| == |s| {
        assert Name(u)[5] != ' ';
      }
    }
    var vs := Values();
    DifferInLength(Status(vs[0]), s);
    DifferInLength(Status(vs[1]), s);
    DifferInLength(Status(vs[2]), s);
    assert EqualsIgnoreCase(Status(vs[3]), s);
    assert vs[1..][1..][1..] == vs[3..];
  }

  /** A display text reads back as its status. */
  lemma StatusReadsBack(t: OrderStatus)
    ensures OrderStatusByString(Some(Status(t))) == t
  {
    if t == ReadyForDelivery {
      ReadyForDeliveryReadsBack(Status(t));
    } else {
      UpperStatusIsName(t);
      assert !IsSpace(Status(t)[0]);
      ReadsByName(Status(t), t);
    }
  }

  /** `formatOrderDate`'s choice; the formatting of the creation time is
      left to the platform. */
  datatype DateLabel = Given(text: string) | FromCreatedAt(millis: int) | NotAvailable

  /** `formatOrderDate`: a non-blank date is shown as given; otherwise the
      creation time; otherwise "Date not available". */
  function FormatOrderDate(date: Option<string>, createdAt: Option<int>): (r: DateLabel)
    ensures date.Some? && !IsBlank(date.value) ==> r == Given(date.value)
    ensures (date.None? || IsBlank(date.value)) && createdAt.Some? ==> r == FromCreatedAt(createdAt.value)
    ensures (date.None? || IsBlank(date.value)) && createdAt.None? ==> r == NotAvailable
  {
    if date.Some? && !IsBlank(date.value) then Given(date.value)
    else if createdAt.Some? then FromCreatedAt(createdAt.value)
    else NotAvailable
  }

  function DateLabelText(l: DateLabel, formatted: string): string
  {
    match l
    case Given(t) => t
    case FromCreatedAt(_) => formatted
    case NotAvailable => "Date not available"
  }

  /** The order id label: at most the first eight characters of the id. */
  function OrderIdLabel(orderId: Option<string>): (r: string)
    ensures orderId.None? ==> r == "Order #Unknown"
    ensures orderId.Some? ==> |r| == 7 + (if |orderId.value| < 8 then |orderId.value| else 8)
    ensures orderId.Some? ==> r == "Order #" + orderId.value[..|r| - 7]
  {
    if orderId.None? then "Order #Unknown" else "Order #" + Take(orderId.value, 8)
  }

  /** The date line: the item count is appended only when positive. */
  function DateLine(dateText: string, itemCount: nat): (r: string)
    ensures itemCount == 0 ==> r == dateText
    ensures itemCount > 0 ==> r == dateText + " • " + NatToString(itemCount) + " items"
    ensures |r| >= |dateText|
  {
    if itemCount > 0 then dateText + " • " + NatToString(itemCount) + " items" else dateText
  }
}
