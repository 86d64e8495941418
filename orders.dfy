/** A placed order: its lines, delivery address and prescriptions. */
module Orders {
  import opened Text
  import opened CartProducts
  import opened Prescriptions
  import OrderStatuses

  /** A delivery address, with the fields the order record stores. */
  datatype Address = Address(
    addressTitle: string,
    fullName: string,
    street: string,
    phone: string,
    city: string,
    state: string)

  function NoArgAddress(): Address
  {
    Address("", "", "", "", "", "")
  }

  /** `date` is the day's date already formatted and `createdAt` is in
      milliseconds since the epoch. */
  datatype Order = Order(
    orderStatus: string,
    totalPrice: real,
    products: seq<CartProduct>,
    address: Address,
    date: string,
    orderId: string,
    prescriptionIds: seq<string>,
    prescriptionData: seq<PrescriptionData>,
    pharmacistId: string,
    userId: string,
    paymentMethod: string,
    deliveryInstructions: string,
    prescriptionImageUrl: Option<string>,
    pharmacyName: Option<string>,
    createdAt: int)
  {
    /** The order involves prescriptions: it carries some, or one of its
        products needs one. */
    function HasPrescriptionItems(): (b: bool)
      ensures b <==> prescriptionData != [] || RequiringCount(products) > 0
    {
      RequiringCountPositive(products);
      |prescriptionData| > 0 || exists i :: 0 <= i < |products| && products[i].product.requiresPrescription
    }

    /** Every prescription's product ids, then the ids of the lines whose
        product needs a prescription; duplicates are kept. */
    function AllPrescriptionProductIds(): (r: seq<string>)
      ensures |r| == TotalIdCount(prescriptionData) + RequiringCount(products)
      ensures forall x :: x in r <==>
                (exists k :: 0 <= k < |prescriptionData| && x in prescriptionData[k].productIds)
                || (exists i :: 0 <= i < |products| && products[i].product.requiresPrescription
                                                      && products[i].product.id == x)
      ensures !HasPrescriptionItems() ==> r == []
    {
      FlatIdsFacts(prescriptionData);
      RequiringIdsFacts(products);
      assert !HasPrescriptionItems() ==> RequiringCount(products) == 0 by {
        if !HasPrescriptionItems() {
          NoneRequiring(products);
        }
      }
      FlatIds(prescriptionData) + RequiringIds(products)
    }
  }

  /** The primary constructor. Its date, id and creation time come from
      the clock, so they are arguments here. */
  function NewOrder(date: string, orderId: string, createdAt: int,
                    orderStatus: string := "Pending",
                    totalPrice: real := 0.0,
                    products: seq<CartProduct> := [],
                    address: Address := NoArgAddress(),
                    prescriptionIds: seq<string> := [],
                    prescriptionData: seq<PrescriptionData> := [],
                    pharmacistId: string := "",
                    userId: string := "",
                    paymentMethod: string := "",
                    deliveryInstructions: string := "",
                    prescriptionImageUrl: Option<string> := None,
                    pharmacyName: Option<string> := None): (o: Order)
    ensures o.orderStatus == orderStatus && o.products == products && o.address == address
    ensures o.prescriptionData == prescriptionData && o.userId == userId
    ensures o.paymentMethod == paymentMethod && o.orderId == orderId && o.createdAt == createdAt
  {
    Order(orderStatus, totalPrice, products, address, date, orderId, prescriptionIds,
      prescriptionData, pharmacistId, userId, paymentMethod, deliveryInstructions,
      prescriptionImageUrl, pharmacyName, createdAt)
  }

  /** The no-argument constructor: like the primary one's defaults except
      that the status is the customer text of ORDERED. */
  function NoArgOrder(date: string, orderId: string, createdAt: int): (o: Order)
    ensures o.orderStatus == OrderStatuses.Status(OrderStatuses.Ordered)
    ensures o.orderStatus != NewOrder(date, orderId, createdAt).orderStatus
    ensures o.products == [] && o.prescriptionData == [] && !o.HasPrescriptionItems()
  {
    NewOrder(date, orderId, createdAt, orderStatus := OrderStatuses.Status(OrderStatuses.Ordered))
  }

  function FlatIds(ps: seq<PrescriptionData>): seq<string>
  {
    if ps == [] then [] else ps[0].productIds + FlatIds(ps[1..])
  }

  function TotalIdCount(ps: seq<PrescriptionData>): nat
  {
    if ps == [] then 0 else |ps[0].productIds| + TotalIdCount(ps[1..])
  }

  lemma {:induction false} FlatIdsFacts(ps: seq<PrescriptionData>)
    ensures |FlatIds(ps)| == TotalIdCount(ps)
    ensures forall x :: x in FlatIds(ps) <==> exists k :: 0 <= k < |ps| && x in ps[k].productIds
  {
    if ps != [] {
      FlatIdsFacts(ps[1..]);
      forall x | x in FlatIds(ps)
        ensures exists k :: 0 <= k < |ps| && x in ps[k].productIds
      {
        if x !in ps[0].productIds {
          var k :| 0 <= k < |ps[1..]| && x in ps[1..][k].productIds;
          assert ps[k + 1] == ps[1..][k];
        }
      }
      forall x | exists k :: 0 <= k < |ps| && x in ps[k].productIds
        ensures x in FlatIds(ps)
      {
        var k :| 0 <= k < |ps| && x in ps[k].productIds;
        if k > 0 {
          assert ps[1..][k - 1] == ps[k];
        }
      }
    }
  }

  function RequiringIds(lines: seq<CartProduct>): seq<string>
  {
    if lines == [] then []
    else (if lines[0].product.requiresPrescription then [lines[0].product.id] else [])
         + RequiringIds(lines[1..])
  }

  /** Number of lines whose product needs a prescription. */
  function RequiringCount(lines: seq<CartProduct>): nat
  {
    if lines == [] then 0
    else (if lines[0].product.requiresPrescription then 1 else 0) + RequiringCount(lines[1..])
  }

  /** Some line needs a prescription exactly when the count is positive. */
  lemma {:induction false} RequiringCountPositive(lines: seq<CartProduct>)
    ensures RequiringCount(lines) > 0 <==>
              exists i :: 0 <= i < |lines| && lines[i].product.requiresPrescription
  {
    if lines != [] {
      var rest := lines[1..];
      RequiringCountPositive(rest);
      if RequiringCount(lines) > 0 && !lines[0].product.requiresPrescription {
        var i :| 0 <= i < |rest| && rest[i].product.requiresPrescription;
        assert lines[i + 1] == rest[i];
      }
      if RequiringCount(lines) == 0 {
        forall i | 0 <= i < |lines|
          ensures !lines[i].product.requiresPrescription
        {
          if i > 0 {
            assert lines[i] == rest[i - 1];
          }
        }
      }
    }
  }

  /** Without a prescription product there is nothing to count. */
  lemma {:induction false} NoneRequiring(lines: seq<CartProduct>)
    requires forall i :: 0 <= i < |lines| ==> !lines[i].product.requiresPrescription
    ensures RequiringCount(lines) == 0
  {
    if lines != [] {
      assert forall i :: 0 <= i < |lines[1..]| ==> lines[1..][i] == lines[i + 1];
      NoneRequiring(lines[1..]);
    }
  }

  lemma {:induction false} RequiringIdsFacts(lines: seq<CartProduct>)
    ensures |RequiringIds(lines)| == RequiringCount(lines)
    ensures forall x :: x in RequiringIds(lines) <==>
              exists i :: 0 <= i < |lines| && lines[i].product.requiresPrescription && lines[i].product.id == x
  {
    if lines != [] {
      RequiringIdsFacts(lines[1..]);
      forall x | x in RequiringIds(lines)
        ensures exists i :: 0 <= i < |lines| && lines[i].product.requiresPrescription && lines[i].product.id == x
      {
        if !(lines[0].product.requiresPrescription && lines[0].product.id == x) {
          var i :| 0 <= i < |lines[1..]| && lines[1..][i].product.requiresPrescription && lines[1..][i].product.id == x;
          assert lines[i + 1] == lines[1..][i];
        }
      }
      forall x | exists i :: 0 <= i < |lines| && lines[i].product.requiresPrescription && lines[i].product.id == x
        ensures x in RequiringIds(lines)
      {
        var i :| 0 <= i < |lines| && lines[i].product.requiresPrescription && lines[i].product.id == x;
        if i > 0 {
          assert lines[1..][i - 1] == lines[i];
        }
      }
    }
  }
}
