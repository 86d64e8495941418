/**
 * The billing (checkout) screen: the address the order goes to, the
 * prescriptions sent with it, the order it builds, the validation that must
 * pass before the order is placed, and how placement results are shown.
 */
module Billing {
  import opened Text
  import opened CartProducts
  import opened Prescriptions
  import opened Orders
  import opened Firestore
  import OrderStatuses
  import OrderPlacement

  /** `filter { it.id != id }`: the list without every prescription of that id. */
  function WithoutPrescription(ps: seq<PrescriptionData>, id: string): (r: seq<PrescriptionData>)
    ensures |r| <= |ps|
    ensures forall p :: p in r <==> p in ps && p.id != id
  {
    if ps == [] then []
    else (if ps[0].id == id then [] else [ps[0]]) + WithoutPrescription(ps[1..], id)
  }

  /** Removing keeps the others in order: removal distributes over
      concatenation. */
  lemma {:induction false} WithoutAppend(a: seq<PrescriptionData>, b: seq<PrescriptionData>, id: string)
    ensures WithoutPrescription(a + b, id) == WithoutPrescription(a, id) + WithoutPrescription(b, id)
    decreases |a|
  {
    if a == [] {
      assert a + b == b;
    } else {
      assert (a + b)[0] == a[0];
      assert (a + b)[1..] == a[1..] + b;
      WithoutAppend(a[1..], b, id);
    }
  }

  /** Removing twice is removing once. */
  lemma {:induction false} WithoutIdempotent(ps: seq<PrescriptionData>, id: string)
    ensures WithoutPrescription(WithoutPrescription(ps, id), id) == WithoutPrescription(ps, id)
    decreases |ps|
  {
    if ps != [] {
      WithoutIdempotent(ps[1..], id);
      if ps[0].id != id {
        var r := WithoutPrescription(ps, id);
        assert r == [ps[0]] + WithoutPrescription(ps[1..], id);
        assert r[0] == ps[0] && r[1..] == WithoutPrescription(ps[1..], id);
        assert WithoutPrescription(r, id) == [ps[0]] + WithoutPrescription(r[1..], id);
      } else {
        assert WithoutPrescription(ps, id) == [] + WithoutPrescription(ps[1..], id);
        assert [] + WithoutPrescription(ps[1..], id) == WithoutPrescription(ps[1..], id);
      }
    }
  }

  const InvalidPrescriptionsMarker := "Missing or invalid prescriptions"
  const ValidationFailedMarker := "Prescription validation failed"
  const InvalidPrescriptionsText := "Some prescriptions are invalid or expired. Please upload new prescriptions."
  const ValidationFailedText := "Prescription validation failed. Please check your prescriptions and try again."
  const OrderFailedText := "Order failed. Please try again."

  /** `showOrderError`'s text: a fixed text for each of the two known
      failures, else the message itself, or a default without one. */
  function ErrorText(message: Option<string>): (r: string)
    ensures message.Some? && Contains(message.value, InvalidPrescriptionsMarker) ==> r == InvalidPrescriptionsText
    ensures (message.Some? && !Contains(message.value, InvalidPrescriptionsMarker)
             && Contains(message.value, ValidationFailedMarker)) ==> r == ValidationFailedText
    ensures (message.Some? && !Contains(message.value, InvalidPrescriptionsMarker)
             && !Contains(message.value, ValidationFailedMarker)) ==> r == message.value
    ensures message.None? ==> r == OrderFailedText
  {
    if message.Some? && Contains(message.value, InvalidPrescriptionsMarker) then InvalidPrescriptionsText
    else if message.Some? && Contains(message.value, ValidationFailedMarker) then ValidationFailedText
    else message.OrElse(OrderFailedText)
  }

  /** A message beginning with the validation marker is shown as the
      validation text unless it also names invalid prescriptions. */
  lemma MarkerPrefixShown(rest: string)
    requires !Contains(ValidationFailedMarker + rest, InvalidPrescriptionsMarker)
    ensures ErrorText(Some(ValidationFailedMarker + rest)) == ValidationFailedText
  {
    var m := ValidationFailedMarker + rest;
    assert m[0..|ValidationFailedMarker|] == ValidationFailedMarker;
    assert OccursAt(m, ValidationFailedMarker, 0);
  }

  /** The order the screen builds: status "Ordered", cash on delivery, the
      chosen address, the screen's prescriptions; the id, date and creation
      time come from the clock and the random source. */
  function BuiltOrder(orderId: string, date: string, createdAt: int, totalPrice: real,
                      products: seq<CartProduct>, address: Address, prescriptionData: seq<PrescriptionData>,
                      userId: Option<string>): (o: Order)
    ensures o.orderStatus == OrderStatuses.Status(OrderStatuses.Ordered) && o.paymentMethod == "COD"
    ensures o.address == address && o.products == products && o.prescriptionData == prescriptionData
    ensures o.userId == userId.OrElse("") && o.orderId == orderId && o.totalPrice == totalPrice
  {
    NewOrder(date, orderId, createdAt,
      orderStatus := OrderStatuses.Status(OrderStatuses.Ordered),
      totalPrice := totalPrice,
      products := products,
      address := address,
      prescriptionData := prescriptionData,
      paymentMethod := "COD",
      userId := userId.OrElse(""))
  }

  /** What confirming the order leads to. */
  datatype PlaceStep = PrescriptionError(message: string) | PlaceOrder(order: Order)

  const InvalidFoundMessage := "Invalid or expired prescriptions found"
  const UnknownStateMessage := "Unknown validation state"

  /** `placeOrderWithPrescriptionValidation`: an order with prescriptions is
      placed only after the validation returned `Success(true)`. */
  function PlacementStep(order: Order, validation: Resource<bool>): (r: PlaceStep)
    ensures r.PlaceOrder? <==> order.prescriptionData == [] || validation == Success(true)
    ensures r.PlaceOrder? ==> r.order == order
  {
    if order.prescriptionData == [] then PlaceOrder(order)
    else match validation
      case Success(ok) => if ok then PlaceOrder(order) else PrescriptionError(InvalidFoundMessage)
      case Error(m) => PrescriptionError(m)
      case _ => PrescriptionError(UnknownStateMessage)
  }

  /** With the view model's validation, an order carrying prescriptions is
      placed exactly when the query answers and every one of them is the
      user's, approved and present in the store; a failed query shows its
      own error. */
  lemma PlacedOnlyIfValidated(order: Order, store: map<string, PrescriptionData>, query: Call)
    ensures var v := OrderPlacement.ValidateForOrder(order.prescriptionData, order.userId, store, query);
            PlacementStep(order, v).PlaceOrder?
            <==> (order.prescriptionData == [] || query.Succeeds?)
                 && OrderPlacement.AllQualify(order.prescriptionData, store, order.userId)
    ensures order.prescriptionData != [] && query.Throws? ==>
              var v := OrderPlacement.ValidateForOrder(order.prescriptionData, order.userId, store, query);
              PlacementStep(order, v)
              == PrescriptionError(OrderPlacement.ValidationErrorPrefix + query.MessageOr("null"))
  {
  }

  /** What the screen does on a new order state. */
  datatype OrderEffect = NoEffect | OrderSucceeded(order: Order) | ShowError(text: string)

  /** The first address of a loaded list is chosen when none is chosen yet. */
  function AddressAfterLoad(selected: Option<Address>, loaded: Resource<seq<Address>>): (r: Option<Address>)
    ensures selected.Some? ==> r == selected
    ensures selected.None? && loaded.Success? && loaded.data != [] ==> r == Some(loaded.data[0])
    ensures selected.None? && !(loaded.Success? && loaded.data != []) ==> r.None?
  {
    if selected.None? && loaded.Success? && loaded.data != [] then Some(loaded.data[0]) else selected
  }

  datatype ClickResult = AddressRequired | ConfirmDialog

  class BillingFragment {
    var products: seq<CartProduct>
    var totalPrice: real
    var prescriptionData: seq<PrescriptionData>
    var selectedAddress: Option<Address>
    var orderPlaced: bool

    /** The screen's arguments; a missing prescription list is empty. */
    constructor(products0: seq<CartProduct>, totalPrice0: real, prescriptions0: Option<seq<PrescriptionData>>)
      ensures products == products0 && totalPrice == totalPrice0
      ensures prescriptionData == prescriptions0.OrElse([])
      ensures selectedAddress.None? && !orderPlaced
    {
      products := products0;
      totalPrice := totalPrice0;
      prescriptionData := prescriptions0.OrElse([]);
      selectedAddress := None;
      orderPlaced := false;
    }

    /** An address tapped in the list. */
    method SelectAddress(a: Address)
      modifies this
      ensures selectedAddress == Some(a)
      ensures prescriptionData == old(prescriptionData) && orderPlaced == old(orderPlaced)
      ensures products == old(products) && totalPrice == old(totalPrice)
    {
      selectedAddress := Some(a);
    }

    /** The address list arrives. */
    method OnAddresses(loaded: Resource<seq<Address>>)
      modifies this
      ensures selectedAddress == AddressAfterLoad(old(selectedAddress), loaded)
      ensures prescriptionData == old(prescriptionData) && orderPlaced == old(orderPlaced)
      ensures products == old(products) && totalPrice == old(totalPrice)
    {
      if loaded.Success? && loaded.data != [] && selectedAddress.None? {
        selectedAddress := Some(loaded.data[0]);
      }
    }

    /** The user confirmed removing a prescription. */
    method RemovePrescription(p: PrescriptionData)
      modifies this
      ensures prescriptionData == WithoutPrescription(old(prescriptionData), p.id)
      ensures selectedAddress == old(selectedAddress) && orderPlaced == old(orderPlaced)
      ensures products == old(products) && totalPrice == old(totalPrice)
    {
      prescriptionData := WithoutPrescription(prescriptionData, p.id);
    }

    /** "Place order": an address is required before the confirmation. */
    method OnPlaceOrderClicked() returns (r: ClickResult)
      ensures r == AddressRequired <==> selectedAddress.None?
    {
      if selectedAddress.None? {
        r := AddressRequired;
      } else {
        r := ConfirmDialog;
      }
    }

    /** The confirmation: build the order and decide whether to place it.
        The screen only gets here with an address chosen. */
    method PlaceOrderWithPrescriptionValidation(orderId: string, date: string, createdAt: int,
                                                userId: Option<string>, validation: Resource<bool>)
      returns (step: PlaceStep)
      requires selectedAddress.Some?
      ensures step == PlacementStep(BuiltOrder(orderId, date, createdAt, totalPrice, products,
                                               selectedAddress.value, prescriptionData, userId), validation)
    {
      var order := BuiltOrder(orderId, date, createdAt, totalPrice, products, selectedAddress.value,
                              prescriptionData, userId);
      step := PlacementStep(order, validation);
    }

    /** A new order state: the first success is handled once, an error is
        shown. */
    method OnOrderState(state: Resource<Order>) returns (effect: OrderEffect)
      modifies this
      ensures state.Success? ==> orderPlaced
      ensures state.Success? && !old(orderPlaced) ==> effect == OrderSucceeded(state.data)
      ensures state.Success? && old(orderPlaced) ==> effect == NoEffect
      ensures state.Error? ==> effect == ShowError(ErrorText(Some(state.message))) && orderPlaced == old(orderPlaced)
      ensures !state.Success? && !state.Error? ==> effect == NoEffect && orderPlaced == old(orderPlaced)
      ensures prescriptionData == old(prescriptionData) && selectedAddress == old(selectedAddress)
      ensures products == old(products) && totalPrice == old(totalPrice)
    {
      effect := NoEffect;
      if state.Success? {
        if !orderPlaced {
          orderPlaced := true;
          effect := OrderSucceeded(state.data);
        }
      } else if state.Error? {
        effect := ShowError(ErrorText(Some(state.message)));
      }
    }
  }
}
