/**
 * The cart screen: the prescription panel it shows, the checkout gate it
 * applies before moving to billing, the one-shot automatic checkout after
 * returning from an upload, and the stock check on the plus button.
 */
module CartScreen {
  import opened Text
  import opened Firestore
  import opened Products
  import opened CartProducts
  import opened Prescriptions
  import opened Cart

  /** What the prescription panel shows. */
  datatype Panel =
    | Hidden
    | NewRequired
    | PendingReview(p: PrescriptionData)
    | ApprovedPanel(p: PrescriptionData)
    | ExpiredPanel(p: PrescriptionData)
    | RejectedPanel(p: PrescriptionData)

  /** What pressing checkout leads to. */
  datatype CheckoutOutcome =
    | Refused(message: string)
    | ToBilling(totalPrice: real, products: seq<CartProduct>, isPrescriptionVerified: bool,
                prescriptionData: seq<PrescriptionData>)

  /** `resource.value?.data`: the payload of a successful load only. */
  function DataOf<T>(r: Resource<T>): (d: Option<T>)
    ensures d.Some? <==> r.Success?
    ensures d.Some? ==> d.value == r.data
  {
    if r.Success? then Some(r.data) else None
  }

  /** `getCurrentValidPrescription`: the latest prescription naming one of
      the prescription lines, used or not. */
  function CurrentValidPrescription(ps: seq<PrescriptionData>, items: seq<CartProduct>): (r: Option<PrescriptionData>)
    ensures r.None? <==> forall p :: p in ps ==> !Covers(p, items)
    ensures r.Some? ==> r.value in ps && Covers(r.value, items)
                        && forall p :: p in ps && Covers(p, items) ==> p.timestamp <= r.value.timestamp
  {
    var cands := Covering(ps, items);
    assert cands != [] ==> cands[0] in cands;
    MaxByTimestamp(cands)
  }

  /** The panel for the current prescription; statuses are compared
      exactly, and the approved branch looks only at the age, not at
      `usedInOrder`. */
  function PanelOf(current: Option<PrescriptionData>, now: int): (r: Panel)
    ensures r != Hidden
    ensures !r.NewRequired? ==> current.Some? && r.p == current.value
    ensures r.ApprovedPanel? ==> r.p.status == StatusApproved && !IsExpired(r.p, now)
    ensures r.PendingReview? ==> r.p.status == StatusPending && r.p.usedInOrder.None?
  {
    match current
    case None => NewRequired
    case Some(p) =>
      if p.status == StatusPending then (if p.usedInOrder.None? then PendingReview(p) else NewRequired)
      else if p.status == StatusApproved then (if IsExpired(p, now) then ExpiredPanel(p) else ApprovedPanel(p))
      else if p.status == StatusRejected then RejectedPanel(p)
      else NewRequired
  }

  /** `updatePrescriptionUI`'s decision. */
  function PanelFor(hasItems: bool, items: seq<CartProduct>, data: Option<seq<PrescriptionData>>, now: int): (r: Panel)
    ensures r == Hidden <==> !hasItems
    ensures hasItems && (data.None? || data.value == []) ==> r == NewRequired
    ensures r.ApprovedPanel? ==> data.Some? && r.p in data.value && Covers(r.p, items)
                                 && r.p.status == StatusApproved && !IsExpired(r.p, now)
    ensures r.PendingReview? ==> data.Some? && r.p in data.value && Covers(r.p, items)
                                 && r.p.status == StatusPending && r.p.usedInOrder.None?
  {
    if !hasItems then Hidden
    else if data.None? || data.value == [] then NewRequired
    else
      var c := CurrentValidPrescription(data.value, items);
      assert c.Some? ==> c.value in data.value && Covers(c.value, items);
      PanelOf(c, now)
  }

  /** The view-model state a panel stands for; a cancelled prescription is
      shown as a plain "new prescription required". */
  function PanelState(panel: Panel): Option<PrescriptionState>
  {
    match panel
    case Hidden => None
    case NewRequired => Some(NewUploadRequired)
    case PendingReview(_) => Some(UploadedPending)
    case ApprovedPanel(_) => Some(Approved)
    case ExpiredPanel(_) => Some(Expired)
    case RejectedPanel(_) => Some(Rejected)
  }

  function ShownAs(s: PrescriptionState): PrescriptionState
  {
    if s == Cancelled then NewUploadRequired else s
  }

  /** For an unused prescription (or none) the panel shows the view
      model's state. */
  lemma PanelOfUnused(c: Option<PrescriptionData>, now: int)
    requires c.Some? ==> c.value.usedInOrder.None?
    ensures PanelState(PanelOf(c, now)) == Some(ShownAs(StateFor(c, now)))
  {
  }

  /** The panel decision lists exactly the cases of the view model's state
      map, as long as no prescription has been used by an order (which the
      view model's loader guarantees): it is hidden only without
      prescription lines and otherwise shows the view model's state. */
  lemma PanelAgreesWithViewModel(ps: seq<PrescriptionData>, cart: seq<CartProduct>, now: int)
    requires forall q :: q in ps ==> q.usedInOrder.None?
    ensures (PanelFor(HasPrescriptionItems(cart), PrescriptionItems(cart), Some(ps), now) == Hidden)
            <==> !HasPrescriptionItems(cart)
    ensures HasPrescriptionItems(cart) ==>
              PanelState(PanelFor(true, PrescriptionItems(cart), Some(ps), now))
              == Some(ShownAs(StateFor(RelevantPrescription(ps, cart), now)))
  {
    var c := CurrentValidPrescription(ps, PrescriptionItems(cart));
    assert c == RelevantPrescription(ps, cart);
    if c.Some? {
      assert c.value in Covering(ps, PrescriptionItems(cart));
    }
    if ps == [] {
      assert Covering(ps, PrescriptionItems(cart)) == [];
    }
    PanelOfUnused(c, now);
  }

  /** A used, approved, fresh prescription is enough for the panel and the
      gate here, while the view model asks for a new upload. */
  lemma UsedApprovalShownAsApproved()
    ensures var line := NoArgCartProduct().(product := NoArgProduct().(id := "x", requiresPrescription := true));
            var p := PrescriptionData("p", None, ["x"], "", [], "u", Some("o"), 0, StatusApproved,
                                      None, None, 0, 0, None);
            PanelFor(true, [line], Some([p]), 0) == ApprovedPanel(p)
            && StateFor(RelevantPrescription([p], [line]), 0) == NewUploadRequired
  {
    var line := NoArgCartProduct().(product := NoArgProduct().(id := "x", requiresPrescription := true));
    var p := PrescriptionData("p", None, ["x"], "", [], "u", Some("o"), 0, StatusApproved,
                              None, None, 0, 0, None);
    assert RequiresPrescription(line.product);
    assert PrescriptionItems([line]) == [line];
    assert Covers(p, [line]) by { assert [line][0].product.id in p.productIds; }
    assert Covering([p], [line]) == [p];
    assert CoversCart(p, [line]) by { assert [line][0].product.id in p.productIds; }
  }

  /** `canIncreaseQuantity`: an unknown stock (zero) never stops the plus
      button, and a known stock stops it at the stock. */
  function CanIncreaseQuantity(line: CartProduct): (r: bool)
    ensures line.product.availableQuantity == 0 ==> r
    ensures r && line.product.availableQuantity > 0 ==> line.quantity + 1 <= line.product.availableQuantity
  {
    line.product.availableQuantity == 0 || line.quantity < line.product.availableQuantity
  }

  /** With a known stock, the increased quantity never exceeds it. */
  lemma IncreaseStaysInStock(line: CartProduct)
    requires line.product.availableQuantity != 0
    ensures CanIncreaseQuantity(line) <==> line.quantity + 1 <= line.product.availableQuantity
  {
  }

  class CartFragment {
    var totalPrice: real
    var hasPrescriptionItems: bool
    var prescriptionItems: seq<CartProduct>
    var shouldAutoCheckout: bool
    /** The lines the adapter currently shows. */
    var shownLines: seq<CartProduct>
    var panel: Panel

    /** The prescription lines are what the flag says they are. */
    predicate Valid()
      reads this
    {
      (hasPrescriptionItems <==> prescriptionItems != [])
      && forall l :: l in prescriptionItems ==> RequiresPrescription(l.product)
    }

    /** The screen opens; `returnToCheckout` is its navigation argument. */
    constructor(returnToCheckout: bool)
      ensures Valid()
      ensures shouldAutoCheckout == returnToCheckout
      ensures shownLines == [] && prescriptionItems == [] && !hasPrescriptionItems
      ensures totalPrice == 0.0 && panel == Hidden
    {
      totalPrice := 0.0;
      hasPrescriptionItems := false;
      prescriptionItems := [];
      shouldAutoCheckout := returnToCheckout;
      shownLines := [];
      panel := Hidden;
    }

    /** A new total from the price flow; nothing when it is null. */
    method OnPrice(price: Option<real>)
      modifies this
      ensures totalPrice == (if price.Some? then price.value else old(totalPrice))
      ensures shownLines == old(shownLines) && panel == old(panel)
      ensures prescriptionItems == old(prescriptionItems) && hasPrescriptionItems == old(hasPrescriptionItems)
      ensures shouldAutoCheckout == old(shouldAutoCheckout)
    {
      if price.Some? {
        totalPrice := price.value;
      }
    }

    /** `proceedToCheckout`'s decision: with prescription lines, only an
        approved, unexpired current prescription lets the order through,
        and it travels along to billing. */
    function ProceedToCheckout(prescriptions: Resource<seq<PrescriptionData>>, now: int): (r: CheckoutOutcome)
      reads this
      requires Valid()
      ensures r.Refused? <==>
                hasPrescriptionItems
                && !(exists p :: CurrentValidPrescription(DataOf(prescriptions).OrElse([]), prescriptionItems) == Some(p)
                                 && p.status == StatusApproved && !IsExpired(p, now))
      ensures r.Refused? ==> r.message == "Valid prescription required for checkout"
      ensures r.ToBilling? ==> r.isPrescriptionVerified && r.products == shownLines && r.totalPrice == totalPrice
      ensures r.ToBilling? && hasPrescriptionItems ==>
                |r.prescriptionData| == 1 && r.prescriptionData[0].status == StatusApproved
                && !IsExpired(r.prescriptionData[0], now)
                && Covers(r.prescriptionData[0], prescriptionItems)
                && r.prescriptionData[0] in DataOf(prescriptions).OrElse([])
      ensures r.ToBilling? && !hasPrescriptionItems ==> r.prescriptionData == []
    {
      var ps := DataOf(prescriptions).OrElse([]);
      var current := CurrentValidPrescription(ps, prescriptionItems);
      assert current.Some? ==> current.value in Covering(ps, prescriptionItems);
      assert prescriptionItems == [] ==> Covering(ps, prescriptionItems) == [];
      var verified := !hasPrescriptionItems
                      || (current.Some? && current.value.status == StatusApproved && !IsExpired(current.value, now));
      if hasPrescriptionItems && !verified then Refused("Valid prescription required for checkout")
      else ToBilling(totalPrice, shownLines, verified, if current.Some? then [current.value] else [])
    }

    /** The checkout button: an empty list is refused before anything else. */
    function CheckoutClick(prescriptions: Resource<seq<PrescriptionData>>, now: int): (r: CheckoutOutcome)
      reads this
      requires Valid()
      ensures shownLines == [] ==> r == Refused("Your cart is empty")
      ensures shownLines != [] ==> r == ProceedToCheckout(prescriptions, now)
      ensures r.ToBilling? ==> r.products != [] && r.isPrescriptionVerified
    {
      if shownLines == [] then Refused("Your cart is empty") else ProceedToCheckout(prescriptions, now)
    }

    /** `updatePrescriptionUI` with `showPrescriptionApproved`: the panel is
        redrawn, and an approved panel consumes a pending automatic
        checkout, which fires at most once. */
    method UpdatePrescriptionUI(prescriptions: Resource<seq<PrescriptionData>>, now: int)
      returns (autoCheckout: Option<CheckoutOutcome>)
      requires Valid()
      modifies this
      ensures Valid()
      ensures panel == PanelFor(hasPrescriptionItems, prescriptionItems, DataOf(prescriptions), now)
      ensures autoCheckout.Some? <==> old(shouldAutoCheckout) && panel.ApprovedPanel?
      ensures autoCheckout.Some? ==> !shouldAutoCheckout && autoCheckout.value == ProceedToCheckout(prescriptions, now)
      ensures autoCheckout.None? ==> shouldAutoCheckout == old(shouldAutoCheckout)
      ensures totalPrice == old(totalPrice) && shownLines == old(shownLines)
      ensures prescriptionItems == old(prescriptionItems) && hasPrescriptionItems == old(hasPrescriptionItems)
    {
      var outcome := ProceedToCheckout(prescriptions, now);
      panel := PanelFor(hasPrescriptionItems, prescriptionItems, DataOf(prescriptions), now);
      autoCheckout := None;
      if panel.ApprovedPanel? && shouldAutoCheckout {
        shouldAutoCheckout := false;
        autoCheckout := Some(outcome);
      }
    }

    /** `setupCartProducts`: an empty or unavailable list empties the screen
        (`showEmptyCart` hides the prescription panel too) and leaves the
        prescription lines as they were; otherwise the prescription
        lines are recomputed and the panel redrawn. */
    method SetupCartProducts(cart: Resource<seq<CartProduct>>, prescriptions: Resource<seq<PrescriptionData>>, now: int)
      returns (autoCheckout: Option<CheckoutOutcome>)
      requires Valid()
      modifies this
      ensures Valid()
      ensures !cart.Success? || cart.data == [] ==>
                shownLines == [] && autoCheckout.None? && panel == Hidden
                && prescriptionItems == old(prescriptionItems) && shouldAutoCheckout == old(shouldAutoCheckout)
      ensures cart.Success? && cart.data != [] ==>
                shownLines == cart.data && prescriptionItems == PrescriptionItems(cart.data)
                && (hasPrescriptionItems <==> HasPrescriptionItems(cart.data))
                && panel == PanelFor(hasPrescriptionItems, prescriptionItems, DataOf(prescriptions), now)
      ensures autoCheckout.Some? ==> old(shouldAutoCheckout) && !shouldAutoCheckout
      ensures totalPrice == old(totalPrice)
    {
      if !cart.Success? || cart.data == [] {
        shownLines := [];
        panel := Hidden;
        return None;
      }
      shownLines := cart.data;
      prescriptionItems := PrescriptionItems(cart.data);
      hasPrescriptionItems := prescriptionItems != [];
      HasItemsIff(cart.data);
      autoCheckout := UpdatePrescriptionUI(prescriptions, now);
    }
  }
}
