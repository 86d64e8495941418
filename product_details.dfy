/**
 * The product details screen: stock availability, the strength picker, the
 * add-to-cart button's state and the checks made before a product is added.
 */
module ProductDetailsScreen {
  import opened Text
  import opened Products
  import opened CartProducts
  import opened Details

  /** `isProductAvailable`: in stock and units available. */
  function IsProductAvailable(p: Product): (b: bool)
    ensures b ==> p.quantity > 0
    ensures p.availableQuantity >= p.quantity ==> (b <==> p.quantity > 0)
  {
    p.quantity > 0 && p.availableQuantity > 0
  }

  /** The screen shows the product with its available quantity set to its
      quantity; availability then depends on the quantity alone. */
  lemma AvailableIffInStock(p: Product)
    ensures IsProductAvailable(p.(availableQuantity := p.quantity)) <==> p.quantity > 0
  {
  }

  /** How the strengths are shown. */
  datatype StrengthDisplay = NoStrength | SingleStrength(value: string) | StrengthChooser(options: seq<string>)

  function StrengthDisplayFor(p: Product): (r: StrengthDisplay)
    ensures r.NoStrength? <==> p.strengths == []
    ensures r.SingleStrength? <==> |p.strengths| == 1
    ensures r.SingleStrength? ==> r.value == p.strengths[0]
    ensures r.StrengthChooser? ==> r.options == p.strengths && |r.options| >= 2
  {
    if p.strengths == [] then NoStrength
    else if |p.strengths| == 1 then SingleStrength(p.strengths[0])
    else StrengthChooser(p.strengths)
  }

  /** The add-to-cart button: its text and whether it can be pressed. */
  datatype Button = Button(caption: string, enabled: bool)

  const UnderReviewLabel := "Prescription Under Review"
  const AddLabel := "Add to Cart"
  const OutOfStockLabel := "Out of Stock"

  /** The button after the prescription status arrives: blocked while a
      prescription product waits for a review, else by availability. */
  function ButtonFor(p: Product, hasPendingPrescription: bool): (b: Button)
    ensures b.enabled <==> IsProductAvailable(p) && !(p.requiresPrescription && hasPendingPrescription)
    ensures b.caption == UnderReviewLabel <==> p.requiresPrescription && hasPendingPrescription
  {
    if p.requiresPrescription && hasPendingPrescription then Button(UnderReviewLabel, false)
    else if IsProductAvailable(p) then Button(AddLabel, true)
    else Button(OutOfStockLabel, false)
  }

  /** What pressing "Add to Cart" does. */
  datatype AddAction =
    | ExpiredNotice
    | OutOfStockNotice
    | PendingDialog
    | AddWithUploadReminder(line: CartProduct)
    | AddLine(line: CartProduct)

  /** The line the screen adds: one unit, the chosen strength. */
  function LineFor(p: Product, strength: Option<string>): (l: CartProduct)
    ensures l.product == p && l.quantity == 1 && l.selectedStrength == strength
    ensures l.selectedDosageForm.None? && l.pharmacyId == ""
  {
    NewCartProduct(p, 1, "", selectedStrength := strength)
  }

  /** `handleAddToCart`: expiry first, then stock, then, for a prescription
      product, the pending-prescription check. */
  function AddDecision(p: Product, strength: Option<string>, now: Clock, hasPendingPrescription: bool)
    : (a: AddAction)
  {
    if IsProductExpired(p, now) then ExpiredNotice
    else if !IsProductAvailable(p) then OutOfStockNotice
    else if p.requiresPrescription then
      if hasPendingPrescription then PendingDialog else AddWithUploadReminder(LineFor(p, strength))
    else AddLine(LineFor(p, strength))
  }

  /** A line is added exactly when the product is unexpired and available
      and no prescription of the user awaits review for a prescription
      product; the line is one unit of the product with the chosen strength. */
  lemma AddDecisionMeaning(p: Product, strength: Option<string>, now: Clock, hasPendingPrescription: bool)
    ensures var a := AddDecision(p, strength, now, hasPendingPrescription);
            ((a.AddLine? || a.AddWithUploadReminder?) <==>
               !IsProductExpired(p, now) && IsProductAvailable(p)
               && !(p.requiresPrescription && hasPendingPrescription))
            && (a.AddWithUploadReminder? ==> p.requiresPrescription)
            && (a.AddLine? ==> !p.requiresPrescription)
            && (a.AddLine? || a.AddWithUploadReminder? ==> a.line == LineFor(p, strength))
            && (a.ExpiredNotice? <==> IsProductExpired(p, now))
  {
  }

  /** An enabled button never leads to the pending dialog or to the
      out-of-stock notice. */
  lemma EnabledButtonAdds(p: Product, strength: Option<string>, now: Clock, hasPendingPrescription: bool)
    requires ButtonFor(p, hasPendingPrescription).enabled
    ensures var a := AddDecision(p, strength, now, hasPendingPrescription);
            a.ExpiredNotice? || a.AddLine? || a.AddWithUploadReminder?
  {
  }

  class ProductDetailsFragment {
    var product: Product
    var selectedStrength: Option<string>

    /** Opening the screen: the product's available quantity is set to its
        quantity, and a single strength is chosen in advance. */
    constructor(arg: Product)
      ensures product == arg.(availableQuantity := arg.quantity)
      ensures |arg.strengths| == 1 ==> selectedStrength == Some(arg.strengths[0])
      ensures |arg.strengths| != 1 ==> selectedStrength.None?
    {
      product := arg.(availableQuantity := arg.quantity);
      if |arg.strengths| == 1 {
        selectedStrength := Some(arg.strengths[0]);
      } else {
        selectedStrength := None;
      }
    }

    /** A strength tapped in the picker. */
    method SelectStrength(strength: string)
      modifies this
      ensures selectedStrength == Some(strength) && product == old(product)
    {
      selectedStrength := Some(strength);
    }

    /** `handleAddToCart`; `hasPendingPrescription` is what the pending check
        reports. */
    method HandleAddToCart(now: Clock, hasPendingPrescription: bool) returns (a: AddAction)
      ensures a == AddDecision(product, selectedStrength, now, hasPendingPrescription)
    {
      if IsProductExpired(product, now) {
        return ExpiredNotice;
      }
      if !IsProductAvailable(product) {
        a := OutOfStockNotice;
      } else if product.requiresPrescription {
        if hasPendingPrescription {
          a := PendingDialog;
        } else {
          a := AddWithUploadReminder(LineFor(product, selectedStrength));
        }
      } else {
        a := AddLine(LineFor(product, selectedStrength));
      }
    }
  }
}
