/** A line of a shopping cart: a product, how many, and the choices made. */
module CartProducts {
  import opened Text
  import opened Products

  datatype CartProduct = CartProduct(
    product: Product,
    quantity: int,
    pharmacyId: string,
    orderId: Option<string>,
    selectedStrength: Option<string>,
    selectedDosageForm: Option<string>,
    pharmacistId: string,
    pharmacyAddress: string,
    pharmacyName: Option<string>,
    prescriptionImageUrl: Option<string>)
  {
    /** The product name, then " (strength)" when a strength was chosen,
        then " - form" when a dosage form was chosen. */
    function DisplayInfo(): (r: string)
      ensures |r| >= |product.name| && r[..|product.name|] == product.name
      ensures |r| == |product.name| + StrengthPartLength() + FormPartLength()
      ensures selectedStrength.Some? ==>
                r[|product.name|..|product.name| + StrengthPartLength()]
                  == " (" + selectedStrength.value + ")"
      ensures selectedDosageForm.Some? ==>
                r[|r| - FormPartLength()..] == " - " + selectedDosageForm.value
      ensures r == product.name <==> selectedStrength.None? && selectedDosageForm.None?
    {
      var strengthPart := if selectedStrength.Some? then " (" + selectedStrength.value + ")" else "";
      var formPart := if selectedDosageForm.Some? then " - " + selectedDosageForm.value else "";
      var r := product.name + strengthPart + formPart;
      assert r[..|product.name|] == product.name;
      assert r[|product.name|..|product.name| + |strengthPart|] == strengthPart;
      assert r[|r| - |formPart|..] == formPart;
      r
    }

    /** Characters the chosen strength adds to `DisplayInfo`. */
    function StrengthPartLength(): nat
    {
      if selectedStrength.Some? then |selectedStrength.value| + 3 else 0
    }

    /** Characters the chosen dosage form adds to `DisplayInfo`. */
    function FormPartLength(): nat
    {
      if selectedDosageForm.Some? then |selectedDosageForm.value| + 3 else 0
    }
  }

  /** The primary constructor, with its default arguments. */
  function NewCartProduct(
    product: Product, quantity: int, pharmacyId: string,
    orderId: Option<string> := None,
    selectedStrength: Option<string> := None,
    selectedDosageForm: Option<string> := None,
    pharmacistId: string := "",
    pharmacyAddress: string := "",
    pharmacyName: Option<string> := None,
    prescriptionImageUrl: Option<string> := None): (c: CartProduct)
    ensures c.product == product && c.quantity == quantity && c.pharmacyId == pharmacyId
    ensures c.selectedStrength == selectedStrength && c.selectedDosageForm == selectedDosageForm
    ensures c.pharmacistId == pharmacistId && c.pharmacyName == pharmacyName
  {
    CartProduct(product, quantity, pharmacyId, orderId, selectedStrength, selectedDosageForm,
      pharmacistId, pharmacyAddress, pharmacyName, prescriptionImageUrl)
  }

  /** The no-argument constructor: one unit of the default product, no
      choices made, nothing assigned. */
  function NoArgCartProduct(): (c: CartProduct)
    ensures c.quantity == 1 && c.product == NoArgProduct() && c.pharmacyId == ""
    ensures c.selectedStrength.None? && c.selectedDosageForm.None? && c.orderId.None?
    ensures c.pharmacistId == "" && c.pharmacyAddress == ""
    ensures c.DisplayInfo() == c.product.name
  {
    NewCartProduct(NoArgProduct(), 1, "", None, None)
  }
}
