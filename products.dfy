/** A catalogue product as the app stores and shows it. */
module Products {
  import opened Text

  /** Prices are carried as reals; the app never computes with them in the
      modelled operations. */
  datatype Product = Product(
    id: string,
    name: string,
    genericName: string,
    category: string,
    price: real,
    offerPercentage: Option<real>,
    description: Option<string>,
    dosageForm: string,
    strengths: seq<string>,
    manufacturer: Option<string>,
    images: seq<string>,
    requiresPrescription: bool,
    activeIngredients: seq<string>,
    sideEffects: Option<string>,
    storageInstructions: Option<string>,
    pharmacyId: string,
    quantity: int,
    availableQuantity: int,
    pharmacyName: Option<string>,
    manufacturingDate: Option<string>,
    expiryDate: Option<string>)
  {
    /** The strength shown on its own: the only one when there is exactly
        one, otherwise nothing. */
    function DisplayStrength(): (r: string)
      ensures |strengths| == 1 ==> r == strengths[0]
      ensures |strengths| != 1 ==> r == ""
    {
      if |strengths| == 1 then strengths[0] else ""
    }
  }

  /** The primary constructor, with its default arguments. */
  function NewProduct(
    id: string, name: string, genericName: string, category: string, price: real,
    dosageForm: string, strengths: seq<string>, manufacturer: Option<string>,
    images: seq<string>, pharmacyId: string,
    offerPercentage: Option<real> := None,
    description: Option<string> := None,
    requiresPrescription: bool := false,
    activeIngredients: seq<string> := [],
    sideEffects: Option<string> := None,
    storageInstructions: Option<string> := None,
    quantity: int := 0,
    availableQuantity: int := 0,
    pharmacyName: Option<string> := None,
    manufacturingDate: Option<string> := None,
    expiryDate: Option<string> := None): (p: Product)
    ensures p.id == id && p.name == name && p.strengths == strengths
    ensures p.quantity == quantity && p.availableQuantity == availableQuantity
    ensures p.pharmacyName == pharmacyName && p.requiresPrescription == requiresPrescription
  {
    Product(id, name, genericName, category, price, offerPercentage, description, dosageForm,
      strengths, manufacturer, images, requiresPrescription, activeIngredients, sideEffects,
      storageInstructions, pharmacyId, quantity, availableQuantity, pharmacyName,
      manufacturingDate, expiryDate)
  }

  /** The no-argument constructor the document mapper uses. */
  function NoArgProduct(): (p: Product)
    ensures p.id == "0" && p.name == "" && p.category == "" && p.price == 0.0
    ensures !p.requiresPrescription && p.quantity == 0 && p.availableQuantity == 0
    ensures p.strengths == [] && p.images == [] && p.expiryDate.None?
    ensures p.pharmacyName == Some("")
  {
    NewProduct("0", "", "", "", 0.0, "", [], None, [], "", pharmacyName := Some(""))
  }
}
