/**
 * The maps records are stored as (the `toFirestoreMap` extensions), and
 * what reading a stored prescription back gives.
 */
module StoredMaps {
  import opened Text
  import opened Firestore
  import opened Products
  import opened CartProducts
  import opened Prescriptions
  import opened Orders

  /** The fields an address is stored with. */
  function AddressKeys(): set<string>
  {
    {"addressTitle", "fullName", "street", "phone", "city", "state"}
  }

  function AddressMap(a: Address): (m: Fields)
    ensures m.Keys == AddressKeys()
  {
    map["addressTitle" := VStr(a.addressTitle), "fullName" := VStr(a.fullName),
        "street" := VStr(a.street), "phone" := VStr(a.phone), "city" := VStr(a.city),
        "state" := VStr(a.state)]
  }

  /** The fields a product is stored with. */
  function ProductKeys(): set<string>
  {
    {"id", "name", "genericName", "category", "price", "offerPercentage",
     "description", "dosageForm", "strengths", "manufacturer", "images",
     "requiresPrescription", "activeIngredients", "sideEffects",
     "storageInstructions", "pharmacyId", "pharmacyName"}
  }

  /** The product as stored inside a cart line. */
  function ProductMap(p: Product): (m: Fields)
    ensures m.Keys == ProductKeys()
  {
    map["id" := VStr(p.id), "name" := VStr(p.name), "genericName" := VStr(p.genericName),
        "category" := VStr(p.category), "price" := VDouble(p.price),
        "description" := StrOrEmpty(p.description), "dosageForm" := VStr(p.dosageForm),
        "strengths" := StringList(p.strengths), "manufacturer" := StrOrEmpty(p.manufacturer),
        "images" := StringList(p.images), "requiresPrescription" := VBool(p.requiresPrescription),
        "activeIngredients" := StringList(p.activeIngredients),
        "sideEffects" := StrOrEmpty(p.sideEffects),
        "storageInstructions" := StrOrEmpty(p.storageInstructions),
        "pharmacyId" := VStr(p.pharmacyId),
        "offerPercentage" := VDouble(p.offerPercentage.OrElse(0.0)),
        "pharmacyName" := StrOrEmpty(p.pharmacyName)]
  }

  /** Stock and dates stay out of the stored product. */
  lemma ProductMapOmitsStock(p: Product)
    ensures "quantity" !in ProductMap(p) && "availableQuantity" !in ProductMap(p)
    ensures "manufacturingDate" !in ProductMap(p) && "expiryDate" !in ProductMap(p)
  {
    assert "quantity" !in ProductKeys();
    assert "availableQuantity" !in ProductKeys();
    assert "manufacturingDate" !in ProductKeys();
    assert "expiryDate" !in ProductKeys();
  }

  /** An absent offer is stored as 0. */
  lemma ProductMapOfferDefault(p: Product)
    ensures ProductMap(p)["offerPercentage"] == VDouble(p.offerPercentage.OrElse(0.0))
  {
  }

  /** An absent pharmacy name is stored as "". */
  lemma ProductMapPharmacyNameDefault(p: Product)
    ensures ProductMap(p)["pharmacyName"] == StrOrEmpty(p.pharmacyName)
  {
  }

  /** The fields a cart line is stored with. */
  function CartProductKeys(): set<string>
  {
    {"product", "quantity", "selectedStrength", "selectedDosageForm",
     "pharmacistId", "pharmacyName", "pharmacyAddress", "prescriptionImageUrl"}
  }

  /** A cart line as stored. */
  function CartProductMap(c: CartProduct): (m: Fields)
    ensures m.Keys == CartProductKeys()
  {
    map["quantity" := VLong(c.quantity),
        "pharmacistId" := VStr(c.pharmacistId), "pharmacyAddress" := VStr(c.pharmacyAddress),
        "product" := VMap(ProductMap(c.product)),
        "pharmacyName" := StrOrEmpty(c.pharmacyName),
        "prescriptionImageUrl" := StrOrEmpty(c.prescriptionImageUrl),
        "selectedStrength" := StrOrEmpty(c.selectedStrength),
        "selectedDosageForm" := StrOrEmpty(c.selectedDosageForm)]
  }

  /** The line's product is nested whole. */
  lemma CartProductMapNestsProduct(c: CartProduct)
    ensures CartProductMap(c)["product"] == VMap(ProductMap(c.product))
  {
  }

  /** An absent selected strength, dosage form, pharmacy name or image is
      stored as "". */
  lemma CartProductMapDefaults(c: CartProduct)
    ensures CartProductMap(c)["selectedStrength"] == StrOrEmpty(c.selectedStrength)
    ensures CartProductMap(c)["selectedDosageForm"] == StrOrEmpty(c.selectedDosageForm)
    ensures CartProductMap(c)["pharmacyName"] == StrOrEmpty(c.pharmacyName)
    ensures CartProductMap(c)["prescriptionImageUrl"] == StrOrEmpty(c.prescriptionImageUrl)
  {
  }

  /** The fields a prescription is stored with inside an order. */
  function PrescriptionKeys(): set<string>
  {
    {"id", "orderId", "productIds", "prescriptionImageUrl", "userId", "timestamp",
     "status", "pharmacistId", "note", "createdAt", "updatedAt"}
  }

  /** A prescription as stored with an order. */
  function PrescriptionMap(p: PrescriptionData): (m: Fields)
    ensures m.Keys == PrescriptionKeys()
  {
    map["id" := VStr(p.id), "orderId" := StrOrEmpty(p.orderId),
        "productIds" := StringList(p.productIds),
        "prescriptionImageUrl" := VStr(p.prescriptionImageUrl), "userId" := VStr(p.userId),
        "timestamp" := VLong(p.timestamp), "status" := VStr(p.status),
        "pharmacistId" := StrOrEmpty(p.pharmacistId), "note" := StrOrEmpty(p.note),
        "createdAt" := VLong(p.createdAt), "updatedAt" := VLong(p.updatedAt)]
  }

  /** The use, the product entries and the rejection reason are not stored. */
  lemma PrescriptionMapOmits(p: PrescriptionData)
    ensures "usedInOrder" !in PrescriptionMap(p) && "products" !in PrescriptionMap(p)
    ensures "rejectionReason" !in PrescriptionMap(p)
  {
    assert "usedInOrder" !in PrescriptionKeys();
    assert "products" !in PrescriptionKeys();
    assert "rejectionReason" !in PrescriptionKeys();
  }

  /** Each stored field holds the record's value, absent texts as "". */
  lemma PrescriptionMapFields(p: PrescriptionData)
    ensures PrescriptionMap(p)["id"] == VStr(p.id)
    ensures PrescriptionMap(p)["orderId"] == StrOrEmpty(p.orderId)
    ensures PrescriptionMap(p)["productIds"] == StringList(p.productIds)
    ensures PrescriptionMap(p)["prescriptionImageUrl"] == VStr(p.prescriptionImageUrl)
    ensures PrescriptionMap(p)["userId"] == VStr(p.userId)
    ensures PrescriptionMap(p)["timestamp"] == VLong(p.timestamp)
    ensures PrescriptionMap(p)["status"] == VStr(p.status)
    ensures PrescriptionMap(p)["pharmacistId"] == StrOrEmpty(p.pharmacistId)
    ensures PrescriptionMap(p)["note"] == StrOrEmpty(p.note)
    ensures PrescriptionMap(p)["createdAt"] == VLong(p.createdAt)
    ensures PrescriptionMap(p)["updatedAt"] == VLong(p.updatedAt)
  {
  }

  /** Reading a stored prescription map back with the prescription parser
      loses exactly what the map leaves out. */
  lemma {:induction false} PrescriptionMapReadBack(p: PrescriptionData, now: int)
    ensures Parse(Snapshot(p.id, Some(PrescriptionMap(p))), now)
         == Some(p.(orderId := Some(p.orderId.OrElse("")),
                    products := [],
                    usedInOrder := None,
                    pharmacistId := Some(p.pharmacistId.OrElse("")),
                    note := Some(p.note.OrElse("")),
                    rejectionReason := None))
  {
    PrescriptionMapFields(p);
    PrescriptionMapOmits(p);
    StringListRoundTrip(p.productIds);
  }

  /** The fields an order is stored with. */
  function OrderKeys(): set<string>
  {
    {"orderId", "userId", "date", "totalPrice", "orderStatus", "paymentMethod",
     "createdAt", "address", "products", "prescriptions"}
  }

  /** `Order.toFirestoreMap()`: the lines and the prescriptions are stored
      one map each, in order. */
  function OrderMap(o: Order): (m: Fields)
    ensures m.Keys == OrderKeys()
  {
    map["orderId" := VStr(o.orderId), "userId" := VStr(o.userId), "date" := VStr(o.date),
        "totalPrice" := VDouble(o.totalPrice), "orderStatus" := VStr(o.orderStatus),
        "paymentMethod" := VStr(o.paymentMethod), "createdAt" := VLong(o.createdAt),
        "address" := VMap(AddressMap(o.address)),
        "products" := VList(seq(|o.products|, i requires 0 <= i < |o.products| =>
                                  VMap(CartProductMap(o.products[i])))),
        "prescriptions" := VList(seq(|o.prescriptionData|, i requires 0 <= i < |o.prescriptionData| =>
                                       VMap(PrescriptionMap(o.prescriptionData[i]))))]
  }

  /** Each line is stored, in order, as its own map. */
  lemma OrderMapLines(o: Order)
    ensures OrderMap(o)["products"].VList? && |OrderMap(o)["products"].items| == |o.products|
    ensures forall i :: 0 <= i < |o.products| ==>
              OrderMap(o)["products"].items[i] == VMap(CartProductMap(o.products[i]))
  {
    assert OrderMap(o)["products"] == VList(seq(|o.products|, i requires 0 <= i < |o.products| =>
                                              VMap(CartProductMap(o.products[i]))));
  }

  /** Each prescription is stored, in order, as its own map. */
  lemma OrderMapPrescriptions(o: Order)
    ensures OrderMap(o)["prescriptions"].VList?
    ensures |OrderMap(o)["prescriptions"].items| == |o.prescriptionData|
    ensures forall i :: 0 <= i < |o.prescriptionData| ==>
              OrderMap(o)["prescriptions"].items[i] == VMap(PrescriptionMap(o.prescriptionData[i]))
  {
    assert OrderMap(o)["prescriptions"] == VList(seq(|o.prescriptionData|, i requires 0 <= i < |o.prescriptionData| =>
                                                   VMap(PrescriptionMap(o.prescriptionData[i]))));
  }

  /** The pharmacist, the delivery instructions and the prescription ids
      are not stored with the order. */
  lemma OrderMapOmits(o: Order)
    ensures "pharmacistId" !in OrderMap(o) && "deliveryInstructions" !in OrderMap(o)
    ensures "prescriptionIds" !in OrderMap(o)
  {
    assert "pharmacistId" !in OrderKeys();
    assert "deliveryInstructions" !in OrderKeys();
    assert "prescriptionIds" !in OrderKeys();
  }
}
