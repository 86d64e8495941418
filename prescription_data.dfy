/**
 * An uploaded prescription: its record, the status vocabulary, and the
 * parser that turns a stored document into a record with defaults.
 */
module Prescriptions {
  import opened Text
  import opened Firestore

  const StatusPending: string := "pending"
  const StatusApproved: string := "approved"
  const StatusRejected: string := "rejected"
  const StatusUsed: string := "used"
  const StatusCancelled: string := "cancelled"

  /** A product the prescription was uploaded for, as stored inside it. */
  datatype ProductInfo = ProductInfo(
    productId: string,
    name: string,
    genericName: string,
    dosageForm: string,
    strength: string,
    imageUrl: string,
    category: string,
    description: string,
    price: real,
    cancelledAt: Option<int>,
    manufacturer: string,
    requiresPrescription: bool)

  /** Times are milliseconds since the epoch. */
  datatype PrescriptionData = PrescriptionData(
    id: string,
    orderId: Option<string>,
    productIds: seq<string>,
    prescriptionImageUrl: string,
    products: seq<ProductInfo>,
    userId: string,
    usedInOrder: Option<string>,
    timestamp: int,
    status: string,
    pharmacistId: Option<string>,
    note: Option<string>,
    createdAt: int,
    updatedAt: int,
    rejectionReason: Option<string>)
  {
    /** Each status test ignores case: it holds exactly when the stored
        status, lower-cased, is the status constant. */
    function IsPending(): (b: bool)
      ensures b <==> Lower(status) == StatusPending
    {
      StatusesLowercase();
      EqualsIgnoreCase(status, StatusPending)
    }

    function IsApproved(): (b: bool)
      ensures b <==> Lower(status) == StatusApproved
    {
      StatusesLowercase();
      EqualsIgnoreCase(status, StatusApproved)
    }

    function IsRejected(): (b: bool)
      ensures b <==> Lower(status) == StatusRejected
    {
      StatusesLowercase();
      EqualsIgnoreCase(status, StatusRejected)
    }

    function IsUsed(): (b: bool)
      ensures b <==> Lower(status) == StatusUsed
    {
      StatusesLowercase();
      EqualsIgnoreCase(status, StatusUsed)
    }

    function IsCancelled(): (b: bool)
      ensures b <==> Lower(status) == StatusCancelled
    {
      StatusesLowercase();
      EqualsIgnoreCase(status, StatusCancelled)
    }
  }

  /** The status constants are written in lower case. */
  lemma StatusesLowercase()
    ensures Lower(StatusPending) == StatusPending && Lower(StatusApproved) == StatusApproved
    ensures Lower(StatusRejected) == StatusRejected && Lower(StatusUsed) == StatusUsed
    ensures Lower(StatusCancelled) == StatusCancelled
  {
    LowerOfLowercase(StatusPending);
    LowerOfLowercase(StatusApproved);
    LowerOfLowercase(StatusRejected);
    LowerOfLowercase(StatusUsed);
    LowerOfLowercase(StatusCancelled);
  }

  /** `getStatusList()`: the five statuses, pairwise different even
      ignoring case. */
  function StatusList(): (r: seq<string>)
    ensures |r| == 5
    ensures r[0] == StatusPending && r[1] == StatusApproved && r[2] == StatusRejected
    ensures r[3] == StatusUsed && r[4] == StatusCancelled
    ensures forall i, j :: 0 <= i < j < |r| ==> !EqualsIgnoreCase(r[i], r[j])
  {
    var r := [StatusPending, StatusApproved, StatusRejected, StatusUsed, StatusCancelled];
    assert forall i, j :: 0 <= i < j < |r| ==> !EqualsIgnoreCase(r[i], r[j]) by {
      DifferInLength(StatusPending, StatusApproved);
      DifferInLength(StatusPending, StatusRejected);
      DifferInLength(StatusPending, StatusUsed);
      DifferInLength(StatusPending, StatusCancelled);
      DifferAt(StatusApproved, StatusRejected, 0);
      DifferInLength(StatusApproved, StatusUsed);
      DifferInLength(StatusApproved, StatusCancelled);
      DifferInLength(StatusRejected, StatusUsed);
      DifferInLength(StatusRejected, StatusCancelled);
      DifferInLength(StatusUsed, StatusCancelled);
    }
    r
  }

  /** At most one of the status predicates holds for any record. */
  lemma StatusesExclusive(p: PrescriptionData)
    ensures (if p.IsPending() then 1 else 0) + (if p.IsApproved() then 1 else 0)
          + (if p.IsRejected() then 1 else 0) + (if p.IsUsed() then 1 else 0)
          + (if p.IsCancelled() then 1 else 0) <= 1
  {
    var r := StatusList();
    assert forall i, j :: 0 <= i < j < 5 ==> !(EqualsIgnoreCase(p.status, r[i]) && EqualsIgnoreCase(p.status, r[j]));
  }

  /** `convertTimestamp`: a timestamp or date gives its milliseconds, a long
      is taken as is, and anything else (a missing field included) gives the
      current time `now`. */
  function ConvertTimestamp(v: Option<Value>, now: int): (r: int)
    ensures v.Some? && v.value.VLong? ==> r == v.value.n
    ensures v.Some? && (v.value.VTimestamp? || v.value.VDate?) ==> r == v.value.millis
    ensures (v.None? || !(v.value.VLong? || v.value.VTimestamp? || v.value.VDate?)) ==> r == now
  {
    match v
    case Some(VTimestamp(ms)) => ms
    case Some(VLong(n)) => n
    case Some(VDate(ms)) => ms
    case _ => now
  }

  /** One stored product entry, each missing or mistyped field defaulted:
      strings to "", the price to 0, a prescription required, and no
      cancellation time. */
  function ParseProductInfo(m: Fields): (r: ProductInfo)
    ensures r.productId == StringOr(m, "productId", "") && r.name == StringOr(m, "name", "")
    ensures r.genericName == StringOr(m, "genericName", "") && r.dosageForm == StringOr(m, "dosageForm", "")
    ensures r.strength == StringOr(m, "strength", "") && r.imageUrl == StringOr(m, "imageUrl", "")
    ensures r.category == StringOr(m, "category", "") && r.description == StringOr(m, "description", "")
    ensures r.manufacturer == StringOr(m, "manufacturer", "")
    ensures !(("requiresPrescription" in m) && m["requiresPrescription"].VBool?) ==> r.requiresPrescription
    ensures "requiresPrescription" in m && m["requiresPrescription"].VBool? ==>
              r.requiresPrescription == m["requiresPrescription"].b
    ensures !("price" in m && (m["price"].VLong? || m["price"].VDouble?)) ==> r.price == 0.0
    ensures "price" in m && m["price"].VLong? ==> r.price == m["price"].n as real
    ensures "price" in m && m["price"].VDouble? ==> r.price == m["price"].d
    ensures r.cancelledAt.Some? <==> "cancelledAt" in m && (m["cancelledAt"].VLong? || m["cancelledAt"].VDouble?)
    ensures "cancelledAt" in m && m["cancelledAt"].VLong? ==> r.cancelledAt == Some(m["cancelledAt"].n)
  {
    ProductInfo(
      productId := StringOr(m, "productId", ""),
      name := StringOr(m, "name", ""),
      genericName := StringOr(m, "genericName", ""),
      dosageForm := StringOr(m, "dosageForm", ""),
      strength := StringOr(m, "strength", ""),
      imageUrl := StringOr(m, "imageUrl", ""),
      category := StringOr(m, "category", ""),
      description := StringOr(m, "description", ""),
      price := if "price" in m then NumberToReal(m["price"]).OrElse(0.0) else 0.0,
      cancelledAt := if "cancelledAt" in m then NumberToLong(m["cancelledAt"]) else None,
      manufacturer := StringOr(m, "manufacturer", ""),
      requiresPrescription := BoolOr(m, "requiresPrescription", true))
  }

  /** Every element of the list is a map (anything else makes the parser
      fail on it). */
  predicate AllMaps(items: seq<Value>)
  {
    forall k :: 0 <= k < |items| ==> items[k].VMap?
  }

  /** The parsed product entries of a list of maps, in order. */
  function ParseProducts(items: seq<Value>): (r: seq<ProductInfo>)
    requires AllMaps(items)
    ensures |r| == |items|
    ensures forall k :: 0 <= k < |items| ==> r[k] == ParseProductInfo(items[k].fields)
  {
    seq(|items|, k requires 0 <= k < |items| => ParseProductInfo(items[k].fields))
  }

  /** The record a document stands for, or None when the document has no
      data or its product list holds something that is not a map. */
  function Parse(doc: Snapshot, now: int): (r: Option<PrescriptionData>)
    ensures doc.data.None? ==> r.None?
    ensures r.Some? ==> r.value.id == doc.id
    ensures r.Some? ==> r.value.status == StringOr(doc.data.value, "status", StatusPending)
    ensures r.Some? ==> r.value.userId == StringOr(doc.data.value, "userId", "")
    ensures r.Some? ==> r.value.usedInOrder == GetString(doc.data.value, "usedInOrder")
    ensures r.Some? ==> r.value.timestamp == ConvertTimestamp(Get(doc.data.value, "timestamp"), now)
    ensures doc.data.Some? && !ProductListFails(doc.data.value) <==> r.Some?
  {
    match doc.data
    case None => None
    case Some(m) =>
      if ProductListFails(m) then None
      else
        var products := match Get(m, "products") {
          case Some(VList(items)) => ParseProducts(items)
          case _ => []
        };
        Some(PrescriptionData(
          id := doc.id,
          orderId := GetString(m, "orderId"),
          productIds := ProductIdsOf(m),
          prescriptionImageUrl := StringOr(m, "prescriptionImageUrl", ""),
          products := products,
          userId := StringOr(m, "userId", ""),
          usedInOrder := GetString(m, "usedInOrder"),
          timestamp := ConvertTimestamp(Get(m, "timestamp"), now),
          status := StringOr(m, "status", StatusPending),
          pharmacistId := GetString(m, "pharmacistId"),
          note := GetString(m, "note"),
          createdAt := ConvertTimestamp(Get(m, "createdAt"), now),
          updatedAt := ConvertTimestamp(Get(m, "updatedAt"), now),
          rejectionReason := GetString(m, "rejectionReason")))
  }

  /** The "products" field is a list with an element that is not a map. */
  predicate ProductListFails(m: Fields)
  {
    "products" in m && m["products"].VList? && !AllMaps(m["products"].items)
  }

  /** The string entries of the "productIds" list, in order; nothing when
      the field is not a list. */
  function ProductIdsOf(m: Fields): (r: seq<string>)
    ensures "productIds" in m && m["productIds"].VList? ==> r == StringsOf(m["productIds"].items)
    ensures !("productIds" in m && m["productIds"].VList?) ==> r == []
  {
    if "productIds" in m && m["productIds"].VList? then StringsOf(m["productIds"].items) else []
  }

  /** The parser: the products are collected one entry at a time; an entry
      that is not a map aborts the parse. */
  method FromFirestore(doc: Snapshot, now: int) returns (r: Option<PrescriptionData>)
    ensures r == Parse(doc, now)
  {
    if doc.data.None? {
      return None;
    }
    var m := doc.data.value;
    var products: seq<ProductInfo> := [];
    if "products" in m && m["products"].VList? {
      var items := m["products"].items;
      var i := 0;
      while i < |items|
        invariant 0 <= i <= |items|
        invariant AllMaps(items[..i])
        invariant products == ParseProducts(items[..i])
      {
        if !items[i].VMap? {
          assert !AllMaps(items);
          return None;
        }
        products := products + [ParseProductInfo(items[i].fields)];
        i := i + 1;
        assert items[..i] == items[..i - 1] + [items[i - 1]];
      }
      assert items[..i] == items;
    }
    r := Some(PrescriptionData(
      id := doc.id,
      orderId := GetString(m, "orderId"),
      productIds := ProductIdsOf(m),
      prescriptionImageUrl := StringOr(m, "prescriptionImageUrl", ""),
      products := products,
      userId := StringOr(m, "userId", ""),
      usedInOrder := GetString(m, "usedInOrder"),
      timestamp := ConvertTimestamp(Get(m, "timestamp"), now),
      status := StringOr(m, "status", StatusPending),
      pharmacistId := GetString(m, "pharmacistId"),
      note := GetString(m, "note"),
      createdAt := ConvertTimestamp(Get(m, "createdAt"), now),
      updatedAt := ConvertTimestamp(Get(m, "updatedAt"), now),
      rejectionReason := GetString(m, "rejectionReason")));
  }

  /** The record's id is the document's, whatever "id" the stored fields
      carry. */
  lemma IdFromDocument(docId: string, m: Fields, now: int)
    requires "id" in m && m["id"] == VStr("stale") && docId != "stale"
    requires !ProductListFails(m)
    ensures Parse(Snapshot(docId, Some(m)), now).value.id == docId
    ensures Parse(Snapshot(docId, Some(m)), now).value.id != m["id"].s
  {
  }

  /** A document without a status reads as pending, and one without
      products reads with none. */
  lemma Defaults(docId: string, m: Fields, now: int)
    requires "status" !in m && "products" !in m
    ensures Parse(Snapshot(docId, Some(m)), now).Some?
    ensures Parse(Snapshot(docId, Some(m)), now).value.IsPending()
    ensures Parse(Snapshot(docId, Some(m)), now).value.products == []
  {
  }
}
