/**
 * Placing an order: prescription validation against the store, pharmacy
 * enrichment of the lines, the status chosen by payment method, and the
 * writes of one atomic save (the user's and the global order record, one
 * order per pharmacist, the emptied cart, the stock counters), followed by
 * marking the validated prescriptions as used.
 */
module OrderPlacement {
  import opened Text
  import opened Firestore
  import opened CartProducts
  import opened Prescriptions
  import opened Orders
  import OrderStatuses
  import StoredMaps

  /** The part of the store order placement reads and writes. */
  datatype Db = Db(
    prescriptions: map<string, PrescriptionData>,  // "prescriptions", by document id
    products: map<string, Fields>,                 // "Products", by document id
    carts: map<string, seq<CartProduct>>,          // each user's "cart", by user id
    userOrders: map<(string, string), Fields>,     // user/{userId}/orders/{orderId}
    orders: map<string, Fields>,                   // "orders", by order id
    pharmacistOrders: map<(string, string), PharmacistOrder>)  // pharmacists/{id}/orders/{orderId}

  /** The record written for one pharmacist: their lines of the order. */
  datatype PharmacistOrder = PharmacistOrder(
    orderId: string,
    userId: string,
    pharmacistId: string,
    pharmacyName: string,
    pharmacyAddress: string,
    lines: seq<CartProduct>,
    prescriptions: seq<(string, string)>,  // (id, imageUrl)
    status: string,
    createdAt: int)

  // ---------------------------------------------------------------------
  // Prescription validation

  function Ids(ps: seq<PrescriptionData>): (r: seq<string>)
    ensures |r| == |ps|
    ensures forall i :: 0 <= i < |ps| ==> r[i] == ps[i].id
  {
    seq(|ps|, i requires 0 <= i < |ps| => ps[i].id)
  }

  predicate Distinct(xs: seq<string>)
  {
    forall i, j :: 0 <= i < j < |xs| ==> xs[i] != xs[j]
  }

  /** What the validation query matches: a stored prescription of this
      user whose status is exactly "approved". */
  predicate Qualifies(store: map<string, PrescriptionData>, id: string, userId: string)
  {
    id in store && store[id].userId == userId && store[id].status == StatusApproved
  }

  /** The ids the query finds among those requested. */
  function Found(ids: seq<string>, store: map<string, PrescriptionData>, userId: string): (r: set<string>)
    ensures forall id :: id in r <==> id in ids && Qualifies(store, id, userId)
  {
    set id | id in ids && Qualifies(store, id, userId)
  }

  function Elements(xs: seq<string>): set<string>
  {
    set x | x in xs
  }

  /** A list has at most as many distinct elements as entries, and exactly
      as many when no entry repeats. */
  lemma {:induction false} ElementsCount(xs: seq<string>)
    ensures |Elements(xs)| <= |xs|
    ensures |Elements(xs)| == |xs| <==> Distinct(xs)
    decreases |xs|
  {
    if xs != [] {
      var init, last := xs[..|xs| - 1], xs[|xs| - 1];
      ElementsCount(init);
      assert xs == init + [last];
      assert Elements(xs) == Elements(init) + {last};
      if last in init {
        assert Elements(xs) == Elements(init);
        var k :| 0 <= k < |init| && init[k] == last;
        assert xs[k] == xs[|xs| - 1];
      } else {
        assert |Elements(xs)| == |Elements(init)| + 1;
        if Distinct(init) {
          forall i, j | 0 <= i < j < |xs|
            ensures xs[i] != xs[j]
          {
            if j == |xs| - 1 {
              assert xs[i] == init[i];
            } else {
              assert xs[i] == init[i] && xs[j] == init[j];
            }
          }
        } else {
          var i, j :| 0 <= i < j < |init| && init[i] == init[j];
          assert xs[i] == xs[j];
        }
      }
    }
  }

  /** A subset at least as large as its superset is the whole superset. */
  lemma SubsetAsLarge(a: set<string>, b: set<string>)
    requires a <= b && |a| >= |b|
    ensures a == b
  {
    if a != b {
      var x :| x in b && x !in a;
      assert a <= b - {x};
      assert |b - {x}| == |b| - 1;
      SubsetCard(a, b - {x});
    }
  }

  lemma {:induction false} SubsetCard(a: set<string>, b: set<string>)
    requires a <= b
    ensures |a| <= |b|
    decreases |b|
  {
    if b != {} {
      var x :| x in b;
      SubsetCard(a - {x}, b - {x});
    }
  }

  /** The count test succeeds exactly when the requested ids are distinct
      and every one of them is an approved prescription of this user. */
  lemma CountMatchIff(ids: seq<string>, store: map<string, PrescriptionData>, userId: string)
    ensures |Found(ids, store, userId)| == |ids| <==>
              (Distinct(ids) && forall i :: 0 <= i < |ids| ==> Qualifies(store, ids[i], userId))
  {
    var found := Found(ids, store, userId);
    ElementsCount(ids);
    assert found <= Elements(ids);
    SubsetCard(found, Elements(ids));
    if |found| == |ids| {
      SubsetAsLarge(found, Elements(ids));
      forall i | 0 <= i < |ids|
        ensures Qualifies(store, ids[i], userId)
      {
        assert ids[i] in Elements(ids);
      }
    }
    if Distinct(ids) && forall i :: 0 <= i < |ids| ==> Qualifies(store, ids[i], userId) {
      forall x | x in Elements(ids)
        ensures x in found
      {
        var i :| 0 <= i < |ids| && ids[i] == x;
      }
      assert found == Elements(ids);
    }
  }

  datatype Validation = Validated(records: seq<PrescriptionData>) | Rejected(missing: seq<string>)

  /** Every requested prescription, distinct, owned by the user and approved. */
  predicate AllQualify(ps: seq<PrescriptionData>, store: map<string, PrescriptionData>, userId: string)
  {
    Distinct(Ids(ps)) && forall i :: 0 <= i < |ps| ==> Qualifies(store, ps[i].id, userId)
  }

  /** `validatePrescriptions`: the stored records (with the document id),
      or the requested ids the query did not find. */
  function ValidatePrescriptions(ps: seq<PrescriptionData>, userId: string,
                                 store: map<string, PrescriptionData>): (r: Validation)
    ensures r.Validated? <==> AllQualify(ps, store, userId)
    ensures r.Validated? ==> |r.records| == |ps| && forall i :: 0 <= i < |ps| ==>
              ps[i].id in store && r.records[i] == store[ps[i].id].(id := ps[i].id)
    ensures r.Rejected? ==> forall x :: x in r.missing <==>
              x in Ids(ps) && !Qualifies(store, x, userId)
    ensures r.Rejected? ==> (r.missing == [] <==>
              (!Distinct(Ids(ps)) && forall i :: 0 <= i < |ps| ==> Qualifies(store, ps[i].id, userId)))
  {
    var ids := Ids(ps);
    CountMatchIff(ids, store, userId);
    if ps == [] then Validated([])
    else
      var found := Found(ids, store, userId);
      if |found| != |ids| then
        var missing := Minus(ids, found);
        assert missing == [] ==> forall i :: 0 <= i < |ps| ==> Qualifies(store, ps[i].id, userId) by {
          if missing == [] {
            forall i | 0 <= i < |ps|
              ensures Qualifies(store, ps[i].id, userId)
            {
              assert ids[i] in ids;
            }
          }
        }
        assert missing != [] ==> exists i :: 0 <= i < |ps| && !Qualifies(store, ps[i].id, userId) by {
          if missing != [] {
            assert missing[0] in missing;
            var i :| 0 <= i < |ids| && ids[i] == missing[0];
          }
        }
        Rejected(missing)
      else
        Validated(seq(|ps|, i requires 0 <= i < |ps| => store[ps[i].id].(id := ps[i].id)))
  }

  const ValidationFailedMessage := "Prescription validation failed. Please check your prescriptions and try again."
  const SomeInvalidMessage := "Some prescriptions are invalid or already used"
  const ValidationErrorPrefix := "Prescription validation failed: "

  /** `validatePrescriptionsForOrder`: the same query, answered as a
      Resource; `query` is the query's outcome, and a missing exception
      message is printed as "null". */
  function ValidateForOrder(ps: seq<PrescriptionData>, userId: string,
                            store: map<string, PrescriptionData>, query: Call): (r: Resource<bool>)
    ensures ps == [] ==> r == Success(true)
    ensures ps != [] && query.Throws? ==> r == Error(ValidationErrorPrefix + query.MessageOr("null"))
    ensures r == Success(true) <==>
              (ps == [] || query.Succeeds?) && ValidatePrescriptions(ps, userId, store).Validated?
    ensures query.Succeeds? && r != Success(true) ==> r == Error(SomeInvalidMessage)
  {
    if ps == [] then Success(true)
    else if query.Throws? then Error(ValidationErrorPrefix + query.MessageOr("null"))
    else
      var ids := Ids(ps);
      CountMatchIff(ids, store, userId);
      if |Found(ids, store, userId)| != |ids| then Error(SomeInvalidMessage)
      else Success(true)
  }

  // ---------------------------------------------------------------------
  // Enrichment with pharmacy information

  predicate HasPharmacyInfo(l: CartProduct)
  {
    !IsBlank(l.pharmacistId) && l.pharmacyName.Some? && !IsBlank(l.pharmacyName.value)
  }

  predicate PharmacyFieldsReadable(f: Fields)
  {
    StringReadable(f, "pharmacistId") && StringReadable(f, "pharmacyName")
    && StringReadable(f, "pharmacyAddress")
  }

  /** The product document a line's read returns; a missing document reads
      as empty. */
  function ProductDoc(l: CartProduct, products: map<string, Fields>): Fields
  {
    if l.product.id in products then products[l.product.id] else map[]
  }

  /** A product document that names a pharmacist and a pharmacy, each as a
      non-blank string, and whose address is readable. */
  predicate NamesPharmacy(f: Fields)
  {
    PharmacyFieldsReadable(f)
    && GetString(f, "pharmacistId").Some? && !IsBlank(GetString(f, "pharmacistId").value)
    && GetString(f, "pharmacyName").Some? && !IsBlank(GetString(f, "pharmacyName").value)
  }

  /** `fetchProductWithPharmacyInfo`; `read` is the product read's outcome.
      Only the three pharmacy fields can change; a failed read, or a field
      that is not a string, leaves the line as it was; a successful read
      sets each of them to the document's string, or "" when it has none. */
  function Fetched(l: CartProduct, products: map<string, Fields>, read: Call): (r: CartProduct)
    ensures r.product == l.product && r.quantity == l.quantity
    ensures r.selectedStrength == l.selectedStrength && r.selectedDosageForm == l.selectedDosageForm
    ensures r.prescriptionImageUrl == l.prescriptionImageUrl
    ensures read.Throws? || !PharmacyFieldsReadable(ProductDoc(l, products)) ==> r == l
    ensures r != l ==> r.pharmacyName.Some?
    ensures read.Succeeds? && PharmacyFieldsReadable(ProductDoc(l, products)) ==>
              r.pharmacistId == GetString(ProductDoc(l, products), "pharmacistId").OrElse("")
              && r.pharmacyName == Some(GetString(ProductDoc(l, products), "pharmacyName").OrElse(""))
              && r.pharmacyAddress == GetString(ProductDoc(l, products), "pharmacyAddress").OrElse("")
  {
    var f := ProductDoc(l, products);
    if read.Throws? || !PharmacyFieldsReadable(f) then l
    else
      l.(pharmacistId := StringOr(f, "pharmacistId", ""),
         pharmacyName := Some(StringOr(f, "pharmacyName", "")),
         pharmacyAddress := StringOr(f, "pharmacyAddress", ""))
  }

  /** A line that already names its pharmacist and pharmacy is kept as is;
      otherwise the pharmacy fields are fetched. */
  function Enrich(l: CartProduct, products: map<string, Fields>, read: Call): (r: CartProduct)
    ensures HasPharmacyInfo(l) ==> r == l
    ensures r.product == l.product && r.quantity == l.quantity && r.selectedStrength == l.selectedStrength
    ensures r != l ==> r.pharmacyName.Some?
  {
    if HasPharmacyInfo(l) then l else Fetched(l, products, read)
  }

  /** After enrichment a line names its pharmacist and pharmacy when it did
      already or when its product document does and is read; a document
      read without a pharmacist leaves the line to no pharmacist. */
  lemma EnrichGivesPharmacyInfo(l: CartProduct, products: map<string, Fields>, read: Call)
    ensures HasPharmacyInfo(l) || (read.Succeeds? && NamesPharmacy(ProductDoc(l, products)))
            ==> HasPharmacyInfo(Enrich(l, products, read))
    ensures !HasPharmacyInfo(l) && read.Succeeds? && PharmacyFieldsReadable(ProductDoc(l, products))
            && GetString(ProductDoc(l, products), "pharmacistId").None?
            ==> Enrich(l, products, read).pharmacistId == ""
  {
  }

  /** Each line enriched with its own read, one for one. */
  function EnrichAll(lines: seq<CartProduct>, products: map<string, Fields>, fetches: seq<Call>): (r: seq<CartProduct>)
    requires |fetches| == |lines|
    ensures |r| == |lines|
    ensures forall i :: 0 <= i < |lines| ==> r[i] == Enrich(lines[i], products, fetches[i])
  {
    seq(|lines|, i requires 0 <= i < |lines| => Enrich(lines[i], products, fetches[i]))
  }

  /** Enrichment never changes what is ordered: product and quantity per line. */
  lemma EnrichKeepsItems(lines: seq<CartProduct>, products: map<string, Fields>, fetches: seq<Call>)
    requires |fetches| == |lines|
    ensures forall i :: 0 <= i < |lines| ==>
              EnrichAll(lines, products, fetches)[i].product == lines[i].product
              && EnrichAll(lines, products, fetches)[i].quantity == lines[i].quantity
  {
  }

  /** The stored status for a payment method. */
  function StatusFor(paymentMethod: string): (r: string)
    ensures r == OrderStatuses.Name(OrderStatuses.Ordered) <==> paymentMethod == "COD"
    ensures r != OrderStatuses.Name(OrderStatuses.Ordered) ==> r == OrderStatuses.Name(OrderStatuses.Paid)
  {
    if paymentMethod == "COD" then OrderStatuses.Name(OrderStatuses.Ordered)
    else OrderStatuses.Name(OrderStatuses.Paid)
  }

  /** The order as saved. */
  function Enhanced(order: Order, validated: seq<PrescriptionData>, userId: string,
                    paymentMethod: string, products: map<string, Fields>, fetches: seq<Call>): (o: Order)
    requires |fetches| == |order.products|
    ensures o.orderId == order.orderId && o.userId == userId && o.paymentMethod == paymentMethod
    ensures o.prescriptionData == validated && o.orderStatus == StatusFor(paymentMethod)
    ensures o.products == EnrichAll(order.products, products, fetches)
    ensures o.address == order.address && o.createdAt == order.createdAt
  {
    order.(prescriptionData := validated, userId := userId, paymentMethod := paymentMethod,
           products := EnrichAll(order.products, products, fetches), orderStatus := StatusFor(paymentMethod))
  }

  // ---------------------------------------------------------------------
  // One order per pharmacist

  /** The distinct pharmacist ids of the lines, in order of first occurrence
      (the keys of `groupBy`). */
  function GroupKeys(lines: seq<CartProduct>): (r: seq<string>)
    ensures Distinct(r)
    ensures forall p :: p in r <==> exists i :: 0 <= i < |lines| && lines[i].pharmacistId == p
    decreases |lines|
  {
    if lines == [] then []
    else
      var init := lines[..|lines| - 1];
      var last := lines[|lines| - 1].pharmacistId;
      var k := GroupKeys(init);
      assert forall i :: 0 <= i < |init| ==> init[i] == lines[i];
      if last in k then k else k + [last]
  }

  /** The lines of one pharmacist, in order (a `groupBy` group). */
  function LinesOf(lines: seq<CartProduct>, pharmacistId: string): (r: seq<CartProduct>)
    ensures |r| <= |lines|
    ensures forall l :: l in r <==> l in lines && l.pharmacistId == pharmacistId
  {
    if lines == [] then []
    else (if lines[0].pharmacistId == pharmacistId then [lines[0]] else [])
         + LinesOf(lines[1..], pharmacistId)
  }

  function PrescriptionRefs(ps: seq<PrescriptionData>): (r: seq<(string, string)>)
    ensures |r| == |ps|
    ensures forall i :: 0 <= i < |ps| ==> r[i] == (ps[i].id, ps[i].prescriptionImageUrl)
  {
    seq(|ps|, i requires 0 <= i < |ps| => (ps[i].id, ps[i].prescriptionImageUrl))
  }

  /** The pharmacist's record: the pharmacy of the group's first line. */
  function PharmacistOrderFor(o: Order, pharmacistId: string, now: int): (r: PharmacistOrder)
    ensures r.orderId == o.orderId && r.userId == o.userId && r.pharmacistId == pharmacistId
    ensures r.lines == LinesOf(o.products, pharmacistId) && r.status == o.orderStatus
    ensures forall l :: l in r.lines <==> l in o.products && l.pharmacistId == pharmacistId
    ensures |r.prescriptions| == |o.prescriptionData|
  {
    var ls := LinesOf(o.products, pharmacistId);
    PharmacistOrder(o.orderId, o.userId, pharmacistId,
      if ls == [] then "" else ls[0].pharmacyName.OrElse(""),
      if ls == [] then "" else ls[0].pharmacyAddress,
      ls, PrescriptionRefs(o.prescriptionData), o.orderStatus, now)
  }

  /** The pharmacist collections after writing the records for `keys`,
      one after the other; a blank key writes nothing. */
  function WithPharmacistOrders(existing: map<(string, string), PharmacistOrder>, o: Order,
                                keys: seq<string>, now: int): map<(string, string), PharmacistOrder>
    decreases |keys|
  {
    if keys == [] then existing
    else
      var m := WithPharmacistOrders(existing, o, keys[..|keys| - 1], now);
      var p := keys[|keys| - 1];
      if IsBlank(p) then m else m[(p, o.orderId) := PharmacistOrderFor(o, p, now)]
  }

  /** The records `saveToPharmacistOrders` writes. */
  function PharmacistWrites(existing: map<(string, string), PharmacistOrder>, o: Order, now: int)
    : map<(string, string), PharmacistOrder>
  {
    WithPharmacistOrders(existing, o, GroupKeys(o.products), now)
  }

  /** Writing the records for `keys`: one record per non-blank key, under
      the order id, and nothing else touched. */
  lemma {:induction false} WithPharmacistOrdersMeaning(existing: map<(string, string), PharmacistOrder>,
                                                       o: Order, keys: seq<string>, now: int,
                                                       p: string, oid: string)
    ensures var w := WithPharmacistOrders(existing, o, keys, now);
            (p, oid) in w <==> (p, oid) in existing || (oid == o.orderId && !IsBlank(p) && p in keys)
    ensures var w := WithPharmacistOrders(existing, o, keys, now);
            oid == o.orderId && !IsBlank(p) && p in keys ==> w[(p, oid)] == PharmacistOrderFor(o, p, now)
    ensures var w := WithPharmacistOrders(existing, o, keys, now);
            (p, oid) in existing && !(oid == o.orderId && !IsBlank(p) && p in keys)
            ==> w[(p, oid)] == existing[(p, oid)]
    decreases |keys|
  {
    if keys != [] {
      var init := keys[..|keys| - 1];
      WithPharmacistOrdersMeaning(existing, o, init, now, p, oid);
      assert keys == init + [keys[|keys| - 1]];
    }
  }

  /** One record per distinct non-blank pharmacist id of the lines, holding
      exactly that pharmacist's lines; every other record is untouched. */
  lemma PharmacistWritesMeaning(existing: map<(string, string), PharmacistOrder>, o: Order, now: int,
                                p: string, oid: string)
    ensures var w := PharmacistWrites(existing, o, now);
            (p, oid) in w <==> (p, oid) in existing
                               || (oid == o.orderId && !IsBlank(p)
                                   && exists i :: 0 <= i < |o.products| && o.products[i].pharmacistId == p)
    ensures var w := PharmacistWrites(existing, o, now);
            (oid == o.orderId && !IsBlank(p) && exists i :: 0 <= i < |o.products| && o.products[i].pharmacistId == p)
            ==> forall l :: l in w[(p, oid)].lines <==> l in o.products && l.pharmacistId == p
    ensures var w := PharmacistWrites(existing, o, now);
            (p, oid) in existing && !(oid == o.orderId && !IsBlank(p)
                                      && exists i :: 0 <= i < |o.products| && o.products[i].pharmacistId == p)
            ==> w[(p, oid)] == existing[(p, oid)]
  {
    WithPharmacistOrdersMeaning(existing, o, GroupKeys(o.products), now, p, oid);
  }

  /** Writing one more key extends the writes for the keys before it. */
  lemma WithPharmacistOrdersStep(existing: map<(string, string), PharmacistOrder>, o: Order,
                                 keys: seq<string>, j: nat, now: int)
    requires j < |keys|
    ensures IsBlank(keys[j]) ==>
              WithPharmacistOrders(existing, o, keys[..j + 1], now) == WithPharmacistOrders(existing, o, keys[..j], now)
    ensures !IsBlank(keys[j]) ==>
              WithPharmacistOrders(existing, o, keys[..j + 1], now)
              == WithPharmacistOrders(existing, o, keys[..j], now)[(keys[j], o.orderId) := PharmacistOrderFor(o, keys[j], now)]
  {
    var prefix := keys[..j + 1];
    assert prefix[..|prefix| - 1] == keys[..j] && prefix[|prefix| - 1] == keys[j];
  }

  /** `saveToPharmacistOrders`: one `set` per group with a non-blank key. */
  method SaveToPharmacistOrders(existing: map<(string, string), PharmacistOrder>, o: Order, now: int)
    returns (r: map<(string, string), PharmacistOrder>)
    ensures r == PharmacistWrites(existing, o, now)
  {
    var keys := GroupKeys(o.products);
    r := existing;
    var j := 0;
    while j < |keys|
      invariant 0 <= j <= |keys|
      invariant r == WithPharmacistOrders(existing, o, keys[..j], now)
    {
      var p := keys[j];
      WithPharmacistOrdersStep(existing, o, keys, j, now);
      if !IsBlank(p) {
        r := r[(p, o.orderId) := PharmacistOrderFor(o, p, now)];
      }
      j := j + 1;
    }
    assert keys[..|keys|] == keys;
  }

  // ---------------------------------------------------------------------
  // Stock counters

  /** `FieldValue.increment(delta)` applied to a stored value: numbers are
      increased, anything else (or nothing) becomes the delta. */
  function Increment(v: Option<Value>, delta: int): (r: Value)
    ensures v.Some? && v.value.VLong? ==> r == VLong(v.value.n + delta)
    ensures v.Some? && v.value.VDouble? ==> r == VDouble(v.value.d + delta as real)
    ensures !(v.Some? && (v.value.VLong? || v.value.VDouble?)) ==> r == VLong(delta)
  {
    if v.Some? && v.value.VLong? then VLong(v.value.n + delta)
    else if v.Some? && v.value.VDouble? then VDouble(v.value.d + delta as real)
    else VLong(delta)
  }

  /** One line's update: stock down, sales up, by the line's quantity. */
  function AfterSale(f: Fields, q: int): Fields
  {
    f["quantity" := Increment(Get(f, "quantity"), -q)]["salesCount" := Increment(Get(f, "salesCount"), q)]
  }

  /** Two updates of the same product add up. */
  lemma AfterSaleAdds(f: Fields, q1: int, q2: int)
    ensures AfterSale(AfterSale(f, q1), q2) == AfterSale(f, q1 + q2)
  {
    var g := AfterSale(f, q1);
    assert Get(g, "quantity") == Some(g["quantity"]);
    assert Get(g, "salesCount") == Some(g["salesCount"]);
  }

  /** Total quantity of the lines for product `id`. */
  function QuantityOrdered(lines: seq<CartProduct>, id: string): int
  {
    if lines == [] then 0
    else QuantityOrdered(lines[..|lines| - 1], id)
         + (if lines[|lines| - 1].product.id == id then lines[|lines| - 1].quantity else 0)
  }

  predicate Ordered(lines: seq<CartProduct>, id: string)
  {
    exists i :: 0 <= i < |lines| && lines[i].product.id == id
  }

  /** The product documents after every line's update, one after the other. */
  function SaleApplied(products: map<string, Fields>, lines: seq<CartProduct>): (r: map<string, Fields>)
    ensures r.Keys == products.Keys
    decreases |lines|
  {
    if lines == [] then products
    else
      var m := SaleApplied(products, lines[..|lines| - 1]);
      var l := lines[|lines| - 1];
      if l.product.id in m then m[l.product.id := AfterSale(m[l.product.id], l.quantity)] else m
  }

  lemma OrderedAppend(lines: seq<CartProduct>, l: CartProduct, k: string)
    ensures Ordered(lines + [l], k) <==> Ordered(lines, k) || l.product.id == k
  {
    var xs := lines + [l];
    if Ordered(xs, k) && l.product.id != k {
      var i :| 0 <= i < |xs| && xs[i].product.id == k;
      assert xs[i] == lines[i];
    }
    if Ordered(lines, k) {
      var i :| 0 <= i < |lines| && lines[i].product.id == k;
      assert xs[i] == lines[i];
    }
    if l.product.id == k {
      assert xs[|lines|] == l;
    }
  }

  lemma {:induction false} NotOrderedNone(lines: seq<CartProduct>, id: string)
    requires !Ordered(lines, id)
    ensures QuantityOrdered(lines, id) == 0
    decreases |lines|
  {
    if lines != [] {
      var init := lines[..|lines| - 1];
      assert lines == init + [lines[|lines| - 1]];
      OrderedAppend(init, lines[|lines| - 1], id);
      NotOrderedNone(init, id);
    }
  }

  /** The last line moves only its own product. */
  lemma SaleAppliedLast(products: map<string, Fields>, lines: seq<CartProduct>, id: string)
    requires id in products && lines != []
    ensures var init, l := lines[..|lines| - 1], lines[|lines| - 1];
            SaleApplied(products, lines)[id]
            == if l.product.id == id then AfterSale(SaleApplied(products, init)[id], l.quantity)
               else SaleApplied(products, init)[id]
  {
  }

  /** Whether a non-empty list orders `id`, by its last line. */
  lemma OrderedLast(lines: seq<CartProduct>, id: string)
    requires lines != []
    ensures Ordered(lines, id) <==> Ordered(lines[..|lines| - 1], id) || lines[|lines| - 1].product.id == id
  {
    assert lines == lines[..|lines| - 1] + [lines[|lines| - 1]];
    OrderedAppend(lines[..|lines| - 1], lines[|lines| - 1], id);
  }

  /** Each ordered product moves once by its total ordered quantity; a
      product no line names is untouched. */
  lemma {:induction false} SaleAppliedMeaning(products: map<string, Fields>, lines: seq<CartProduct>, id: string)
    requires id in products
    ensures SaleApplied(products, lines)[id]
            == if Ordered(lines, id) then AfterSale(products[id], QuantityOrdered(lines, id)) else products[id]
    decreases |lines|
  {
    if lines != [] {
      var init, l := lines[..|lines| - 1], lines[|lines| - 1];
      SaleAppliedMeaning(products, init, id);
      SaleAppliedLast(products, lines, id);
      OrderedLast(lines, id);
      if l.product.id == id {
        assert QuantityOrdered(lines, id) == QuantityOrdered(init, id) + l.quantity;
        if Ordered(init, id) {
          AfterSaleAdds(products[id], QuantityOrdered(init, id), l.quantity);
        } else {
          NotOrderedNone(init, id);
          AfterSaleAdds(products[id], 0, l.quantity);
        }
      } else {
        assert QuantityOrdered(lines, id) == QuantityOrdered(init, id);
      }
    }
  }

  /** `updateProductQuantities`: one update per line into the save's batch
      (whose failure on a missing document `SaveOrderToDatabase` decides). */
  method UpdateProductQuantities(lines: seq<CartProduct>, products: map<string, Fields>)
    returns (r: map<string, Fields>)
    ensures r == SaleApplied(products, lines)
  {
    r := products;
    var i := 0;
    while i < |lines|
      invariant 0 <= i <= |lines|
      invariant r == SaleApplied(products, lines[..i])
    {
      var prefix := lines[..i + 1];
      assert prefix[..i] == lines[..i] && prefix[i] == lines[i];
      var l := lines[i];
      if l.product.id in r {
        r := r[l.product.id := AfterSale(r[l.product.id], l.quantity)];
      }
      i := i + 1;
    }
    assert lines[..|lines|] == lines;
  }

  /** Stock and sales move by the total ordered quantity, so for integer
      counters their sum is unchanged. */
  lemma StockConserved(products: map<string, Fields>, lines: seq<CartProduct>, id: string, q0: int, s0: int)
    requires id in products && Ordered(lines, id)
    requires "quantity" in products[id] && products[id]["quantity"] == VLong(q0)
    requires "salesCount" in products[id] && products[id]["salesCount"] == VLong(s0)
    ensures var g := SaleApplied(products, lines)[id];
            "quantity" in g && g["quantity"] == VLong(q0 - QuantityOrdered(lines, id))
            && "salesCount" in g && g["salesCount"] == VLong(s0 + QuantityOrdered(lines, id))
            && g["quantity"].n + g["salesCount"].n == q0 + s0
  {
    SaleAppliedMeaning(products, lines, id);
  }

  // ---------------------------------------------------------------------
  // Marking the prescriptions used

  /** The fields `markPrescriptionsAsUsed` sets on one prescription. */
  function MarkUsed(p: PrescriptionData, orderId: string, now: int): (r: PrescriptionData)
    ensures r.usedInOrder == Some(orderId) && r.status == StatusUsed && r.updatedAt == now
    ensures r.id == p.id && r.userId == p.userId && r.productIds == p.productIds
  {
    p.(usedInOrder := Some(orderId), status := StatusUsed, updatedAt := now)
  }

  /** The store after the updates for `ids`, one after the other. */
  function MarkAll(store: map<string, PrescriptionData>, ids: seq<string>, orderId: string, now: int)
    : (r: map<string, PrescriptionData>)
    ensures r.Keys == store.Keys
    decreases |ids|
  {
    if ids == [] then store
    else
      var m := MarkAll(store, ids[..|ids| - 1], orderId, now);
      var id := ids[|ids| - 1];
      if id in m then m[id := MarkUsed(m[id], orderId, now)] else m
  }

  /** Exactly the listed prescriptions are marked; a repeated id is
      marked once, as the second update of the batch changes nothing. */
  lemma {:induction false} MarkAllMeaning(store: map<string, PrescriptionData>, ids: seq<string>,
                                          orderId: string, now: int)
    ensures forall id :: id in store ==>
              MarkAll(store, ids, orderId, now)[id]
              == if id in ids then MarkUsed(store[id], orderId, now) else store[id]
    decreases |ids|
  {
    if ids != [] {
      var init := ids[..|ids| - 1];
      MarkAllMeaning(store, init, orderId, now);
      assert ids == init + [ids[|ids| - 1]];
    }
  }

  /** `markPrescriptionsAsUsed`: one update per prescription in a batch;
      `commit` is the commit's outcome. A missing document fails the batch
      too, and a failure is only logged. */
  method MarkPrescriptionsAsUsed(ps: seq<PrescriptionData>, orderId: string,
                                 store: map<string, PrescriptionData>, now: int, commit: Call)
    returns (r: map<string, PrescriptionData>)
    ensures commit.Succeeds? && (forall i :: 0 <= i < |ps| ==> ps[i].id in store) ==>
              r == MarkAll(store, Ids(ps), orderId, now)
    ensures commit.Throws? || !(forall i :: 0 <= i < |ps| ==> ps[i].id in store) ==> r == store
  {
    var ids := Ids(ps);
    var m := store;
    var i := 0;
    while i < |ids|
      invariant 0 <= i <= |ids|
      invariant m == MarkAll(store, ids[..i], orderId, now)
    {
      var prefix := ids[..i + 1];
      assert prefix[..i] == ids[..i] && prefix[i] == ids[i];
      var id := ids[i];
      if id in m {
        m := m[id := MarkUsed(m[id], orderId, now)];
      }
      i := i + 1;
    }
    assert ids[..|ids|] == ids;
    var allExist := forall i :: 0 <= i < |ps| ==> ps[i].id in store;
    r := if allExist && commit.Succeeds? then m else store;
  }

  // ---------------------------------------------------------------------
  // The whole placement

  /** Every product document a line updates exists; otherwise the save's
      batch fails as a whole. */
  predicate ProductsExist(o: Order, products: map<string, Fields>)
  {
    forall i :: 0 <= i < |o.products| ==> o.products[i].product.id in products
  }

  /** The store after a successful save of `o`. */
  function Saved(db: Db, o: Order, now: int): Db
  {
    db.(userOrders := db.userOrders[(o.userId, o.orderId) := StoredMaps.OrderMap(o)],
        orders := db.orders[o.orderId := StoredMaps.OrderMap(o)],
        pharmacistOrders := PharmacistWrites(db.pharmacistOrders, o, now),
        carts := db.carts[o.userId := []],
        products := SaleApplied(db.products, o.products))
  }

  /** The store after the placement has saved `o` and marked its
      prescriptions. */
  function Placed(db: Db, o: Order, now: int): Db
  {
    var s := Saved(db, o, now);
    s.(prescriptions := MarkAll(s.prescriptions, Ids(o.prescriptionData), o.orderId, now))
  }

  /** Saving leaves the prescriptions alone, so the prescriptions of an
      order are still there to be marked, and an order without any is
      placed by the save alone. */
  lemma PlacedMarksValidated(db: Db, o: Order, now: int)
    ensures Saved(db, o, now).prescriptions == db.prescriptions
    ensures o.prescriptionData == [] ==> Placed(db, o, now) == Saved(db, o, now)
  {
    if o.prescriptionData == [] {
      assert Ids(o.prescriptionData) == [];
    }
  }

  /** `saveOrderToDatabase`: every write of the save in one batch, which
      fails as a whole (None) when its commit fails or a line's product
      document is missing. */
  method SaveOrderToDatabase(db: Db, o: Order, now: int, commit: Call) returns (after: Option<Db>)
    ensures commit.Succeeds? && ProductsExist(o, db.products) ==> after == Some(Saved(db, o, now))
    ensures commit.Throws? || !ProductsExist(o, db.products) ==> after == None
  {
    if commit.Throws? || !ProductsExist(o, db.products) {
      return None;
    }
    var written := SaveToPharmacistOrders(db.pharmacistOrders, o, now);
    var stock := UpdateProductQuantities(o.products, db.products);
    after := Some(db.(userOrders := db.userOrders[(o.userId, o.orderId) := StoredMaps.OrderMap(o)],
                      orders := db.orders[o.orderId := StoredMaps.OrderMap(o)],
                      pharmacistOrders := written,
                      carts := db.carts[o.userId := []],
                      products := stock));
  }

  /** The validation step lets the order through: it carries no
      prescription, or the query answered and every prescription qualifies. */
  predicate Validates(order: Order, userId: string, db: Db, validation: Call)
  {
    (order.prescriptionData == [] || validation.Succeeds?)
    && ValidatePrescriptions(order.prescriptionData, userId, db.prescriptions).Validated?
  }

  const NotAuthenticated := "User not authenticated"
  const SaveFailedPrefix := "Failed to save order: "
  const LoadPrescriptionsFailed := "Failed to load prescriptions"

  class OrderViewModel {
    var orderState: Resource<Order>
    var prescriptionValidation: Resource<bool>
    var prescriptions: Resource<seq<PrescriptionData>>

    constructor()
      ensures orderState == Unspecified && prescriptionValidation == Unspecified
      ensures prescriptions == Unspecified
    {
      orderState := Unspecified;
      prescriptionValidation := Unspecified;
      prescriptions := Unspecified;
    }

    /** `placeOrder`. `userId` is the signed-in user, if any. The store's
        answers are parameters: `validation` for the validation query,
        `fetches` for each line's product read, `commit` for the save's batch
        and `mark` for the marking batch; `storeError` is the store's text
        when it refuses a batch that updates a missing product document.
        Returns the store after. */
    method PlaceOrder(order: Order, paymentMethod: string, userId: Option<string>, db: Db, now: int,
                      validation: Call, fetches: seq<Call>, commit: Call, mark: Call, storeError: string)
      returns (after: Db)
      requires |fetches| == |order.products|
      modifies this
      ensures prescriptionValidation == old(prescriptionValidation) && prescriptions == old(prescriptions)
      ensures userId.None? ==> orderState == Error(NotAuthenticated) && after == db
      ensures userId.Some? && !Validates(order, userId.value, db, validation)
              ==> orderState == Error(ValidationFailedMessage) && after == db
      ensures userId.Some? && Validates(order, userId.value, db, validation)
              ==> var o := Enhanced(order, ValidatePrescriptions(order.prescriptionData, userId.value, db.prescriptions).records,
                                    userId.value, paymentMethod, db.products, fetches);
                  (commit.Throws? ==> orderState == Error(SaveFailedPrefix + commit.MessageOr("null")) && after == db)
                  && (commit.Succeeds? && !ProductsExist(o, db.products) ==>
                        orderState == Error(SaveFailedPrefix + storeError) && after == db)
                  && (commit.Succeeds? && ProductsExist(o, db.products) ==>
                        orderState == Success(o) && after == if mark.Succeeds? then Placed(db, o, now) else Saved(db, o, now))
    {
      orderState := Loading;
      after := db;
      if userId.None? {
        orderState := Error(NotAuthenticated);
        return;
      }
      var uid := userId.value;
      var v := ValidatePrescriptions(order.prescriptionData, uid, db.prescriptions);
      if (order.prescriptionData != [] && validation.Throws?) || v.Rejected? {
        orderState := Error(ValidationFailedMessage);
        return;
      }
      var o := Enhanced(order, v.records, uid, paymentMethod, db.products, fetches);
      after := SaveAndMark(o, db, now, commit, mark, storeError);
    }

    /** The end of `placeOrder`, once the order is enhanced: save it, mark
        its prescriptions when it has any, and publish it; a failed save
        is published as an error and leaves the store as it was. */
    method SaveAndMark(o: Order, db: Db, now: int, commit: Call, mark: Call, storeError: string)
      returns (after: Db)
      requires forall i :: 0 <= i < |o.prescriptionData| ==> o.prescriptionData[i].id in db.prescriptions
      modifies this
      ensures prescriptionValidation == old(prescriptionValidation) && prescriptions == old(prescriptions)
      ensures commit.Throws? ==> orderState == Error(SaveFailedPrefix + commit.MessageOr("null")) && after == db
      ensures commit.Succeeds? && !ProductsExist(o, db.products) ==>
                orderState == Error(SaveFailedPrefix + storeError) && after == db
      ensures commit.Succeeds? && ProductsExist(o, db.products) ==>
                orderState == Success(o) && after == if mark.Succeeds? then Placed(db, o, now) else Saved(db, o, now)
    {
      after := db;
      var saved := SaveOrderToDatabase(db, o, now, commit);
      if saved.None? {
        orderState := Error(SaveFailedPrefix + if commit.Throws? then commit.MessageOr("null") else storeError);
        return;
      }
      after := saved.value;
      PlacedMarksValidated(db, o, now);
      if o.prescriptionData != [] {
        var marked := MarkPrescriptionsAsUsed(o.prescriptionData, o.orderId, after.prescriptions, now, mark);
        after := after.(prescriptions := marked);
      }
      orderState := Success(o);
    }

    /** `validatePrescriptionsForOrder`, published. */
    method ValidatePrescriptionsForOrder(ps: seq<PrescriptionData>, userId: string,
                                         store: map<string, PrescriptionData>, query: Call)
      modifies this
      ensures prescriptionValidation == ValidateForOrder(ps, userId, store, query)
      ensures orderState == old(orderState) && prescriptions == old(prescriptions)
    {
      prescriptionValidation := ValidateForOrder(ps, userId, store, query);
    }

    /** `loadPrescriptionsForOrder`: the prescriptions whose `usedInOrder`
        is the order id; `read` is the query's outcome. */
    method LoadPrescriptionsForOrder(orderId: string, store: seq<PrescriptionData>, read: Call)
      modifies this
      ensures read.Throws? ==> prescriptions == Error(read.MessageOr(LoadPrescriptionsFailed))
      ensures read.Succeeds? ==> prescriptions.Success?
      ensures read.Succeeds? ==>
                forall p :: p in prescriptions.data <==> p in store && p.usedInOrder == Some(orderId)
      ensures orderState == old(orderState) && prescriptionValidation == old(prescriptionValidation)
    {
      if read.Throws? {
        prescriptions := Error(read.MessageOr(LoadPrescriptionsFailed));
        return;
      }
      var found: seq<PrescriptionData> := [];
      var i := 0;
      while i < |store|
        invariant 0 <= i <= |store|
        invariant forall p :: p in found <==> p in store[..i] && p.usedInOrder == Some(orderId)
      {
        assert store[..i + 1] == store[..i] + [store[i]];
        if store[i].usedInOrder == Some(orderId) {
          found := found + [store[i]];
        }
        i := i + 1;
      }
      assert store[..|store|] == store;
      prescriptions := Success(found);
    }

    method ResetOrderState()
      modifies this
      ensures orderState == Unspecified
      ensures prescriptionValidation == old(prescriptionValidation) && prescriptions == old(prescriptions)
    {
      orderState := Unspecified;
    }

    method ResetPrescriptionValidation()
      modifies this
      ensures prescriptionValidation == Unspecified
      ensures orderState == old(orderState) && prescriptions == old(prescriptions)
    {
      prescriptionValidation := Unspecified;
    }

    method ResetPrescriptionsState()
      modifies this
      ensures prescriptions == Unspecified
      ensures orderState == old(orderState) && prescriptionValidation == old(prescriptionValidation)
    {
      prescriptions := Unspecified;
    }
  }

  /** After a successful placement whose marking batch committed, every
      validated prescription is used in this order, so it no longer
      qualifies and cannot back a second order. */
  lemma PlacedPrescriptionsUsed(db: Db, o: Order, now: int, userId: string)
    ensures forall i :: 0 <= i < |o.prescriptionData| && o.prescriptionData[i].id in db.prescriptions ==>
              var id := o.prescriptionData[i].id;
              var p := Placed(db, o, now).prescriptions[id];
              p.usedInOrder == Some(o.orderId) && p.status == StatusUsed
              && !Qualifies(Placed(db, o, now).prescriptions, id, userId)
  {
    var ids := Ids(o.prescriptionData);
    MarkAllMeaning(Saved(db, o, now).prescriptions, ids, o.orderId, now);
    forall i | 0 <= i < |o.prescriptionData|
      ensures o.prescriptionData[i].id in ids
    {
      assert ids[i] == o.prescriptionData[i].id;
    }
  }

  /** When the marking batch fails the placement still succeeds, and every
      prescription that qualified before still does: it can back another
      order. */
  lemma UnmarkedPrescriptionsStillQualify(db: Db, o: Order, now: int, userId: string)
    ensures forall id :: Qualifies(db.prescriptions, id, userId) ==> Qualifies(Saved(db, o, now).prescriptions, id, userId)
  {
    PlacedMarksValidated(db, o, now);
  }
}
