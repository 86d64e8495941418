/**
 * The product details screen's view model: adding a product to the cart
 * (merging with a line of the same variant), whether the user has a pending
 * prescription, whether a product has expired, and the product's reviews.
 */
module Details {
  import opened Text
  import opened Firestore
  import opened Products
  import opened CartProducts
  import opened Prescriptions
  import opened Reviews

  /** A document of the user's cart: its id and the line it stores. */
  datatype CartDoc = CartDoc(id: string, line: CartProduct)

  /** Two lines are the same variant: same product, strength and form. */
  predicate SameVariant(a: CartProduct, b: CartProduct)
  {
    a.product.id == b.product.id && a.selectedStrength == b.selectedStrength
    && a.selectedDosageForm == b.selectedDosageForm
  }

  /** The first cart document of the product (`whereEqualTo("product.id")`,
      then `first()`). */
  function FirstOfProduct(cart: seq<CartDoc>, productId: string): (r: Option<nat>)
    ensures r.Some? ==> r.value < |cart| && cart[r.value].line.product.id == productId
                        && forall j :: 0 <= j < r.value ==> cart[j].line.product.id != productId
    ensures r.None? ==> forall j :: 0 <= j < |cart| ==> cart[j].line.product.id != productId
  {
    if cart == [] then None
    else if cart[0].line.product.id == productId then Some(0)
    else match FirstOfProduct(cart[1..], productId)
      case None => None
      case Some(i) => Some(i + 1)
  }

  /** The line `addUpdateProductInCart` increments, as written: the first
      document of the product, and only when it is the same variant. */
  function MergeTargetAsWritten(cart: seq<CartDoc>, line: CartProduct): (r: Option<nat>)
    ensures r.Some? ==> r.value < |cart| && SameVariant(cart[r.value].line, line)
    ensures r.None? <==> FirstOfProduct(cart, line.product.id).None?
                         || !SameVariant(cart[FirstOfProduct(cart, line.product.id).value].line, line)
  {
    match FirstOfProduct(cart, line.product.id)
    case None => None
    case Some(k) => if SameVariant(cart[k].line, line) then Some(k) else None
  }

  /** The line to increment: the first one of the same variant. */
  function MergeTarget(cart: seq<CartDoc>, line: CartProduct): (r: Option<nat>)
    ensures r.Some? ==> r.value < |cart| && SameVariant(cart[r.value].line, line)
    ensures r.None? <==> forall j :: 0 <= j < |cart| ==> !SameVariant(cart[j].line, line)
  {
    if cart == [] then None
    else if SameVariant(cart[0].line, line) then Some(0)
    else match MergeTarget(cart[1..], line)
      case None => None
      case Some(i) => Some(i + 1)
  }

  /** `increaseQuantity(documentId)`: one more of the line at `k`. */
  function Incremented(cart: seq<CartDoc>, k: nat): (r: seq<CartDoc>)
    requires k < |cart|
    ensures |r| == |cart|
    ensures r[k] == cart[k].(line := cart[k].line.(quantity := cart[k].line.quantity + 1))
    ensures forall j :: 0 <= j < |cart| && j != k ==> r[j] == cart[j]
  {
    cart[k := cart[k].(line := cart[k].line.(quantity := cart[k].line.quantity + 1))]
  }

  /** No two lines of the cart are the same variant. */
  predicate DistinctVariants(cart: seq<CartDoc>)
  {
    forall i, j :: 0 <= i < j < |cart| ==> !SameVariant(cart[i].line, cart[j].line)
  }

  /** The cart after a successful add, as written. */
  function CartAfterAddAsWritten(cart: seq<CartDoc>, line: CartProduct, newId: string): seq<CartDoc>
  {
    match MergeTargetAsWritten(cart, line)
    case Some(k) => Incremented(cart, k)
    case None => cart + [CartDoc(newId, line)]
  }

  /** The cart after a successful add: the matching variant gets one more,
      or the line is appended under the new document id. */
  function CartAfterAdd(cart: seq<CartDoc>, line: CartProduct, newId: string): (r: seq<CartDoc>)
    ensures MergeTarget(cart, line).Some? ==> r == Incremented(cart, MergeTarget(cart, line).value)
    ensures MergeTarget(cart, line).None? ==> r == cart + [CartDoc(newId, line)]
  {
    match MergeTarget(cart, line)
    case Some(k) => Incremented(cart, k)
    case None => cart + [CartDoc(newId, line)]
  }

  /** Adding keeps one line per variant. */
  lemma AddKeepsVariantsDistinct(cart: seq<CartDoc>, line: CartProduct, newId: string)
    requires DistinctVariants(cart)
    ensures DistinctVariants(CartAfterAdd(cart, line, newId))
  {
    var r := CartAfterAdd(cart, line, newId);
    if MergeTarget(cart, line).None? {
      forall i, j | 0 <= i < j < |r|
        ensures !SameVariant(r[i].line, r[j].line)
      {
        if j == |cart| {
          assert r[i] == cart[i];
        } else {
          assert r[i] == cart[i] && r[j] == cart[j];
        }
      }
    }
  }

  /** As written, adding a variant that is in the cart but not on the
      product's first line appends a second line of that variant. */
  lemma AsWrittenDuplicatesVariant()
    ensures var p := NoArgProduct().(id := "a");
            var first := NoArgCartProduct().(product := p, selectedStrength := Some("10mg"));
            var second := NoArgCartProduct().(product := p, selectedStrength := Some("20mg"));
            var cart := [CartDoc("d1", first), CartDoc("d2", second)];
            DistinctVariants(cart) && !DistinctVariants(CartAfterAddAsWritten(cart, second, "d3"))
  {
    var p := NoArgProduct().(id := "a");
    var first := NoArgCartProduct().(product := p, selectedStrength := Some("10mg"));
    var second := NoArgCartProduct().(product := p, selectedStrength := Some("20mg"));
    var cart := [CartDoc("d1", first), CartDoc("d2", second)];
    assert Some("10mg") != Some("20mg") by {
      assert "10mg"[0] != "20mg"[0];
    }
    assert FirstOfProduct(cart, "a") == Some(0);
    var r := CartAfterAddAsWritten(cart, second, "d3");
    assert r == cart + [CartDoc("d3", second)];
    assert SameVariant(r[1].line, r[2].line);
  }

  const NotAuthenticated := "User not authenticated"
  const UnknownError := "An unknown error occurred"
  const AddFailed := "Failed to add product"
  const IncreaseFailed := "Failed to increase quantity"

  /** What `addUpdateProductInCart` publishes last, and the cart after it.
      `query` is the cart lookup, `write` the add or increment. */
  function AddOutcome(userId: Option<string>, cart: seq<CartDoc>, line: CartProduct, query: Call, write: Call,
                      newId: string): (r: (Resource<CartProduct>, seq<CartDoc>))
    ensures r.0.Success? || r.0.Error?
    ensures r.0.Error? ==> r.1 == cart
    ensures r.0.Success? ==> r.0.data == line
    ensures userId.None? ==> r.0 == Error(NotAuthenticated)
    ensures userId.Some? && query.Throws? ==> r.0 == Error(query.MessageOr(UnknownError))
    ensures userId.Some? && query.Succeeds? && write.Throws? ==>
              r.0 == Error(write.MessageOr(if MergeTarget(cart, line).Some? then IncreaseFailed else AddFailed))
  {
    if userId.None? then (Error(NotAuthenticated), cart)
    else if query.Throws? then (Error(query.MessageOr(UnknownError)), cart)
    else if write.Throws? then
      (Error(write.MessageOr(if MergeTarget(cart, line).Some? then IncreaseFailed else AddFailed)), cart)
    else (Success(line), CartAfterAdd(cart, line, newId))
  }

  /** A successful add leaves exactly one more unit of that variant in the
      cart, and touches nothing else. */
  lemma AddOutcomeMeaning(userId: Option<string>, cart: seq<CartDoc>, line: CartProduct, query: Call,
                          write: Call, newId: string)
    ensures var (state, after) := AddOutcome(userId, cart, line, query, write, newId);
            (state.Success? <==> userId.Some? && query.Succeeds? && write.Succeeds?)
            && (!state.Success? ==> after == cart)
            && (state.Success? ==>
                  state.data == line
                  && (MergeTarget(cart, line).None? ==> after == cart + [CartDoc(newId, line)])
                  && (MergeTarget(cart, line).Some? ==>
                        var k := MergeTarget(cart, line).value;
                        |after| == |cart| && SameVariant(after[k].line, line)
                        && after[k].line.quantity == cart[k].line.quantity + 1
                        && forall j :: 0 <= j < |cart| && j != k ==> after[j] == cart[j]))
  {
  }

  /** The pending-prescription query: the user's documents whose status is
      exactly "pending" and whose `usedInOrder` is stored as null. */
  predicate PendingDoc(d: Snapshot, userId: string)
  {
    d.data.Some?
    && "userId" in d.data.value && d.data.value["userId"] == VStr(userId)
    && "status" in d.data.value && d.data.value["status"] == VStr(StatusPending)
    && "usedInOrder" in d.data.value && d.data.value["usedInOrder"] == VNull
  }

  predicate HasPendingDoc(docs: seq<Snapshot>, userId: string)
  {
    exists i :: 0 <= i < |docs| && PendingDoc(docs[i], userId)
  }

  /** A document the query finds is a pending, unused record of that user. */
  lemma PendingDocIsPending(d: Snapshot, userId: string, now: int)
    requires PendingDoc(d, userId) && Parse(d, now).Some?
    ensures var p := Parse(d, now).value;
            p.IsPending() && p.usedInOrder.None? && p.userId == userId
  {
    assert Lower(StatusPending) == StatusPending;
  }

  const StatusCheckFailed := "Failed to check prescription status"

  /** What `loadPrescriptionStatus` publishes last. */
  function PendingStatus(userId: Option<string>, docs: seq<Snapshot>, query: Call): (r: Resource<bool>)
    ensures userId.None? ==> r == Error(NotAuthenticated)
    ensures userId.Some? && query.Throws? ==> r == Error(query.MessageOr(StatusCheckFailed))
    ensures userId.Some? && query.Succeeds? ==> r == Success(HasPendingDoc(docs, userId.value))
  {
    if userId.None? then Error(NotAuthenticated)
    else if query.Throws? then Error(query.MessageOr(StatusCheckFailed))
    else Success(HasPendingDoc(docs, userId.value))
  }

  /** `checkPendingPrescription`'s callback value: false without a user or
      when the query fails. */
  function CheckPendingPrescription(userId: Option<string>, docs: seq<Snapshot>, query: Call): (r: bool)
    ensures r <==> userId.Some? && query.Succeeds? && HasPendingDoc(docs, userId.value)
  {
    userId.Some? && query.Succeeds? && HasPendingDoc(docs, userId.value)
  }

  /** The callback reports true exactly when the status load would publish
      `Success(true)`. */
  lemma CheckAgreesWithStatus(userId: Option<string>, docs: seq<Snapshot>, query: Call)
    ensures CheckPendingPrescription(userId, docs, query) <==> PendingStatus(userId, docs, query) == Success(true)
  {
  }

  // ---------------------------------------------------------------------
  // Expiry

  /** The current time in the shop's time zone: year, month (1-12) and the
      milliseconds since that month began. */
  datatype Clock = Clock(year: int, month: int, sinceMonthStart: nat)

  predicate AllDigits(s: string)
  {
    forall i :: 0 <= i < |s| ==> IsDigit(s[i])
  }

  function DigitsValue(s: string): (n: nat)
    requires AllDigits(s)
    decreases |s|
  {
    if s == [] then 0 else DigitsValue(s[..|s| - 1]) * 10 + (s[|s| - 1] as int - '0' as int)
  }

  /** `MM/yyyy`: month digits, a slash, year digits. */
  function ParseMonthYear(s: string): (r: Option<(int, int)>)
    ensures r.Some? ==> '/' in s
  {
    if '/' !in s then None
    else
      var k := IndexOf(s, '/');
      var m, y := s[..k], s[k + 1..];
      if m != [] && y != [] && AllDigits(m) && AllDigits(y) then Some((DigitsValue(m), DigitsValue(y)))
      else None
  }

  /** Months counted from year 0; a month number outside 1-12 rolls over
      into the neighbouring year, as lenient date parsing does. */
  function MonthIndex(year: int, month: int): int
  {
    year * 12 + (month - 1)
  }

  /** `isProductExpired`: the expiry month has begun before now. A missing,
      blank or unreadable date never counts as expired. */
  function IsProductExpired(p: Product, now: Clock): (r: bool)
    ensures p.expiryDate.None? || IsBlank(p.expiryDate.value) ==> !r
    ensures r ==> p.expiryDate.Some? && ParseMonthYear(p.expiryDate.value).Some?
  {
    if p.expiryDate.None? || IsBlank(p.expiryDate.value) then false
    else match ParseMonthYear(p.expiryDate.value)
      case None => false
      case Some((m, y)) =>
        MonthIndex(y, m) < MonthIndex(now.year, now.month)
        || (MonthIndex(y, m) == MonthIndex(now.year, now.month) && now.sinceMonthStart > 0)
  }

  /** The "MM/yyyy" text of a month. */
  function FormatMonthYear(month: int, year: int): (s: string)
    requires 1 <= month <= 12 && 0 <= year <= 9999
    ensures |s| == 7
  {
    [Digit(month / 10), Digit(month % 10), '/',
     Digit(year / 1000), Digit(year / 100 % 10), Digit(year / 10 % 10), Digit(year % 10)]
  }

  /** Reading back a formatted month gives that month. */
  lemma MonthYearRoundTrip(month: int, year: int)
    requires 1 <= month <= 12 && 0 <= year <= 9999
    ensures ParseMonthYear(FormatMonthYear(month, year)) == Some((month, year))
  {
    var a, b, c, d := YearDigits(year);
    var m := [Digit(month / 10), Digit(month % 10)];
    var y := [Digit(a), Digit(b), Digit(c), Digit(d)];
    assert FormatMonthYear(month, year) == m + "/" + y;
    DigitsPair(month / 10, month % 10);
    DigitsQuad(a, b, c, d);
    ParseDigitsSlash(m, y);
  }

  /** The four decimal digits `FormatMonthYear` writes for a year. */
  lemma YearDigits(year: int) returns (a: nat, b: nat, c: nat, d: nat)
    requires 0 <= year <= 9999
    ensures a == year / 1000 && b == year / 100 % 10 && c == year / 10 % 10 && d == year % 10
    ensures a < 10 && b < 10 && c < 10 && d < 10
    ensures 1000 * a + 100 * b + 10 * c + d == year
  {
    a, b, c, d := year / 1000, year / 100 % 10, year / 10 % 10, year % 10;
    assert year / 100 == 10 * a + b;
    assert year / 10 == 10 * (year / 100) + c;
  }

  /** Two digit runs around a slash read as their values. */
  lemma ParseDigitsSlash(m: string, y: string)
    requires m != [] && y != [] && AllDigits(m) && AllDigits(y)
    ensures ParseMonthYear(m + "/" + y) == Some((DigitsValue(m), DigitsValue(y)))
  {
    var s := m + "/" + y;
    assert s[|m|] == '/';
    var k := IndexOf(s, '/');
    assert s[..k] == m;
    assert s[k + 1..] == y;
  }

  lemma DigitsPair(a: nat, b: nat)
    requires a < 10 && b < 10
    ensures AllDigits([Digit(a), Digit(b)]) && DigitsValue([Digit(a), Digit(b)]) == 10 * a + b
  {
    assert [Digit(a), Digit(b)][..1] == [Digit(a)];
    assert [Digit(a)][..0] == [];
    assert DigitsValue([Digit(a)]) == a;
  }

  lemma DigitsQuad(a: nat, b: nat, c: nat, d: nat)
    requires a < 10 && b < 10 && c < 10 && d < 10
    ensures var s := [Digit(a), Digit(b), Digit(c), Digit(d)];
            AllDigits(s) && DigitsValue(s) == 1000 * a + 100 * b + 10 * c + d
  {
    var s := [Digit(a), Digit(b), Digit(c), Digit(d)];
    DigitsPair(a, b);
    assert s[..3][..2] == [Digit(a), Digit(b)];
    assert s[..3] == [Digit(a), Digit(b), Digit(c)];
    assert DigitsValue(s[..3]) == 100 * a + 10 * b + c;
  }

  /** A well-formed expiry date is expired exactly once its month has
      begun: from the first instant of the month after, or later in the
      month itself. */
  lemma ExpiredIff(p: Product, month: int, year: int, now: Clock)
    requires 1 <= month <= 12 && 0 <= year <= 9999
    requires p.expiryDate == Some(FormatMonthYear(month, year))
    requires 1 <= now.month <= 12
    ensures IsProductExpired(p, now) <==>
              year < now.year || (year == now.year && month < now.month)
              || (year == now.year && month == now.month && now.sinceMonthStart > 0)
  {
    MonthYearRoundTrip(month, year);
    assert p.expiryDate.value[0] != ' ' && !IsSpace(p.expiryDate.value[0]);
  }

  // ---------------------------------------------------------------------
  // Reviews

  /** The product's reviews in query order; a document that cannot be read
      as a review (None) or names another product is skipped. */
  function ReviewsFor(docs: seq<Option<Review>>, productId: string): (r: seq<Review>)
    ensures |r| <= |docs|
    ensures forall v :: v in r <==> Some(v) in docs && v.productId == productId
  {
    if docs == [] then []
    else
      var rest := ReviewsFor(docs[1..], productId);
      assert forall v :: Some(v) in docs <==> docs[0] == Some(v) || Some(v) in docs[1..];
      (if docs[0].Some? && docs[0].value.productId == productId then [docs[0].value] else []) + rest
  }

  /** A review read several times is shown as many times. */
  lemma {:induction false} ReviewsForCount(docs: seq<Option<Review>>, productId: string, v: Review)
    ensures multiset(ReviewsFor(docs, productId))[v] == if v.productId == productId then multiset(docs)[Some(v)] else 0
  {
    if docs != [] {
      assert docs == [docs[0]] + docs[1..];
      ReviewsForCount(docs[1..], productId, v);
    }
  }

  /** The reviews keep the query's order: those of earlier documents come
      first. */
  lemma {:induction false} ReviewsForAppend(a: seq<Option<Review>>, b: seq<Option<Review>>, productId: string)
    ensures ReviewsFor(a + b, productId) == ReviewsFor(a, productId) + ReviewsFor(b, productId)
  {
    if a == [] {
      assert a + b == b;
    } else {
      assert (a + b)[0] == a[0] && (a + b)[1..] == a[1..] + b;
      ReviewsForAppend(a[1..], b, productId);
    }
  }

  const ReviewsFailed := "Failed to load reviews"

  class DetailsViewModel {
    var addToCart: Resource<CartProduct>
    var prescriptionStatus: Resource<bool>
    var reviews: Resource<seq<Review>>

    constructor()
      ensures addToCart == Unspecified && prescriptionStatus == Unspecified && reviews == Unspecified
    {
      addToCart := Unspecified;
      prescriptionStatus := Unspecified;
      reviews := Unspecified;
    }

    /** `addUpdateProductInCart`, with the corrected merge rule; returns the
        cart as it is afterwards. */
    method AddUpdateProductInCart(line: CartProduct, userId: Option<string>, cart: seq<CartDoc>,
                                  query: Call, write: Call, newId: string)
      returns (after: seq<CartDoc>)
      modifies this
      ensures (addToCart, after) == AddOutcome(userId, cart, line, query, write, newId)
      ensures prescriptionStatus == old(prescriptionStatus) && reviews == old(reviews)
    {
      addToCart := Loading;
      after := cart;
      if userId.None? {
        addToCart := Error(NotAuthenticated);
        return;
      }
      if query.Throws? {
        addToCart := Error(query.MessageOr(UnknownError));
        return;
      }
      var target := MergeTarget(cart, line);
      if target.Some? {
        if write.Throws? {
          addToCart := Error(write.MessageOr(IncreaseFailed));
        } else {
          after := Incremented(cart, target.value);
          addToCart := Success(line);
        }
      } else {
        if write.Throws? {
          addToCart := Error(write.MessageOr(AddFailed));
        } else {
          after := cart + [CartDoc(newId, line)];
          addToCart := Success(line);
        }
      }
    }

    /** `loadPrescriptionStatus`. */
    method LoadPrescriptionStatus(userId: Option<string>, docs: seq<Snapshot>, query: Call)
      modifies this
      ensures prescriptionStatus == PendingStatus(userId, docs, query)
      ensures addToCart == old(addToCart) && reviews == old(reviews)
    {
      prescriptionStatus := Loading;
      if userId.None? {
        prescriptionStatus := Error(NotAuthenticated);
      } else if query.Throws? {
        prescriptionStatus := Error(query.MessageOr(StatusCheckFailed));
      } else {
        prescriptionStatus := Success(HasPendingDoc(docs, userId.value));
      }
    }

    /** `loadProductReviews`: `docs` are the query's documents, newest first. */
    method LoadProductReviews(productId: string, docs: seq<Option<Review>>, query: Call)
      modifies this
      ensures query.Throws? ==> reviews == Error(query.MessageOr(ReviewsFailed))
      ensures query.Succeeds? ==> reviews == Success(ReviewsFor(docs, productId))
      ensures addToCart == old(addToCart) && prescriptionStatus == old(prescriptionStatus)
    {
      reviews := Loading;
      if query.Throws? {
        reviews := Error(query.MessageOr(ReviewsFailed));
      } else {
        reviews := Success(ReviewsFor(docs, productId));
      }
    }
  }
}
