/**
 * The cart screen's view model: which prescription is relevant to a cart,
 * the six-state prescription gate and the two flags it drives, and the
 * state changes of the cart and of the user's prescription documents.
 * Times are milliseconds since the epoch, and `now` is always an argument.
 */
module Cart {
  import opened Text
  import opened Firestore
  import opened Products
  import opened CartProducts
  import opened Prescriptions

  const PrescriptionExpiryDays: int := 7
  const PrescriptionPurgeHours: int := 24
  const MillisPerDay: int := 86400000
  const MillisPerHour: int := 3600000
  const NotAuthenticated := "User not authenticated"
  const LoadPrescriptionsFailed := "Failed to load prescriptions"

  datatype PrescriptionState =
    | NewUploadRequired | UploadedPending | Approved | Rejected | Expired | Cancelled

  /** A product needs a prescription when it says so, or when its category
      is "prescription" in any case. */
  function RequiresPrescription(p: Product): (r: bool)
    ensures r <==> p.requiresPrescription || Lower(p.category) == "prescription"
  {
    p.requiresPrescription || EqualsIgnoreCase(p.category, "prescription")
  }

  /** The cart lines whose product needs a prescription, in cart order. */
  function PrescriptionItems(cart: seq<CartProduct>): (r: seq<CartProduct>)
    ensures |r| <= |cart|
    ensures forall l :: l in r <==> l in cart && RequiresPrescription(l.product)
  {
    if cart == [] then []
    else (if RequiresPrescription(cart[0].product) then [cart[0]] else [])
         + PrescriptionItems(cart[1..])
  }

  predicate HasPrescriptionItems(cart: seq<CartProduct>)
  {
    exists i :: 0 <= i < |cart| && RequiresPrescription(cart[i].product)
  }

  lemma HasItemsIff(cart: seq<CartProduct>)
    ensures HasPrescriptionItems(cart) <==> PrescriptionItems(cart) != []
  {
    var items := PrescriptionItems(cart);
    if HasPrescriptionItems(cart) {
      var i :| 0 <= i < |cart| && RequiresPrescription(cart[i].product);
      assert cart[i] in items;
    }
    if items != [] {
      assert items[0] in items;
    }
  }

  /** The prescription names the product of one of `items`. */
  predicate Covers(p: PrescriptionData, items: seq<CartProduct>)
  {
    exists i :: 0 <= i < |items| && items[i].product.id in p.productIds
  }

  /** The prescription names a product of the cart that needs one. */
  predicate CoversCart(p: PrescriptionData, cart: seq<CartProduct>)
  {
    exists i :: 0 <= i < |cart| && RequiresPrescription(cart[i].product) && cart[i].product.id in p.productIds
  }

  lemma CoversItemsOfCart(p: PrescriptionData, cart: seq<CartProduct>)
    ensures Covers(p, PrescriptionItems(cart)) <==> CoversCart(p, cart)
  {
    if Covers(p, PrescriptionItems(cart)) {
      CoveredItemInCart(p, cart);
    }
    if CoversCart(p, cart) {
      CoveredLineIsItem(p, cart);
    }
  }

  lemma CoveredItemInCart(p: PrescriptionData, cart: seq<CartProduct>)
    requires Covers(p, PrescriptionItems(cart))
    ensures CoversCart(p, cart)
  {
    var items := PrescriptionItems(cart);
    var i :| 0 <= i < |items| && items[i].product.id in p.productIds;
    assert items[i] in items;
    var j :| 0 <= j < |cart| && cart[j] == items[i];
  }

  lemma CoveredLineIsItem(p: PrescriptionData, cart: seq<CartProduct>)
    requires CoversCart(p, cart)
    ensures Covers(p, PrescriptionItems(cart))
  {
    var items := PrescriptionItems(cart);
    var j :| 0 <= j < |cart| && RequiresPrescription(cart[j].product) && cart[j].product.id in p.productIds;
    assert cart[j] in items;
    var i :| 0 <= i < |items| && items[i] == cart[j];
  }

  /** The prescriptions covering `items`, in order. */
  function Covering(ps: seq<PrescriptionData>, items: seq<CartProduct>): (r: seq<PrescriptionData>)
    ensures |r| <= |ps|
    ensures forall q :: q in r <==> q in ps && Covers(q, items)
  {
    if ps == [] then []
    else (if Covers(ps[0], items) then [ps[0]] else []) + Covering(ps[1..], items)
  }

  /** `maxByOrNull { it.timestamp }`: the first prescription with the
      largest timestamp, none for an empty list. */
  function MaxByTimestamp(ps: seq<PrescriptionData>): (r: Option<PrescriptionData>)
    ensures r.None? <==> ps == []
    ensures r.Some? ==> forall j :: 0 <= j < |ps| ==> ps[j].timestamp <= r.value.timestamp
    ensures r.Some? ==> exists i :: 0 <= i < |ps| && ps[i] == r.value
                                  && forall j :: 0 <= j < i ==> ps[j].timestamp < r.value.timestamp
  {
    if ps == [] then None
    else
      match MaxByTimestamp(ps[1..])
      case None => Some(ps[0])
      case Some(m) =>
        if m.timestamp > ps[0].timestamp then
          assert exists i :: 0 <= i < |ps| && ps[i] == m && forall j :: 0 <= j < i ==> ps[j].timestamp < m.timestamp by {
            var i :| 0 <= i < |ps[1..]| && ps[1..][i] == m
                     && forall j :: 0 <= j < i ==> ps[1..][j].timestamp < m.timestamp;
            assert ps[i + 1] == m;
            forall j | 0 <= j < i + 1 ensures ps[j].timestamp < m.timestamp {
              if j > 0 { assert ps[j] == ps[1..][j - 1]; }
            }
          }
          assert forall j :: 0 <= j < |ps| ==> ps[j].timestamp <= m.timestamp by {
            forall j | 0 <= j < |ps| ensures ps[j].timestamp <= m.timestamp {
              if j > 0 { assert ps[j] == ps[1..][j - 1]; }
            }
          }
          Some(m)
        else
          assert forall j :: 0 <= j < |ps| ==> ps[j].timestamp <= ps[0].timestamp by {
            forall j | 0 <= j < |ps| ensures ps[j].timestamp <= ps[0].timestamp {
              if j > 0 { assert ps[j] == ps[1..][j - 1]; }
            }
          }
          Some(ps[0])
  }

  /** `getRelevantPrescription`: among the prescriptions covering a cart
      line that needs one, the first with the latest timestamp. */
  function RelevantPrescription(ps: seq<PrescriptionData>, cart: seq<CartProduct>): (r: Option<PrescriptionData>)
    ensures r.None? <==> forall q :: q in ps ==> !CoversCart(q, cart)
    ensures r.Some? ==> r.value in ps && CoversCart(r.value, cart)
    ensures r.Some? ==> forall q :: q in ps && CoversCart(q, cart) ==> q.timestamp <= r.value.timestamp
  {
    var items := PrescriptionItems(cart);
    var cands := Covering(ps, items);
    assert forall q :: Covers(q, items) <==> CoversCart(q, cart) by {
      forall q ensures Covers(q, items) <==> CoversCart(q, cart) { CoversItemsOfCart(q, cart); }
    }
    assert cands != [] ==> cands[0] in cands;
    MaxByTimestamp(cands)
  }

  /** The prescriptions not yet used by an order, in order. */
  function Unused(ps: seq<PrescriptionData>): (r: seq<PrescriptionData>)
    ensures forall q :: q in r <==> q in ps && q.usedInOrder.None?
  {
    if ps == [] then []
    else (if ps[0].usedInOrder.None? then [ps[0]] else []) + Unused(ps[1..])
  }

  /** The unused prescriptions that cover one of the given lines, in order. */
  function UnusedCovering(ps: seq<PrescriptionData>, items: seq<CartProduct>): (r: seq<PrescriptionData>)
    ensures forall q :: q in r <==> q in ps && q.usedInOrder.None? && Covers(q, items)
  {
    if ps == [] then []
    else (if ps[0].usedInOrder.None? && Covers(ps[0], items) then [ps[0]] else [])
         + UnusedCovering(ps[1..], items)
  }

  /** `getLatestRelevantPrescription`: the latest unused prescription that
      covers one of the given lines. */
  function LatestRelevantPrescription(ps: seq<PrescriptionData>, items: seq<CartProduct>): (r: Option<PrescriptionData>)
    ensures r.None? <==> forall q :: q in ps && q.usedInOrder.None? ==> !Covers(q, items)
    ensures r.Some? ==> r.value in ps && r.value.usedInOrder.None? && Covers(r.value, items)
                        && forall q :: q in ps && q.usedInOrder.None? && Covers(q, items) ==> q.timestamp <= r.value.timestamp
  {
    var cands := UnusedCovering(ps, items);
    assert cands != [] ==> cands[0] in cands;
    MaxByTimestamp(cands)
  }

  lemma {:induction false} UnusedCoveringIsCoveringOfUnused(ps: seq<PrescriptionData>, items: seq<CartProduct>)
    ensures UnusedCovering(ps, items) == Covering(Unused(ps), items)
  {
    if ps != [] {
      UnusedCoveringIsCoveringOfUnused(ps[1..], items);
      var u := Unused(ps);
      if ps[0].usedInOrder.None? {
        assert u == [ps[0]] + Unused(ps[1..]);
        assert u[1..] == Unused(ps[1..]);
      } else {
        assert u == Unused(ps[1..]);
      }
    }
  }

  /** The latest relevant prescription is the relevant-prescription choice
      made among the unused prescriptions only. */
  lemma LatestIsRelevantAmongUnused(ps: seq<PrescriptionData>, cart: seq<CartProduct>)
    ensures LatestRelevantPrescription(ps, PrescriptionItems(cart)) == RelevantPrescription(Unused(ps), cart)
  {
    UnusedCoveringIsCoveringOfUnused(ps, PrescriptionItems(cart));
  }

  /** `TimeUnit.MILLISECONDS.toDays`: division that truncates toward zero. */
  function TruncDiv(a: int, b: int): (q: int)
    requires b > 0
    ensures a >= 0 ==> q * b <= a < q * b + b
    ensures a < 0 ==> q <= 0
  {
    if a >= 0 then a / b else -((-a) / b)
  }

  /** `isPrescriptionExpired`: more than seven whole days have passed. */
  function IsExpired(p: PrescriptionData, now: int): (b: bool)
    ensures b ==> now > p.timestamp
  {
    TruncDiv(now - p.timestamp, MillisPerDay) > PrescriptionExpiryDays
  }

  /** Expiry needs a full eighth day: exactly seven days old is still valid. */
  lemma ExpiredIff(p: PrescriptionData, now: int)
    ensures IsExpired(p, now) <==> now - p.timestamp >= 8 * MillisPerDay
  {
    var d := now - p.timestamp;
    var q := TruncDiv(d, MillisPerDay);
    if d >= 0 {
      if d >= 8 * MillisPerDay {
        assert q * MillisPerDay > 7 * MillisPerDay;
      } else {
        assert q * MillisPerDay < 8 * MillisPerDay;
      }
    }
  }

  /** `updatePrescriptionState`'s choice; statuses are compared exactly. */
  function StateFor(p: Option<PrescriptionData>, now: int): (r: PrescriptionState)
    ensures p.None? ==> r == NewUploadRequired
    ensures (p.Some? && p.value.status != StatusPending && p.value.status != StatusApproved
             && p.value.status != StatusRejected && p.value.status != StatusCancelled) ==> r == NewUploadRequired
  {
    match p
    case None => NewUploadRequired
    case Some(q) =>
      if q.status == StatusPending then
        (if q.usedInOrder.Some? then NewUploadRequired else UploadedPending)
      else if q.status == StatusApproved then
        (if q.usedInOrder.Some? then NewUploadRequired
         else if IsExpired(q, now) then Expired
         else Approved)
      else if q.status == StatusRejected then Rejected
      else if q.status == StatusCancelled then Cancelled
      else NewUploadRequired
  }

  /** `updateBlockedStates`: checkout is open only when approved. */
  predicate CheckoutBlockedFor(s: PrescriptionState) { s != Approved }

  /** `updateBlockedStates`: the cart is frozen only while a prescription
      is under review. */
  predicate ModificationBlockedFor(s: PrescriptionState) { s == UploadedPending }

  /** Checkout opens exactly for an unused, approved prescription that has
      not expired. */
  lemma CheckoutOpenIff(p: Option<PrescriptionData>, now: int)
    ensures !CheckoutBlockedFor(StateFor(p, now)) <==>
              p.Some? && p.value.status == StatusApproved && p.value.usedInOrder.None? && !IsExpired(p.value, now)
  {
  }

  /** The cart is frozen exactly for an unused prescription under review,
      and a frozen cart cannot be checked out. */
  lemma FrozenIff(p: Option<PrescriptionData>, now: int)
    ensures ModificationBlockedFor(StateFor(p, now)) <==>
              p.Some? && p.value.status == StatusPending && p.value.usedInOrder.None?
    ensures ModificationBlockedFor(StateFor(p, now)) ==> CheckoutBlockedFor(StateFor(p, now))
  {
  }

  /** The rejected, cancelled and expired states each name exactly the
      prescription status they come from. */
  lemma StateReflectsStatus(p: Option<PrescriptionData>, now: int)
    ensures StateFor(p, now) == Rejected <==> p.Some? && p.value.status == StatusRejected
    ensures StateFor(p, now) == Cancelled <==> p.Some? && p.value.status == StatusCancelled
    ensures StateFor(p, now) == Expired <==>
              p.Some? && p.value.status == StatusApproved && p.value.usedInOrder.None? && IsExpired(p.value, now)
  {
  }

  /** A used prescription, whatever its status, never yields APPROVED or
      UPLOADED_PENDING; other statuses (e.g. "used") ask for a new upload. */
  lemma UsedNeverOpens(q: PrescriptionData, now: int)
    requires q.usedInOrder.Some?
    ensures StateFor(Some(q), now) in {NewUploadRequired, Rejected, Cancelled}
  {
  }

  const ApprovedStatusLine := "✅ Prescription approved"
  const FrozenInstruction := "⏳ Prescription under review. Cannot modify cart until approved."

  /** The status line shown for each state. */
  function StatusMessage(s: PrescriptionState): (r: string)
    ensures r == ApprovedStatusLine <==> !CheckoutBlockedFor(s)
  {
    match s
    case NewUploadRequired => "New prescription required - Previous prescription cannot be reused"
    case UploadedPending => "⏳ Prescription uploaded - pending review"
    case Approved => ApprovedStatusLine
    case Rejected => "❌ Prescription rejected"
    case Expired => "⏰ Prescription expired"
    case Cancelled => "New prescription required - Previous prescription cannot be reused"
  }

  /** The instruction line shown for each state. */
  function InstructionMessage(s: PrescriptionState): (r: string)
    ensures r == FrozenInstruction <==> ModificationBlockedFor(s)
    ensures s == Expired ==> r == "Prescriptions are valid for " + NatToString(PrescriptionExpiryDays) + " days"
  {
    match s
    case NewUploadRequired => "Each order requires current, approved prescription"
    case Cancelled => "Each order requires current, approved prescription"
    case UploadedPending => FrozenInstruction
    case Rejected => "Upload a new prescription to continue"
    case Expired => "Prescriptions are valid for 7 days"
    case Approved => "Valid prescription attached"
  }

  /** A cancelled prescription's status line is that of a missing one, and
      every other state has a status line of its own. */
  lemma CancelledStatusReadsAsNew(s: PrescriptionState)
    ensures StatusMessage(s) == StatusMessage(NewUploadRequired) <==> s == NewUploadRequired || s == Cancelled
  {
    if s != NewUploadRequired && s != Cancelled {
      assert |StatusMessage(s)| < |StatusMessage(NewUploadRequired)|;
    }
  }

  /** Likewise for the instruction line. */
  lemma CancelledInstructionReadsAsNew(s: PrescriptionState)
    ensures InstructionMessage(s) == InstructionMessage(NewUploadRequired) <==> s == NewUploadRequired || s == Cancelled
  {
    if s != NewUploadRequired && s != Cancelled {
      assert |InstructionMessage(s)| != |InstructionMessage(NewUploadRequired)|;
    }
  }

  /** A rejected or cancelled prescription document older than a day, owned
      by the user, is purged. Stored timestamps are compared as numbers. */
  predicate ShouldPurge(d: Doc, userId: string, now: int)
  {
    var cutoff := now - PrescriptionPurgeHours * MillisPerHour;
    "userId" in d.data && d.data["userId"] == VStr(userId)
    && "status" in d.data && d.data["status"] in {VStr(StatusRejected), VStr(StatusCancelled)}
    && "timestamp" in d.data
    && ((d.data["timestamp"].VLong? && d.data["timestamp"].n < cutoff)
        || (d.data["timestamp"].VDouble? && d.data["timestamp"].d < cutoff as real))
  }

  /** A document the cancellation query matches: the user's, "pending", and
      with a stored null `usedInOrder`. */
  predicate IsCancellable(d: Doc, userId: string)
  {
    "userId" in d.data && d.data["userId"] == VStr(userId)
    && "status" in d.data && d.data["status"] == VStr(StatusPending)
    && "usedInOrder" in d.data && d.data["usedInOrder"] == VNull
  }

  /** The document after the cancellation batch. */
  function CancelIfPending(d: Doc, userId: string, now: int): (r: Doc)
    ensures r.id == d.id
    ensures IsCancellable(d, userId) ==>
              r.data == d.data["status" := VStr(StatusCancelled)]["cancelledAt" := VLong(now)]
    ensures !IsCancellable(d, userId) ==> r == d
  {
    if IsCancellable(d, userId) then
      Doc(d.id, d.data["status" := VStr(StatusCancelled)]["cancelledAt" := VLong(now)])
    else d
  }

  /** The documents that survive the purge, in order. */
  function KeepAfterPurge(docs: seq<Doc>, userId: string, now: int): (r: seq<Doc>)
    ensures forall d :: d in r <==> d in docs && !ShouldPurge(d, userId, now)
    ensures |r| <= |docs|
  {
    if docs == [] then []
    else (if ShouldPurge(docs[0], userId, now) then [] else [docs[0]])
         + KeepAfterPurge(docs[1..], userId, now)
  }

  datatype QuantityChanging = Increase | Decrease

  /** What `changeQuantity` asks of the store or of the screen. */
  datatype QuantityEffect =
    | NoEffect
    | IncreaseDocument(documentId: string)
    | DecreaseDocument(documentId: string)
    | ShowDeleteDialog(line: CartProduct)

  function PositionOf<T(==)>(xs: seq<T>, x: T): (r: Option<nat>)
    ensures r.None? <==> x !in xs
    ensures r.Some? ==> r.value < |xs| && xs[r.value] == x && x !in xs[..r.value]
  {
    if xs == [] then None
    else if xs[0] == x then Some(0)
    else match PositionOf(xs[1..], x)
      case None => None
      case Some(i) =>
        assert xs[1..][..i] == xs[1..i + 1];
        assert xs[..i + 1] == [xs[0]] + xs[1..i + 1];
        Some(i + 1)
  }

  class CartViewModel {
    var cartProducts: Resource<seq<CartProduct>>
    /** The ids of the cart documents, parallel to the last loaded lines. */
    var cartDocumentIds: seq<string>
    var prescriptions: Resource<seq<PrescriptionData>>
    var prescriptionState: PrescriptionState
    var checkoutBlocked: bool
    var cartModificationBlocked: bool

    /** The flags never contradict an APPROVED or UPLOADED_PENDING state, and
        the document ids line up with the loaded lines. */
    predicate Valid()
      reads this
    {
      (prescriptionState == Approved ==> !checkoutBlocked && !cartModificationBlocked)
      && (prescriptionState == UploadedPending ==> checkoutBlocked && cartModificationBlocked)
      && (cartProducts.Success? ==> |cartDocumentIds| == |cartProducts.data|)
    }

    constructor()
      ensures Valid()
      ensures cartProducts == Unspecified && prescriptions == Unspecified
      ensures prescriptionState == NewUploadRequired && !checkoutBlocked && !cartModificationBlocked
    {
      cartProducts := Unspecified;
      cartDocumentIds := [];
      prescriptions := Unspecified;
      prescriptionState := NewUploadRequired;
      checkoutBlocked := false;
      cartModificationBlocked := false;
    }

    /** The prescriptions currently held, or none unless loaded. */
    function CurrentPrescriptions(): seq<PrescriptionData>
      reads this
    {
      if prescriptions.Success? then prescriptions.data else []
    }

    /** `updateBlockedStates`. */
    method UpdateBlockedStates(s: PrescriptionState)
      modifies this
      ensures checkoutBlocked == CheckoutBlockedFor(s)
      ensures cartModificationBlocked == ModificationBlockedFor(s)
      ensures prescriptionState == old(prescriptionState)
      ensures cartProducts == old(cartProducts) && prescriptions == old(prescriptions)
      ensures cartDocumentIds == old(cartDocumentIds)
    {
      checkoutBlocked := s != Approved;
      cartModificationBlocked := s == UploadedPending;
    }

    /** `updatePrescriptionState`: the state follows the given prescription
        and the flags follow the state. */
    method UpdatePrescriptionState(p: Option<PrescriptionData>, now: int)
      requires cartProducts.Success? ==> |cartDocumentIds| == |cartProducts.data|
      modifies this
      ensures Valid()
      ensures prescriptionState == StateFor(p, now)
      ensures checkoutBlocked == CheckoutBlockedFor(prescriptionState)
      ensures cartModificationBlocked == ModificationBlockedFor(prescriptionState)
      ensures cartProducts == old(cartProducts) && prescriptions == old(prescriptions)
      ensures cartDocumentIds == old(cartDocumentIds)
    {
      prescriptionState := StateFor(p, now);
      UpdateBlockedStates(prescriptionState);
    }

    /** `updatePrescriptionStateForCart`: a cart without prescription
        items unlocks everything; otherwise the relevant prescription among
        those held decides. */
    method UpdatePrescriptionStateForCart(cart: seq<CartProduct>, now: int)
      requires cartProducts.Success? ==> |cartDocumentIds| == |cartProducts.data|
      modifies this
      ensures Valid()
      ensures !HasPrescriptionItems(cart) ==>
                prescriptionState == NewUploadRequired && !checkoutBlocked && !cartModificationBlocked
      ensures HasPrescriptionItems(cart) ==>
                prescriptionState == StateFor(RelevantPrescription(old(CurrentPrescriptions()), cart), now)
                && checkoutBlocked == CheckoutBlockedFor(prescriptionState)
                && cartModificationBlocked == ModificationBlockedFor(prescriptionState)
      ensures cartProducts == old(cartProducts) && prescriptions == old(prescriptions)
      ensures cartDocumentIds == old(cartDocumentIds)
    {
      if !HasPrescriptionItems(cart) {
        prescriptionState := NewUploadRequired;
        checkoutBlocked := false;
        cartModificationBlocked := false;
        return;
      }
      var relevant := RelevantPrescription(CurrentPrescriptions(), cart);
      UpdatePrescriptionState(relevant, now);
    }

    /** The cart listener fires (`getCartProducts`). `listen` is how it
        ended: an error, or a missing snapshot (`Throws(None)`), publishes
        its message, "null" when there is none, and the state observer,
        which reacts only to a success, leaves everything else alone. A
        snapshot publishes the lines with their document ids and the gate
        is re-evaluated for them. */
    method OnCartSnapshot(listen: Call, documentIds: seq<string>, lines: seq<CartProduct>, now: int)
      requires Valid()
      requires |documentIds| == |lines|
      modifies this
      ensures Valid()
      ensures listen.Throws? ==>
                cartProducts == Error(listen.MessageOr("null"))
                && cartDocumentIds == old(cartDocumentIds) && prescriptions == old(prescriptions)
                && prescriptionState == old(prescriptionState)
                && checkoutBlocked == old(checkoutBlocked)
                && cartModificationBlocked == old(cartModificationBlocked)
      ensures listen.Succeeds? ==> cartProducts == Success(lines) && cartDocumentIds == documentIds
      ensures prescriptions == old(prescriptions)
      ensures listen.Succeeds? && HasPrescriptionItems(lines) ==>
                prescriptionState == StateFor(RelevantPrescription(CurrentPrescriptions(), lines), now)
                && checkoutBlocked == CheckoutBlockedFor(prescriptionState)
                && cartModificationBlocked == ModificationBlockedFor(prescriptionState)
      ensures listen.Succeeds? && !HasPrescriptionItems(lines) ==>
                prescriptionState == NewUploadRequired && !checkoutBlocked && !cartModificationBlocked
    {
      if listen.Throws? {
        cartProducts := Error(listen.MessageOr("null"));
        return;
      }
      cartDocumentIds := documentIds;
      cartProducts := Success(lines);
      UpdatePrescriptionStateForCart(lines, now);
    }

    /** `requiresNewPrescription`. */
    function RequiresNewPrescription(cart: seq<CartProduct>): (r: bool)
      reads this
      ensures !HasPrescriptionItems(cart) ==> !r
      ensures HasPrescriptionItems(cart) ==>
                (r <==> prescriptionState !in {UploadedPending, Approved})
    {
      if !HasPrescriptionItems(cart) then false
      else match prescriptionState
        case NewUploadRequired | Rejected | Expired | Cancelled => true
        case UploadedPending | Approved => false
    }

    /** `hasPendingPrescription`: some held prescription is pending and
        unused. */
    function HasPendingPrescription(): (r: bool)
      reads this
      ensures r <==> exists q :: q in Unused(CurrentPrescriptions()) && q.status == StatusPending
    {
      exists i :: 0 <= i < |CurrentPrescriptions()| && CurrentPrescriptions()[i].status == StatusPending
                  && CurrentPrescriptions()[i].usedInOrder.None?
    }

    /** `hasPendingPrescriptionForProducts`: some held prescription is
        pending and names one of the products (used or not). */
    function HasPendingPrescriptionForProducts(productIds: seq<string>): (r: bool)
      reads this
      ensures productIds == [] ==> !r
      ensures r <==> exists q :: q in CurrentPrescriptions() && q.status == StatusPending
                                 && exists id :: id in q.productIds && id in productIds
    {
      exists i :: 0 <= i < |CurrentPrescriptions()| && CurrentPrescriptions()[i].status == StatusPending
                  && exists id :: id in CurrentPrescriptions()[i].productIds && id in productIds
    }

    /** `changeQuantity`: nothing happens while the cart is frozen or when
        the line is not among the loaded ones; decreasing a single unit asks
        for the delete dialog instead; otherwise the list turns to loading
        and the line's document is changed. */
    method ChangeQuantity(line: CartProduct, change: QuantityChanging) returns (effect: QuantityEffect)
      requires Valid()
      modifies this
      ensures Valid()
      ensures prescriptionState == old(prescriptionState) && prescriptions == old(prescriptions)
      ensures checkoutBlocked == old(checkoutBlocked) && cartModificationBlocked == old(cartModificationBlocked)
      ensures cartDocumentIds == old(cartDocumentIds)
      ensures old(cartModificationBlocked) ==> effect == NoEffect && cartProducts == old(cartProducts)
      ensures !old(cartProducts).Success? || line !in old(cartProducts).data ==>
                effect == NoEffect && cartProducts == old(cartProducts)
      ensures effect.ShowDeleteDialog? ==> effect.line == line && line.quantity == 1 && change == Decrease
                                           && cartProducts == old(cartProducts)
      ensures (effect.IncreaseDocument? || effect.DecreaseDocument?) ==>
                cartProducts == Loading && old(cartProducts).Success?
                && effect.documentId == old(cartDocumentIds)[PositionOf(old(cartProducts).data, line).value]
      ensures effect.IncreaseDocument? <==>
                (!old(cartModificationBlocked) && old(cartProducts).Success?
                 && line in old(cartProducts).data && change == Increase)
      ensures effect.DecreaseDocument? <==>
                (!old(cartModificationBlocked) && old(cartProducts).Success?
                 && line in old(cartProducts).data && change == Decrease && line.quantity != 1)
    {
      if cartModificationBlocked {
        return NoEffect;
      }
      if !cartProducts.Success? {
        return NoEffect;
      }
      var index := PositionOf(cartProducts.data, line);
      if index.None? {
        return NoEffect;
      }
      var documentId := cartDocumentIds[index.value];
      match change
      case Increase =>
        cartProducts := Loading;
        effect := IncreaseDocument(documentId);
      case Decrease =>
        if line.quantity == 1 {
          return ShowDeleteDialog(line);
        }
        cartProducts := Loading;
        effect := DecreaseDocument(documentId);
    }

    /** `deleteCartProduct`: the document to delete, when the line is among
        the loaded ones (and the list turns to loading). */
    method DeleteCartProduct(line: CartProduct) returns (documentId: Option<string>)
      requires Valid()
      modifies this
      ensures Valid()
      ensures documentId.Some? <==> old(cartProducts).Success? && line in old(cartProducts).data
      ensures documentId.Some? ==> cartProducts == Loading
                                   && documentId.value == old(cartDocumentIds)[PositionOf(old(cartProducts).data, line).value]
      ensures documentId.None? ==> cartProducts == old(cartProducts)
      ensures cartDocumentIds == old(cartDocumentIds)
      ensures prescriptionState == old(prescriptionState) && prescriptions == old(prescriptions)
      ensures checkoutBlocked == old(checkoutBlocked) && cartModificationBlocked == old(cartModificationBlocked)
    {
      documentId := None;
      if cartProducts.Success? {
        var index := PositionOf(cartProducts.data, line);
        if index.Some? {
          documentId := Some(cartDocumentIds[index.value]);
          cartProducts := Loading;
        }
      }
    }

    /** `clearCart`; `failure` is the store's error message, if any. On
        success the cart is empty and everything unlocks. */
    method ClearCart(failure: Option<string>)
      requires Valid()
      modifies this
      ensures Valid()
      ensures failure.None? ==> cartProducts == Success([]) && prescriptionState == NewUploadRequired
                                && !checkoutBlocked && !cartModificationBlocked
      ensures failure.Some? ==> cartProducts == Error(failure.value)
                                && prescriptionState == old(prescriptionState)
                                && checkoutBlocked == old(checkoutBlocked)
                                && cartModificationBlocked == old(cartModificationBlocked)
      ensures prescriptions == old(prescriptions)
    {
      cartProducts := Loading;
      if failure.None? {
        cartProducts := Success([]);
        cartDocumentIds := [];
        prescriptionState := NewUploadRequired;
        checkoutBlocked := false;
        cartModificationBlocked := false;
      } else {
        cartProducts := Error(failure.value);
      }
    }

    /** `loadPrescriptions`: the signed-in user's unused prescriptions from
        `store` (in store order); `read` is the query's outcome. Nobody
        signed in, or a failed query, publishes an error. */
    method LoadPrescriptions(userId: Option<string>, store: seq<PrescriptionData>, read: Call)
      modifies this
      ensures userId.None? ==> prescriptions == Error(NotAuthenticated)
      ensures userId.Some? && read.Throws? ==> prescriptions == Error(read.MessageOr(LoadPrescriptionsFailed))
      ensures userId.Some? && read.Succeeds? ==> prescriptions.Success?
      ensures userId.Some? && read.Succeeds? ==> forall q :: q in prescriptions.data <==>
                                 q in store && q.userId == userId.value && q.usedInOrder.None?
      ensures cartProducts == old(cartProducts) && cartDocumentIds == old(cartDocumentIds)
      ensures prescriptionState == old(prescriptionState)
      ensures checkoutBlocked == old(checkoutBlocked) && cartModificationBlocked == old(cartModificationBlocked)
    {
      prescriptions := Loading;
      if userId.None? {
        prescriptions := Error(NotAuthenticated);
        return;
      }
      if read.Throws? {
        prescriptions := Error(read.MessageOr(LoadPrescriptionsFailed));
        return;
      }
      var loaded: seq<PrescriptionData> := [];
      var i := 0;
      while i < |store|
        invariant 0 <= i <= |store|
        invariant forall q :: q in loaded <==> q in store[..i] && q.userId == userId.value && q.usedInOrder.None?
      {
        if store[i].userId == userId.value && store[i].usedInOrder.None? {
          loaded := loaded + [store[i]];
        }
        i := i + 1;
        assert store[..i] == store[..i - 1] + [store[i - 1]];
      }
      assert store[..i] == store;
      prescriptions := Success(loaded);
    }

    /** `cancelPendingPrescription`: every matching document is marked
        cancelled at `now` in one batch; then the gate is reset to a fresh
        upload, the prescriptions are reloaded and the cancellation is
        announced. `query` and `commit` are the store's answers and
        `reload` the outcome of the reload's query over `store`; a failed
        query or commit is only logged and changes nothing. */
    method CancelPendingPrescription(userId: Option<string>, docs: seq<Doc>, now: int,
                                     query: Call, commit: Call, store: seq<PrescriptionData>, reload: Call)
      returns (updated: seq<Doc>, announced: bool)
      requires Valid()
      modifies this
      ensures Valid()
      ensures announced <==> userId.Some? && query.Succeeds? && commit.Succeeds?
      ensures |updated| == |docs|
      ensures forall i :: 0 <= i < |docs| ==>
                updated[i] == (if announced then CancelIfPending(docs[i], userId.value, now) else docs[i])
      ensures announced ==> prescriptionState == NewUploadRequired && checkoutBlocked && !cartModificationBlocked
      ensures announced && reload.Throws? ==> prescriptions == Error(reload.MessageOr(LoadPrescriptionsFailed))
      ensures announced && reload.Succeeds? ==>
                prescriptions.Success?
                && forall q :: q in prescriptions.data <==> q in store && q.userId == userId.value && q.usedInOrder.None?
      ensures !announced ==>
                prescriptionState == old(prescriptionState) && checkoutBlocked == old(checkoutBlocked)
                && cartModificationBlocked == old(cartModificationBlocked) && prescriptions == old(prescriptions)
      ensures cartProducts == old(cartProducts) && cartDocumentIds == old(cartDocumentIds)
    {
      announced := false;
      if userId.None? || query.Throws? || commit.Throws? {
        return docs, false;
      }
      updated := [];
      var i := 0;
      while i < |docs|
        invariant 0 <= i <= |docs|
        invariant |updated| == i
        invariant forall j :: 0 <= j < i ==> updated[j] == CancelIfPending(docs[j], userId.value, now)
      {
        updated := updated + [CancelIfPending(docs[i], userId.value, now)];
        i := i + 1;
      }
      prescriptionState := NewUploadRequired;
      checkoutBlocked := true;
      cartModificationBlocked := false;
      LoadPrescriptions(userId, store, reload);
      announced := true;
    }

    /** `purgeOldPrescriptions`: the user's old rejected and cancelled
        documents are deleted in one batch; `query` and `commit` are the
        store's answers. Nothing happens without a signed-in user, and a
        failed query or commit is only logged and deletes nothing. */
    method PurgeOldPrescriptions(userId: Option<string>, docs: seq<Doc>, now: int, query: Call, commit: Call)
      returns (kept: seq<Doc>)
      ensures userId.None? || query.Throws? || commit.Throws? ==> kept == docs
      ensures userId.Some? && query.Succeeds? && commit.Succeeds? ==> kept == KeepAfterPurge(docs, userId.value, now)
    {
      if userId.None? || query.Throws? || commit.Throws? {
        return docs;
      }
      kept := [];
      var i := 0;
      while i < |docs|
        invariant 0 <= i <= |docs|
        invariant kept == KeepAfterPurge(docs[..i], userId.value, now)
      {
        assert docs[..i + 1] == docs[..i] + [docs[i]];
        KeepAfterPurgeAppend(docs[..i], docs[i], userId.value, now);
        if !ShouldPurge(docs[i], userId.value, now) {
          kept := kept + [docs[i]];
        }
        i := i + 1;
      }
      assert docs[..i] == docs;
    }
  }

  lemma {:induction false} KeepAfterPurgeAppend(docs: seq<Doc>, d: Doc, userId: string, now: int)
    ensures KeepAfterPurge(docs + [d], userId, now)
         == KeepAfterPurge(docs, userId, now) + (if ShouldPurge(d, userId, now) then [] else [d])
  {
    if docs == [] {
      assert docs + [d] == [d];
    } else {
      assert (docs + [d])[1..] == docs[1..] + [d];
      KeepAfterPurgeAppend(docs[1..], d, userId, now);
    }
  }

  /** After the cancellation no document the query matched is still
      pending, and every other document is untouched. */
  lemma CancellationLeavesNoPending(docs: seq<Doc>, userId: string, now: int)
    ensures forall i :: 0 <= i < |docs| ==> !IsCancellable(CancelIfPending(docs[i], userId, now), userId)
    ensures forall i :: 0 <= i < |docs| && !IsCancellable(docs[i], userId) ==>
              CancelIfPending(docs[i], userId, now) == docs[i]
  {
    forall i | 0 <= i < |docs|
      ensures !IsCancellable(CancelIfPending(docs[i], userId, now), userId)
    {
      if IsCancellable(docs[i], userId) {
        var r := CancelIfPending(docs[i], userId, now);
        assert r.data["status"] == VStr(StatusCancelled);
      }
    }
  }
}
