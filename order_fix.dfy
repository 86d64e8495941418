/**
 * The repair utility for an order whose prescription list and the
 * prescriptions linked to it (`usedInOrder`) disagree: the diagnosis, the
 * two repairs, and the direct linking of prescriptions to an order.
 */
module OrderFix {
  import opened Text
  import opened Firestore
  import opened Prescriptions

  /** The collections the utility reads and writes, as raw documents. The
      prescriptions collection is listed in the order the store returns it. */
  datatype FixStore = FixStore(
    orders: map<string, Fields>,                // "orders", by order id
    userOrders: map<(string, string), Fields>,  // user/{userId}/orders/{orderId}
    prescriptions: seq<Doc>)                    // "prescriptions"

  const OrderNotFound := "Order not found"
  /** The text stored for an exception without a message. */
  const UnknownError := "Unknown error"

  /** How each remote call of `fixOrderPrescriptions` ends, in the order
      they are made: the diagnosis's order read and prescription query, the
      first repair's order re-read and batch commit, the second repair's
      document reads (`Throws` when one of them throws) and its two
      transactions, on the order and on the user's copy. */
  datatype FixCalls = FixCalls(
    orderRead: Call, query: Call,
    reread: Call, commit: Call,
    documentReads: Call, orderTransaction: Call, userTransaction: Call)

  // ---------------------------------------------------------------------
  // Reading

  /** `get("prescriptions") as? List<Map<String, Any>> ?: emptyList()`; the
      cast does not look at the elements. */
  function Entries(order: Fields): (r: seq<Value>)
    ensures "prescriptions" in order && order["prescriptions"].VList? ==> r == order["prescriptions"].items
    ensures !("prescriptions" in order && order["prescriptions"].VList?) ==> r == []
  {
    if "prescriptions" in order && order["prescriptions"].VList? then order["prescriptions"].items else []
  }

  /** The order with its list replaced (`update(ref, "prescriptions", list)`). */
  function WithEntries(order: Fields, entries: seq<Value>): (r: Fields)
    ensures Entries(r) == entries
    ensures r.Keys == order.Keys + {"prescriptions"}
  {
    order["prescriptions" := VList(entries)]
  }

  /** Every entry is a map; reading an entry that is not one throws. */
  predicate AllMaps(entries: seq<Value>)
  {
    forall i :: 0 <= i < |entries| ==> entries[i].VMap?
  }

  /** The entry names `x` as its id. */
  predicate HasId(entry: Value, x: string)
  {
    entry.VMap? && "id" in entry.fields && entry.fields["id"] == VStr(x)
  }

  /** `mapNotNull { it["id"] as? String }`. */
  function EntryIds(entries: seq<Value>): (r: seq<string>)
    ensures forall x :: x in r <==> exists i :: 0 <= i < |entries| && HasId(entries[i], x)
  {
    if entries == [] then []
    else
      var e := entries[0];
      var rest := EntryIds(entries[1..]);
      assert forall i :: 1 <= i < |entries| ==> entries[i] == entries[1..][i - 1];
      assert forall x :: (exists i :: 1 <= i < |entries| && HasId(entries[i], x)) ==> x in rest by {
        forall x | exists i :: 1 <= i < |entries| && HasId(entries[i], x)
          ensures x in rest
        {
          var i :| 1 <= i < |entries| && HasId(entries[i], x);
          assert HasId(entries[1..][i - 1], x);
        }
      }
      if e.VMap? && GetString(e.fields, "id").Some? then [GetString(e.fields, "id").value] + rest
      else rest
  }

  /** `find { it["id"] == id }`: the first entry naming `id`. */
  function FindEntry(entries: seq<Value>, id: string): (r: Option<Fields>)
    ensures r.Some? <==> exists i :: 0 <= i < |entries| && HasId(entries[i], id)
    ensures r.Some? ==> VMap(r.value) in entries && HasId(VMap(r.value), id)
  {
    if entries == [] then None
    else if HasId(entries[0], id) then Some(entries[0].fields)
    else
      var r := FindEntry(entries[1..], id);
      assert forall i :: 1 <= i < |entries| ==> entries[i] == entries[1..][i - 1];
      r
  }

  /** What the query `usedInOrder == orderId` matches. */
  predicate Linked(d: Doc, orderId: string)
  {
    "usedInOrder" in d.data && d.data["usedInOrder"] == VStr(orderId)
  }

  /** The ids of the documents linked to the order, in listing order. */
  function LinkedIds(docs: seq<Doc>, orderId: string): (r: seq<string>)
    ensures |r| <= |docs|
    ensures forall x :: x in r <==> exists i :: 0 <= i < |docs| && docs[i].id == x && Linked(docs[i], orderId)
  {
    if docs == [] then []
    else
      var rest := LinkedIds(docs[1..], orderId);
      assert forall i :: 1 <= i < |docs| ==> docs[i] == docs[1..][i - 1];
      assert forall x :: (exists i :: 1 <= i < |docs| && docs[i].id == x && Linked(docs[i], orderId))
                         ==> x in rest by {
        forall x | exists i :: 1 <= i < |docs| && docs[i].id == x && Linked(docs[i], orderId)
          ensures x in rest
        {
          var i :| 1 <= i < |docs| && docs[i].id == x && Linked(docs[i], orderId);
          assert docs[1..][i - 1] == docs[i];
        }
      }
      if Linked(docs[0], orderId) then [docs[0].id] + rest else rest
  }

  /** A document read by id: its fields, or none when it does not exist. */
  function DocFields(docs: seq<Doc>, id: string): (r: Option<Fields>)
    ensures r.Some? <==> exists i :: 0 <= i < |docs| && docs[i].id == id
    ensures r.Some? ==> Doc(id, r.value) in docs
  {
    if docs == [] then None
    else if docs[0].id == id then Some(docs[0].data)
    else
      var r := DocFields(docs[1..], id);
      assert forall i :: 1 <= i < |docs| ==> docs[i] == docs[1..][i - 1];
      r
  }

  /** `set(ref, fields)`: every document with this id replaced, or the
      document added when there is none. */
  function SetDoc(docs: seq<Doc>, id: string, f: Fields): (r: seq<Doc>)
    ensures forall d :: d in r && d.id != id <==> d in docs && d.id != id
    ensures forall d :: d in r && d.id == id ==> d.data == f
    ensures Doc(id, f) in r
  {
    if exists i :: 0 <= i < |docs| && docs[i].id == id then
      var r := seq(|docs|, i requires 0 <= i < |docs| => if docs[i].id == id then Doc(id, f) else docs[i]);
      var k :| 0 <= k < |docs| && docs[k].id == id;
      assert r[k] == Doc(id, f);
      assert forall d :: d in r && d.id != id <==> d in docs && d.id != id by {
        forall d | d in r && d.id != id
          ensures d in docs
        {
          var j :| 0 <= j < |r| && r[j] == d;
          assert docs[j] == d;
        }
        forall d | d in docs && d.id != id
          ensures d in r
        {
          var j :| 0 <= j < |docs| && docs[j] == d;
          assert r[j] == d;
        }
      }
      r
    else docs + [Doc(id, f)]
  }

  // ---------------------------------------------------------------------
  // Diagnosis

  datatype Diagnostics =
    | NotFound
    | Failed(inOrderCount: nat, inCollectionCount: nat, message: string)
    | Report(inOrderCount: nat, inCollectionCount: nat,
             orderIds: seq<string>, collectionIds: seq<string>,
             missingInCollection: seq<string>, missingInOrder: seq<string>)

  /** `checkOrderPrescriptions`, as a value. `castError` is the text of the
      exception raised when an entry of the order's list is not a map. */
  function Diagnose(orderId: string, store: FixStore, castError: string): (d: Diagnostics)
    ensures d.NotFound? <==> orderId !in store.orders
    ensures d.Failed? <==> orderId in store.orders && !AllMaps(Entries(store.orders[orderId]))
    ensures !d.NotFound? ==> d.inOrderCount == |Entries(store.orders[orderId])|
                             && d.inCollectionCount == |LinkedIds(store.prescriptions, orderId)|
    ensures d.Report? ==> d.orderIds == EntryIds(Entries(store.orders[orderId]))
                          && d.collectionIds == LinkedIds(store.prescriptions, orderId)
    ensures d.Report? ==> forall x :: x in d.missingInCollection <==> x in d.orderIds && x !in d.collectionIds
    ensures d.Report? ==> forall x :: x in d.missingInOrder <==> x in d.collectionIds && x !in d.orderIds
  {
    if orderId !in store.orders then NotFound
    else
      var entries := Entries(store.orders[orderId]);
      var linked := LinkedIds(store.prescriptions, orderId);
      if !AllMaps(entries) then Failed(|entries|, |linked|, castError)
      else
        var orderIds := EntryIds(entries);
        Report(|entries|, |linked|, orderIds, linked,
               Minus(orderIds, set x | x in linked), Minus(linked, set x | x in orderIds))
  }

  /** The result map `checkOrderPrescriptions` returns. */
  function ResultMap(d: Diagnostics): (m: Fields)
    ensures d.NotFound? ==> m.Keys == {"error"}
    ensures d.Failed? ==> m.Keys == {"prescriptionsInOrderCount", "prescriptionsInCollectionCount",
                                     "prescriptionCountsMatch", "error"}
    ensures d.Report? ==> m.Keys == {"prescriptionsInOrderCount", "prescriptionsInCollectionCount",
                                     "prescriptionCountsMatch", "orderPrescriptionIds",
                                     "collectionPrescriptionIds", "missingInCollection", "missingInOrder"}
    ensures "error" in m <==> !d.Report?
    ensures !d.NotFound? ==> m["prescriptionCountsMatch"] == VBool(d.inOrderCount == d.inCollectionCount)
  {
    match d
    case NotFound => map["error" := VStr(OrderNotFound)]
    case Failed(a, b, msg) =>
      map["prescriptionsInOrderCount" := VLong(a), "prescriptionsInCollectionCount" := VLong(b),
          "prescriptionCountsMatch" := VBool(a == b), "error" := VStr(msg)]
    case Report(a, b, oi, ci, mc, mo) =>
      map["prescriptionsInOrderCount" := VLong(a), "prescriptionsInCollectionCount" := VLong(b),
          "prescriptionCountsMatch" := VBool(a == b),
          "orderPrescriptionIds" := StringList(oi), "collectionPrescriptionIds" := StringList(ci),
          "missingInCollection" := StringList(mc), "missingInOrder" := StringList(mo)]
  }

  /** `checkOrderPrescriptions`: the result map filled entry by entry.
      `orderRead` and `query` are how the order read and the prescription
      query end; an exception stores its message, or "Unknown error", under
      "error" next to what was already filled in. */
  method CheckOrderPrescriptions(orderId: string, store: FixStore, castError: string, orderRead: Call, query: Call)
    returns (result: Fields)
    ensures orderRead.Throws? ==> result == map["error" := VStr(orderRead.MessageOr(UnknownError))]
    ensures orderRead.Succeeds? && orderId in store.orders && query.Throws? ==>
              result == map["prescriptionsInOrderCount" := VLong(|Entries(store.orders[orderId])|),
                            "error" := VStr(query.MessageOr(UnknownError))]
    ensures orderRead.Succeeds? && (orderId !in store.orders || query.Succeeds?) ==>
              result == ResultMap(Diagnose(orderId, store, castError))
  {
    result := map[];
    if orderRead.Throws? {
      result := result["error" := VStr(orderRead.MessageOr(UnknownError))];
      return;
    }
    if orderId !in store.orders {
      result := result["error" := VStr(OrderNotFound)];
      return;
    }
    var entries := Entries(store.orders[orderId]);
    result := result["prescriptionsInOrderCount" := VLong(|entries|)];
    if query.Throws? {
      result := result["error" := VStr(query.MessageOr(UnknownError))];
      return;
    }
    var linked := LinkedIds(store.prescriptions, orderId);
    result := result["prescriptionsInCollectionCount" := VLong(|linked|)];
    result := result["prescriptionCountsMatch" := VBool(|entries| == |linked|)];
    if !AllMaps(entries) {
      result := result["error" := VStr(castError)];
      return;
    }
    var orderIds := EntryIds(entries);
    result := result["orderPrescriptionIds" := StringList(orderIds)];
    result := result["collectionPrescriptionIds" := StringList(linked)];
    result := result["missingInCollection" := StringList(Minus(orderIds, set x | x in linked))];
    result := result["missingInOrder" := StringList(Minus(linked, set x | x in orderIds))];
  }

  /** Equal counts do not mean equal ids: here each side has one id the
      other lacks. */
  lemma CountsMatchWithDifferentIds()
    ensures var store := FixStore(map["o" := map["prescriptions" := VList([VMap(map["id" := VStr("a")])])]],
                                  map[], [Doc("b", map["usedInOrder" := VStr("o")])]);
            var d := Diagnose("o", store, "");
            d.Report? && d.inOrderCount == d.inCollectionCount
            && d.missingInCollection == ["a"] && d.missingInOrder == ["b"]
  {
    var entries := [VMap(map["id" := VStr("a")])];
    var docs := [Doc("b", map["usedInOrder" := VStr("o")])];
    assert EntryIds(entries) == ["a"] by {
      assert EntryIds(entries[1..]) == [];
    }
    assert LinkedIds(docs, "o") == ["b"] by {
      assert LinkedIds(docs[1..], "o") == [];
    }
    assert Minus(["a"], {"b"}) == ["a"] by {
      assert Minus(["a"][1..], {"b"}) == [];
    }
    assert Minus(["b"], {"a"}) == ["b"] by {
      assert Minus(["b"][1..], {"a"}) == [];
    }
    assert (set x | x in ["b"]) == {"b"};
    assert (set x | x in ["a"]) == {"a"};
  }

  // ---------------------------------------------------------------------
  // Repair

  /** The document the first repair writes for an id the order lists but no
      prescription links back: user, image and timestamp from the order's
      entry (the signed-in user, "" and the server time when absent). */
  function RecreatedFields(entry: Fields, orderId: string, user: Option<string>, now: int): (f: Fields)
    ensures f.Keys == {"userId", "prescriptionImageUrl", "status", "usedInOrder", "timestamp"}
    ensures f["status"] == VStr(StatusUsed) && f["usedInOrder"] == VStr(orderId)
  {
    map["userId" := VStr(GetString(entry, "userId").OrElse(user.OrElse(""))),
        "prescriptionImageUrl" := VStr(StringOr(entry, "imageUrl", "")),
        "status" := VStr(StatusUsed),
        "usedInOrder" := VStr(orderId),
        "timestamp" := if "timestamp" in entry && entry["timestamp"] != VNull then entry["timestamp"]
                       else VTimestamp(now)]
  }

  /** The first repair's batch over `ids`, one `set` after the other; an id
      without an entry writes nothing. */
  function RecreateAll(docs: seq<Doc>, ids: seq<string>, entries: seq<Value>, orderId: string,
                       user: Option<string>, now: int): seq<Doc>
    decreases |ids|
  {
    if ids == [] then docs
    else
      var m := RecreateAll(docs, ids[..|ids| - 1], entries, orderId, user, now);
      var id := ids[|ids| - 1];
      match FindEntry(entries, id)
      case None => m
      case Some(e) => SetDoc(m, id, RecreatedFields(e, orderId, user, now))
  }

  /** After the first repair, a document is linked when it was before (and
      not rewritten) or when it was recreated for an id the order lists. */
  lemma {:induction false} RecreateAllLinks(docs: seq<Doc>, ids: seq<string>, entries: seq<Value>,
                                            orderId: string, user: Option<string>, now: int, x: string)
    ensures x in LinkedIds(RecreateAll(docs, ids, entries, orderId, user, now), orderId)
            <==> x in LinkedIds(docs, orderId) || (x in ids && FindEntry(entries, x).Some?)
    decreases |ids|
  {
    if ids != [] {
      var init, id := ids[..|ids| - 1], ids[|ids| - 1];
      RecreateAllLinks(docs, init, entries, orderId, user, now, x);
      assert ids == init + [id];
      var m := RecreateAll(docs, init, entries, orderId, user, now);
      if FindEntry(entries, id).Some? {
        SetDocLinks(m, id, RecreatedFields(FindEntry(entries, id).value, orderId, user, now), orderId, x);
      }
    }
  }

  lemma SetDocLinks(docs: seq<Doc>, id: string, f: Fields, orderId: string, x: string)
    ensures x in LinkedIds(SetDoc(docs, id, f), orderId)
            <==> if x == id then "usedInOrder" in f && f["usedInOrder"] == VStr(orderId)
                 else x in LinkedIds(docs, orderId)
  {
    var r := SetDoc(docs, id, f);
    if x == id {
      assert Doc(id, f) in r;
    } else if x in LinkedIds(docs, orderId) {
      var i :| 0 <= i < |docs| && docs[i].id == x && Linked(docs[i], orderId);
      assert docs[i] in r;
    }
  }

  /** `getDate(key)` returns (a date or null) instead of throwing. */
  predicate DateReadable(f: Fields, key: string)
  {
    key !in f || f[key] == VNull || f[key].VTimestamp? || f[key].VDate?
  }

  /** The entry the second repair builds for a linked prescription the order
      does not list, or None when reading its document throws. */
  function RecoveredEntry(docs: seq<Doc>, id: string, user: Option<string>, now: int): (r: Option<Value>)
    ensures r.Some? ==> HasId(r.value, id)
  {
    var f := DocFields(docs, id).OrElse(map[]);
    if !(StringReadable(f, "prescriptionImageUrl") && StringReadable(f, "userId") && DateReadable(f, "timestamp"))
    then None
    else
      var millis := if "timestamp" in f && (f["timestamp"].VTimestamp? || f["timestamp"].VDate?)
                     then f["timestamp"].millis else now;
      Some(VMap(map["id" := VStr(id),
                    "imageUrl" := VStr(StringOr(f, "prescriptionImageUrl", "")),
                    "userId" := VStr(GetString(f, "userId").OrElse(user.OrElse(""))),
                    "timestamp" := VTimestamp(millis)]))
  }

  /** `missingInOrder.map { ... }`: None when one of the reads throws. */
  function Recover(docs: seq<Doc>, ids: seq<string>, user: Option<string>, now: int): (r: Option<seq<Value>>)
    ensures r.Some? ==> |r.value| == |ids| && forall i :: 0 <= i < |ids| ==> HasId(r.value[i], ids[i])
  {
    if ids == [] then Some([])
    else
      match RecoveredEntry(docs, ids[0], user, now)
      case None => None
      case Some(e) =>
        match Recover(docs, ids[1..], user, now)
        case None => None
        case Some(rest) => Some([e] + rest)
  }

  /** The ids of `entries + more` are those of both lists. */
  lemma EntryIdsAppend(entries: seq<Value>, more: seq<Value>, x: string)
    ensures x in EntryIds(entries + more) <==> x in EntryIds(entries) || x in EntryIds(more)
  {
    var all := entries + more;
    if x in EntryIds(all) {
      var i :| 0 <= i < |all| && HasId(all[i], x);
      if i >= |entries| {
        assert more[i - |entries|] == all[i];
      }
    }
    if x in EntryIds(entries) {
      var i :| 0 <= i < |entries| && HasId(entries[i], x);
      assert all[i] == entries[i];
    }
    if x in EntryIds(more) {
      var i :| 0 <= i < |more| && HasId(more[i], x);
      assert all[|entries| + i] == more[i];
    }
  }

  /** The second repair's list: what the order had, then the recovered
      entries. */
  function Appended(order: Fields, recovered: seq<Value>): (r: Fields)
    ensures |Entries(r)| == |Entries(order)| + |recovered|
    ensures Entries(r)[..|Entries(order)|] == Entries(order)
  {
    WithEntries(order, Entries(order) + recovered)
  }

  /** What `fixOrderPrescriptions` returns and leaves in the store.
      `user` is the signed-in user, if any. A failed diagnosis, re-read or
      commit writes nothing; a failure in the second repair keeps what the
      first repair committed. */
  function FixOutcome(orderId: string, store: FixStore, user: Option<string>, now: int, castError: string,
                      calls: FixCalls)
    : (bool, FixStore)
  {
    if calls.orderRead.Throws? || (orderId in store.orders && calls.query.Throws?) then (false, store)
    else
    var d := Diagnose(orderId, store, castError);
    if !d.Report? then (false, store)
    else if d.missingInCollection != [] && (calls.reread.Throws? || calls.commit.Throws?) then (false, store)
    else
      var entries := Entries(store.orders[orderId]);
      var docs := if d.missingInCollection == [] then store.prescriptions
                  else RecreateAll(store.prescriptions, d.missingInCollection, entries, orderId, user, now);
      var s1 := store.(prescriptions := docs);
      if d.missingInOrder == [] then (true, s1)
      else if calls.documentReads.Throws? then (false, s1)
      else
        match Recover(docs, d.missingInOrder, user, now)
        case None => (false, s1)
        case Some(rec) =>
          if calls.orderTransaction.Throws? then (false, s1)
          else
          var s2 := s1.(orders := s1.orders[orderId := Appended(s1.orders[orderId], rec)]);
          if user.None? then (true, s2)
          else if calls.userTransaction.Throws? || (user.value, orderId) !in s2.userOrders then (false, s2)
          else (true, s2.(userOrders := s2.userOrders[(user.value, orderId) :=
                                                      Appended(s2.userOrders[(user.value, orderId)], rec)]))
  }

  /** The first repair's batch, built one `set` at a time. */
  method RecreateMissing(docs: seq<Doc>, ids: seq<string>, entries: seq<Value>, orderId: string,
                         user: Option<string>, now: int)
    returns (r: seq<Doc>)
    ensures r == RecreateAll(docs, ids, entries, orderId, user, now)
  {
    r := docs;
    var i := 0;
    while i < |ids|
      invariant 0 <= i <= |ids|
      invariant r == RecreateAll(docs, ids[..i], entries, orderId, user, now)
    {
      var prefix := ids[..i + 1];
      assert prefix[..i] == ids[..i] && prefix[i] == ids[i];
      var e := FindEntry(entries, ids[i]);
      if e.Some? {
        r := SetDoc(r, ids[i], RecreatedFields(e.value, orderId, user, now));
      }
      i := i + 1;
    }
    assert ids[..|ids|] == ids;
  }

  /** `fixOrderPrescriptions`: diagnose, then run the repairs the
      diagnosis calls for; any exception ends it with false. */
  method FixOrderPrescriptions(orderId: string, store: FixStore, user: Option<string>, now: int,
                               castError: string, calls: FixCalls)
    returns (ok: bool, after: FixStore)
    ensures (ok, after) == FixOutcome(orderId, store, user, now, castError, calls)
    ensures calls.orderRead.Throws? || calls.query.Throws? ==> !ok && after == store
    ensures ok ==> calls.orderRead.Succeeds? && calls.query.Succeeds?
  {
    var diagnostics := CheckOrderPrescriptions(orderId, store, castError, calls.orderRead, calls.query);
    if "error" in diagnostics {
      return false, store;
    }
    var d := Diagnose(orderId, store, castError);
    StringListRoundTrip(d.missingInCollection);
    StringListRoundTrip(d.missingInOrder);
    var missingInCollection := StringsOf(diagnostics["missingInCollection"].items);
    var missingInOrder := StringsOf(diagnostics["missingInOrder"].items);
    after := store;
    var entries := Entries(store.orders[orderId]);
    if missingInCollection != [] {
      // case 1: one `set` per id the order lists but nothing links back,
      // after re-reading the order; the batch lands whole or not at all
      if calls.reread.Throws? || calls.commit.Throws? {
        return false, store;
      }
      var docs := RecreateMissing(store.prescriptions, missingInCollection, entries, orderId, user, now);
      after := after.(prescriptions := docs);
    }
    if missingInOrder != [] {
      // case 2: append the linked prescriptions the order does not list
      if calls.documentReads.Throws? {
        return false, after;
      }
      var recovered := Recover(after.prescriptions, missingInOrder, user, now);
      if recovered.None? || calls.orderTransaction.Throws? {
        return false, after;
      }
      after := after.(orders := after.orders[orderId := Appended(after.orders[orderId], recovered.value)]);
      if user.Some? {
        if calls.userTransaction.Throws? || (user.value, orderId) !in after.userOrders {
          return false, after;
        }
        var key := (user.value, orderId);
        after := after.(userOrders := after.userOrders[key := Appended(after.userOrders[key], recovered.value)]);
      }
    }
    ok := true;
  }

  /** The pieces of a successful repair: every call it made succeeded,
      the documents are those after the first repair, and the order's list
      is extended by the recovered entries. */
  lemma FixOutcomeOk(orderId: string, store: FixStore, user: Option<string>, now: int, castError: string,
                     calls: FixCalls)
    requires FixOutcome(orderId, store, user, now, castError, calls).0
    ensures var d := Diagnose(orderId, store, castError);
            var after := FixOutcome(orderId, store, user, now, castError, calls).1;
            var docs := if d.missingInCollection == [] then store.prescriptions
                        else RecreateAll(store.prescriptions, d.missingInCollection,
                                         Entries(store.orders[orderId]), orderId, user, now);
            d.Report? && orderId in store.orders && orderId in after.orders
            && calls.orderRead.Succeeds? && calls.query.Succeeds?
            && (d.missingInCollection != [] ==> calls.reread.Succeeds? && calls.commit.Succeeds?)
            && (d.missingInOrder != [] ==> calls.documentReads.Succeeds? && calls.orderTransaction.Succeeds?)
            && (d.missingInOrder != [] && user.Some? ==> calls.userTransaction.Succeeds?)
            && after.prescriptions == docs
            && (d.missingInOrder == [] ==> after.orders[orderId] == store.orders[orderId])
            && (d.missingInOrder != [] ==>
                  Recover(docs, d.missingInOrder, user, now).Some?
                  && Entries(after.orders[orderId])
                     == Entries(store.orders[orderId]) + Recover(docs, d.missingInOrder, user, now).value)
  {
  }

  /** A repair that succeeds leaves nothing to repair: afterwards the order
      lists every linked prescription and every listed one is linked. */
  lemma FixRepairs(orderId: string, store: FixStore, user: Option<string>, now: int, castError: string,
                   calls: FixCalls)
    requires FixOutcome(orderId, store, user, now, castError, calls).0
    ensures var after := FixOutcome(orderId, store, user, now, castError, calls).1;
            var d := Diagnose(orderId, after, castError);
            d.Report? && d.missingInCollection == [] && d.missingInOrder == []
  {
    FixOutcomeOk(orderId, store, user, now, castError, calls);
    var d := Diagnose(orderId, store, castError);
    var entries := Entries(store.orders[orderId]);
    var docs := if d.missingInCollection == [] then store.prescriptions
                else RecreateAll(store.prescriptions, d.missingInCollection, entries, orderId, user, now);
    var after := FixOutcome(orderId, store, user, now, castError, calls).1;
    var rec := if d.missingInOrder == [] then [] else Recover(docs, d.missingInOrder, user, now).value;
    RepairedLists(orderId, store, after, d, docs, rec, user, now, castError);
  }

  /** The list and documents a successful repair leaves cover each other. */
  lemma RepairedLists(orderId: string, store: FixStore, after: FixStore, d: Diagnostics, docs: seq<Doc>,
                      rec: seq<Value>, user: Option<string>, now: int, castError: string)
    requires d == Diagnose(orderId, store, castError) && d.Report?
    requires orderId in store.orders && orderId in after.orders
    requires docs == if d.missingInCollection == [] then store.prescriptions
                     else RecreateAll(store.prescriptions, d.missingInCollection,
                                      Entries(store.orders[orderId]), orderId, user, now)
    requires after.prescriptions == docs
    requires Entries(after.orders[orderId]) == Entries(store.orders[orderId]) + rec
    requires |rec| == |d.missingInOrder|
    requires forall i :: 0 <= i < |rec| ==> HasId(rec[i], d.missingInOrder[i])
    ensures var d2 := Diagnose(orderId, after, castError);
            d2.Report? && d2.missingInCollection == [] && d2.missingInOrder == []
  {
    var entries := Entries(store.orders[orderId]);
    var newEntries := entries + rec;
    assert AllMaps(newEntries) by {
      forall i | 0 <= i < |newEntries|
        ensures newEntries[i].VMap?
      {
        if i >= |entries| {
          assert newEntries[i] == rec[i - |entries|];
          assert HasId(rec[i - |entries|], d.missingInOrder[i - |entries|]);
        }
      }
    }
    var d2 := Diagnose(orderId, after, castError);
    forall x
      ensures x in d2.orderIds <==> x in d2.collectionIds
    {
      RecoveredIds(entries, rec, d.missingInOrder, x);
      if d.missingInCollection != [] {
        RecreateAllLinks(store.prescriptions, d.missingInCollection, entries, orderId, user, now, x);
      }
    }
    MinusAll(d2.orderIds, set x | x in d2.collectionIds);
    MinusAll(d2.collectionIds, set x | x in d2.orderIds);
  }

  /** Appending entries for `ids` adds exactly those ids. */
  lemma RecoveredIds(entries: seq<Value>, rec: seq<Value>, ids: seq<string>, x: string)
    requires |rec| == |ids|
    requires forall i :: 0 <= i < |rec| ==> HasId(rec[i], ids[i])
    ensures x in EntryIds(entries + rec) <==> x in EntryIds(entries) || x in ids
  {
    EntryIdsAppend(entries, rec, x);
    if x in EntryIds(rec) {
      var i :| 0 <= i < |rec| && HasId(rec[i], x);
      assert HasId(rec[i], ids[i]);
    }
    if x in ids {
      var i :| 0 <= i < |ids| && ids[i] == x;
      assert HasId(rec[i], x);
    }
  }

  // ---------------------------------------------------------------------
  // Linking prescriptions to an order

  /** The entry `updateOrderWithPrescriptions` writes for one prescription. */
  function LinkEntry(p: PrescriptionData): (v: Value)
    ensures HasId(v, p.id)
  {
    VMap(map["id" := VStr(p.id), "imageUrl" := VStr(p.prescriptionImageUrl),
             "userId" := VStr(p.userId), "timestamp" := VLong(p.timestamp)])
  }

  function LinkEntries(ps: seq<PrescriptionData>): (r: seq<Value>)
    ensures |r| == |ps|
    ensures forall i :: 0 <= i < |ps| ==> r[i] == LinkEntry(ps[i])
  {
    seq(|ps|, i requires 0 <= i < |ps| => LinkEntry(ps[i]))
  }

  /** The update one prescription document receives. */
  function LinkedFields(f: Fields, orderId: string, now: int): Fields
  {
    f["usedInOrder" := VStr(orderId)]["status" := VStr(StatusUsed)]["updatedAt" := VTimestamp(now)]
  }

  /** Some prescription of the list has this id. */
  predicate Listed(ps: seq<PrescriptionData>, id: string)
  {
    exists i :: 0 <= i < |ps| && ps[i].id == id
  }

  /** The documents after updating every document a prescription of `ps`
      names. */
  function LinkAll(docs: seq<Doc>, ps: seq<PrescriptionData>, orderId: string, now: int): (r: seq<Doc>)
    ensures |r| == |docs|
    ensures forall i :: 0 <= i < |docs| ==>
              r[i] == if Listed(ps, docs[i].id) then Doc(docs[i].id, LinkedFields(docs[i].data, orderId, now)) else docs[i]
  {
    seq(|docs|, i requires 0 <= i < |docs| =>
      if Listed(ps, docs[i].id) then Doc(docs[i].id, LinkedFields(docs[i].data, orderId, now)) else docs[i])
  }

  predicate DocExists(docs: seq<Doc>, id: string)
  {
    exists i :: 0 <= i < |docs| && docs[i].id == id
  }

  /** Every document the batch updates exists; otherwise it fails whole. */
  predicate LinkTargetsExist(orderId: string, ps: seq<PrescriptionData>, user: Option<string>, store: FixStore)
  {
    (forall i :: 0 <= i < |ps| ==> DocExists(store.prescriptions, ps[i].id))
    && orderId in store.orders
    && (user.Some? ==> (user.value, orderId) in store.userOrders)
  }

  /** The store after the linking batch has been committed. */
  function LinkedStore(orderId: string, ps: seq<PrescriptionData>, user: Option<string>, store: FixStore, now: int)
    : (r: FixStore)
    requires LinkTargetsExist(orderId, ps, user, store)
    ensures r.prescriptions == LinkAll(store.prescriptions, ps, orderId, now)
    ensures r.orders == store.orders[orderId := WithEntries(store.orders[orderId], LinkEntries(ps))]
    ensures user.None? ==> r.userOrders == store.userOrders
    ensures user.Some? ==> r.userOrders == store.userOrders[(user.value, orderId) :=
                             WithEntries(store.userOrders[(user.value, orderId)], LinkEntries(ps))]
  {
    var entries := LinkEntries(ps);
    var s := store.(prescriptions := LinkAll(store.prescriptions, ps, orderId, now),
                    orders := store.orders[orderId := WithEntries(store.orders[orderId], entries)]);
    if user.None? then s
    else s.(userOrders := s.userOrders[(user.value, orderId) := WithEntries(s.userOrders[(user.value, orderId)], entries)])
  }

  /** `updateOrderWithPrescriptions`: mark each prescription used and set
      the order's list (global and the user's copy) in one batch. `commit`
      is how the commit ends; a batch with a missing target fails as well,
      and a failed batch writes nothing. */
  method UpdateOrderWithPrescriptions(orderId: string, ps: seq<PrescriptionData>, user: Option<string>,
                                     store: FixStore, now: int, commit: Call)
    returns (ok: bool, after: FixStore)
    ensures ps == [] ==> ok && after == store
    ensures ps != [] && (commit.Throws? || !LinkTargetsExist(orderId, ps, user, store)) ==> !ok && after == store
    ensures ps != [] && commit.Succeeds? && LinkTargetsExist(orderId, ps, user, store) ==>
              ok && after == LinkedStore(orderId, ps, user, store, now)
  {
    if ps == [] {
      return true, store;
    }
    if commit.Throws? || !LinkTargetsExist(orderId, ps, user, store) {
      return false, store;
    }
    var docs := LinkAll(store.prescriptions, ps, orderId, now);
    var entries := LinkEntries(ps);
    after := store.(prescriptions := docs, orders := store.orders[orderId := WithEntries(store.orders[orderId], entries)]);
    if user.Some? {
      var key := (user.value, orderId);
      after := after.(userOrders := after.userOrders[key := WithEntries(after.userOrders[key], entries)]);
    }
    ok := true;
  }

  /** The ids the linked order lists are the prescriptions' ids. */
  lemma LinkEntriesIds(ps: seq<PrescriptionData>, x: string)
    ensures x in EntryIds(LinkEntries(ps)) <==> Listed(ps, x)
  {
    var entries := LinkEntries(ps);
    if x in EntryIds(entries) {
      var i :| 0 <= i < |entries| && HasId(entries[i], x);
      assert HasId(LinkEntry(ps[i]), ps[i].id);
    }
    if Listed(ps, x) {
      var i :| 0 <= i < |ps| && ps[i].id == x;
      assert HasId(entries[i], x);
    }
  }

  /** An updated document is linked to the order. */
  lemma LinkAllLinks(docs: seq<Doc>, ps: seq<PrescriptionData>, orderId: string, now: int, x: string)
    requires Listed(ps, x) && DocExists(docs, x)
    ensures x in LinkedIds(LinkAll(docs, ps, orderId, now), orderId)
  {
    var k :| 0 <= k < |docs| && docs[k].id == x;
    var r := LinkAll(docs, ps, orderId, now);
    assert r[k].id == x && Linked(r[k], orderId);
  }

  /** After a successful linking, the order lists exactly the given
      prescriptions and each of them is linked back to it. */
  lemma LinkingConsistent(orderId: string, ps: seq<PrescriptionData>, user: Option<string>, store: FixStore,
                          now: int, castError: string)
    requires LinkTargetsExist(orderId, ps, user, store)
    ensures var d := Diagnose(orderId, LinkedStore(orderId, ps, user, store, now), castError);
            d.Report? && d.missingInCollection == []
            && forall x :: x in d.orderIds <==> Listed(ps, x)
  {
    var after := LinkedStore(orderId, ps, user, store, now);
    var entries := LinkEntries(ps);
    assert Entries(after.orders[orderId]) == entries;
    assert AllMaps(entries);
    var d := Diagnose(orderId, after, castError);
    forall x
      ensures x in d.orderIds <==> Listed(ps, x)
      ensures x in d.orderIds ==> x in d.collectionIds
    {
      LinkEntriesIds(ps, x);
      if Listed(ps, x) {
        var i :| 0 <= i < |ps| && ps[i].id == x;
        LinkAllLinks(store.prescriptions, ps, orderId, now, x);
      }
    }
    MinusAll(d.orderIds, set x | x in d.collectionIds);
  }
}
