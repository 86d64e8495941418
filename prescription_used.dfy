/**
 * The prescription history screen: a user's prescriptions other than
 * pending ones, and the list narrowed to one status on request.
 */
module PrescriptionHistory {
  import opened Text
  import opened Firestore
  import opened Prescriptions

  /** `whereEqualTo("userId", userId)`. */
  predicate OwnedBy(doc: Snapshot, userId: string)
  {
    doc.data.Some? && "userId" in doc.data.value && doc.data.value["userId"] == VStr(userId)
  }

  /** The user's documents that parse, in query order (`mapNotNull`). */
  function Loaded(docs: seq<Snapshot>, userId: string, now: int): (r: seq<PrescriptionData>)
    ensures |r| <= |docs|
    ensures forall p :: p in r ==> exists i :: 0 <= i < |docs| && OwnedBy(docs[i], userId)
                                               && Parse(docs[i], now) == Some(p)
  {
    if docs == [] then []
    else
      var rest := Loaded(docs[1..], userId, now);
      assert forall i :: 1 <= i < |docs| ==> docs[i] == docs[1..][i - 1];
      var head := Parse(docs[0], now);
      (if OwnedBy(docs[0], userId) && head.Some? then [head.value] else []) + rest
  }

  /** Every owned document that parses is loaded. */
  lemma {:induction false} LoadedComplete(docs: seq<Snapshot>, userId: string, now: int, i: int)
    requires 0 <= i < |docs| && OwnedBy(docs[i], userId) && Parse(docs[i], now).Some?
    ensures Parse(docs[i], now).value in Loaded(docs, userId, now)
    decreases |docs|
  {
    if i > 0 {
      assert docs[1..][i - 1] == docs[i];
      LoadedComplete(docs[1..], userId, now, i - 1);
    }
  }

  /** `filter { !it.isPending() }`. */
  function NonPending(ps: seq<PrescriptionData>): (r: seq<PrescriptionData>)
    ensures |r| <= |ps|
    ensures forall p :: p in r <==> p in ps && !p.IsPending()
  {
    if ps == [] then []
    else (if ps[0].IsPending() then [] else [ps[0]]) + NonPending(ps[1..])
  }

  /** The entries a status filter keeps: the four status constants select
      their own records; no other text selects by status. */
  predicate Selects(p: PrescriptionData, status: string)
  {
    (status == StatusUsed && p.IsUsed())
    || (status == StatusApproved && p.IsApproved())
    || (status == StatusRejected && p.IsRejected())
    || (status == StatusCancelled && p.IsCancelled())
  }

  predicate IsStatusFilter(status: string)
  {
    status == StatusUsed || status == StatusApproved || status == StatusRejected || status == StatusCancelled
  }

  function Select(ps: seq<PrescriptionData>, status: string): (r: seq<PrescriptionData>)
    ensures |r| <= |ps|
    ensures forall p :: p in r <==> p in ps && Selects(p, status)
  {
    if ps == [] then []
    else (if Selects(ps[0], status) then [ps[0]] else []) + Select(ps[1..], status)
  }

  /** Filtering keeps the order: it distributes over concatenation. */
  lemma {:induction false} SelectAppend(a: seq<PrescriptionData>, b: seq<PrescriptionData>, status: string)
    ensures Select(a + b, status) == Select(a, status) + Select(b, status)
    decreases |a|
  {
    if a != [] {
      assert (a + b)[0] == a[0];
      assert (a + b)[1..] == a[1..] + b;
      SelectAppend(a[1..], b, status);
    } else {
      assert a + b == b;
    }
  }

  /** `filterPrescriptions`' choice: the four status constants narrow the
      list, any other text (the empty filter included) keeps all of it. */
  function Filtered(all: seq<PrescriptionData>, status: string): (r: seq<PrescriptionData>)
    ensures IsStatusFilter(status) ==> r == Select(all, status)
    ensures !IsStatusFilter(status) ==> r == all
  {
    if IsStatusFilter(status) then Select(all, status) else all
  }

  /** A status filter keeps exactly the records of that status. */
  lemma FilteredMeaning(all: seq<PrescriptionData>, status: string, p: PrescriptionData)
    requires IsStatusFilter(status)
    ensures p in Filtered(all, status) <==> p in all && EqualsIgnoreCase(p.status, status)
  {
  }

  /** The screen never shows a pending prescription, whatever the filter,
      even the "pending" one. */
  lemma NeverPending(ps: seq<PrescriptionData>, status: string, p: PrescriptionData)
    requires p in Filtered(NonPending(ps), status)
    ensures !p.IsPending()
  {
  }

  const LoadFailedPrefix := "Failed to load prescriptions: "

  class PrescriptionUsedViewModel {
    /** The loaded list, None before the first successful load. */
    var prescriptions: Option<seq<PrescriptionData>>
    var filteredPrescriptions: Option<seq<PrescriptionData>>
    var isLoading: Option<bool>
    var errorMessage: Option<string>
    var currentFilter: string

    constructor()
      ensures prescriptions.None? && filteredPrescriptions.None? && isLoading.None?
      ensures errorMessage.None? && currentFilter == []
    {
      prescriptions := None;
      filteredPrescriptions := None;
      isLoading := None;
      errorMessage := None;
      currentFilter := [];
    }

    /** `filterPrescriptions`: remember the filter; with a list loaded,
        publish its filtered view. */
    method FilterPrescriptions(status: string)
      modifies this
      ensures currentFilter == status
      ensures prescriptions == old(prescriptions) && isLoading == old(isLoading)
      ensures errorMessage == old(errorMessage)
      ensures prescriptions.Some? ==> filteredPrescriptions == Some(Filtered(prescriptions.value, status))
      ensures prescriptions.None? ==> filteredPrescriptions == old(filteredPrescriptions)
    {
      currentFilter := status;
      if prescriptions.Some? {
        filteredPrescriptions := Some(Filtered(prescriptions.value, status));
      }
    }

    /** `loadPrescriptions`: `docs` is the collection, `fetchError` the
        query's failure, if any. The remembered filter is re-applied. */
    method LoadPrescriptions(userId: string, docs: seq<Snapshot>, fetchError: Option<string>, now: int)
      modifies this
      ensures isLoading == Some(false)
      ensures currentFilter == old(currentFilter)
      ensures fetchError.Some? ==>
                errorMessage == Some(LoadFailedPrefix + fetchError.value)
                && prescriptions == old(prescriptions) && filteredPrescriptions == old(filteredPrescriptions)
      ensures fetchError.None? ==>
                errorMessage.None?
                && prescriptions == Some(NonPending(Loaded(docs, userId, now)))
                && filteredPrescriptions == Some(Filtered(NonPending(Loaded(docs, userId, now)), currentFilter))
    {
      isLoading := Some(true);
      errorMessage := None;
      if fetchError.Some? {
        errorMessage := Some(LoadFailedPrefix + fetchError.value);
      } else {
        prescriptions := Some(NonPending(Loaded(docs, userId, now)));
        FilterPrescriptions(currentFilter);
      }
      isLoading := Some(false);
    }
  }
}
