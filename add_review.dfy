/**
 * The review screen: the rating bar's caption, the checks a review must
 * pass, the reviewer's name, and the rule that a second review of the same
 * product in the same order replaces the first.
 */
module AddReview {
  import opened Text
  import opened Firestore
  import opened Reviews

  /** `Float.toInt()`: truncation toward zero. */
  function Truncate(x: real): (n: int)
    ensures x >= 0.0 ==> n as real <= x < n as real + 1.0
    ensures x < 0.0 ==> n <= 0
  {
    if x >= 0.0 then x.Floor else -((-x).Floor)
  }

  const Poor := "Poor"
  const Fair := "Fair"
  const Good := "Good"
  const VeryGood := "Very Good"
  const Excellent := "Excellent"
  const TapToRate := "Tap to rate"

  /** The caption under the rating bar, chosen by the rating's whole part. */
  function RatingLabel(rating: real): (r: string)
    ensures 1.0 <= rating < 2.0 <==> r == Poor
    ensures 2.0 <= rating < 3.0 <==> r == Fair
    ensures 3.0 <= rating < 4.0 <==> r == Good
    ensures 4.0 <= rating < 5.0 <==> r == VeryGood
    ensures 5.0 <= rating < 6.0 <==> r == Excellent
    ensures rating < 1.0 || rating >= 6.0 <==> r == TapToRate
  {
    var n := Truncate(rating);
    if n == 1 then Poor
    else if n == 2 then Fair
    else if n == 3 then Good
    else if n == 4 then VeryGood
    else if n == 5 then Excellent
    else TapToRate
  }

  const NoRatingMessage := "Please provide a rating"
  const NoCommentMessage := "Please write a comment"
  const ShortCommentMessage := "Please write a more detailed review (at least 10 characters)"
  const MinCommentLength := 10

  /** What pressing "Submit" leads to before anything is read or written. */
  datatype Check = Rejected(message: string) | NotSignedIn | Accepted(comment: string)

  /** `submitReview`'s checks, in order: a rating, then a comment, then a
      detailed comment, then a signed-in user. The comment is judged and
      kept without its surrounding whitespace. */
  function SubmitCheck(rating: real, text: string, userId: Option<string>): (c: Check)
    ensures c.Accepted? <==> rating != 0.0 && |Trim(text)| >= MinCommentLength && userId.Some?
    ensures c.Accepted? ==> c.comment == Trim(text) && !IsBlank(c.comment)
    ensures rating == 0.0 ==> c == Rejected(NoRatingMessage)
    ensures rating != 0.0 && IsBlank(text) ==> c == Rejected(NoCommentMessage)
    ensures rating != 0.0 && !IsBlank(text) && |Trim(text)| < MinCommentLength ==> c == Rejected(ShortCommentMessage)
    ensures c.NotSignedIn? <==> rating != 0.0 && |Trim(text)| >= MinCommentLength && userId.None?
  {
    TrimmedCheck(rating, Trim(text), userId)
  }

  /** The checks on the comment once trimmed. */
  function TrimmedCheck(rating: real, comment: string, userId: Option<string>): Check
  {
    if rating == 0.0 then Rejected(NoRatingMessage)
    else if comment == [] then Rejected(NoCommentMessage)
    else if |comment| < MinCommentLength then Rejected(ShortCommentMessage)
    else if userId.None? then NotSignedIn
    else Accepted(comment)
  }

  /** Whitespace typed around a comment changes neither the verdict nor the
      comment that is kept. */
  lemma PaddingIgnored(rating: real, pre: string, t: string, post: string, userId: Option<string>)
    requires IsBlank(pre) && IsBlank(post)
    requires t == [] || (!IsSpace(t[0]) && !IsSpace(t[|t| - 1]))
    ensures SubmitCheck(rating, pre + t + post, userId) == SubmitCheck(rating, t, userId)
  {
    TrimPadded(pre, t, post);
    SameTrimSameCheck(rating, pre + t + post, t, userId);
  }

  /** The checks see the comment only through its trim. */
  lemma SameTrimSameCheck(rating: real, a: string, b: string, userId: Option<string>)
    requires Trim(a) == Trim(b)
    ensures SubmitCheck(rating, a, userId) == SubmitCheck(rating, b, userId)
  {
  }

  /** `getString(key)?.takeIf { it.isNotBlank() }` is present. */
  predicate Given(s: Option<string>)
  {
    s.Some? && !IsBlank(s.value)
  }

  /** `?.takeIf { it.isNotBlank() } ?: ""` */
  function Kept(s: Option<string>): (r: string)
    ensures Given(s) ==> r == s.value
    ensures !Given(s) ==> r == ""
  {
    if Given(s) then s.value else ""
  }

  const Anonymous := "Anonymous"

  /** The reviewer's name from the profile's first and last names. */
  function ReviewerName(first: Option<string>, last: Option<string>): (r: string)
    ensures Given(first) && Given(last) ==> r == first.value + " " + last.value
    ensures Given(first) && !Given(last) ==> r == first.value
    ensures !Given(first) && Given(last) ==> r == last.value
    ensures !Given(first) && !Given(last) ==> r == Anonymous
  {
    var f := Kept(first);
    var l := Kept(last);
    if f != [] && l != [] then f + " " + l
    else if f != [] then f
    else if l != [] then l
    else Anonymous
  }

  /** A review never carries a blank reviewer name. */
  lemma ReviewerNameNotBlank(first: Option<string>, last: Option<string>)
    ensures !IsBlank(ReviewerName(first, last))
  {
    var r := ReviewerName(first, last);
    if Given(first) {
      var i :| 0 <= i < |first.value| && !IsSpace(first.value[i]);
      assert r[i] == first.value[i];
    } else if Given(last) {
      var i :| 0 <= i < |last.value| && !IsSpace(last.value[i]);
      assert r[i] == last.value[i];
    } else {
      assert r[0] == 'A';
    }
  }

  /** A string field of the profile document; a missing document has none. */
  function ProfileField(doc: Snapshot, key: string): (r: Option<string>)
    ensures r.Some? <==> doc.data.Some? && key in doc.data.value && doc.data.value[key].VStr?
  {
    if doc.data.Some? then GetString(doc.data.value, key) else None
  }

  /** The review written for the signed-in user; `profile` is the profile
      read, None when reading it failed. */
  function ReviewFor(orderId: string, productId: string, userId: string, rating: real, comment: string,
                     now: int, profile: Option<Snapshot>): (r: Review)
    ensures r.orderId == orderId && r.productId == productId && r.userId == userId
    ensures r.rating == rating && r.comment == comment && r.timestamp == VTimestamp(now)
    ensures profile.None? ==> r.userName == Anonymous && r.userEmail == ""
    ensures profile.Some? ==>
              r.userName == ReviewerName(ProfileField(profile.value, "firstName"), ProfileField(profile.value, "lastName"))
              && r.userEmail == Kept(ProfileField(profile.value, "email"))
  {
    if profile.None? then Review(orderId, productId, userId, rating, comment, VTimestamp(now), Anonymous, "")
    else
      var doc := profile.value;
      Review(orderId, productId, userId, rating, comment, VTimestamp(now),
             ReviewerName(ProfileField(doc, "firstName"), ProfileField(doc, "lastName")),
             Kept(ProfileField(doc, "email")))
  }

  /** A document of the "reviews" collection. */
  datatype StoredReview = StoredReview(id: string, review: Review)

  /** The query on order, product and user. */
  predicate About(r: Review, orderId: string, productId: string, userId: string)
  {
    r.orderId == orderId && r.productId == productId && r.userId == userId
  }

  /** `documents.first()`: the position of the first matching document. */
  function FirstMatch(store: seq<StoredReview>, orderId: string, productId: string, userId: string)
    : (i: Option<nat>)
    ensures i.Some? ==> i.value < |store| && About(store[i.value].review, orderId, productId, userId)
    ensures i.Some? ==> forall j :: 0 <= j < i.value ==> !About(store[j].review, orderId, productId, userId)
    ensures i.None? ==> forall j :: 0 <= j < |store| ==> !About(store[j].review, orderId, productId, userId)
  {
    if store == [] then None
    else if About(store[0].review, orderId, productId, userId) then Some(0)
    else match FirstMatch(store[1..], orderId, productId, userId)
      case None => None
      case Some(j) => Some(j + 1)
  }

  /** At most one review per order, product and user. */
  predicate OnePerTriple(store: seq<StoredReview>)
  {
    forall i, j :: 0 <= i < j < |store| ==>
      !About(store[j].review, store[i].review.orderId, store[i].review.productId, store[i].review.userId)
  }

  /** The collection after a successful write: the first review of the
      same order, product and user is overwritten in place, keeping its
      document id; without one, a new document is appended. */
  function Saved(store: seq<StoredReview>, review: Review, newId: string): (r: seq<StoredReview>)
    ensures FirstMatch(store, review.orderId, review.productId, review.userId).None? ==>
              r == store + [StoredReview(newId, review)]
    ensures FirstMatch(store, review.orderId, review.productId, review.userId).Some? ==>
              |r| == |store|
              && forall j :: 0 <= j < |store| ==>
                   r[j] == (if About(store[j].review, review.orderId, review.productId, review.userId)
                               && j == FirstMatch(store, review.orderId, review.productId, review.userId).value
                            then StoredReview(store[j].id, review) else store[j])
  {
    match FirstMatch(store, review.orderId, review.productId, review.userId)
    case None => store + [StoredReview(newId, review)]
    case Some(i) => store[i := StoredReview(store[i].id, review)]
  }

  /** Saving keeps at most one review per order, product and user, and the
      saved review is then the one the query finds. */
  lemma SavedKeepsOnePerTriple(store: seq<StoredReview>, review: Review, newId: string)
    requires OnePerTriple(store)
    ensures var r := Saved(store, review, newId);
            OnePerTriple(r)
            && FirstMatch(r, review.orderId, review.productId, review.userId).Some?
            && r[FirstMatch(r, review.orderId, review.productId, review.userId).value].review == review
  {
    var r := Saved(store, review, newId);
    var m := FirstMatch(store, review.orderId, review.productId, review.userId);
    if m.None? {
      assert r[|store|].review == review;
      forall i, j | 0 <= i < j < |r|
        ensures !About(r[j].review, r[i].review.orderId, r[i].review.productId, r[i].review.userId)
      {
        if j == |store| {
          assert r[i] == store[i];
        } else {
          assert r[i] == store[i] && r[j] == store[j];
        }
      }
    } else {
      var k := m.value;
      assert r[k].review == review;
      forall i, j | 0 <= i < j < |r|
        ensures !About(r[j].review, r[i].review.orderId, r[i].review.productId, r[i].review.userId)
      {
        if i == k {
          assert r[j] == store[j];
        } else if j == k {
          assert r[i] == store[i];
        } else {
          assert r[i] == store[i] && r[j] == store[j];
        }
      }
    }
  }

  const SubmittedMessage := "Review submitted successfully!"
  const UpdatedMessage := "Review updated successfully!"
  const SubmitFailed := "Failed to submit review"
  const UpdateFailed := "Failed to update review"
  const CheckFailed := "Error checking existing review"

  /** `handleSubmitError`'s text; a missing message is printed as "null". */
  function ErrorToast(prefix: string, failure: Call): (t: string)
    requires failure.Throws?
    ensures t == prefix + ": " + failure.MessageOr("null")
  {
    prefix + ": " + failure.MessageOr("null")
  }

  /** What `checkAndSubmitReview` ends with. */
  datatype Outcome = Outcome(toast: string, navigateUp: bool, after: seq<StoredReview>)

  /** `checkAndSubmitReview`: `query` is the lookup of an earlier review,
      `write` the add or overwrite that follows it. */
  function CheckAndSubmit(store: seq<StoredReview>, review: Review, query: Call, write: Call, newId: string)
    : (o: Outcome)
    ensures o.navigateUp <==> query.Succeeds? && write.Succeeds?
    ensures o.navigateUp ==> o.after == Saved(store, review, newId)
    ensures !o.navigateUp ==> o.after == store
    ensures query.Throws? ==> o.toast == ErrorToast(CheckFailed, query)
    ensures query.Succeeds? && write.Succeeds? ==>
              (o.toast == UpdatedMessage <==>
                 FirstMatch(store, review.orderId, review.productId, review.userId).Some?)
  {
    if query.Throws? then Outcome(ErrorToast(CheckFailed, query), false, store)
    else if FirstMatch(store, review.orderId, review.productId, review.userId).None? then
      if write.Succeeds? then Outcome(SubmittedMessage, true, Saved(store, review, newId))
      else Outcome(ErrorToast(SubmitFailed, write), false, store)
    else
      if write.Succeeds? then Outcome(UpdatedMessage, true, Saved(store, review, newId))
      else Outcome(ErrorToast(UpdateFailed, write), false, store)
  }

  const SubmitCaption := "Submit Review"
  const SubmittingCaption := "Submitting..."
  const UpdateCaption := "Update Review"

  class AddReviewFragment {
    const orderId: string
    const productId: string
    var submitEnabled: bool
    var submitCaption: string

    constructor(orderId0: string, productId0: string)
      ensures orderId == orderId0 && productId == productId0
      ensures submitEnabled && submitCaption == SubmitCaption
    {
      orderId := orderId0;
      productId := productId0;
      submitEnabled := true;
      submitCaption := SubmitCaption;
    }

    /** `checkExistingReview`: a review already written for this order and
        product is shown for editing; `prefill` is its rating and comment. */
    method CheckExistingReview(userId: Option<string>, store: seq<StoredReview>, query: Call)
      returns (prefill: Option<(real, string)>)
      modifies this
      ensures submitEnabled == old(submitEnabled)
      ensures prefill.Some? <==>
                userId.Some? && query.Succeeds? && FirstMatch(store, orderId, productId, userId.value).Some?
      ensures prefill.Some? ==>
                var r := store[FirstMatch(store, orderId, productId, userId.value).value].review;
                prefill.value == (r.rating, r.comment) && submitCaption == UpdateCaption
      ensures prefill.None? ==> submitCaption == old(submitCaption)
    {
      prefill := None;
      if userId.Some? && query.Succeeds? {
        var m := FirstMatch(store, orderId, productId, userId.value);
        if m.Some? {
          var r := store[m.value].review;
          prefill := Some((r.rating, r.comment));
          submitCaption := UpdateCaption;
        }
      }
    }

    /** `submitReview`'s checks: an accepted review disables the button
        while the profile is read and the review is written; a refused one
        changes nothing on the screen. */
    method SubmitReview(rating: real, text: string, userId: Option<string>) returns (c: Check)
      modifies this
      ensures c == SubmitCheck(rating, text, userId)
      ensures c.Accepted? ==> !submitEnabled && submitCaption == SubmittingCaption
      ensures !c.Accepted? ==> submitEnabled == old(submitEnabled) && submitCaption == old(submitCaption)
    {
      c := SubmitCheck(rating, text, userId);
      if c.Accepted? {
        submitEnabled := false;
        submitCaption := SubmittingCaption;
      }
    }

    /** The end of `checkAndSubmitReview`: success closes the screen,
        failure enables the button again under its first caption. */
    method FinishSubmit(o: Outcome)
      modifies this
      ensures !o.navigateUp ==> submitEnabled && submitCaption == SubmitCaption
      ensures o.navigateUp ==> submitEnabled == old(submitEnabled) && submitCaption == old(submitCaption)
    {
      if !o.navigateUp {
        submitEnabled := true;
        submitCaption := SubmitCaption;
      }
    }
  }

  /** A review is always written with a non-blank reviewer name. */
  lemma ReviewForNamed(orderId: string, productId: string, userId: string, rating: real, comment: string,
                       now: int, profile: Option<Snapshot>)
    ensures !IsBlank(ReviewFor(orderId, productId, userId, rating, comment, now, profile).userName)
  {
    var review := ReviewFor(orderId, productId, userId, rating, comment, now, profile);
    if profile.Some? {
      ReviewerNameNotBlank(ProfileField(profile.value, "firstName"), ProfileField(profile.value, "lastName"));
    } else {
      assert review.userName[0] == 'A';
    }
  }

  /** A review that passes the checks and is written leaves exactly one
      review for its order, product and user, and it is the new one, with
      the trimmed comment and a name that is never blank. */
  lemma SubmittedReviewIsUnique(orderId: string, productId: string, rating: real, text: string, userId: string,
                                profile: Option<Snapshot>, store: seq<StoredReview>, newId: string, now: int)
    requires OnePerTriple(store)
    requires SubmitCheck(rating, text, Some(userId)).Accepted?
    ensures var review := ReviewFor(orderId, productId, userId, rating, Trim(text), now, profile);
            var o := CheckAndSubmit(store, review, Succeeds, Succeeds, newId);
            var k := FirstMatch(o.after, orderId, productId, userId);
            OnePerTriple(o.after) && k.Some? && o.after[k.value].review == review
            && !IsBlank(o.after[k.value].review.userName) && !IsBlank(o.after[k.value].review.comment)
  {
    var review := ReviewFor(orderId, productId, userId, rating, Trim(text), now, profile);
    ReviewForNamed(orderId, productId, userId, rating, Trim(text), now, profile);
    SavedKeepsOnePerTriple(store, review, newId);
  }
}
