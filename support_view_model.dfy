/**
 * The customer-service view model: the signed-in user's profile as the
 * support screen shows it, and the complaint record written when a
 * complaint is submitted.
 */
module Support {
  import opened Text
  import opened Firestore
  import opened Users
  import opened Complaints

  /** The signed-in account: its id and the e-mail the account carries. */
  datatype AuthUser = AuthUser(uid: string, email: Option<string>)

  /** The profile read from the "user" collection: the stored names and
      e-mail when the document exists, the account's e-mail standing in for
      a missing one. */
  function ProfileUser(doc: Snapshot, account: AuthUser): (u: User)
    ensures doc.data.None? ==> u == User("", "", account.email.OrElse(""), "", "")
    ensures doc.data.Some? ==>
              u.firstName == StringOr(doc.data.value, "firstName", "")
              && u.lastName == StringOr(doc.data.value, "lastName", "")
              && u.email == GetString(doc.data.value, "email").OrElse(account.email.OrElse(""))
              && u.imagePath == "" && u.id == ""
  {
    if doc.data.None? then User("", "", account.email.OrElse(""), "", "")
    else
      var m := doc.data.value;
      User(StringOr(m, "firstName", ""), StringOr(m, "lastName", ""),
           GetString(m, "email").OrElse(account.email.OrElse("")), "", "")
  }

  const UnknownEmail := "unknown@example.com"
  const AnonymousUser := "Anonymous User"

  /** The complaint written for `text`: the profile's e-mail unless blank,
      else the account's, else a placeholder; the profile's full name unless
      blank, else a placeholder; always pending and of the customer-service
      type. */
  function NewComplaint(id: string, account: AuthUser, user: User, text: string, now: int): (c: Complaint)
    ensures c.id == id && c.userId == account.uid && c.text == text && c.timestamp == Some(now)
    ensures c.status == DefaultStatus && c.complaintType == DefaultType
    ensures !IsBlank(user.email) ==> c.userEmail == user.email
    ensures IsBlank(user.email) ==> c.userEmail == account.email.OrElse(UnknownEmail)
    ensures IsBlank(user.firstName + " " + user.lastName) ==> c.userName == AnonymousUser
    ensures !IsBlank(user.firstName + " " + user.lastName) ==> c.userName == user.FullName()
    ensures !IsBlank(c.userName) && NoOuterSpace(c.userName)
  {
    var email := if IsBlank(user.email) then account.email.OrElse(UnknownEmail) else user.email;
    var name := user.FullName();
    assert AnonymousUser[0] == 'A' && AnonymousUser[|AnonymousUser| - 1] == 'r';
    Complaint(account.uid, email, if name == [] then AnonymousUser else name, text, Some(now),
              DefaultStatus, DefaultType, id)
  }

  /** The document written: the complaint's stored fields plus its id. */
  function WrittenFields(c: Complaint): (m: Fields)
    ensures m.Keys == c.ToMap().Keys + {"id"}
    ensures m["id"] == VStr(c.id)
    ensures forall k :: k in c.ToMap() ==> m[k] == c.ToMap()[k]
  {
    c.ToMap()["id" := VStr(c.id)]
  }

  /** Reading the written document back under its id gives the complaint. */
  lemma WrittenReadsBack(id: string, account: AuthUser, user: User, text: string, now: int)
    ensures var c := NewComplaint(id, account, user, text, now);
            Complaints.FromMap(WrittenFields(c), id) == c
  {
    var c := NewComplaint(id, account, user, text, now);
    Complaints.FromMapIgnoresId(c.ToMap(), VStr(c.id), id);
    Complaints.RoundTrip(c);
  }

  const EmptyComplaintMessage := "Complaint text cannot be empty"
  const NotAuthenticatedMessage := "User not authenticated"
  const SubmitFailedMessage := "Failed to submit complaint. Please try again."
  const FetchFailedMessage := "Failed to fetch user data"

  class SupportViewModel {
    /** Every value published on `complaintState`, oldest first. */
    var complaintStates: seq<Resource<string>>
    /** Every value published on `userData`, oldest first. */
    var userStates: seq<Resource<User>>

    constructor()
      ensures complaintStates == [] && userStates == []
    {
      complaintStates := [];
      userStates := [];
    }

    /** `fetchUserData`: `account` is the signed-in account, `doc` the
        profile document and `read` whether reading it threw. */
    method FetchUserData(account: Option<AuthUser>, doc: Snapshot, read: Call)
      modifies this
      ensures complaintStates == old(complaintStates)
      ensures account.None? ==> userStates == old(userStates) + [Loading, Error(NotAuthenticatedMessage)]
      ensures account.Some? && read.Throws? ==>
                userStates == old(userStates) + [Loading, Error(read.MessageOr(FetchFailedMessage))]
      ensures account.Some? && read.Succeeds? ==>
                userStates == old(userStates) + [Loading, Success(ProfileUser(doc, account.value))]
    {
      userStates := userStates + [Loading];
      if account.None? {
        userStates := userStates + [Error(NotAuthenticatedMessage)];
        return;
      }
      if read.Throws? {
        userStates := userStates + [Error(read.MessageOr(FetchFailedMessage))];
      } else {
        userStates := userStates + [Success(ProfileUser(doc, account.value))];
      }
    }

    /** `submitComplaint`: `read` is the profile read, `newId` the id of the
        new complaint document and `write` the write of it; `written` is the
        complaint stored, if any. */
    method SubmitComplaint(text: string, account: Option<AuthUser>, doc: Snapshot, read: Call,
                           newId: string, write: Call, now: int)
      returns (written: Option<Complaint>)
      modifies this
      ensures userStates == old(userStates)
      ensures complaintStates == old(complaintStates) + ComplaintStates(text, account, read, newId, write)
      ensures written.Some? <==> Stored(text, account, read, write)
      ensures written.Some? ==>
                written.value == NewComplaint(newId, account.value, ProfileUser(doc, account.value), text, now)
    {
      written := None;
      if Stored(text, account, read, write) {
        written := Some(NewComplaint(newId, account.value, ProfileUser(doc, account.value), text, now));
      }
      complaintStates := complaintStates + ComplaintStates(text, account, read, newId, write);
    }
  }

  /** Whether `submitComplaint` gets as far as a successful write. */
  predicate Stored(text: string, account: Option<AuthUser>, read: Call, write: Call)
  {
    !IsBlank(text) && account.Some? && read.Succeeds? && write.Succeeds?
  }

  /** The states `submitComplaint` publishes: a blank text is refused before
      anything loads; every other path loads first, then ends in the
      success with the new id or in the first failure met. */
  function ComplaintStates(text: string, account: Option<AuthUser>, read: Call, newId: string, write: Call)
    : (r: seq<Resource<string>>)
    ensures IsBlank(text) ==> r == [Error(EmptyComplaintMessage)]
    ensures !IsBlank(text) ==> |r| == 2 && r[0] == Loading
    ensures !IsBlank(text) && account.None? ==> r[1] == Error(NotAuthenticatedMessage)
    ensures !IsBlank(text) && account.Some? && read.Throws? ==> r[1] == Error(read.MessageOr(SubmitFailedMessage))
    ensures !IsBlank(text) && account.Some? && read.Succeeds? && write.Throws? ==>
              r[1] == Error(write.MessageOr(SubmitFailedMessage))
    ensures r[|r| - 1] == Success(newId) <==> Stored(text, account, read, write)
  {
    if IsBlank(text) then [Error(EmptyComplaintMessage)]
    else if account.None? then [Loading, Error(NotAuthenticatedMessage)]
    else if read.Throws? then [Loading, Error(read.MessageOr(SubmitFailedMessage))]
    else if write.Throws? then [Loading, Error(write.MessageOr(SubmitFailedMessage))]
    else [Loading, Success(newId)]
  }

  /** A stored complaint carries the text submitted, is pending, is of the
      customer-service type, names its author without blanks and is
      readable back from its document. */
  lemma StoredComplaintMeaning(text: string, account: AuthUser, doc: Snapshot, newId: string, now: int)
    ensures var c := NewComplaint(newId, account, ProfileUser(doc, account), text, now);
            c.text == text && c.status == "pending" && c.complaintType == "customer_service"
            && !IsBlank(c.userName) && c.userId == account.uid
            && Complaints.FromMap(WrittenFields(c), newId) == c
  {
    WrittenReadsBack(newId, account, ProfileUser(doc, account), text, now);
  }
}
