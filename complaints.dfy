/** A customer-service complaint and its stored form. */
module Complaints {
  import opened Text
  import opened Firestore

  const DefaultStatus: string := "pending"
  const DefaultType: string := "customer_service"

  /** `timestamp` is the server time in milliseconds, absent until the
      store has set it. */
  datatype Complaint = Complaint(
    userId: string,
    userEmail: string,
    userName: string,
    text: string,
    timestamp: Option<int>,
    status: string,
    complaintType: string,
    id: string)
  {
    /** `toMap()`: the seven stored fields; the id is not one of them. */
    function ToMap(): (m: Fields)
      ensures m.Keys == {"userId", "userEmail", "userName", "text", "timestamp", "status", "type"}
      ensures "id" !in m
      ensures timestamp.None? <==> m["timestamp"] == VNull
    {
      map["userId" := VStr(userId), "userEmail" := VStr(userEmail), "userName" := VStr(userName),
          "text" := VStr(text),
          "timestamp" := if timestamp.Some? then VTimestamp(timestamp.value) else VNull,
          "status" := VStr(status), "type" := VStr(complaintType)]
    }
  }

  /** `fromMap(map, id)`: strings default to "", the status to "pending"
      and the type to "customer_service"; a timestamp of any other kind is
      dropped. */
  function FromMap(m: Fields, id: string := ""): (c: Complaint)
    ensures c.id == id
    ensures !("status" in m && m["status"].VStr?) ==> c.status == DefaultStatus
    ensures !("type" in m && m["type"].VStr?) ==> c.complaintType == DefaultType
    ensures !("text" in m && m["text"].VStr?) ==> c.text == ""
    ensures c.timestamp.Some? <==> "timestamp" in m && m["timestamp"].VTimestamp?
  {
    Complaint(
      userId := StringOr(m, "userId", ""),
      userEmail := StringOr(m, "userEmail", ""),
      userName := StringOr(m, "userName", ""),
      text := StringOr(m, "text", ""),
      timestamp := if "timestamp" in m && m["timestamp"].VTimestamp? then Some(m["timestamp"].millis) else None,
      status := StringOr(m, "status", DefaultStatus),
      complaintType := StringOr(m, "type", DefaultType),
      id := id)
  }

  /** An "id" field in the document plays no part in reading it. */
  lemma FromMapIgnoresId(m: Fields, v: Value, id: string)
    ensures FromMap(m["id" := v], id) == FromMap(m, id)
  {
  }

  /** Storing a complaint and reading it back with its id gives it back. */
  lemma RoundTrip(c: Complaint)
    ensures FromMap(c.ToMap(), c.id) == c
  {
  }
}
