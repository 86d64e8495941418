/** A customer profile and its stored form. */
module Users {
  import opened Text
  import opened Firestore

  /** The id is not stored with the profile; it is the document's id. */
  datatype User = User(firstName: string, lastName: string, email: string, imagePath: string, id: string)
  {
    /** First and last name separated by a space, with the surrounding
        whitespace trimmed off. */
    function FullName(): (r: string)
      ensures firstName == "" && lastName == "" ==> r == ""
      ensures NoOuterSpace(firstName) && NoOuterSpace(lastName) && firstName != "" && lastName != ""
              ==> r == firstName + " " + lastName
      ensures NoOuterSpace(firstName) && lastName == "" ==> r == firstName
      ensures NoOuterSpace(lastName) && firstName == "" ==> r == lastName
    {
      var joined := firstName + " " + lastName;
      assert NoOuterSpace(firstName) && NoOuterSpace(lastName) && firstName != "" && lastName != ""
             ==> Trim(joined) == joined by {
        if NoOuterSpace(firstName) && NoOuterSpace(lastName) && firstName != "" && lastName != "" {
          assert "" + joined + "" == joined;
          TrimSurrounded("", joined, "");
        }
      }
      assert NoOuterSpace(firstName) && lastName == "" ==> Trim(joined) == firstName by {
        if NoOuterSpace(firstName) && lastName == "" {
          assert joined == "" + firstName + " ";
          TrimSurrounded("", firstName, " ");
        }
      }
      assert NoOuterSpace(lastName) && firstName == "" ==> Trim(joined) == lastName by {
        if NoOuterSpace(lastName) && firstName == "" {
          assert joined == " " + lastName + "";
          TrimSurrounded(" ", lastName, "");
        }
      }
      Trim(joined)
    }

    /** `toMap()`: the four stored fields. */
    function ToMap(): (m: Fields)
      ensures m.Keys == {"firstName", "lastName", "email", "imagePath"}
      ensures "id" !in m
      ensures forall k :: k in m ==> m[k].VStr?
    {
      map["firstName" := VStr(firstName), "lastName" := VStr(lastName),
          "email" := VStr(email), "imagePath" := VStr(imagePath)]
    }
  }

  /** Neither starts nor ends with whitespace. */
  predicate NoOuterSpace(s: string)
  {
    s == [] || (!IsSpace(s[0]) && !IsSpace(s[|s| - 1]))
  }

  /** `fromMap(map, id)`: every field a string or "" when missing or of
      another type. */
  function FromMap(m: Fields, id: string := ""): (u: User)
    ensures u.id == id
    ensures u.firstName == StringOr(m, "firstName", "") && u.lastName == StringOr(m, "lastName", "")
    ensures u.email == StringOr(m, "email", "") && u.imagePath == StringOr(m, "imagePath", "")
  {
    User(StringOr(m, "firstName", ""), StringOr(m, "lastName", ""),
         StringOr(m, "email", ""), StringOr(m, "imagePath", ""), id)
  }

  /** Storing a profile and reading it back with its id gives it back. */
  lemma RoundTrip(u: User)
    ensures FromMap(u.ToMap(), u.id) == u
  {
  }

  /** Reading an empty map gives the empty profile. */
  lemma FromEmptyMap(id: string)
    ensures FromMap(map[], id) == User("", "", "", "", id)
  {
  }
}
