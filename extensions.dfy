/**
 * Helper extensions: word capitalisation for stored enum names and the
 * colour of a prescription status.
 */
module Extensions {
  import opened Text
  import opened Firestore
  import opened Prescriptions

  /** `capitalize()`: the first character upper-cased. */
  function Capitalize(w: string): (r: string)
    ensures |r| == |w|
    ensures w != [] ==> r == [UpperChar(w[0])] + w[1..]
  {
    if w == [] then [] else [UpperChar(w[0])] + w[1..]
  }

  function CapitalizeAll(ws: seq<string>): (r: seq<string>)
    ensures |r| == |ws|
    ensures forall k :: 0 <= k < |ws| ==> r[k] == Capitalize(ws[k])
  {
    seq(|ws|, k requires 0 <= k < |ws| => Capitalize(ws[k]))
  }

  /** What `capitalizeWords` makes of the character at `i`: an underscore
      becomes a space, and the first character of each word is upper-cased. */
  function CapitalizedAt(s: string, i: nat): char
    requires i < |s|
  {
    if s[i] == '_' then ' '
    else if i == 0 || s[i - 1] == '_' then UpperChar(s[i])
    else s[i]
  }

  /** `capitalizeWords()`: split on "_", capitalise each piece, join with a
      space; character by character, underscores turn into spaces and every
      word starts upper-cased. */
  function CapitalizeWords(s: string): (r: string)
    ensures |r| == |s|
    ensures forall i :: 0 <= i < |s| ==> r[i] == CapitalizedAt(s, i)
  {
    CapitalizeWordsPointwise(s);
    Join(CapitalizeAll(Split(s, '_')), " ")
  }

  lemma {:induction false} CapitalizeWordsPointwise(s: string)
    ensures |Join(CapitalizeAll(Split(s, '_')), " ")| == |s|
    ensures forall i :: 0 <= i < |s| ==> Join(CapitalizeAll(Split(s, '_')), " ")[i] == CapitalizedAt(s, i)
    decreases |s|
  {
    if '_' !in s {
      CapitalizeWordPointwise(s);
    } else {
      var k := IndexOf(s, '_');
      var tail := s[k + 1..];
      CapitalizeWordsPointwise(tail);
      assert Split(s, '_') == [s[..k]] + Split(tail, '_');
      CapitalizeAllCons(s[..k], Split(tail, '_'));
      JoinCons(Capitalize(s[..k]), CapitalizeAll(Split(tail, '_')), " ");
      CapitalizeWordPointwise(s[..k]);
      JoinAfterWord(s, k, Capitalize(s[..k]), Join(CapitalizeAll(Split(tail, '_')), " "));
    }
  }

  lemma CapitalizeAllCons(w: string, ws: seq<string>)
    ensures CapitalizeAll([w] + ws) == [Capitalize(w)] + CapitalizeAll(ws)
  {
    var l, r := CapitalizeAll([w] + ws), [Capitalize(w)] + CapitalizeAll(ws);
    assert |l| == |r|;
    forall k | 0 <= k < |l|
      ensures l[k] == r[k]
    {
      if k > 0 {
        assert ([w] + ws)[k] == ws[k - 1];
      }
    }
  }

  lemma JoinCons(w: string, ws: seq<string>, sep: string)
    requires ws != []
    ensures Join([w] + ws, sep) == w + sep + Join(ws, sep)
  {
    assert ([w] + ws)[1..] == ws;
  }

  /** A single word (no underscore) is capitalised character by character. */
  lemma CapitalizeWordPointwise(w: string)
    requires '_' !in w
    ensures forall i :: 0 <= i < |w| ==> Capitalize(w)[i] == CapitalizedAt(w, i)
  {
  }

  /** Gluing the first word, a space and the rest keeps the character-wise
      description. */
  lemma JoinAfterWord(s: string, k: nat, head: string, rest: string)
    requires k < |s| && s[k] == '_' && '_' !in s[..k]
    requires |head| == k && forall i :: 0 <= i < k ==> head[i] == CapitalizedAt(s[..k], i)
    requires |rest| == |s| - k - 1
    requires forall j :: 0 <= j < |rest| ==> rest[j] == CapitalizedAt(s[k + 1..], j)
    ensures |head + " " + rest| == |s|
    ensures forall i :: 0 <= i < |s| ==> (head + " " + rest)[i] == CapitalizedAt(s, i)
  {
    var r := head + " " + rest;
    forall i | 0 <= i < |s|
      ensures r[i] == CapitalizedAt(s, i)
    {
      if i < k {
        assert r[i] == head[i];
        assert s[i] == s[..k][i];
        assert i > 0 ==> s[i - 1] == s[..k][i - 1];
      } else if i > k {
        assert r[i] == rest[i - k - 1];
        assert s[i] == s[k + 1..][i - k - 1];
        assert i - k - 1 > 0 ==> s[i - 1] == s[k + 1..][i - k - 2];
      }
    }
  }

  /** A stored enum name has one word per underscore, plus one. */
  lemma WordCount(s: string)
    ensures |CapitalizeAll(Split(s, '_'))| == Count(s, '_') + 1
  {
    SplitPieces(s, '_');
  }

  datatype StatusColour = Green | Red | OrangeYellow

  /** `getPrescriptionStatusColor()`: green for approved, red for
      rejected, orange otherwise, ignoring case. */
  function PrescriptionStatusColour(status: string): (r: StatusColour)
    ensures r == Green <==> EqualsIgnoreCase(status, StatusApproved)
    ensures r == Red <==> EqualsIgnoreCase(status, StatusRejected)
  {
    assert Lower(StatusApproved) == StatusApproved;
    assert Lower(StatusRejected) == StatusRejected;
    var l := Lower(status);
    if l == "approved" then Green
    else if l == "rejected" then Red
    else OrangeYellow
  }

  /** The colour follows the record's own status predicates. */
  lemma ColourMatchesStatus(p: PrescriptionData)
    ensures PrescriptionStatusColour(p.status) == Green <==> p.IsApproved()
    ensures PrescriptionStatusColour(p.status) == Red <==> p.IsRejected()
    ensures p.IsPending() || p.IsUsed() || p.IsCancelled() ==> PrescriptionStatusColour(p.status) == OrangeYellow
  {
    StatusesExclusive(p);
  }
}
