/** The fixed product categories and the lookup by display name. */
module Categories {
  import opened Text

  datatype Category = OverTheCounter | Prescription | Vitamins | FirstAid | Wellness

  function CategoryName(c: Category): string
  {
    match c
    case OverTheCounter => "Over The Counter"
    case Prescription => "Prescription"
    case Vitamins => "Vitamins"
    case FirstAid => "First Aid"
    case Wellness => "Wellness"
  }

  /** `values()`, in declaration order. */
  function Values(): (r: seq<Category>)
    ensures |r| == 5
  {
    [OverTheCounter, Prescription, Vitamins, FirstAid, Wellness]
  }

  lemma ValuesComplete(c: Category)
    ensures c in Values()
  {
    var r := Values();
    if c == OverTheCounter { assert r[0] == c; }
    else if c == Prescription { assert r[1] == c; }
    else if c == Vitamins { assert r[2] == c; }
    else if c == FirstAid { assert r[3] == c; }
    else { assert r[4] == c; }
  }

  /** No two category names are equal, even ignoring case: their first
      letters already differ. */
  lemma NamesDistinct(a: Category, b: Category)
    requires a != b
    ensures !EqualsIgnoreCase(CategoryName(a), CategoryName(b))
  {
    DifferAt(CategoryName(a), CategoryName(b), 0);
  }

  /** The first category of `cs` whose name equals `v` ignoring case. */
  function FirstNamed(cs: seq<Category>, v: string): (r: Option<Category>)
    ensures r.Some? ==> r.value in cs && EqualsIgnoreCase(CategoryName(r.value), v)
    ensures r.None? ==> forall c :: c in cs ==> !EqualsIgnoreCase(CategoryName(c), v)
  {
    if cs == [] then None
    else if EqualsIgnoreCase(CategoryName(cs[0]), v) then Some(cs[0])
    else FirstNamed(cs[1..], v)
  }

  /** `Category.fromString`: the category whose name equals the input
      ignoring case, Over The Counter for anything else. */
  function FromString(v: string): (r: Category)
    ensures (exists c :: EqualsIgnoreCase(CategoryName(c), v)) ==> EqualsIgnoreCase(CategoryName(r), v)
    ensures (forall c :: !EqualsIgnoreCase(CategoryName(c), v)) ==> r == OverTheCounter
  {
    assert forall c :: c in Values() by {
      forall c ensures c in Values() { ValuesComplete(c); }
    }
    FirstNamed(Values(), v).OrElse(OverTheCounter)
  }

  /** Looking a category up by its own name, in any case, gives it back. */
  lemma {:induction false} FromStringRoundTrip(c: Category, v: string)
    requires EqualsIgnoreCase(v, CategoryName(c))
    ensures FromString(v) == c
  {
    var r := FromString(v);
    assert EqualsIgnoreCase(CategoryName(r), v);
    if r != c {
      NamesDistinct(r, c);
    }
  }
}
