/**
 * Product search: the query and category a search screen keeps, the
 * in-stock catalogue query, the client-side text match and the relevance
 * order of the results.
 */
module Search {
  import opened Text
  import opened Firestore
  import opened Products

  /** A catalogue document: the product it maps to (its id already the
      document id) and its `inStock` flag. */
  datatype Listing = Listing(product: Product, inStock: bool)

  /** The catalogue query: in-stock products, of the given category when
      there is one, in catalogue order. */
  function InStock(catalogue: seq<Listing>, category: Option<string>): (r: seq<Product>)
    ensures |r| <= |catalogue|
    ensures forall p :: p in r <==>
              exists i :: 0 <= i < |catalogue| && catalogue[i].product == p && catalogue[i].inStock
                          && (category.Some? ==> p.category == category.value)
  {
    if catalogue == [] then []
    else
      var l := catalogue[0];
      var rest := InStock(catalogue[1..], category);
      assert forall i :: 1 <= i < |catalogue| ==> catalogue[i] == catalogue[1..][i - 1];
      (if l.inStock && (category.Some? ==> l.product.category == category.value) then [l.product] else [])
      + rest
  }

  /** The texts a product is searched in: its non-null text fields and its
      ingredient and strength lists joined by spaces. */
  function SearchedTexts(p: Product): (r: seq<string>)
    ensures p.name in r && p.genericName in r && p.category in r && p.dosageForm in r
    ensures p.description.Some? ==> p.description.value in r
    ensures p.manufacturer.Some? ==> p.manufacturer.value in r
    ensures p.pharmacyName.Some? ==> p.pharmacyName.value in r
    ensures Join(p.activeIngredients, " ") in r && Join(p.strengths, " ") in r
  {
    [p.name, p.genericName]
    + (if p.description.Some? then [p.description.value] else [])
    + (if p.manufacturer.Some? then [p.manufacturer.value] else [])
    + [p.category, p.dosageForm]
    + (if p.pharmacyName.Some? then [p.pharmacyName.value] else [])
    + [Join(p.activeIngredients, " "), Join(p.strengths, " ")]
  }

  /** `searchInProduct`: some searched text contains the query, both
      lower-cased. */
  function Matches(p: Product, query: string): (r: bool)
    ensures query == [] ==> r
    ensures Contains(Lower(p.name), Lower(query)) ==> r
    ensures Contains(Lower(p.category), Lower(query)) ==> r
  {
    assert query == [] ==> OccursAt(Lower(p.name), Lower(query), 0);
    exists t :: t in SearchedTexts(p) && Contains(Lower(t), Lower(query))
  }

  /** The query's matches, in their original order. */
  function MatchesOf(ps: seq<Product>, query: string): (r: seq<Product>)
    ensures |r| <= |ps|
    ensures forall p :: p in r <==> p in ps && Matches(p, query)
  {
    if ps == [] then []
    else (if Matches(ps[0], query) then [ps[0]] else []) + MatchesOf(ps[1..], query)
  }

  predicate StartsWith(s: string, prefix: string)
  {
    |prefix| <= |s| && s[..|prefix|] == prefix
  }

  /** The relevance class of a product: 0 for an exact name, 1 for a name
      prefix, 2 for an exact generic name, 3 for a generic-name prefix, 4
      otherwise; all comparisons ignore case. */
  function Rank(p: Product, query: string): (r: nat)
    ensures r <= 4
    ensures r == 0 <==> Lower(p.name) == Lower(query)
    ensures r == 1 <==> Lower(p.name) != Lower(query) && StartsWith(Lower(p.name), Lower(query))
    ensures r < 2 <==> StartsWith(Lower(p.name), Lower(query))
    ensures r < 4 <==> StartsWith(Lower(p.name), Lower(query)) || StartsWith(Lower(p.genericName), Lower(query))
  {
    var q := Lower(query);
    if Lower(p.name) == q then 0
    else if StartsWith(Lower(p.name), q) then 1
    else if Lower(p.genericName) == q then 2
    else if StartsWith(Lower(p.genericName), q) then 3
    else 4
  }

  /** A product in one of the first four relevance classes matches the
      query: its name or generic name contains it. */
  lemma RankedMatches(p: Product, query: string)
    requires Rank(p, query) < 4
    ensures Matches(p, query)
  {
    var q := Lower(query);
    if StartsWith(Lower(p.name), q) {
      assert OccursAt(Lower(p.name), q, 0);
      assert p.name in SearchedTexts(p);
    } else {
      assert OccursAt(Lower(p.genericName), q, 0);
      assert p.genericName in SearchedTexts(p);
    }
  }

  /** Kotlin's `String.compareTo(...) <= 0`: character by character, a
      proper prefix first. */
  predicate NameLe(a: string, b: string)
    decreases |a|
  {
    a == [] || (b != [] && (a[0] < b[0] || (a[0] == b[0] && NameLe(a[1..], b[1..]))))
  }

  /** Any two names are ordered one way or the other. */
  lemma {:induction false} NameLeTotal(a: string, b: string)
    ensures NameLe(a, b) || NameLe(b, a)
    decreases |a|
  {
    if a != [] && b != [] && a[0] == b[0] {
      NameLeTotal(a[1..], b[1..]);
    }
  }

  /** The result order: relevance class first, then name. */
  predicate RelevanceLe(a: Product, b: Product, query: string)
  {
    Rank(a, query) < Rank(b, query) || (Rank(a, query) == Rank(b, query) && NameLe(a.name, b.name))
  }

  lemma RelevanceTotal(a: Product, b: Product, query: string)
    ensures RelevanceLe(a, b, query) || RelevanceLe(b, a, query)
  {
    NameLeTotal(a.name, b.name);
  }

  predicate Sorted(ps: seq<Product>, query: string)
  {
    forall i :: 0 < i < |ps| ==> RelevanceLe(ps[i - 1], ps[i], query)
  }

  /** `p` placed before the first entry it does not follow, in a sorted list. */
  function Insert(p: Product, ps: seq<Product>, query: string): (r: seq<Product>)
    requires Sorted(ps, query)
    ensures Sorted(r, query)
    ensures multiset(r) == multiset(ps) + multiset{p}
    ensures r[0] == p || (ps != [] && r[0] == ps[0])
  {
    if ps == [] then [p]
    else if RelevanceLe(p, ps[0], query) then [p] + ps
    else
      var rest := Insert(p, ps[1..], query);
      RelevanceTotal(p, ps[0], query);
      assert ps == [ps[0]] + ps[1..];
      [ps[0]] + rest
  }

  /** `sortedWith(compareBy { rank }.thenBy { name })`: the same products,
      ordered by relevance. */
  function SortByRelevance(ps: seq<Product>, query: string): (r: seq<Product>)
    ensures Sorted(r, query)
    ensures multiset(r) == multiset(ps)
  {
    if ps == [] then []
    else
      assert ps == [ps[0]] + ps[1..];
      Insert(ps[0], SortByRelevance(ps[1..], query), query)
  }

  /** `searchProductsInFirestore`: the in-stock products (of the category, if
      one is set) that match, ordered by relevance. */
  function SearchResults(catalogue: seq<Listing>, query: string, category: Option<string>): seq<Product>
  {
    SortByRelevance(MatchesOf(InStock(catalogue, category), query), query)
  }

  /** The results are exactly the matching in-stock products, by relevance. */
  lemma SearchResultsMeaning(catalogue: seq<Listing>, query: string, category: Option<string>)
    ensures var r := SearchResults(catalogue, query, category);
            Sorted(r, query)
            && (forall p :: p in r <==> p in InStock(catalogue, category) && Matches(p, query))
            && |r| <= |catalogue|
  {
    var m := MatchesOf(InStock(catalogue, category), query);
    var r := SearchResults(catalogue, query, category);
    assert multiset(r) == multiset(m);
    forall p
      ensures p in r <==> p in m
    {
      assert p in r <==> multiset(r)[p] > 0;
      assert p in m <==> multiset(m)[p] > 0;
    }
    assert |r| == |multiset(r)| == |m|;
  }

  const SearchFailedPrefix := "Search failed: "
  const CategoryFailedPrefix := "Failed to get products by category: "

  /** What `executeSearch` finally publishes. `fetchError` is the failure of
      the catalogue query, if it fails. */
  function SearchOutcome(query: string, category: Option<string>, catalogue: seq<Listing>,
                         fetchError: Option<string>): (r: Resource<seq<Product>>)
    ensures query == [] && category.None? ==> r == Success([])
    ensures query == [] && category.Some? ==>
              r == if fetchError.Some? then Error(CategoryFailedPrefix + fetchError.value)
                   else Success(InStock(catalogue, category))
    ensures query != [] && fetchError.Some? ==> r == Error(SearchFailedPrefix + fetchError.value)
    ensures query != [] && fetchError.None? ==> r == Success(SearchResults(catalogue, query, category))
  {
    if query == [] then
      if category.None? then Success([])
      else if fetchError.Some? then Error(CategoryFailedPrefix + fetchError.value)
      else Success(InStock(catalogue, category))
    else if fetchError.Some? then Error(SearchFailedPrefix + fetchError.value)
    else Success(SearchResults(catalogue, query, category))
  }

  /** A successful search with a query only shows in-stock products of the
      chosen category that match it, in relevance order. */
  lemma SearchShowsMatches(query: string, category: Option<string>, catalogue: seq<Listing>,
                           fetchError: Option<string>, p: Product)
    requires query != []
    requires SearchOutcome(query, category, catalogue, fetchError).Success?
    ensures var r := SearchOutcome(query, category, catalogue, fetchError).data;
            Sorted(r, query)
            && (p in r <==> Matches(p, query)
                            && exists i :: 0 <= i < |catalogue| && catalogue[i].product == p && catalogue[i].inStock
                                           && (category.Some? ==> p.category == category.value))
  {
    SearchResultsMeaning(catalogue, query, category);
  }

  /** The search screen's state. */
  class SearchViewModel {
    var currentQuery: string
    var currentCategory: Option<string>
    var searchResults: Resource<seq<Product>>

    constructor()
      ensures currentQuery == [] && currentCategory.None? && searchResults == Unspecified
    {
      currentQuery := [];
      currentCategory := None;
      searchResults := Unspecified;
    }

    /** `executeSearch`, with the catalogue and the query failure as inputs;
        the intermediate `Loading` value is overwritten at once. */
    method ExecuteSearch(catalogue: seq<Listing>, fetchError: Option<string>)
      modifies this
      ensures currentQuery == old(currentQuery) && currentCategory == old(currentCategory)
      ensures searchResults == SearchOutcome(currentQuery, currentCategory, catalogue, fetchError)
    {
      searchResults := Loading;
      if currentQuery == [] {
        if currentCategory.None? {
          searchResults := Success([]);
        } else if fetchError.Some? {
          searchResults := Error(CategoryFailedPrefix + fetchError.value);
        } else {
          searchResults := Success(InStock(catalogue, currentCategory));
        }
      } else if fetchError.Some? {
        searchResults := Error(SearchFailedPrefix + fetchError.value);
      } else {
        searchResults := Success(SearchResults(catalogue, currentQuery, currentCategory));
      }
    }

    /** `searchProducts`: remember the trimmed query, keep the category. */
    method SearchProducts(query: string, catalogue: seq<Listing>, fetchError: Option<string>)
      modifies this
      ensures currentQuery == Trim(query) && currentCategory == old(currentCategory)
      ensures searchResults == SearchOutcome(Trim(query), old(currentCategory), catalogue, fetchError)
    {
      currentQuery := Trim(query);
      ExecuteSearch(catalogue, fetchError);
    }

    /** `setCategoryFilter`: remember the category, keep the query. */
    method SetCategoryFilter(category: Option<string>, catalogue: seq<Listing>, fetchError: Option<string>)
      modifies this
      ensures currentCategory == category && currentQuery == old(currentQuery)
      ensures searchResults == SearchOutcome(old(currentQuery), category, catalogue, fetchError)
    {
      currentCategory := category;
      ExecuteSearch(catalogue, fetchError);
    }

    /** `clearSearchResults`: forget query and category, publish no results. */
    method ClearSearchResults()
      modifies this
      ensures currentQuery == [] && currentCategory.None? && searchResults == Success([])
    {
      currentQuery := [];
      currentCategory := None;
      searchResults := Success([]);
    }
  }

  /** A blank query searches nothing: with no category the result is empty. */
  lemma BlankQueryFindsNothing(query: string, catalogue: seq<Listing>, fetchError: Option<string>)
    requires IsBlank(query)
    ensures SearchOutcome(Trim(query), None, catalogue, fetchError) == Success([])
  {
  }
}
