/** Storefront search (src/routes/search.js): the query normalisation, the fixed
    and derived suggestion lists, and the filter of the product search. The
    store's matching categories and products are inputs. */
module Search {
  import opened Common

  /** At most this many products are suggested. */
  const SuggestedProductLimit: nat := 5

  const DefaultSuggestions: seq<string> := ["shirts", "linen pants", "brown dress", "summer tops"]
  const DefaultCategories: seq<string> := ["shirts", "pants", "sets", "accessories"]

  /** `(q || "").toLowerCase().trim()`. */
  function SuggestionQuery(q: Option<string>): string {
    Trim(Lower(if q.Some? then q.value else ""))
  }

  /** `q?.trim().toLowerCase() || ""`: the other route trims before lowering. */
  function ProductsQuery(q: Option<string>): string {
    if q.Some? then Lower(Trim(q.value)) else ""
  }

  /** Both routes read the same text out of the same parameter. */
  lemma QueriesAgree(q: Option<string>)
    ensures SuggestionQuery(q) == ProductsQuery(q)
  {
    if q.Some? {
      LowerTrimCommute(q.value);
    }
  }

  lemma LowerIdempotent(s: string)
    ensures Lower(Lower(s)) == Lower(s)
  {
  }

  /** A trimmed string has no white space at either end, so trimming it again changes nothing. */
  lemma TrimIdempotent(s: string)
    ensures Trim(Trim(s)) == Trim(s)
  {
    var r := Trim(s);
    assert TrimStart(r) == r;
    assert TrimEnd(r) == r;
  }

  /** Normalising a normalised query changes nothing. */
  lemma SuggestionQueryIdempotent(q: Option<string>)
    ensures SuggestionQuery(Some(SuggestionQuery(q))) == SuggestionQuery(q)
  {
    var s := if q.Some? then q.value else "";
    LowerTrimCommute(Lower(s));
    LowerIdempotent(s);
    TrimIdempotent(Lower(s));
  }

  datatype Suggestions = Suggestions(suggestions: seq<string>, categories: seq<string>, products: seq<string>)

  /** GET /suggestions. An empty query answers with the fixed lists and no products;
      any other gives three suggestions built from the query, the matching
      categories, and at most five matching products. */
  function SuggestionsFor(q: Option<string>, categoryMatches: seq<string>, productMatches: seq<string>): (r: Suggestions)
    ensures SuggestionQuery(q) == "" ==>
              r == Suggestions(DefaultSuggestions, DefaultCategories, [])
    ensures SuggestionQuery(q) != "" ==>
              var t := SuggestionQuery(q);
              r.suggestions == Derived(t) &&
              r.categories == categoryMatches &&
              |r.products| == (if |productMatches| < SuggestedProductLimit then |productMatches| else SuggestedProductLimit) &&
              r.products == productMatches[..|r.products|]
  {
    var t := SuggestionQuery(q);
    if t == "" then Suggestions(DefaultSuggestions, DefaultCategories, [])
    else
      var n := if |productMatches| < SuggestedProductLimit then |productMatches| else SuggestedProductLimit;
      Suggestions(Derived(t), categoryMatches, productMatches[..n])
  }

  /** The three suggestions derived from a non-empty query. */
  function Derived(t: string): (r: seq<string>)
    ensures |r| == 3
    ensures r[0] == t + " outfit ideas" && r[1] == t + " styles" && r[2] == "best " + t + " for women"
  {
    [t + " outfit ideas", t + " styles", "best " + t + " for women"]
  }

  /** Every derived suggestion contains the query. */
  lemma DerivedContainQuery(t: string)
    ensures forall k :: 0 <= k < |Derived(t)| ==> Includes(Derived(t)[k], t)
  {
    IncludesMiddle("", t, " outfit ideas");
    IncludesMiddle("", t, " styles");
    IncludesMiddle("best ", t, " for women");
    assert "" + t + " outfit ideas" == t + " outfit ideas";
    assert "" + t + " styles" == t + " styles";
  }

  lemma IncludesMiddle(p: string, t: string, u: string)
    ensures Includes(p + t + u, t)
  {
    assert (p + t + u)[|p|..|p| + |t|] == t;
    assert OccursAt(t, p + t + u, |p|);
  }

  /** The product search's filter: a category condition only for a non-empty
      category, a name condition only for a non-empty query. */
  datatype ProductsFilter = ProductsFilter(category: Option<string>, name: Option<string>)

  function ProductsFilterFor(q: Option<string>, category: Option<string>): (f: ProductsFilter)
    ensures f.category.Some? <==> ProductsQuery(category) != ""
    ensures f.category.Some? ==> f.category.value == ProductsQuery(category)
    ensures f.name.Some? <==> ProductsQuery(q) != ""
    ensures f.name.Some? ==> f.name.value == ProductsQuery(q)
  {
    var t := ProductsQuery(q);
    var c := ProductsQuery(category);
    ProductsFilter(if c != "" then Some(c) else None, if t != "" then Some(t) else None)
  }

  /** A parameter of white space only adds no condition. */
  lemma BlankParameterIgnored(q: Option<string>, category: Option<string>)
    requires q.Some? && forall k :: 0 <= k < |q.value| ==> IsSpace(q.value[k])
    ensures ProductsFilterFor(q, category).name.None?
  {
  }
}
