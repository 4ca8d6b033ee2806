/** `BrowseMaterials`: the homeowner's list of vendor products, fetched from the
    backend, with a category filter and a case-insensitive search. The `products`
    query is not part of this model; its result is an input of the fetch. */
module BrowseMaterials {
  import opened Wrappers
  import opened Types
  import opened Text
  import opened Seqs

  /** The filter value that selects every category. */
  const ALL := "all"

  /** The search: the lower-cased term occurs in the lower-cased name, description
      or category. A product without a description does not match on it. */
  predicate MatchesSearch(term: string, p: Product)
  {
    var t := ToLower(term);
    Contains(ToLower(p.name), t) ||
    (p.description.Some? && Contains(ToLower(p.description.value), t)) ||
    Contains(ToLower(p.category), t)
  }

  /** The category filter, which "all" switches off. */
  predicate ByCategory(filter: string, p: Product)
  {
    filter == ALL || p.category == filter
  }

  /** The search, which an empty term switches off. */
  predicate BySearch(term: string, p: Product)
  {
    term == "" || MatchesSearch(term, p)
  }

  /** Whether a product is listed: it passes both. */
  predicate Kept(p: Product, term: string, filter: string)
  {
    ByCategory(filter, p) && BySearch(term, p)
  }

  /** The listed products: those kept, in the fetched order. */
  function Visible(ps: seq<Product>, term: string, filter: string): seq<Product>
  {
    Filter(ps, p => Kept(p, term, filter))
  }

  /** The list keeps the fetched order and drops only entries. */
  lemma VisibleIsSubsequence(ps: seq<Product>, term: string, filter: string)
    ensures IsSubsequence(Visible(ps, term, filter), ps)
  {
    FilterIsSubsequence(ps, p => Kept(p, term, filter));
  }

  /** A fetched product is listed iff it is kept. */
  lemma VisibleIffKept(ps: seq<Product>, term: string, filter: string, p: Product)
    requires p in ps
    ensures p in Visible(ps, term, filter) <==> Kept(p, term, filter)
  {
    var v := Visible(ps, term, filter);
    if p in v {
      var i :| 0 <= i < |v| && v[i] == p;
    }
  }

  /** With "all" and an empty term, everything is listed; with a category other
      than "all", every listed product has that category. */
  lemma FilterDefaults(ps: seq<Product>, term: string, filter: string)
    ensures Visible(ps, "", ALL) == ps
    ensures Visible(ps, term, ALL) == Filter(ps, p => BySearch(term, p))
    ensures Visible(ps, "", filter) == Filter(ps, p => ByCategory(filter, p))
    ensures filter != ALL ==> forall i :: 0 <= i < |Visible(ps, term, filter)| ==> Visible(ps, term, filter)[i].category == filter
  {
    FilterKeepsAll(ps, p => Kept(p, "", ALL));
    FilterAgree(ps, p => Kept(p, term, ALL), p => BySearch(term, p));
    FilterAgree(ps, p => Kept(p, "", filter), p => ByCategory(filter, p));
  }

  /** A product whose name and category do not contain the term is never found
      through a missing description. */
  lemma MissingDescriptionNeverMatches(term: string, p: Product)
    requires p.description.None?
    requires !Contains(ToLower(p.name), ToLower(term)) && !Contains(ToLower(p.category), ToLower(term))
    ensures !MatchesSearch(term, p)
  {
  }

  /** A non-empty term matches iff its lower-cased form occurs at some position of
      the lower-cased name, description or category; its own case does not matter. */
  lemma SearchIsCaseInsensitiveSubstring(term: string, p: Product)
    ensures MatchesSearch(term, p) <==>
      (exists i :: OccursAt(ToLower(p.name), ToLower(term), i)) ||
      (p.description.Some? && exists i :: OccursAt(ToLower(p.description.value), ToLower(term), i)) ||
      (exists i :: OccursAt(ToLower(p.category), ToLower(term), i))
    ensures MatchesSearch(ToLower(term), p) == MatchesSearch(term, p)
  {
    var t := ToLower(term);
    ContainsIffOccurs(ToLower(p.name), t);
    if p.description.Some? {
      ContainsIffOccurs(ToLower(p.description.value), t);
    }
    ContainsIffOccurs(ToLower(p.category), t);
    ToLowerIdempotent(term);
    assert MatchesSearch(term, p) <==>
      Contains(ToLower(p.name), t) ||
      (p.description.Some? && Contains(ToLower(p.description.value), t)) ||
      Contains(ToLower(p.category), t);
  }

  /** Applying the search first and the category filter second lists the same products. */
  lemma FiltersCommute(ps: seq<Product>, term: string, filter: string)
    ensures Filter(Filter(ps, p => BySearch(term, p)), p => ByCategory(filter, p)) == Visible(ps, term, filter)
  {
    FilterFilter(ps, p => BySearch(term, p), p => ByCategory(filter, p), p => Kept(p, term, filter));
  }

  /** The category of each fetched product, in order. */
  function CategoryColumn(ps: seq<Product>): (r: seq<string>)
    ensures |r| == |ps| && forall i :: 0 <= i < |ps| ==> r[i] == ps[i].category
  {
    seq(|ps|, i requires 0 <= i < |ps| => ps[i].category)
  }

  /** `Array.from(new Set(products.map(p => p.category)))`: each category once, in
      the order of first appearance. */
  function Categories(ps: seq<Product>): (r: seq<string>)
    ensures NoDuplicates(r)
    ensures forall i :: 0 <= i < |ps| ==> ps[i].category in r
    ensures forall j :: 0 <= j < |r| ==> r[j] in CategoryColumn(ps)
  {
    Distinct(CategoryColumn(ps))
  }

  /** Earlier categories in the list first appear earlier among the products. */
  lemma CategoriesInFirstAppearanceOrder(ps: seq<Product>)
    ensures forall i, j :: 0 <= i < j < |Categories(ps)| ==>
      FirstIndex(CategoryColumn(ps), Categories(ps)[i]) < FirstIndex(CategoryColumn(ps), Categories(ps)[j])
  {
    DistinctFirstOccurrenceOrder(CategoryColumn(ps));
  }

  /** The state of the page. */
  class BrowseMaterialsPage {
    var products: seq<Product>
    var filtered: seq<Product>
    var searchTerm: string
    var categoryFilter: string
    var isLoading: bool

    constructor ()
      ensures products == [] && filtered == [] && searchTerm == "" && categoryFilter == ALL && isLoading
    {
      products, filtered, searchTerm, categoryFilter, isLoading := [], [], "", ALL, true;
    }

    /** `fetchProducts`: on success both lists become the rows (none when the data is
        null); on an error neither list changes. Loading ends either way. */
    method FetchProducts(data: Option<seq<Product>>, failed: bool)
      modifies this`products, this`filtered, this`isLoading
      ensures !isLoading
      ensures failed ==> products == old(products) && filtered == old(filtered)
      ensures !failed ==> products == (if data.Some? then data.value else []) && filtered == products
    {
      if !failed {
        var rows := if data.Some? then data.value else [];
        products := rows;
        filtered := rows;
      }
      isLoading := false;
    }

    /** The filter effect: the category filter, then the search, each applied only
        when set; the result is exactly the kept products, in order. */
    method ApplyFilters()
      modifies this`filtered
      ensures filtered == Visible(products, searchTerm, categoryFilter)
    {
      var term, filter := searchTerm, categoryFilter;
      var byCategory := p => ByCategory(filter, p);
      var bySearch := p => BySearch(term, p);
      var results := products;
      if filter != ALL {
        results := Filter(results, byCategory);
      }
      if term != "" {
        results := Filter(results, bySearch);
      }
      if filter != ALL && term != "" {
        FilterFilter(products, byCategory, bySearch, p => Kept(p, term, filter));
      } else if filter != ALL {
        FilterAgree(products, byCategory, p => Kept(p, term, filter));
      } else if term != "" {
        FilterAgree(products, bySearch, p => Kept(p, term, filter));
      } else {
        FilterKeepsAll(products, p => Kept(p, term, filter));
      }
      filtered := results;
    }

    /** Typing in the search box, followed by the filter effect. */
    method ChangeSearch(term: string)
      modifies this`searchTerm, this`filtered
      ensures searchTerm == term
      ensures filtered == Visible(products, term, categoryFilter)
    {
      searchTerm := term;
      ApplyFilters();
    }

    /** Choosing a category, followed by the filter effect. */
    method ChangeCategory(filter: string)
      modifies this`categoryFilter, this`filtered
      ensures categoryFilter == filter
      ensures filtered == Visible(products, searchTerm, filter)
    {
      categoryFilter := filter;
      ApplyFilters();
    }
  }
}
