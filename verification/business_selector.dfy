/**
 * The business list with its search box (src/components/business/business-selector-page.tsx).
 */
module BusinessSelector {
  import opened Wrappers
  import opened Seqs
  import opened Text
  import opened ProviderData

  /** The search: the lower-cased name or description contains the lower-cased term. */
  predicate Matches(term: string, b: Business)
  {
    Contains(ToLower(b.name), ToLower(term)) || Contains(ToLower(b.description), ToLower(term))
  }

  /** filteredBusinesses: the matching businesses, in their order. */
  function FilterBusinesses(businesses: seq<Business>, term: string): (r: seq<Business>)
    ensures IsSubsequence(r, businesses)
    ensures forall b :: b in r <==> b in businesses && Matches(term, b)
  {
    Filter(businesses, b => Matches(term, b))
  }

  /** What the page shows. */
  datatype Page = Loading | NoBusinesses | Listing(shown: seq<Business>)

  /**
   * BusinessSelectorPage(): the loading state wins, then an absent or empty list, and only then
   * the filtered listing.
   */
  function SelectorPage(isLoading: bool, businesses: Option<seq<Business>>, term: string): (r: Page)
    ensures isLoading ==> r == Loading
    ensures !isLoading && (businesses.None? || businesses.value == []) ==> r == NoBusinesses
    ensures r.Listing? <==> !isLoading && businesses.Some? && businesses.value != []
    ensures r.Listing? ==> IsSubsequence(r.shown, businesses.value)
                           && forall b :: b in r.shown <==> b in businesses.value && Matches(term, b)
  {
    if isLoading then Loading
    else if businesses.None? || |businesses.value| <= 0 then NoBusinesses
    else Listing(FilterBusinesses(businesses.value, term))
  }

  lemma EmptyOccursEverywhere(s: string)
    ensures Contains(s, "")
  {
    assert OccursAt(s, "", 0);
  }

  /** An empty search keeps every business. */
  lemma {:induction false} EmptyTermKeepsAll(businesses: seq<Business>)
    ensures FilterBusinesses(businesses, "") == businesses
  {
    forall b | b in businesses ensures Matches("", b) {
      EmptyOccursEverywhere(ToLower(b.name));
    }
    FilterKeepsAll(businesses, b => Matches("", b));
  }

  lemma {:induction false} ToLowerIdempotent(s: string)
    ensures ToLower(ToLower(s)) == ToLower(s)
  {
    assert forall i :: 0 <= i < |s| ==> LowerChar(LowerChar(s[i])) == LowerChar(s[i]);
  }

  /** The search ignores ASCII case: a term and its lower-case form select the same businesses. */
  lemma {:induction false} SearchIgnoresCase(businesses: seq<Business>, term: string)
    ensures FilterBusinesses(businesses, term) == FilterBusinesses(businesses, ToLower(term))
  {
    ToLowerIdempotent(term);
    assert forall b :: Matches(term, b) == Matches(ToLower(term), b);
    FilterSameKeep(businesses, b => Matches(term, b), b => Matches(ToLower(term), b));
  }

  lemma {:induction false} FilterSameKeep(s: seq<Business>, p: Business -> bool, q: Business -> bool)
    requires forall b :: p(b) == q(b)
    ensures Filter(s, p) == Filter(s, q)
  {
    if s != [] {
      FilterSameKeep(s[1..], p, q);
    }
  }
}
