/**
 * The search page (src/pages/Search.tsx): the listings shown are those
 * whose title or description contains the search term, ignoring case, and
 * whose category is the selected one (or any, when none is selected), in
 * their original order; the header counts them.
 */
module Search {
  import opened Common
  import opened Text

  /** A listing as the page shows it. */
  datatype Item = Item(id: string, title: string, description: string, price: real,
                       location: string, category: string)

  /** `title.toLowerCase().includes(term.toLowerCase()) || description...`. */
  predicate MatchesText(item: Item, term: string) {
    Contains(Lower(item.title), Lower(term)) || Contains(Lower(item.description), Lower(term))
  }

  /** `!selectedCategory || listing.category === selectedCategory`. */
  predicate MatchesCategory(item: Item, category: string) {
    category == "" || item.category == category
  }

  predicate Matches(item: Item, term: string, category: string) {
    MatchesText(item, term) && MatchesCategory(item, category)
  }

  /** `listings.filter(...)`: the matching listings, in order. */
  function FilterListings(items: seq<Item>, term: string, category: string): (r: seq<Item>)
    ensures |r| <= |items|
    ensures forall x :: x in r ==> x in items && Matches(x, term, category)
    ensures forall i :: 0 <= i < |items| && Matches(items[i], term, category) ==> items[i] in r
  {
    if items == [] then []
    else
      var rest := FilterListings(items[1..], term, category);
      assert forall i :: 1 <= i < |items| ==> items[i] == items[1..][i - 1];
      if Matches(items[0], term, category) then [items[0]] + rest else rest
  }

  /** Filtering two lists one after the other keeps their relative order. */
  lemma {:induction false} FilterAppend(a: seq<Item>, b: seq<Item>, term: string, category: string)
    ensures FilterListings(a + b, term, category) == FilterListings(a, term, category) + FilterListings(b, term, category)
    decreases |a|
  {
    if a != [] {
      assert (a + b)[0] == a[0] && (a + b)[1..] == a[1..] + b;
      FilterAppend(a[1..], b, term, category);
    } else {
      assert a + b == b;
    }
  }

  /** Filtering the filtered results changes nothing. */
  lemma {:induction false} FilterIdempotent(items: seq<Item>, term: string, category: string)
    ensures FilterListings(FilterListings(items, term, category), term, category) == FilterListings(items, term, category)
    decreases |items|
  {
    if items != [] {
      FilterIdempotent(items[1..], term, category);
    }
  }

  /** An empty term with no category selected shows every listing. */
  lemma {:induction false} EmptySearchShowsAll(items: seq<Item>)
    ensures FilterListings(items, "", "") == items
    decreases |items|
  {
    if items != [] {
      assert OccursAt(Lower(items[0].title), Lower(""), 0);
      EmptySearchShowsAll(items[1..]);
    }
  }

  /** Matching ignores case: a term and its lower-cased form select the same listings. */
  lemma TermCaseIgnored(item: Item, term: string)
    ensures MatchesText(item, term) <==> MatchesText(item, Lower(term))
  {
    assert Lower(Lower(term)) == Lower(term);
  }

  /** `${n} anúncio${n !== 1 ? 's' : ''} encontrado${n !== 1 ? 's' : ''}`. */
  function CountLabel(n: nat): (r: string)
    ensures |r| > |NatToString(n)| && r[..|NatToString(n)|] == NatToString(n)
  {
    var s := if n != 1 then "s" else "";
    NatToString(n) + " anúncio" + s + " encontrado" + s
  }

  /** The label ends in the plural suffix exactly when the count is not one. */
  lemma CountLabelPlural(n: nat)
    ensures CountLabel(n)[|CountLabel(n)| - 1] == 's' <==> n != 1
    ensures n == 1 ==> CountLabel(n) == "1 anúncio encontrado"
  {
  }
}
