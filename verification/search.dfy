/**
 * The product-list search of the products screen: a case-insensitive
 * substring filter over product titles that keeps the list's order.
 */
module Search {
  import opened Text
  import opened ProductsModel

  /** The product's lower-cased title contains the already lower-cased query. */
  predicate Matches(p: Product, loweredQuery: string) {
    Contains(Lowercased(p.title), loweredQuery)
  }

  /** `products.filter { $0.title.lowercased().contains(loweredQuery) }` */
  function Filter(products: seq<Product>, loweredQuery: string): (r: seq<Product>)
    ensures |r| <= |products|
    ensures forall p :: p in r <==> p in products && Matches(p, loweredQuery)
    decreases |products|
  {
    if products == [] then []
    else if Matches(products[0], loweredQuery) then [products[0]] + Filter(products[1..], loweredQuery)
    else Filter(products[1..], loweredQuery)
  }

  /** What a search for `query` shows: the query is lower-cased once, then the list filtered. */
  function SearchResult(products: seq<Product>, query: string): seq<Product> {
    Filter(products, Lowercased(query))
  }

  /** `r` is `s` with some elements dropped and the rest kept in order. */
  ghost predicate IsSubsequence<T>(r: seq<T>, s: seq<T>)
    decreases |s|
  {
    if r == [] then true
    else if s == [] then false
    else (r[0] == s[0] && IsSubsequence(r[1..], s[1..])) || IsSubsequence(r, s[1..])
  }

  lemma {:induction false} SubsequenceNotLonger<T>(r: seq<T>, s: seq<T>)
    requires IsSubsequence(r, s)
    ensures |r| <= |s|
    decreases |s|
  {
    if r != [] {
      if r[0] == s[0] && IsSubsequence(r[1..], s[1..]) {
        SubsequenceNotLonger(r[1..], s[1..]);
      } else {
        SubsequenceNotLonger(r, s[1..]);
      }
    }
  }

  /** The filter keeps the products in their original relative order. */
  lemma {:induction false} FilterIsSubsequence(products: seq<Product>, loweredQuery: string)
    ensures IsSubsequence(Filter(products, loweredQuery), products)
    decreases |products|
  {
    if products != [] {
      FilterIsSubsequence(products[1..], loweredQuery);
      var rest := Filter(products[1..], loweredQuery);
      if Matches(products[0], loweredQuery) {
        assert Filter(products, loweredQuery) == [products[0]] + rest;
        assert ([products[0]] + rest)[1..] == rest;
      }
    }
  }

  /** The filter keeps every copy of a matching product and no copy of any other. */
  lemma {:induction false} FilterKeepsEveryCopy(products: seq<Product>, loweredQuery: string)
    ensures forall x ::
              multiset(Filter(products, loweredQuery))[x] ==
              (if Matches(x, loweredQuery) then multiset(products)[x] else 0)
    decreases |products|
  {
    if products != [] {
      FilterKeepsEveryCopy(products[1..], loweredQuery);
      assert products == [products[0]] + products[1..];
      assert multiset(products) == multiset{products[0]} + multiset(products[1..]);
      if Matches(products[0], loweredQuery) {
        var rest := Filter(products[1..], loweredQuery);
        assert multiset(Filter(products, loweredQuery)) == multiset{products[0]} + multiset(rest);
      }
    }
  }

  /**
   * A search shows an order-preserving selection of the list, exactly the
   * products whose lower-cased title contains the lower-cased query, each
   * as many times as the list holds it.
   */
  lemma SearchSpec(products: seq<Product>, query: string)
    ensures IsSubsequence(SearchResult(products, query), products)
    ensures |SearchResult(products, query)| <= |products|
    ensures forall p :: p in SearchResult(products, query) <==>
      p in products && IsSubstring(Lowercased(query), Lowercased(p.title))
    ensures forall p ::
              multiset(SearchResult(products, query))[p] ==
              (if IsSubstring(Lowercased(query), Lowercased(p.title)) then multiset(products)[p] else 0)
  {
    FilterIsSubsequence(products, Lowercased(query));
    FilterKeepsEveryCopy(products, Lowercased(query));
    forall p
      ensures Matches(p, Lowercased(query)) <==> IsSubstring(Lowercased(query), Lowercased(p.title))
    {
      ContainsIffSubstring(Lowercased(p.title), Lowercased(query));
    }
  }

  lemma {:induction false} FilterNoMatch(products: seq<Product>, loweredQuery: string)
    requires forall p :: p in products ==> !Matches(p, loweredQuery)
    ensures Filter(products, loweredQuery) == []
    decreases |products|
  {
    if products != [] {
      assert products[0] in products;
      FilterNoMatch(products[1..], loweredQuery);
    }
  }

  /** A query that no title contains shows nothing. */
  lemma NoMatchShowsNothing(products: seq<Product>, query: string)
    requires forall p :: p in products ==> !IsSubstring(Lowercased(query), Lowercased(p.title))
    ensures SearchResult(products, query) == []
  {
    forall p | p in products
      ensures !Matches(p, Lowercased(query))
    {
      ContainsIffSubstring(Lowercased(p.title), Lowercased(query));
    }
    FilterNoMatch(products, Lowercased(query));
  }

  /** Searching for a query or for its lower-cased form gives the same list. */
  lemma SearchIgnoresQueryCase(products: seq<Product>, query: string)
    ensures SearchResult(products, query) == SearchResult(products, Lowercased(query))
  {
    LowercasedIdempotent(query);
  }

  /** Two queries that differ only in letter case give identical results. */
  lemma SearchAgreesAcrossCase(products: seq<Product>, q1: string, q2: string)
    requires |q1| == |q2|
    requires forall i :: 0 <= i < |q1| ==> LowerChar(q1[i]) == LowerChar(q2[i])
    ensures SearchResult(products, q1) == SearchResult(products, q2)
  {
    assert Lowercased(q1) == Lowercased(q2);
  }
}
