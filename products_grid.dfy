/** The product catalogue and its search box and category filter. */
module ProductsGrid {
  import opened Common

  /** A catalogue entry; price and image are not modelled. */
  datatype Product = Product(id: string, name: string, category: string, description: string)

  const Products: seq<Product> := [
    Product("1", "Wireless Headphones", "Electronics", "Premium sound quality with noise cancellation"),
    Product("2", "Smart Watch", "Electronics", "Track your fitness and stay connected"),
    Product("3", "Laptop Stand", "Accessories", "Ergonomic design for better posture"),
    Product("4", "USB-C Hub", "Accessories", "Connect all your devices with ease"),
    Product("5", "Mechanical Keyboard", "Electronics", "Professional-grade typing experience"),
    Product("6", "Wireless Mouse", "Accessories", "Precision tracking with long battery life")
  ]

  const Categories: seq<string> := ["All", "Electronics", "Accessories"]

  /** The name or the description contains the query, ignoring case. */
  predicate MatchesSearch(p: Product, query: string) {
    Contains(Lower(p.name), Lower(query)) || Contains(Lower(p.description), Lower(query))
  }

  /** "All" accepts every category, any other only itself. */
  predicate MatchesCategory(p: Product, category: string) {
    category == "All" || p.category == category
  }

  predicate Shown(p: Product, query: string, category: string) {
    MatchesSearch(p, query) && MatchesCategory(p, category)
  }

  /** `filteredProducts`: the shown products, in catalogue order. */
  function Filtered(ps: seq<Product>, query: string, category: string): (r: seq<Product>)
    ensures |r| <= |ps|
    ensures forall p :: p in r <==> p in ps && Shown(p, query, category)
  {
    if ps == [] then []
    else
      var rest := Filtered(ps[1..], query, category);
      assert forall p :: p in ps <==> p == ps[0] || p in ps[1..] by {
        assert ps == [ps[0]] + ps[1..];
      }
      if Shown(ps[0], query, category) then [ps[0]] + rest else rest
  }

  /** The results keep the catalogue's order. */
  lemma {:induction false} FilteredIsSubsequence(ps: seq<Product>, query: string, category: string)
    ensures IsSubsequence(Filtered(ps, query, category), ps)
  {
    if ps != [] {
      FilteredIsSubsequence(ps[1..], query, category);
      var rest := Filtered(ps[1..], query, category);
      if !Shown(ps[0], query, category) && rest != [] {
        SubsequenceSkip(rest, ps);
      }
    }
  }

  /** A subsequence of the tail is a subsequence of the whole. */
  lemma {:induction false} SubsequenceSkip(sub: seq<Product>, xs: seq<Product>)
    requires xs != [] && IsSubsequence(sub, xs[1..])
    ensures IsSubsequence(sub, xs)
    decreases |sub| + |xs|
  {
    if sub != [] && sub[0] == xs[0] {
      SubsequenceDrop(sub, xs[1..]);
    }
  }

  /** Dropping the head of a subsequence keeps it a subsequence. */
  lemma {:induction false} SubsequenceDrop(sub: seq<Product>, xs: seq<Product>)
    requires sub != [] && IsSubsequence(sub, xs)
    ensures IsSubsequence(sub[1..], xs)
    decreases |sub| + |xs|
  {
    if sub[0] != xs[0] {
      SubsequenceDrop(sub, xs[1..]);
    }
    SubsequenceSkip(sub[1..], xs);
  }

  /** The empty search with "All" shows the whole catalogue. */
  lemma {:induction false} EmptySearchShowsAll(ps: seq<Product>)
    ensures Filtered(ps, "", "All") == ps
  {
    if ps != [] {
      ContainsEmpty(Lower(ps[0].name));
      EmptySearchShowsAll(ps[1..]);
      assert ps == [ps[0]] + ps[1..];
    }
  }

  /** Narrowing to one category only removes products from the "All"
      results, keeping the order of what remains. */
  lemma {:induction false} CategoryNarrows(ps: seq<Product>, query: string, category: string)
    ensures IsSubsequence(Filtered(ps, query, category), Filtered(ps, query, "All"))
  {
    if ps != [] {
      CategoryNarrows(ps[1..], query, category);
      var rest := Filtered(ps[1..], query, category);
      var all := Filtered(ps[1..], query, "All");
      if MatchesSearch(ps[0], query) && !MatchesCategory(ps[0], category) && rest != [] {
        SubsequenceSkip(rest, [ps[0]] + all);
      }
    }
  }

  /** The empty search matches every product. */
  lemma EmptySearchMatches(p: Product)
    ensures MatchesSearch(p, "")
  {
    ContainsEmpty(Lower(p.name));
  }

  /** With an empty search, a category tab shows exactly the products of
      that category. */
  lemma EmptySearchByCategory(ps: seq<Product>, category: string)
    ensures forall p :: p in Filtered(ps, "", category) <==> p in ps && MatchesCategory(p, category)
  {
    forall p | p in ps ensures MatchesSearch(p, "") {
      EmptySearchMatches(p);
    }
  }
}
