/** The search filter of the products page: `filteredProducts` keeps the
    products whose lower-cased name or description includes the lower-cased
    search term, and keeps everything when the term is empty. */
module ProductsPage {
  import opened Common
  import opened Text
  import opened Sequences

  datatype Product = Product(id: ProductId, name: string, description: string, price: real)

  /** The predicate handed to `products.filter`, given the already lower-cased term. */
  predicate MatchesLowered(p: Product, loweredTerm: string)
  {
    Includes(LowerStr(p.name), loweredTerm) || Includes(LowerStr(p.description), loweredTerm)
  }

  /** `products.filter(...)` with the lower-cased term: keeps the matches in their order. */
  function KeepMatching(products: seq<Product>, loweredTerm: string): (r: seq<Product>)
    ensures |r| <= |products|
    ensures forall p :: p in r ==> p in products && MatchesLowered(p, loweredTerm)
  {
    if products == [] then []
    else if MatchesLowered(products[0], loweredTerm) then
      [products[0]] + KeepMatching(products[1..], loweredTerm)
    else KeepMatching(products[1..], loweredTerm)
  }

  /** `filteredProducts`: an empty term keeps the list as it is; otherwise the
      result is an order-preserving subsequence of the products, never longer. */
  function FilterProducts(products: seq<Product>, searchTerm: string): (r: seq<Product>)
    ensures searchTerm == "" ==> r == products
    ensures IsSubsequence(r, products)
    ensures |r| <= |products|
  {
    if searchTerm == "" then
      SubsequenceReflexive(products);
      products
    else
      KeepMatchingIsSubsequence(products, LowerStr(searchTerm));
      KeepMatching(products, LowerStr(searchTerm))
  }

  /** A product is searchable by `term` when its name or description, lower-cased,
      contains the lower-cased term somewhere. */
  ghost predicate Found(p: Product, term: string)
  {
    OccursIn(LowerStr(term), LowerStr(p.name)) || OccursIn(LowerStr(term), LowerStr(p.description))
  }

  lemma {:induction false} KeepMatchingIsSubsequence(products: seq<Product>, loweredTerm: string)
    ensures IsSubsequence(KeepMatching(products, loweredTerm), products)
  {
    if products != [] {
      KeepMatchingIsSubsequence(products[1..], loweredTerm);
      var rest := KeepMatching(products[1..], loweredTerm);
      if !MatchesLowered(products[0], loweredTerm) {
        SubsequenceOfTail(rest, products);
      }
    }
  }

  lemma {:induction false} KeepMatchingMembers(products: seq<Product>, loweredTerm: string, p: Product)
    ensures p in KeepMatching(products, loweredTerm) <==> p in products && MatchesLowered(p, loweredTerm)
    ensures multiset(KeepMatching(products, loweredTerm))[p] ==
            if MatchesLowered(p, loweredTerm) then multiset(products)[p] else 0
  {
    if products != [] {
      KeepMatchingMembers(products[1..], loweredTerm, p);
      assert products == [products[0]] + products[1..];
    }
  }

  /** A product is shown iff its lower-cased name or description contains the
      lower-cased term (the empty term is contained in every string), and then
      with as many copies as the list holds. */
  lemma FilterMembers(products: seq<Product>, searchTerm: string, p: Product)
    ensures p in FilterProducts(products, searchTerm) <==> p in products && Found(p, searchTerm)
    ensures multiset(FilterProducts(products, searchTerm))[p] ==
            if Found(p, searchTerm) then multiset(products)[p] else 0
  {
    var t := LowerStr(searchTerm);
    IncludesIffOccurs(LowerStr(p.name), t);
    IncludesIffOccurs(LowerStr(p.description), t);
    if searchTerm == "" {
      assert OccursAt(t, LowerStr(p.name), 0);
    } else {
      KeepMatchingMembers(products, t, p);
    }
  }

  /** Matching ignores letter case: two terms with the same lower-case form
      select the same products. */
  lemma CaseInsensitive(products: seq<Product>, term1: string, term2: string)
    requires LowerStr(term1) == LowerStr(term2)
    ensures FilterProducts(products, term1) == FilterProducts(products, term2)
  {
    assert |term1| == |term2|;
  }

  /** The lower-cased term selects the same products as the term itself. */
  lemma LoweredTermSameResult(products: seq<Product>, searchTerm: string)
    ensures FilterProducts(products, LowerStr(searchTerm)) == FilterProducts(products, searchTerm)
  {
    LowerStrIdempotent(searchTerm);
    CaseInsensitive(products, LowerStr(searchTerm), searchTerm);
  }
}
