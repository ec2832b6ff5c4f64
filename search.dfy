/**
 * src/advanced/shared/hooks/useSearch.ts: the `filteredProducts` memo. A
 * product matches when its lower-cased name, or its non-empty lower-cased
 * description, contains the lower-cased search term.
 */
module Search {
  import opened Wrappers
  import opened Models
  import Seqs
  import Text

  /** The test inside the `filter`: the name matches, or a non-empty description does. */
  predicate Matches(product: Product, term: string)
  {
    var needle := Text.ToLower(term);
    Text.Contains(Text.ToLower(product.name), needle)
    || (product.description.Some? && product.description.value != ""
        && Text.Contains(Text.ToLower(product.description.value), needle))
  }

  /** filteredProducts: every product for an empty term, otherwise the matching ones. */
  function FilteredProducts(products: seq<Product>, debouncedSearchTerm: string): (r: seq<Product>)
    ensures debouncedSearchTerm == "" ==> r == products
    ensures debouncedSearchTerm != "" ==>
      forall i :: 0 <= i < |r| ==> r[i] in products && Matches(r[i], debouncedSearchTerm)
    ensures debouncedSearchTerm != "" ==>
      forall i :: 0 <= i < |products| && Matches(products[i], debouncedSearchTerm) ==> products[i] in r
    ensures debouncedSearchTerm != "" ==>
      forall x :: multiset(r)[x] == if Matches(x, debouncedSearchTerm) then multiset(products)[x] else 0
  {
    if debouncedSearchTerm == "" then products
    else Seqs.Filter(products, (product: Product) => Matches(product, debouncedSearchTerm))
  }

  /** The result lists products in the order the catalogue does. */
  lemma FilteredKeepsOrder(products: seq<Product>, term: string)
    ensures Seqs.IsSubsequence(FilteredProducts(products, term), products)
  {
    if term != "" {
      Seqs.FilterIsSubsequence(products, (product: Product) => Matches(product, term));
    } else {
      Seqs.SubsequenceReflexive(products);
    }
  }

  /** A match means the lower-cased term occurs at some position of the lower-cased name or description. */
  lemma MatchesMeaning(product: Product, term: string)
    ensures Matches(product, term) <==>
      (exists i :: Text.OccursAt(Text.ToLower(product.name), Text.ToLower(term), i))
      || (product.description.Some? && product.description.value != ""
          && exists i :: Text.OccursAt(Text.ToLower(product.description.value), Text.ToLower(term), i))
  {
    Text.ContainsAt(Text.ToLower(product.name), Text.ToLower(term));
    if product.description.Some? {
      Text.ContainsAt(Text.ToLower(product.description.value), Text.ToLower(term));
    }
  }

  /** Terms that lower-case alike find the same products. */
  lemma {:induction false} CaseInsensitive(products: seq<Product>, t1: string, t2: string)
    requires Text.ToLower(t1) == Text.ToLower(t2)
    ensures FilteredProducts(products, t1) == FilteredProducts(products, t2)
  {
    assert |t1| == |Text.ToLower(t1)| == |t2|;
    if t1 != "" {
      Seqs.FilterCongruent(products, (product: Product) => Matches(product, t1),
                                     (product: Product) => Matches(product, t2));
    }
  }

  /** Searching for the upper-cased term finds what the term does. */
  lemma UpperCaseTermFindsTheSame(products: seq<Product>, term: string)
    ensures FilteredProducts(products, Text.ToUpper(term)) == FilteredProducts(products, term)
  {
    Text.ToLowerOfUpper(term);
    CaseInsensitive(products, Text.ToUpper(term), term);
  }
}
