/**
 The catalog search of src/hooks/useProducts.ts: the query filter applied to the
 fetched product list (`queryFn`) and the lighter `searchProducts` variant.
 Matching is a case-insensitive substring test.
 */
module ProductSearch {
  import opened Wrappers
  import opened SalesTypes
  import opened Text
  import Seqs

  /** The lower-cased query occurs in the lower-cased name, category or description. */
  predicate MatchesQuery(p: Product, query: string) {
    var q := Lower(query);
    Includes(Lower(p.name), q) || Includes(Lower(p.category), q) || Includes(Lower(p.description), q)
  }

  /** The lower-cased query occurs in the lower-cased name or category. */
  predicate MatchesNameOrCategory(p: Product, query: string) {
    var q := Lower(query);
    Includes(Lower(p.name), q) || Includes(Lower(p.category), q)
  }

  function QueryTest(query: string): Product -> bool {
    p => MatchesQuery(p, query)
  }

  function NameOrCategoryTest(query: string): Product -> bool {
    p => MatchesNameOrCategory(p, query)
  }

  /** The empty query occurs in every field, so it matches every product under either test. */
  lemma EmptyQueryMatchesAll()
    ensures forall p :: MatchesQuery(p, "") && MatchesNameOrCategory(p, "")
  {
    forall p
      ensures MatchesQuery(p, "") && MatchesNameOrCategory(p, "")
    {
      assert OccursAt(Lower(p.name), Lower(""), 0);
    }
  }

  /** The query filter: an empty query keeps everything, otherwise keep the matching products. */
  function FilterByQuery(products: seq<Product>, query: string): (r: seq<Product>)
    ensures query == "" ==> r == products
    ensures query != "" ==> forall i :: 0 <= i < |r| ==> r[i] in products && MatchesQuery(r[i], query)
    ensures query != "" ==> forall i :: 0 <= i < |products| && MatchesQuery(products[i], query) ==> products[i] in r
    ensures forall p :: multiset(r)[p] == if MatchesQuery(p, query) then multiset(products)[p] else 0
    ensures Seqs.IsSubsequence(r, products)
  {
    if query == "" then
      EmptyQueryMatchesAll();
      Seqs.FilterAllKept(products, QueryTest(""));
      Seqs.FilterIsSubsequence(products, QueryTest(""));
      products
    else
      Seqs.FilterIsSubsequence(products, QueryTest(query));
      Seqs.Filter(products, QueryTest(query))
  }

  /**
   `queryFn`: a backend error is raised instead of returning products; otherwise
   the fetched documents are filtered by the query.
   */
  function QueryProducts(fetched: Result<seq<Product>, string>, searchQuery: string): (r: Result<seq<Product>, string>)
    ensures fetched.Failure? <==> r.Failure?
    ensures fetched.Failure? ==> r.error == fetched.error
    ensures fetched.Success? && searchQuery == "" ==> r == fetched
    ensures fetched.Success? ==> Seqs.IsSubsequence(r.value, fetched.value)
    ensures fetched.Success? ==>
              forall p :: multiset(r.value)[p] == if MatchesQuery(p, searchQuery) then multiset(fetched.value)[p] else 0
  {
    match fetched
    case Failure(e) => Failure(e)
    case Success(documents) => Success(FilterByQuery(documents, searchQuery))
  }

  /** `searchProducts`: like the query filter, but description text is not searched. */
  function SearchProducts(allProducts: seq<Product>, query: string): (r: seq<Product>)
    ensures query == "" ==> r == allProducts
    ensures query != "" ==> forall i :: 0 <= i < |r| ==> r[i] in allProducts && MatchesNameOrCategory(r[i], query)
    ensures query != "" ==> forall i :: 0 <= i < |allProducts| && MatchesNameOrCategory(allProducts[i], query) ==> allProducts[i] in r
    ensures forall p :: multiset(r)[p] == if MatchesNameOrCategory(p, query) then multiset(allProducts)[p] else 0
    ensures Seqs.IsSubsequence(r, allProducts)
  {
    if query == "" then
      EmptyQueryMatchesAll();
      Seqs.FilterAllKept(allProducts, NameOrCategoryTest(""));
      Seqs.FilterIsSubsequence(allProducts, NameOrCategoryTest(""));
      allProducts
    else
      Seqs.FilterIsSubsequence(allProducts, NameOrCategoryTest(query));
      Seqs.Filter(allProducts, NameOrCategoryTest(query))
  }

  /** Matching ignores the case of the query. */
  lemma MatchIgnoresQueryCase(p: Product, query: string)
    ensures MatchesQuery(p, query) == MatchesQuery(p, Lower(query))
    ensures MatchesNameOrCategory(p, query) == MatchesNameOrCategory(p, Lower(query))
  {
    LowerIdempotent(query);
  }

  /** Every product `searchProducts` finds, the query filter finds too. */
  lemma SearchWithinQuery(products: seq<Product>, query: string)
    ensures forall i :: 0 <= i < |SearchProducts(products, query)| ==>
              SearchProducts(products, query)[i] in FilterByQuery(products, query)
  {
  }

  /** A product that matches only in its description is found by the query filter but not by `searchProducts`. */
  lemma DescriptionOnlyMatch(products: seq<Product>, query: string, i: int)
    requires query != "" && 0 <= i < |products|
    requires !MatchesNameOrCategory(products[i], query) && MatchesQuery(products[i], query)
    ensures products[i] in FilterByQuery(products, query)
    ensures products[i] !in SearchProducts(products, query)
  {
  }
}
