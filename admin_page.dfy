/** The administrator's product list: the search box that filters it by
    name, and deletion of the selected product. */
module AdminPage {
  import opened Wrappers
  import opened Text
  import opened Catalog
  import opened Seqs

  /** Whether a product's lower-cased name contains the lower-cased query. */
  function NameMatches(query: string): Product -> bool {
    (p: Product) => Contains(Lower(p.name), Lower(query))
  }

  /** The filter effect: an empty query shows every product; any other keeps
      the products whose name matches, in list order. */
  function Search(products: seq<Product>, query: string): (r: seq<Product>)
    ensures query == "" ==> r == products
  {
    if query != "" then Filter(products, NameMatches(query)) else products
  }

  /** A non-empty query shows exactly the matching products. */
  lemma SearchMembership(products: seq<Product>, query: string, p: Product)
    requires query != ""
    ensures p in Search(products, query) <==> p in products && Contains(Lower(p.name), Lower(query))
  {
    FilterMembership(products, NameMatches(query), p);
  }

  /** Search keeps list order: searching a concatenation is concatenating
      the searches. */
  lemma SearchKeepsOrder(a: seq<Product>, b: seq<Product>, query: string)
    ensures Search(a + b, query) == Search(a, query) + Search(b, query)
  {
    if query != "" {
      FilterAppend(a, b, NameMatches(query));
    }
  }

  /** The search ignores the letter case of the query. */
  lemma SearchIgnoresQueryCase(products: seq<Product>, query: string)
    ensures Search(products, Lower(query)) == Search(products, query)
  {
    LowerIdempotent(query);
    if query != "" {
      assert Lower(query) != "" by {
        assert |Lower(query)| == |query|;
      }
      FilterAgree(products, NameMatches(Lower(query)), NameMatches(query));
    }
  }

  /** The list after a deletion: every product with the deleted id goes. */
  function WithoutId(products: seq<Product>, id: int): (r: seq<Product>)
    ensures |r| <= |products|
    ensures forall p :: p in r ==> p.id != id && p in products
  {
    Filter(products, (p: Product) => p.id != id)
  }

  /** A deletion removes every product with that id and keeps every other. */
  lemma WithoutIdMembership(products: seq<Product>, id: int, p: Product)
    ensures p in WithoutId(products, id) <==> p in products && p.id != id
  {
    FilterMembership(products, (q: Product) => q.id != id, p);
  }

  /** How the delete call ended, as the handler sees it. */
  datatype DeleteOutcome = Resolved | Rejected

  /** `if (!deleteId)` for the selected id: absent and 0 are falsy. */
  predicate IdIsTruthy(id: Option<int>) {
    id.Some? && id.value != 0
  }

  class AdminProductsPage {
    var products: seq<Product>
    var searchQuery: string
    var filteredProducts: seq<Product>
    var deleteId: Option<int>

    /** The filter effect has run: the shown list is the search result. */
    ghost predicate Valid()
      reads this
    {
      filteredProducts == Search(products, searchQuery)
    }

    constructor(products: seq<Product>, deleteId: Option<int>)
      ensures Valid()
      ensures this.products == products && searchQuery == "" && this.deleteId == deleteId
    {
      this.products := products;
      searchQuery := "";
      filteredProducts := products;
      this.deleteId := deleteId;
    }

    /** Typing in the search box, followed by the filter effect. */
    method SetSearchQuery(query: string)
      requires Valid()
      modifies this
      ensures Valid()
      ensures searchQuery == query && products == old(products) && deleteId == old(deleteId)
      ensures filteredProducts == Search(products, query)
    {
      searchQuery := query;
      if searchQuery != "" {
        filteredProducts := Filter(products, NameMatches(searchQuery));
      } else {
        filteredProducts := products;
      }
    }

    /** `handleDelete`, followed by the filter effect. */
    method HandleDelete(outcome: DeleteOutcome)
      requires Valid()
      modifies this
      ensures Valid()
      ensures searchQuery == old(searchQuery)
      ensures !IdIsTruthy(old(deleteId)) ==> products == old(products) && deleteId == old(deleteId)
      ensures IdIsTruthy(old(deleteId)) ==> deleteId.None?
      ensures IdIsTruthy(old(deleteId)) && outcome == Resolved ==>
        products == WithoutId(old(products), old(deleteId).value)
      ensures outcome == Rejected ==> products == old(products)
    {
      if !IdIsTruthy(deleteId) {
        return;
      }
      if outcome == Resolved {
        products := WithoutId(products, deleteId.value);
      }
      deleteId := None;
      filteredProducts := Search(products, searchQuery);
    }
  }
}
