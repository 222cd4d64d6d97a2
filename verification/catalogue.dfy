/**
 * The product catalogue page: the case-insensitive search over product
 * names and the "new product" dialog that appends to the list.
 */
module Catalogue {
  import JsText

  datatype ProductStatus = Active | Inactive

  datatype Product = Product(id: string, name: string, category: string, image: string, status: ProductStatus)

  /** The image every new product gets. */
  const PlaceholderImage := "/placeholder.svg"

  /** A product matches when its lower-cased name contains the lower-cased term. */
  predicate Matches(p: Product, term: string) {
    JsText.Includes(JsText.ToLower(p.name), JsText.ToLower(term))
  }

  /** `filteredProducts`: the matching products, in catalogue order. */
  function FilterProducts(products: seq<Product>, term: string): (shown: seq<Product>)
    ensures |shown| <= |products|
    ensures forall p :: p in shown <==> p in products && Matches(p, term)
  {
    if products == [] then []
    else if Matches(products[0], term) then [products[0]] + FilterProducts(products[1..], term)
    else
      assert products == [products[0]] + products[1..];
      FilterProducts(products[1..], term)
  }

  /** Filtering keeps catalogue order: the filter of a concatenation is the concatenation of the filters. */
  lemma {:induction false} FilterAppend(a: seq<Product>, b: seq<Product>, term: string)
    ensures FilterProducts(a + b, term) == FilterProducts(a, term) + FilterProducts(b, term)
    decreases |a|
  {
    if a == [] {
      assert a + b == b;
    } else {
      assert (a + b)[0] == a[0] && (a + b)[1..] == a[1..] + b;
      FilterAppend(a[1..], b, term);
    }
  }

  /** An empty search shows the whole catalogue. */
  lemma {:induction false} FilterEmptyTerm(products: seq<Product>)
    ensures FilterProducts(products, "") == products
    decreases |products|
  {
    if products != [] {
      JsText.IncludesEmpty(JsText.ToLower(products[0].name));
      assert JsText.ToLower("") == "";
      FilterEmptyTerm(products[1..]);
    }
  }

  /** The page's state: the list, the search box, the dialog and its draft. */
  class ProductsPage {
    var products: seq<Product>
    var searchTerm: string
    var isDialogOpen: bool
    var draftName: string
    var draftCategory: string

    function FilteredProducts(): (shown: seq<Product>)
      reads this
      ensures forall p :: p in shown <==> p in products && Matches(p, searchTerm)
    {
      FilterProducts(products, searchTerm)
    }

    constructor (initial: seq<Product>)
      ensures products == initial && searchTerm == "" && !isDialogOpen && draftName == "" && draftCategory == ""
    {
      products := initial;
      searchTerm := "";
      isDialogOpen := false;
      draftName := "";
      draftCategory := "";
    }

    /**
     * `handleAddProduct`, with `id` the time-based identifier: with an
     * empty name or category nothing changes; otherwise one active product
     * with the placeholder image is appended, the draft is emptied and the
     * dialog closes.
     */
    method HandleAddProduct(id: string)
      modifies this
      ensures old(draftName) == "" || old(draftCategory) == "" ==>
        products == old(products) && draftName == old(draftName) && draftCategory == old(draftCategory)
        && isDialogOpen == old(isDialogOpen)
      ensures old(draftName) != "" && old(draftCategory) != "" ==>
        products == old(products) + [Product(id, old(draftName), old(draftCategory), PlaceholderImage, Active)]
        && draftName == "" && draftCategory == "" && !isDialogOpen
      ensures searchTerm == old(searchTerm)
    {
      if draftName != "" && draftCategory != "" {
        products := products + [Product(id, draftName, draftCategory, PlaceholderImage, Active)];
        draftName, draftCategory := "", "";
        isDialogOpen := false;
      }
    }
  }

  /** After an add, the filtered list grows by the new product exactly when it matches the search. */
  lemma AddedProductShownIffMatches(products: seq<Product>, added: Product, term: string)
    ensures FilterProducts(products + [added], term) ==
      FilterProducts(products, term) + (if Matches(added, term) then [added] else [])
  {
    FilterAppend(products, [added], term);
    assert [added][1..] == [];
  }
}
