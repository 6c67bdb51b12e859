/**
 * The register screen of src/pages/POS.tsx: the product grid shows the
 * catalog narrowed by the search box and the category tabs, and the barcode
 * field looks a scanned code up when Enter is pressed and, on a hit, puts
 * the product's name in the search box.
 */
module Pos {
  import opened Collections
  import opened Text
  import opened Products

  /** The category tabs: "All", or one category. */
  datatype CategoryFilter = All | Only(category: Category)

  predicate InCategory(p: Product, filter: CategoryFilter)
  {
    filter.All? || p.category == filter.category
  }

  /** The category step of the effect: everything for "All", else that category's products, in order. */
  function ByCategory(products: seq<Product>, filter: CategoryFilter): (r: seq<Product>)
    ensures IsSubsequence(r, products)
    ensures forall i :: 0 <= i < |r| ==> r[i] in products && InCategory(r[i], filter)
    ensures forall i :: 0 <= i < |products| && InCategory(products[i], filter) ==> products[i] in r
  {
    if filter.All? then
      FilterAll(products, (p: Product) => InCategory(p, filter));
      products
    else
      FilterMembers(products, (p: Product) => InCategory(p, filter));
      Filter(products, (p: Product) => InCategory(p, filter))
  }

  /**
   * The grid the effect computes: the whole list, or the search results
   * when the box is not empty, narrowed to the chosen category. A product is
   * shown exactly when it is in the list, matches the search and is in the
   * category, and the list order is kept.
   */
  function Shown(products: seq<Product>, query: string, filter: CategoryFilter): (r: seq<Product>)
    ensures IsSubsequence(r, products)
    ensures forall i :: 0 <= i < |r| ==> r[i] in products && MatchesQuery(r[i], query) && InCategory(r[i], filter)
    ensures forall i :: (0 <= i < |products| && MatchesQuery(products[i], query) && InCategory(products[i], filter)
                         ==> products[i] in r)
  {
    if query == "" then
      SearchEmptyIsAll(products);
      ByCategory(products, filter)
    else
      var found := SearchProducts(products, query);
      var r := ByCategory(found, filter);
      SubsequenceTransitive(r, found, products);
      r
  }

  /** Skipping the search for an empty box shows the same as searching for the empty text would. */
  lemma EmptyQueryShortcut(products: seq<Product>, filter: CategoryFilter)
    ensures Shown(products, "", filter) == ByCategory(SearchProducts(products, ""), filter)
  {
    SearchEmptyIsAll(products);
  }

  /** The grid never shows more than the search alone finds, and keeps its order. */
  lemma ShownWithinSearch(products: seq<Product>, query: string, filter: CategoryFilter)
    ensures IsSubsequence(Shown(products, query, filter), SearchProducts(products, query))
  {
    if query == "" {
      SearchEmptyIsAll(products);
    }
  }

  /** With an empty box and the "All" tab, the whole list is shown in order. */
  lemma InitialGrid(products: seq<Product>)
    ensures Shown(products, "", All) == products
  {
  }

  /** A product's own name, typed into the search box, finds it. */
  lemma NameFindsProduct(p: Product)
    ensures MatchesQuery(p, p.name)
  {
    assert OccursAt(Lower(p.name), Lower(p.name), 0);
  }

  /**
   * The register screen's state over the product list it shows (`Catalog`
   * in the application); `barcodeText` is the scanner field's current text.
   */
  class PosScreen {
    const products: seq<Product>
    var searchQuery: string
    var activeCategory: CategoryFilter
    var filteredProducts: seq<Product>
    var barcodeText: string

    /** The grid always shows what the effect computes from the search box and the tab. */
    ghost predicate Valid()
      reads this
    {
      filteredProducts == Shown(products, searchQuery, activeCategory)
    }

    /** An empty search box, the "All" tab, every product and an empty scanner field. */
    constructor (products: seq<Product>)
      ensures Valid()
      ensures this.products == products
      ensures searchQuery == "" && activeCategory == All && barcodeText == ""
      ensures filteredProducts == products
    {
      this.products := products;
      searchQuery := "";
      activeCategory := All;
      barcodeText := "";
      filteredProducts := products;
      InitialGrid(products);
    }

    /** Typing in the search box; the effect then recomputes the grid. */
    method SetSearchQuery(query: string)
      modifies this`searchQuery, this`filteredProducts
      ensures Valid()
      ensures searchQuery == query && filteredProducts == Shown(products, query, activeCategory)
    {
      searchQuery := query;
      filteredProducts := Shown(products, query, activeCategory);
    }

    /** Clicking a category tab; the effect then recomputes the grid. */
    method SetCategory(filter: CategoryFilter)
      modifies this`activeCategory, this`filteredProducts
      ensures Valid()
      ensures activeCategory == filter && filteredProducts == Shown(products, searchQuery, filter)
    {
      activeCategory := filter;
      filteredProducts := Shown(products, searchQuery, filter);
    }

    /** Typing (or a scanner sending characters) into the barcode field. */
    method TypeBarcode(text: string)
      modifies this`barcodeText
      ensures barcodeText == text
    {
      barcodeText := text;
    }

    /**
     * `handleBarcodeKeyDown`: on Enter the trimmed field text is looked up;
     * a hit puts the product's name in the search box, and the field is
     * emptied either way. Any other key does nothing.
     */
    method BarcodeKeyDown(key: string) returns (found: Option<Product>)
      requires Valid()
      modifies this`searchQuery, this`filteredProducts, this`barcodeText
      ensures Valid()
      ensures key != "Enter" ==> found == None && barcodeText == old(barcodeText)
      ensures key == "Enter" ==> found == ProductByBarcode(products, Trim(old(barcodeText))) && barcodeText == ""
      ensures key == "Enter" && found.Some? ==> searchQuery == found.value.name
      ensures found.None? ==> searchQuery == old(searchQuery) && filteredProducts == old(filteredProducts)
      ensures activeCategory == old(activeCategory)
    {
      if key != "Enter" {
        return None;
      }
      found := ProductByBarcode(products, Trim(barcodeText));
      if found.Some? {
        SetSearchQuery(found.value.name);
      }
      barcodeText := "";
    }
  }

  /**
   * After a scan that finds a product, that product is on screen unless the
   * active tab is another category.
   */
  lemma ScannedProductShown(products: seq<Product>, code: string, filter: CategoryFilter)
    requires ProductByBarcode(products, code).Some?
    requires InCategory(ProductByBarcode(products, code).value, filter)
    ensures ProductByBarcode(products, code).value in Shown(products, ProductByBarcode(products, code).value.name, filter)
  {
    var p := ProductByBarcode(products, code).value;
    NameFindsProduct(p);
    var k :| 0 <= k < |products| && products[k] == p && p.barcode == code;
    assert MatchesQuery(products[k], p.name) && InCategory(products[k], filter);
  }

  /** Scanning any catalog product's code, bare or with any whitespace around it, finds exactly that product. */
  lemma ScanFindsProduct(i: nat, pre: string, post: string)
    requires i < |Catalog|
    requires forall k :: 0 <= k < |pre| ==> IsSpace(pre[k])
    requires forall k :: 0 <= k < |post| ==> IsSpace(post[k])
    ensures ProductByBarcode(Catalog, Trim(Catalog[i].barcode)) == Some(Catalog[i])
    ensures ProductByBarcode(Catalog, Trim(pre + Catalog[i].barcode + post)) == Some(Catalog[i])
  {
    CatalogLookups(i);
    CatalogBarcodesUntrimmed(i, pre, post);
  }

  /** Catalog barcodes carry no surrounding whitespace, so `trim` gives them back bare or after any whitespace padding. */
  lemma CatalogBarcodesUntrimmed(i: nat, pre: string, post: string)
    requires i < |Catalog|
    requires forall k :: 0 <= k < |pre| ==> IsSpace(pre[k])
    requires forall k :: 0 <= k < |post| ==> IsSpace(post[k])
    ensures Trim(Catalog[i].barcode) == Catalog[i].barcode
    ensures Trim(pre + Catalog[i].barcode + post) == Catalog[i].barcode
  {
    var b := Catalog[i].barcode;
    CatalogBarcodeShape(i);
    TrimPadded("", b, "");
    assert "" + b + "" == b;
    TrimPadded(pre, b, post);
  }
}
