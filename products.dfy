/**
 * The product catalog (src/data/products.ts): the constant list of products
 * and the lookups over it — by category, by id, by barcode, and free-text
 * search over name, barcode and category.
 */
module Products {
  import opened Collections
  import opened Text

  datatype Category = Tops | Pants | Bags | Caps | Shirts | Jeans

  /** The category's identifier as it appears in the data ('tops', ...). */
  function CategoryId(c: Category): string
  {
    match c
    case Tops => "tops"
    case Pants => "pants"
    case Bags => "bags"
    case Caps => "caps"
    case Shirts => "shirts"
    case Jeans => "jeans"
  }

  /** A sellable item; prices are whole naira, held exactly. */
  datatype Product = Product(
    id: string,
    name: string,
    category: Category,
    price: real,
    image: string,
    sizes: seq<string>,
    colors: seq<string>,
    stock: int,
    barcode: string)

  /** The products of the catalog, one constant each. */
  const Top1 := Product("top-1", "Classic Cotton Tee", Tops, 15000.0,
    "https://images.unsplash.com/photo-1521572163474-6864f9cf17ab?w=400",
    ["S", "M", "L", "XL"], ["Black", "White", "Navy"], 50, "TOP001")
  const Top2 := Product("top-2", "Premium Polo Shirt", Tops, 25000.0,
    "https://images.unsplash.com/photo-1625910513413-5fc4e5e6a1c5?w=400",
    ["S", "M", "L", "XL", "XXL"], ["White", "Black", "Red"], 35, "TOP002")
  const Top3 := Product("top-3", "Graphic Print Tee", Tops, 18000.0,
    "https://images.unsplash.com/photo-1576566588028-4147f3842f27?w=400",
    ["S", "M", "L"], ["Black", "Grey"], 40, "TOP003")
  const Top4 := Product("top-4", "V-Neck Essential", Tops, 12000.0,
    "https://images.unsplash.com/photo-1618354691373-d851c5c3a990?w=400",
    ["S", "M", "L", "XL"], ["White", "Black", "Navy", "Grey"], 60, "TOP004")
  const Shirt1 := Product("shirt-1", "Oxford Button Down", Shirts, 35000.0,
    "https://images.unsplash.com/photo-1602810318383-e386cc2a3ccf?w=400",
    ["S", "M", "L", "XL"], ["White", "Blue", "Pink"], 30, "SHT001")
  const Shirt2 := Product("shirt-2", "Slim Fit Dress Shirt", Shirts, 42000.0,
    "https://images.unsplash.com/photo-1598032895397-b9472444bf93?w=400",
    ["S", "M", "L", "XL"], ["White", "Black", "Navy"], 25, "SHT002")
  const Shirt3 := Product("shirt-3", "Casual Linen Shirt", Shirts, 38000.0,
    "https://images.unsplash.com/photo-1596755094514-f87e34085b2c?w=400",
    ["M", "L", "XL"], ["White", "Beige", "Light Blue"], 20, "SHT003")
  const Shirt4 := Product("shirt-4", "Flannel Check Shirt", Shirts, 32000.0,
    "https://images.unsplash.com/photo-1589310243389-96a5483213a8?w=400",
    ["S", "M", "L", "XL"], ["Red", "Blue", "Green"], 28, "SHT004")
  const Pant1 := Product("pant-1", "Chino Trousers", Pants, 28000.0,
    "https://images.unsplash.com/photo-1473966968600-fa801b869a1a?w=400",
    ["30", "32", "34", "36"], ["Khaki", "Navy", "Black"], 40, "PNT001")
  const Pant2 := Product("pant-2", "Tailored Dress Pants", Pants, 45000.0,
    "https://images.unsplash.com/photo-1594938298603-c8148c4dae35?w=400",
    ["30", "32", "34", "36", "38"], ["Black", "Navy", "Charcoal"], 25, "PNT002")
  const Pant3 := Product("pant-3", "Cargo Pants", Pants, 32000.0,
    "https://images.unsplash.com/photo-1517445312882-bc9910d016b7?w=400",
    ["30", "32", "34", "36"], ["Olive", "Black", "Khaki"], 35, "PNT003")
  const Pant4 := Product("pant-4", "Jogger Pants", Pants, 22000.0,
    "https://images.unsplash.com/photo-1552902865-b72c031ac5ea?w=400",
    ["S", "M", "L", "XL"], ["Black", "Grey", "Navy"], 45, "PNT004")
  const Jean1 := Product("jean-1", "Classic Blue Jeans", Jeans, 35000.0,
    "https://images.unsplash.com/photo-1542272604-787c3835535d?w=400",
    ["30", "32", "34", "36"], ["Blue", "Dark Blue"], 50, "JNS001")
  const Jean2 := Product("jean-2", "Skinny Fit Jeans", Jeans, 38000.0,
    "https://images.unsplash.com/photo-1604176354204-9268737828e4?w=400",
    ["28", "30", "32", "34"], ["Black", "Blue", "Grey"], 40, "JNS002")
  const Jean3 := Product("jean-3", "Ripped Denim Jeans", Jeans, 42000.0,
    "https://images.unsplash.com/photo-1541099649105-f69ad21f3246?w=400",
    ["30", "32", "34"], ["Light Blue", "Blue"], 30, "JNS003")
  const Jean4 := Product("jean-4", "Straight Leg Jeans", Jeans, 36000.0,
    "https://images.unsplash.com/photo-1582552938357-32b906df40cb?w=400",
    ["30", "32", "34", "36", "38"], ["Blue", "Black"], 45, "JNS004")
  const Bag1 := Product("bag-1", "Leather Tote Bag", Bags, 55000.0,
    "https://images.unsplash.com/photo-1548036328-c9fa89d128fa?w=400",
    ["One Size"], ["Brown", "Black", "Tan"], 20, "BAG001")
  const Bag2 := Product("bag-2", "Canvas Backpack", Bags, 28000.0,
    "https://images.unsplash.com/photo-1553062407-98eeb64c6a62?w=400",
    ["One Size"], ["Grey", "Navy", "Black"], 35, "BAG002")
  const Bag3 := Product("bag-3", "Crossbody Sling Bag", Bags, 22000.0,
    "https://images.unsplash.com/photo-1598532163257-ae3c6b2524b6?w=400",
    ["One Size"], ["Black", "Brown"], 25, "BAG003")
  const Bag4 := Product("bag-4", "Weekender Duffle", Bags, 65000.0,
    "https://images.unsplash.com/photo-1590874103328-eac38a683ce7?w=400",
    ["One Size"], ["Black", "Brown", "Navy"], 15, "BAG004")
  const Cap1 := Product("cap-1", "Classic Baseball Cap", Caps, 8000.0,
    "https://images.unsplash.com/photo-1588850561407-ed78c282e89b?w=400",
    ["One Size"], ["Black", "Navy", "White", "Red"], 60, "CAP001")
  const Cap2 := Product("cap-2", "Snapback Cap", Caps, 12000.0,
    "https://images.unsplash.com/photo-1534215754734-18e55d13e346?w=400",
    ["One Size"], ["Black", "Grey", "Navy"], 45, "CAP002")
  const Cap3 := Product("cap-3", "Bucket Hat", Caps, 10000.0,
    "https://images.unsplash.com/photo-1572307480813-ceb0e59d8325?w=400",
    ["S/M", "L/XL"], ["Black", "Beige", "Navy"], 40, "CAP003")
  const Cap4 := Product("cap-4", "Trucker Cap", Caps, 9000.0,
    "https://images.unsplash.com/photo-1521369909029-2afed882baee?w=400",
    ["One Size"], ["Black", "Navy", "Grey"], 50, "CAP004")

  /** The 24 products the point of sale offers, in their declared order. */
  const Catalog: seq<Product> := [
    Top1, Top2, Top3, Top4, Shirt1, Shirt2, Shirt3, Shirt4,
    Pant1, Pant2, Pant3, Pant4, Jean1, Jean2, Jean3, Jean4,
    Bag1, Bag2, Bag3, Bag4, Cap1, Cap2, Cap3, Cap4]

  /** Every product offers at least one size and one color and has a positive price. */
  predicate WellFormedProduct(p: Product)
  {
    |p.sizes| > 0 && |p.colors| > 0 && p.price > 0.0
  }

  /** Well-formed products whose ids, and whose barcodes, are pairwise distinct. */
  predicate WellFormedCatalog(c: seq<Product>)
  {
    && (forall i :: 0 <= i < |c| ==> WellFormedProduct(c[i]))
    && (forall i, j :: 0 <= i < j < |c| ==> c[i].id != c[j].id)
    && (forall i, j :: 0 <= i < j < |c| ==> c[i].barcode != c[j].barcode)
  }

  lemma CatalogProductsWellFormed()
    ensures forall i :: 0 <= i < |Catalog| ==> WellFormedProduct(Catalog[i])
  {
    forall i | 0 <= i < |Catalog| ensures WellFormedProduct(Catalog[i]) {
      assert i == 0 || i == 1 || i == 2 || i == 3 || i == 4 || i == 5 || i == 6 || i == 7 || i == 8 || i == 9 || i == 10 || i == 11 || i == 12 || i == 13 || i == 14 || i == 15 || i == 16 || i == 17 || i == 18 || i == 19 || i == 20 || i == 21 || i == 22 || i == 23;
    }
  }

  /**
   * The catalog position encoded by an id or a barcode: its first letter
   * names the group of four ('t', 's', 'p', 'j', 'b', 'c' in either case),
   * its last character the place in the group. A proof device for distinctness.
   */
  ghost function CatalogKey(s: string): int
  {
    if s == [] then -1
    else
      var c := LowerChar(s[0]);
      var group := if c == 't' then 0 else if c == 's' then 1 else if c == 'p' then 2
                   else if c == 'j' then 3 else if c == 'b' then 4 else 5;
      4 * group + (s[|s| - 1] as int - '1' as int)
  }

  lemma CatalogIdKeys()
    ensures forall i :: 0 <= i < |Catalog| ==> CatalogKey(Catalog[i].id) == i
  {
    forall i | 0 <= i < |Catalog| ensures CatalogKey(Catalog[i].id) == i {
      assert i == 0 || i == 1 || i == 2 || i == 3 || i == 4 || i == 5 || i == 6 || i == 7 || i == 8 || i == 9 || i == 10 || i == 11 || i == 12 || i == 13 || i == 14 || i == 15 || i == 16 || i == 17 || i == 18 || i == 19 || i == 20 || i == 21 || i == 22 || i == 23;
    }
  }

  lemma CatalogBarcodeKeys()
    ensures forall i :: 0 <= i < |Catalog| ==> CatalogKey(Catalog[i].barcode) == i
  {
    forall i | 0 <= i < |Catalog| ensures CatalogKey(Catalog[i].barcode) == i {
      assert i == 0 || i == 1 || i == 2 || i == 3 || i == 4 || i == 5 || i == 6 || i == 7 || i == 8 || i == 9 || i == 10 || i == 11 || i == 12 || i == 13 || i == 14 || i == 15 || i == 16 || i == 17 || i == 18 || i == 19 || i == 20 || i == 21 || i == 22 || i == 23;
    }
  }

  /** Every barcode starts with a capital letter and ends with a digit. */
  lemma CatalogBarcodeShape(i: nat)
    requires i < |Catalog|
    ensures |Catalog[i].barcode| > 0
    ensures 'A' <= Catalog[i].barcode[0] <= 'Z'
    ensures '0' <= Catalog[i].barcode[|Catalog[i].barcode| - 1] <= '9'
  {
    assert i == 0 || i == 1 || i == 2 || i == 3 || i == 4 || i == 5 || i == 6 || i == 7 || i == 8 || i == 9 || i == 10 || i == 11 || i == 12 || i == 13 || i == 14 || i == 15 || i == 16 || i == 17 || i == 18 || i == 19 || i == 20 || i == 21 || i == 22 || i == 23;
  }

  lemma CatalogWellFormed()
    ensures WellFormedCatalog(Catalog)
  {
    CatalogProductsWellFormed();
    CatalogIdKeys();
    CatalogBarcodeKeys();
  }

  /*
   * The lookups below range over a product list `products`; the application
   * always passes `Catalog`. Keeping the list a parameter states each
   * lookup's meaning for any list and keeps the catalog data out of proofs
   * that do not need it.
   */

  /** `getProductsByCategory`: exactly the products of that category, in list order. */
  function ProductsByCategory(products: seq<Product>, category: Category): (r: seq<Product>)
    ensures IsSubsequence(r, products)
    ensures forall i :: 0 <= i < |r| ==> r[i] in products && r[i].category == category
    ensures forall i :: 0 <= i < |products| && products[i].category == category ==> products[i] in r
  {
    FilterMembers(products, (p: Product) => p.category == category);
    Filter(products, (p: Product) => p.category == category)
  }

  /** `getProductById`: the first product with that id, or none when no product has it. */
  function ProductById(products: seq<Product>, id: string): (r: Option<Product>)
    ensures r.None? <==> forall i :: 0 <= i < |products| ==> products[i].id != id
    ensures r.Some? ==> exists k :: 0 <= k < |products| && products[k] == r.value && r.value.id == id
                          && forall j :: 0 <= j < k ==> products[j].id != id
  {
    Find(products, (p: Product) => p.id == id)
  }

  /** `getProductByBarcode`: the first product with that barcode, or none when no product has it. */
  function ProductByBarcode(products: seq<Product>, barcode: string): (r: Option<Product>)
    ensures r.None? <==> forall i :: 0 <= i < |products| ==> products[i].barcode != barcode
    ensures r.Some? ==> exists k :: 0 <= k < |products| && products[k] == r.value && r.value.barcode == barcode
                          && forall j :: 0 <= j < k ==> products[j].barcode != barcode
  {
    Find(products, (p: Product) => p.barcode == barcode)
  }

  /** The search predicate: the lowercased query occurs in the lowercased name, barcode or category. */
  predicate MatchesQuery(p: Product, query: string)
  {
    var q := Lower(query);
    Includes(Lower(p.name), q) || Includes(Lower(p.barcode), q) || Includes(Lower(CategoryId(p.category)), q)
  }

  /** `searchProducts`: every matching product, and only those, in list order. */
  function SearchProducts(products: seq<Product>, query: string): (r: seq<Product>)
    ensures IsSubsequence(r, products)
    ensures forall i :: 0 <= i < |r| ==> r[i] in products && MatchesQuery(r[i], query)
    ensures forall i :: 0 <= i < |products| && MatchesQuery(products[i], query) ==> products[i] in r
  {
    FilterMembers(products, (p: Product) => MatchesQuery(p, query));
    Filter(products, (p: Product) => MatchesQuery(p, query))
  }

  /** The search keeps every copy of a matching product and no copy of any other. */
  lemma SearchProductsCounts(products: seq<Product>, query: string)
    ensures forall p :: multiset(SearchProducts(products, query))[p]
                     == if MatchesQuery(p, query) then multiset(products)[p] else 0
  {
    FilterCounts(products, (p: Product) => MatchesQuery(p, query));
  }

  /** In a list with distinct ids, the product found by id is the one at that id's position. */
  lemma ProductByIdUnique(products: seq<Product>, i: nat)
    requires WellFormedCatalog(products) && i < |products|
    ensures ProductById(products, products[i].id) == Some(products[i])
  {
    var r := ProductById(products, products[i].id);
    var k :| 0 <= k < |products| && products[k] == r.value && products[k].id == products[i].id;
  }

  /** In a list with distinct barcodes, a scan finds exactly the product carrying that barcode. */
  lemma ProductByBarcodeUnique(products: seq<Product>, i: nat)
    requires WellFormedCatalog(products) && i < |products|
    ensures ProductByBarcode(products, products[i].barcode) == Some(products[i])
  {
    var r := ProductByBarcode(products, products[i].barcode);
    var k :| 0 <= k < |products| && products[k] == r.value && products[k].barcode == products[i].barcode;
  }

  /** The empty query matches every product, so the whole list comes back in order. */
  lemma SearchEmptyIsAll(products: seq<Product>)
    ensures SearchProducts(products, "") == products
  {
    forall i | 0 <= i < |products| ensures MatchesQuery(products[i], "") {
      IncludesEmpty(Lower(products[i].name));
    }
    FilterAll(products, (p: Product) => MatchesQuery(p, ""));
  }

  /** Every catalog product is found by its id and by its barcode. */
  lemma CatalogLookups(i: nat)
    requires i < |Catalog|
    ensures ProductById(Catalog, Catalog[i].id) == Some(Catalog[i])
    ensures ProductByBarcode(Catalog, Catalog[i].barcode) == Some(Catalog[i])
  {
    CatalogWellFormed();
    ProductByIdUnique(Catalog, i);
    ProductByBarcodeUnique(Catalog, i);
  }
}
