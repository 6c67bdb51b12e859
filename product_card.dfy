/**
 * The product tile of src/components/products/ProductCard.tsx: a size and a
 * color chosen from the product's own lists, a quantity stepper that never
 * goes below one, and "Add to Cart", which hands the cart the product's id
 * and current price with the chosen options and then resets the tile.
 */
module ProductCard {
  import opened CartContext
  import opened Products

  /** The decrement button, `Math.max(1, quantity - 1)`. */
  function Decremented(quantity: int): (r: int)
    ensures r >= 1
    ensures quantity >= 2 ==> r == quantity - 1
    ensures quantity <= 2 ==> r == 1
  {
    if quantity - 1 > 1 then quantity - 1 else 1
  }

  /** What `handleAddToCart` passes to `addItem`. */
  function Request(product: Product, size: string, color: string, quantity: int): NewItem
  {
    NewItem(product.id, product.name, product.price, quantity, size, color, product.image)
  }

  /** The tile's state over one product. */
  class Card {
    const product: Product
    var selectedSize: string
    var selectedColor: string
    var quantity: int
    var showOptions: bool

    /** The selections come from the product's lists and the quantity is at least one. */
    ghost predicate Valid()
      reads this
    {
      selectedSize in product.sizes && selectedColor in product.colors && quantity >= 1
    }

    /** The first size, the first color, quantity one, options closed. */
    constructor (product: Product)
      requires |product.sizes| > 0 && |product.colors| > 0
      ensures Valid()
      ensures this.product == product
      ensures selectedSize == product.sizes[0] && selectedColor == product.colors[0]
      ensures quantity == 1 && !showOptions
    {
      this.product := product;
      selectedSize := product.sizes[0];
      selectedColor := product.colors[0];
      quantity := 1;
      showOptions := false;
    }

    /** "Add to Cart" opening the options, or "Cancel" closing them. */
    method ShowOptions(open: bool)
      modifies this`showOptions
      ensures showOptions == open
    {
      showOptions := open;
    }

    /** Clicking the size button at position `k` of the product's sizes. */
    method SelectSize(k: nat)
      requires Valid() && k < |product.sizes|
      modifies this`selectedSize
      ensures Valid()
      ensures selectedSize == product.sizes[k]
    {
      selectedSize := product.sizes[k];
    }

    /** Clicking the color button at position `k` of the product's colors. */
    method SelectColor(k: nat)
      requires Valid() && k < |product.colors|
      modifies this`selectedColor
      ensures Valid()
      ensures selectedColor == product.colors[k]
    {
      selectedColor := product.colors[k];
    }

    /** The minus button. */
    method Decrement()
      requires Valid()
      modifies this`quantity
      ensures Valid()
      ensures quantity == Decremented(old(quantity))
    {
      quantity := Decremented(quantity);
    }

    /** The plus button. */
    method Increment()
      requires Valid()
      modifies this`quantity
      ensures Valid()
      ensures quantity == old(quantity) + 1
    {
      quantity := quantity + 1;
    }

    /**
     * `handleAddToCart`: the cart adds the product with the chosen size,
     * color and quantity (under `freshId` if it becomes a new line); then the
     * quantity goes back to one and the options close.
     */
    method AddToCart(cart: CartStore, freshId: string)
      requires Valid() && cart.Valid()
      modifies cart`items, this`quantity, this`showOptions
      ensures Valid() && cart.Valid()
      ensures cart.items == Added(old(cart.items), Request(product, selectedSize, selectedColor, old(quantity)), freshId)
      ensures quantity == 1 && !showOptions
    {
      cart.AddItem(Request(product, selectedSize, selectedColor, quantity), freshId);
      quantity := 1;
      showOptions := false;
    }
  }

  /** From any quantity of at least one, minus then plus never ends below where it started, and plus then minus returns. */
  lemma StepperRoundTrip(quantity: int)
    requires quantity >= 1
    ensures Decremented(quantity + 1) == quantity
    ensures Decremented(quantity) + 1 >= quantity
  {
  }

  /**
   * Adding from a tile: the cart then holds `quantity` more of exactly that
   * (product, size, color), and the item count grows by `quantity`.
   */
  lemma AddFromCardQuantities(items: seq<LineItem>, product: Product, size: string, color: string,
                              quantity: int, freshId: string)
    ensures var req := Request(product, size, color, quantity);
            && SelectionQuantity(Added(items, req, freshId), req) == SelectionQuantity(items, req) + quantity
            && ItemCount(Added(items, req, freshId)) == ItemCount(items) + quantity
  {
    AddedQuantities(items, Request(product, size, color, quantity), freshId);
  }

  /**
   * Adding from a tile grows the subtotal by `quantity` times the price
   * already snapshotted for that selection, or by `quantity` times the
   * product's current price when the selection starts a new line.
   */
  lemma AddFromCardSubtotal(items: seq<LineItem>, product: Product, size: string, color: string,
                            quantity: int, freshId: string)
    ensures var req := Request(product, size, color, quantity);
            SelectionIndex(items, req) >= 0 ==>
              Subtotal(Added(items, req, freshId))
                == Subtotal(items) + items[SelectionIndex(items, req)].price * quantity as real
    ensures var req := Request(product, size, color, quantity);
            SelectionIndex(items, req) < 0 ==>
              Subtotal(Added(items, req, freshId)) == Subtotal(items) + product.price * quantity as real
  {
    AddedSubtotal(items, Request(product, size, color, quantity), freshId);
  }

  /** A tile's add never breaks the cart's rule that every line has a quantity of at least one. */
  lemma AddFromCardKeepsPositive(items: seq<LineItem>, product: Product, size: string, color: string,
                                 quantity: int, freshId: string)
    requires PositiveQuantities(items) && quantity >= 1
    ensures PositiveQuantities(Added(items, Request(product, size, color, quantity), freshId))
  {
    AddedKeepsPositiveQuantities(items, Request(product, size, color, quantity), freshId);
  }

  /** Every catalog product can back a tile: its size and color lists are not empty. */
  lemma CatalogTilesConstructible(i: nat)
    requires i < |Catalog|
    ensures |Catalog[i].sizes| > 0 && |Catalog[i].colors| > 0
  {
    CatalogProductsWellFormed();
  }
}
