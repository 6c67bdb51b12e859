/**
 * The cart store of src/contexts/CartContext.tsx: an ordered list of line
 * items that adds by merging on (product, size, color), removes by id,
 * updates quantities behind a guard and clears; and the price breakdown
 * derived from it (subtotal, percent discount, taxable amount, tax, total)
 * together with the item count.
 *
 * Amounts are exact reals: prices are whole naira, percents may be
 * fractional (the default tax rate is 7.5).
 */
module CartContext {
  import opened Collections

  /** A line of the cart (`CartItem`); `price` is the unit price captured when the line was created. */
  datatype LineItem = LineItem(
    id: string,
    productId: string,
    name: string,
    price: real,
    quantity: int,
    size: string,
    color: string,
    image: string)

  /** What `addItem` receives: a line item without its id. */
  datatype NewItem = NewItem(
    productId: string,
    name: string,
    price: real,
    quantity: int,
    size: string,
    color: string,
    image: string)

  /** The line `addItem` appends for a new selection; `id` stands for the clock- and random-derived id. */
  function LineFor(item: NewItem, id: string): LineItem
  {
    LineItem(id, item.productId, item.name, item.price, item.quantity, item.size, item.color, item.image)
  }

  /** The two lines hold the same (productId, size, color) selection. */
  predicate SameKey(a: LineItem, b: LineItem)
  {
    a.productId == b.productId && a.size == b.size && a.color == b.color
  }

  /** The line holds the selection of the item being added. */
  predicate SameSelection(line: LineItem, item: NewItem)
  {
    SameKey(line, LineFor(item, line.id))
  }

  /** At most one line per (productId, size, color). */
  predicate UniqueKeys(items: seq<LineItem>)
  {
    forall i, j :: 0 <= i < j < |items| ==> !SameKey(items[i], items[j])
  }

  /** Every line has a quantity of at least one. */
  predicate PositiveQuantities(items: seq<LineItem>)
  {
    forall i :: 0 <= i < |items| ==> items[i].quantity >= 1
  }

  /** The `findIndex` of `addItem`: the line holding the item's selection, or -1. */
  function SelectionIndex(items: seq<LineItem>, item: NewItem): int
  {
    FindIndex(items, (line: LineItem) => SameSelection(line, item))
  }

  /** A line holding `extra` more of its selection. */
  function Grown(line: LineItem, extra: int): LineItem
  {
    line.(quantity := line.quantity + extra)
  }

  /** The list `addItem` leaves: the matching line's quantity grows, or a new line is appended. */
  function Added(items: seq<LineItem>, item: NewItem, freshId: string): seq<LineItem>
  {
    var k := SelectionIndex(items, item);
    if k >= 0 then items[k := Grown(items[k], item.quantity)]
    else items + [LineFor(item, freshId)]
  }

  /** The list `removeItem` leaves: the lines with another id, in their order. */
  function Removed(items: seq<LineItem>, id: string): (r: seq<LineItem>)
    ensures IsSubsequence(r, items)
    ensures forall i :: 0 <= i < |r| ==> r[i] in items && r[i].id != id
    ensures forall i :: 0 <= i < |items| && items[i].id != id ==> items[i] in r
  {
    FilterMembers(items, (line: LineItem) => line.id != id);
    Filter(items, (line: LineItem) => line.id != id)
  }

  /** Removal keeps every copy of a line with another id and no copy of a line with that id. */
  lemma RemovedCounts(items: seq<LineItem>, id: string)
    ensures forall line :: multiset(Removed(items, id))[line] == if line.id != id then multiset(items)[line] else 0
  {
    FilterCounts(items, (line: LineItem) => line.id != id);
  }

  /** The list the map in `updateQuantity` builds: lines with that id take the new quantity. */
  function WithQuantity(items: seq<LineItem>, id: string, quantity: int): (r: seq<LineItem>)
    ensures |r| == |items|
    ensures forall i :: 0 <= i < |items| ==> r[i] == if items[i].id == id then items[i].(quantity := quantity) else items[i]
  {
    seq(|items|, i requires 0 <= i < |items| => if items[i].id == id then items[i].(quantity := quantity) else items[i])
  }

  // ---------------------------------------------------------------- pricing

  /** The tax rate a new cart starts with (Nigerian VAT, percent). */
  const DefaultTaxRate: real := 7.5

  /** Σ price × quantity, folded from the left as `reduce` does. */
  function Subtotal(items: seq<LineItem>): real
  {
    if items == [] then 0.0
    else Subtotal(items[..|items| - 1]) + items[|items| - 1].price * items[|items| - 1].quantity as real
  }

  /** Σ quantity. */
  function ItemCount(items: seq<LineItem>): int
  {
    if items == [] then 0
    else ItemCount(items[..|items| - 1]) + items[|items| - 1].quantity
  }

  /** The derived amounts of the cart. */
  datatype Breakdown = Breakdown(subtotal: real, discount: real, taxableAmount: real, taxAmount: real, total: real)

  /** The price breakdown: discount on the subtotal, tax on what remains after the discount. */
  function PriceOf(items: seq<LineItem>, discountPercent: real, taxRate: real): Breakdown
  {
    var subtotal := Subtotal(items);
    var discount := subtotal * discountPercent / 100.0;
    var taxableAmount := subtotal - discount;
    var taxAmount := taxableAmount * taxRate / 100.0;
    Breakdown(subtotal, discount, taxableAmount, taxAmount, taxableAmount + taxAmount)
  }

  // ---------------------------------------------------------------- the store

  /** The state held by `CartProvider`: the lines, the discount percent and the tax rate. */
  class CartStore {
    var items: seq<LineItem>
    var discountPercent: real
    var taxRate: real

    /** The consolidation invariant every operation keeps. */
    ghost predicate Valid()
      reads this
    {
      UniqueKeys(items)
    }

    /** A new cart: no lines, no discount, the default tax rate. */
    constructor ()
      ensures Valid()
      ensures items == [] && discountPercent == 0.0 && taxRate == DefaultTaxRate
    {
      items := [];
      discountPercent := 0.0;
      taxRate := DefaultTaxRate;
    }

    /** The breakdown derived from the current state. */
    function Prices(): Breakdown
      reads this
    {
      PriceOf(items, discountPercent, taxRate)
    }

    /** `addItem`: grows the matching line in place, or appends a line carrying `freshId`. */
    method AddItem(item: NewItem, freshId: string)
      requires Valid()
      modifies this`items
      ensures Valid()
      ensures items == Added(old(items), item, freshId)
    {
      var k := FindIndex(items, (line: LineItem) => SameSelection(line, item));
      if k >= 0 {
        items := items[k := Grown(items[k], item.quantity)];
      } else {
        items := items + [LineFor(item, freshId)];
      }
      AddedKeepsUniqueKeys(old(items), item, freshId);
    }

    /** `removeItem`: keeps the lines whose id differs. */
    method RemoveItem(id: string)
      requires Valid()
      modifies this`items
      ensures Valid()
      ensures items == Removed(old(items), id)
    {
      RemovedKeepsUniqueKeys(items, id);
      items := Removed(items, id);
    }

    /** `updateQuantity`: a quantity below one is ignored; otherwise the lines with that id take it. */
    method UpdateQuantity(id: string, quantity: int)
      requires Valid()
      modifies this`items
      ensures Valid()
      ensures items == if quantity < 1 then old(items) else WithQuantity(old(items), id, quantity)
    {
      if quantity < 1 {
        return;
      }
      items := WithQuantity(items, id, quantity);
    }

    /** `clearCart`: no lines and no discount; the tax rate stays. */
    method ClearCart()
      modifies this`items, this`discountPercent
      ensures Valid()
      ensures items == [] && discountPercent == 0.0
    {
      items := [];
      discountPercent := 0.0;
    }

    /** The context's raw `setDiscountPercent` (the range check lives in the cart sidebar). */
    method SetDiscountPercent(percent: real)
      modifies this`discountPercent
      ensures discountPercent == percent
    {
      discountPercent := percent;
    }

    /** The context's raw `setTaxRate`. */
    method SetTaxRate(rate: real)
      modifies this`taxRate
      ensures taxRate == rate
    {
      taxRate := rate;
    }
  }

  // ---------------------------------------------------------------- lemmas: adding

  /** Adding a selection that is already in the cart grows that line by the added quantity; nothing else changes. */
  lemma AddedMerges(items: seq<LineItem>, item: NewItem, freshId: string, k: nat)
    requires UniqueKeys(items)
    requires k < |items| && SameSelection(items[k], item)
    ensures |Added(items, item, freshId)| == |items|
    ensures Added(items, item, freshId)[k] == items[k].(quantity := items[k].quantity + item.quantity)
    ensures forall i :: 0 <= i < |items| && i != k ==> Added(items, item, freshId)[i] == items[i]
  {
    var j := SelectionIndex(items, item);
    assert j >= 0;
    if j != k {
      assert SameKey(items[j], items[k]);
      assert false;
    }
  }

  /** Adding a new selection appends exactly one line, at the end, with the given price; earlier lines stay. */
  lemma AddedAppends(items: seq<LineItem>, item: NewItem, freshId: string)
    requires forall i :: 0 <= i < |items| ==> !SameSelection(items[i], item)
    ensures Added(items, item, freshId) == items + [LineFor(item, freshId)]
    ensures Added(items, item, freshId)[|items|].price == item.price
  {
  }

  /** `addItem` never creates a second line for one (productId, size, color). */
  lemma AddedKeepsUniqueKeys(items: seq<LineItem>, item: NewItem, freshId: string)
    requires UniqueKeys(items)
    ensures UniqueKeys(Added(items, item, freshId))
  {
    var r := Added(items, item, freshId);
    var k := SelectionIndex(items, item);
    if k < 0 {
      forall i, j | 0 <= i < j < |r| ensures !SameKey(r[i], r[j]) {
        if j == |items| {
          assert !SameSelection(items[i], item);
        }
      }
    } else {
      forall i, j | 0 <= i < j < |r| ensures !SameKey(r[i], r[j]) {
        assert SameKey(r[i], items[i]) && SameKey(r[j], items[j]);
      }
    }
  }

  /** `addItem` keeps every quantity at least one when the added quantity is. */
  lemma AddedKeepsPositiveQuantities(items: seq<LineItem>, item: NewItem, freshId: string)
    requires PositiveQuantities(items) && item.quantity >= 1
    ensures PositiveQuantities(Added(items, item, freshId))
  {
  }

  /** The total quantity of the lines holding the item's selection. */
  function SelectionQuantity(items: seq<LineItem>, item: NewItem): int
  {
    if items == [] then 0
    else
      var last := items[|items| - 1];
      SelectionQuantity(items[..|items| - 1], item) + (if SameSelection(last, item) then last.quantity else 0)
  }

  /** Changing one line's quantity changes a quantity sum over a prefix by the difference. */
  lemma {:induction false} SelectionQuantityUpdate(items: seq<LineItem>, item: NewItem, k: nat, q: int)
    requires k < |items|
    ensures SelectionQuantity(items[k := items[k].(quantity := q)], item)
         == SelectionQuantity(items, item) + (if SameSelection(items[k], item) then q - items[k].quantity else 0)
    ensures ItemCount(items[k := items[k].(quantity := q)]) == ItemCount(items) + q - items[k].quantity
  {
    var r := items[k := items[k].(quantity := q)];
    var n := |items|;
    if k == n - 1 {
      assert r[..n - 1] == items[..n - 1];
    } else {
      assert r[..n - 1] == items[..n - 1][k := items[k].(quantity := q)];
      SelectionQuantityUpdate(items[..n - 1], item, k, q);
    }
  }

  /** Growing line `k` by `extra` grows the subtotal by `extra` at that line's price. */
  lemma {:induction false} SubtotalGrow(items: seq<LineItem>, k: nat, extra: int)
    requires k < |items|
    ensures Subtotal(items[k := Grown(items[k], extra)])
         == Subtotal(items) + items[k].price * extra as real
  {
    var r := items[k := Grown(items[k], extra)];
    var n := |items|;
    if k == n - 1 {
      assert r[..n - 1] == items[..n - 1];
      var p := items[k].price;
      assert p * (items[k].quantity + extra) as real == p * items[k].quantity as real + p * extra as real;
    } else {
      assert r[..n - 1] == items[..n - 1][k := Grown(items[k], extra)];
      SubtotalGrow(items[..n - 1], k, extra);
    }
  }

  /**
   * Two adds of one selection: the quantities accumulate on one line. Stated
   * for any cart: the selection's total quantity grows by exactly the added
   * quantity, and so does the item count.
   */
  lemma {:induction false} AddedQuantities(items: seq<LineItem>, item: NewItem, freshId: string)
    ensures SelectionQuantity(Added(items, item, freshId), item) == SelectionQuantity(items, item) + item.quantity
    ensures ItemCount(Added(items, item, freshId)) == ItemCount(items) + item.quantity
  {
    var k := SelectionIndex(items, item);
    if k >= 0 {
      SelectionQuantityUpdate(items, item, k, items[k].quantity + item.quantity);
    } else {
      var r := items + [LineFor(item, freshId)];
      assert r[..|r| - 1] == items;
    }
  }

  /**
   * The subtotal grows by the added quantity at the line's unit price: the
   * snapshot already in the cart when the selection merges, the item's own
   * price when a line is appended.
   */
  lemma AddedSubtotal(items: seq<LineItem>, item: NewItem, freshId: string)
    ensures SelectionIndex(items, item) >= 0 ==>
              Subtotal(Added(items, item, freshId))
                == Subtotal(items) + items[SelectionIndex(items, item)].price * item.quantity as real
    ensures SelectionIndex(items, item) < 0 ==>
              Subtotal(Added(items, item, freshId)) == Subtotal(items) + item.price * item.quantity as real
  {
    if SelectionIndex(items, item) >= 0 {
      MergedSubtotal(items, item, freshId);
    } else {
      AppendedSubtotal(items, LineFor(item, freshId));
    }
  }

  /** A merging add grows the subtotal by the added quantity at the price already on the line. */
  lemma MergedSubtotal(items: seq<LineItem>, item: NewItem, freshId: string)
    requires SelectionIndex(items, item) >= 0
    ensures Subtotal(Added(items, item, freshId))
         == Subtotal(items) + items[SelectionIndex(items, item)].price * item.quantity as real
  {
    var k := SelectionIndex(items, item);
    assert Added(items, item, freshId) == items[k := Grown(items[k], item.quantity)];
    SubtotalGrow(items, k, item.quantity);
  }

  /** Appending a line grows the subtotal by that line's price times its quantity. */
  lemma AppendedSubtotal(items: seq<LineItem>, line: LineItem)
    ensures Subtotal(items + [line]) == Subtotal(items) + line.price * line.quantity as real
  {
    var r := items + [line];
    assert r[..|r| - 1] == items;
  }

  /** With a unique line per selection, adding q1 then q2 of one selection leaves one line holding q1 + q2 more. */
  lemma AddedTwice(items: seq<LineItem>, first: NewItem, second: NewItem, id1: string, id2: string)
    requires UniqueKeys(items)
    requires second.productId == first.productId && second.size == first.size && second.color == first.color
    ensures var r := Added(Added(items, first, id1), second, id2);
      UniqueKeys(r) && SelectionQuantity(r, first) == SelectionQuantity(items, first) + first.quantity + second.quantity
  {
    var r1 := Added(items, first, id1);
    AddedKeepsUniqueKeys(items, first, id1);
    AddedKeepsUniqueKeys(r1, second, id2);
    AddedQuantities(items, first, id1);
    AddedQuantities(r1, second, id2);
    SelectionQuantityCongruent(Added(r1, second, id2), first, second);
    SelectionQuantityCongruent(r1, first, second);
  }

  /** Items with the same selection have the same selection quantity. */
  lemma {:induction false} SelectionQuantityCongruent(items: seq<LineItem>, a: NewItem, b: NewItem)
    requires a.productId == b.productId && a.size == b.size && a.color == b.color
    ensures SelectionQuantity(items, a) == SelectionQuantity(items, b)
  {
    if items != [] {
      SelectionQuantityCongruent(items[..|items| - 1], a, b);
    }
  }

  // ---------------------------------------------------------------- lemmas: removing, updating

  /** Removing an id no line carries leaves the cart as it was. */
  lemma RemovedAbsent(items: seq<LineItem>, id: string)
    requires forall i :: 0 <= i < |items| ==> items[i].id != id
    ensures Removed(items, id) == items
  {
    FilterAll(items, (line: LineItem) => line.id != id);
  }

  /** Removal keeps the consolidation invariant and positive quantities. */
  lemma {:induction false} RemovedKeepsUniqueKeys(items: seq<LineItem>, id: string)
    ensures UniqueKeys(items) ==> UniqueKeys(Removed(items, id))
    ensures PositiveQuantities(items) ==> PositiveQuantities(Removed(items, id))
  {
    if items != [] {
      RemovedKeepsUniqueKeys(items[1..], id);
      var rest := Removed(items[1..], id);
      if items[0].id != id {
        assert Removed(items, id) == [items[0]] + rest;
        if UniqueKeys(items) {
          forall j | 0 <= j < |rest| ensures !SameKey(items[0], rest[j]) {
            var m :| 0 <= m < |items[1..]| && items[1..][m] == rest[j];
          }
        }
      } else {
        assert Removed(items, id) == rest;
      }
    }
  }

  /** Updating quantities keeps the keys, hence the consolidation invariant; a quantity of at least one keeps all positive. */
  lemma UpdatedKeepsInvariants(items: seq<LineItem>, id: string, quantity: int)
    ensures UniqueKeys(items) ==> UniqueKeys(WithQuantity(items, id, quantity))
    ensures PositiveQuantities(items) && quantity >= 1 ==> PositiveQuantities(WithQuantity(items, id, quantity))
  {
    var r := WithQuantity(items, id, quantity);
    assert forall i :: 0 <= i < |items| ==> SameKey(r[i], items[i]);
  }

  /** Only the lines with the given id change, and only in their quantity. */
  lemma UpdatedOnlyThatId(items: seq<LineItem>, id: string, quantity: int, i: nat)
    requires i < |items|
    ensures items[i].id != id ==> WithQuantity(items, id, quantity)[i] == items[i]
    ensures items[i].id == id ==>
              (WithQuantity(items, id, quantity)[i].quantity == quantity &&
               WithQuantity(items, id, quantity)[i].(quantity := items[i].quantity) == items[i])
  {
  }

  // ---------------------------------------------------------------- lemmas: pricing

  /** The empty cart costs nothing and counts no items. */
  lemma EmptyCartPrices(discountPercent: real, taxRate: real)
    ensures PriceOf([], discountPercent, taxRate) == Breakdown(0.0, 0.0, 0.0, 0.0, 0.0)
    ensures ItemCount([]) == 0
  {
  }

  /** total = subtotal − discount + tax, with the tax taken on the discounted amount, not the subtotal. */
  lemma PricingIdentities(items: seq<LineItem>, discountPercent: real, taxRate: real)
    ensures var b := PriceOf(items, discountPercent, taxRate);
      && b.subtotal == Subtotal(items)
      && b.taxableAmount == b.subtotal - b.discount
      && b.taxAmount == (b.subtotal - b.discount) * taxRate / 100.0
      && b.total == b.subtotal - b.discount + b.taxAmount
  {
  }

  /** No discount percent, no discount: the taxable amount is the subtotal. */
  lemma ZeroDiscount(items: seq<LineItem>, taxRate: real)
    ensures PriceOf(items, 0.0, taxRate).discount == 0.0
    ensures PriceOf(items, 0.0, taxRate).taxableAmount == Subtotal(items)
  {
  }

  /** Lines with non-negative prices and quantities have a non-negative subtotal. */
  lemma {:induction false} SubtotalNonNegative(items: seq<LineItem>)
    requires forall i :: 0 <= i < |items| ==> items[i].price >= 0.0 && items[i].quantity >= 0
    ensures Subtotal(items) >= 0.0
  {
    if items != [] {
      SubtotalNonNegative(items[..|items| - 1]);
      var last := items[|items| - 1];
      assert last.price * last.quantity as real >= 0.0;
    }
  }

  /** A percentage in [0, 100] of a non-negative amount lies between zero and the amount. */
  lemma PercentOfBounds(amount: real, percent: real)
    requires 0.0 <= amount && 0.0 <= percent
    ensures 0.0 <= amount * percent / 100.0
    ensures percent <= 100.0 ==> amount * percent / 100.0 <= amount
  {
    assert 0.0 <= amount * percent;
    if percent <= 100.0 {
      assert amount * (100.0 - percent) >= 0.0;
    }
  }

  /** A discount within [0, 100] and a non-negative rate keep every amount between zero and its bound. */
  lemma PricingBounds(items: seq<LineItem>, discountPercent: real, taxRate: real)
    requires forall i :: 0 <= i < |items| ==> items[i].price >= 0.0 && items[i].quantity >= 0
    requires 0.0 <= discountPercent <= 100.0 && 0.0 <= taxRate
    ensures var b := PriceOf(items, discountPercent, taxRate);
      && 0.0 <= b.discount <= b.subtotal
      && 0.0 <= b.taxableAmount <= b.subtotal
      && 0.0 <= b.taxAmount
      && b.taxableAmount <= b.total
  {
    SubtotalNonNegative(items);
    var b := PriceOf(items, discountPercent, taxRate);
    PercentOfBounds(b.subtotal, discountPercent);
    PercentOfBounds(b.taxableAmount, taxRate);
  }

  /** One line at 15000 × 2, 10% discount, 7.5% tax: 30000, 3000, 27000, 2025, 29025. */
  lemma WorkedExample(id: string, productId: string, name: string, size: string, color: string, image: string)
    ensures PriceOf([LineItem(id, productId, name, 15000.0, 2, size, color, image)], 10.0, DefaultTaxRate)
         == Breakdown(30000.0, 3000.0, 27000.0, 2025.0, 29025.0)
  {
    var items := [LineItem(id, productId, name, 15000.0, 2, size, color, image)];
    assert items[..0] == [];
    assert Subtotal(items) == 30000.0;
  }
}
