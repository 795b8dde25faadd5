/** The sale cart of the sell page, as values: the two ways of adding a
    product, removing a line, the total, and the stock updates a completed
    sale issues. The page's state transitions (module SellPage) are proved
    equal to these functions. */
module Cart {
  import opened Types
  import opened Seqs

  /** Where `findIndex` finds the line of product `id`. */
  function LineIndex(cart: seq<CartItem>, id: string): (r: Option<nat>)
    ensures r.None? <==> forall j :: 0 <= j < |cart| ==> cart[j].product.id != id
    ensures r.Some? ==> r.value < |cart| && cart[r.value].product.id == id &&
                        forall j :: 0 <= j < r.value ==> cart[j].product.id != id
  {
    FirstIndex(cart, (item: CartItem) => item.product.id == id)
  }

  /** The line of product `id` that the page works on, if any. */
  function Line(cart: seq<CartItem>, id: string): Option<CartItem>
  {
    match LineIndex(cart, id)
    case None => None
    case Some(i) => Some(cart[i])
  }

  /** The quantity of product `id` in the cart (0 without a line). */
  function QuantityOf(cart: seq<CartItem>, id: string): int
  {
    match Line(cart, id)
    case None => 0
    case Some(item) => item.quantity
  }

  /** At most one line per product id. */
  predicate UniqueIds(cart: seq<CartItem>)
  {
    forall i, j :: 0 <= i < j < |cart| ==> cart[i].product.id != cart[j].product.id
  }

  /** Every line asks for no more than the stock of its own product snapshot. */
  predicate WithinStock(cart: seq<CartItem>)
  {
    forall i :: 0 <= i < |cart| ==> cart[i].quantity <= cart[i].product.stock
  }

  function Bump(item: CartItem, n: int): CartItem
  {
    item.(quantity := item.quantity + n)
  }

  /** `addScannedItemToCart`: one more unit of `product`, merged into its line
      when there is one, refused when the stock of `product` cannot cover it. */
  function ScanAdd(cart: seq<CartItem>, product: Product): seq<CartItem>
  {
    match LineIndex(cart, product.id)
    case Some(i) =>
      if cart[i].quantity + 1 > product.stock then cart else cart[i := Bump(cart[i], 1)]
    case None =>
      if 1 > product.stock then cart else cart + [CartItem(product, 1, product.mrp)]
  }

  /** Whether a scan of `product` is accepted. */
  predicate ScanAccepted(cart: seq<CartItem>, product: Product)
  {
    QuantityOf(cart, product.id) + 1 <= product.stock
  }

  /** `addToCart`: `quantity` units of `product` at `price` (0 meaning the
      MRP). Only `quantity` is checked against the stock; a line already in
      the cart gets `quantity` added and keeps its price. */
  function ManualAdd(cart: seq<CartItem>, product: Product, quantity: int, price: real): seq<CartItem>
  {
    if quantity > product.stock then cart
    else match LineIndex(cart, product.id)
      case Some(i) => cart[i := Bump(cart[i], quantity)]
      case None => cart + [CartItem(product, quantity, if price != 0.0 then price else product.mrp)]
  }

  /** The unit price an accepted add charges: the price of the product's
      existing line, otherwise `price`, or the MRP when `price` is 0. */
  function UnitPrice(cart: seq<CartItem>, product: Product, price: real): real
  {
    match Line(cart, product.id)
    case Some(item) => item.salePrice
    case None => if price != 0.0 then price else product.mrp
  }

  /** The filter predicate of `removeFromCart`. */
  function OtherThan(id: string): CartItem -> bool
  {
    (item: CartItem) => item.product.id != id
  }

  /** `removeFromCart`: every line of product `id` dropped. */
  function RemoveLine(cart: seq<CartItem>, id: string): seq<CartItem>
  {
    Filter(cart, OtherThan(id))
  }

  function Subtotal(item: CartItem): real
  {
    item.salePrice * item.quantity as real
  }

  /** `cartTotal`: the left-to-right `reduce` of the subtotals from 0. */
  function Total(cart: seq<CartItem>): real
  {
    if cart == [] then 0.0 else Total(cart[..|cart| - 1]) + Subtotal(cart[|cart| - 1])
  }

  /** The sum of the subtotals taken from the front, a reference for `Total`. */
  function Sum(cart: seq<CartItem>): real
  {
    if cart == [] then 0.0 else Subtotal(cart[0]) + Sum(cart[1..])
  }

  /** The product a completed sale writes for one line: the snapshot kept in
      the line with `quantity` taken off its stock. */
  function SaleUpdate(item: CartItem): Product
  {
    item.product.(stock := item.product.stock - item.quantity)
  }

  /** `completeSale`'s updates: one per line, in cart order. */
  function SaleUpdates(cart: seq<CartItem>): (r: seq<Product>)
    ensures |r| == |cart|
    ensures forall i :: 0 <= i < |cart| ==>
              r[i].id == cart[i].product.id &&
              r[i].stock == cart[i].product.stock - cart[i].quantity &&
              r[i].(stock := cart[i].product.stock) == cart[i].product
  {
    seq(|cart|, i requires 0 <= i < |cart| => SaleUpdate(cart[i]))
  }

  // ---------------------------------------------------------------------
  // Locating lines after a change

  lemma LineIndexAfterBump(cart: seq<CartItem>, id: string, n: int)
    requires LineIndex(cart, id).Some?
    ensures LineIndex(cart[LineIndex(cart, id).value := Bump(cart[LineIndex(cart, id).value], n)], id)
            == LineIndex(cart, id)
  {
    var i := LineIndex(cart, id).value;
    var c := cart[i := Bump(cart[i], n)];
    assert c[i].product.id == id;
  }

  lemma LineIndexAfterAppend(cart: seq<CartItem>, x: CartItem)
    requires LineIndex(cart, x.product.id).None?
    ensures LineIndex(cart + [x], x.product.id) == Some(|cart|)
  {
    var c := cart + [x];
    assert c[|cart|].product.id == x.product.id;
  }

  lemma {:induction false} TotalConcat(a: seq<CartItem>, b: seq<CartItem>)
    ensures Total(a + b) == Total(a) + Total(b)
    decreases |b|
  {
    if b == [] {
      assert a + b == a;
    } else {
      var b' := b[..|b| - 1];
      assert (a + b)[..|a + b| - 1] == a + b';
      TotalConcat(a, b');
    }
  }

  lemma {:induction false} TotalUpdate(cart: seq<CartItem>, i: nat, x: CartItem)
    requires i < |cart|
    ensures Total(cart[i := x]) == Total(cart) - Subtotal(cart[i]) + Subtotal(x)
  {
    var n := |cart|;
    if i == n - 1 {
      assert cart[i := x][..n - 1] == cart[..n - 1];
    } else {
      assert cart[i := x][..n - 1] == cart[..n - 1][i := x];
      TotalUpdate(cart[..n - 1], i, x);
    }
  }

  lemma SubtotalBump(item: CartItem, n: int)
    ensures Subtotal(Bump(item, n)) == Subtotal(item) + item.salePrice * n as real
  {
    assert (item.quantity + n) as real == item.quantity as real + n as real;
  }

  lemma BumpTotal(cart: seq<CartItem>, i: nat, n: int)
    requires i < |cart|
    ensures Total(cart[i := Bump(cart[i], n)]) == Total(cart) + cart[i].salePrice * n as real
  {
    TotalUpdate(cart, i, Bump(cart[i], n));
    SubtotalBump(cart[i], n);
  }

  lemma AppendTotal(cart: seq<CartItem>, x: CartItem)
    ensures Total(cart + [x]) == Total(cart) + x.salePrice * x.quantity as real
  {
    assert (cart + [x])[..|cart|] == cart;
  }

  // ---------------------------------------------------------------------
  // Reference definitions

  /** The total does not depend on the order the `reduce` adds in: it is the
      sum of `salePrice * quantity` over the lines, and 0 for an empty cart. */
  lemma {:induction false} TotalIsSum(cart: seq<CartItem>)
    ensures Total(cart) == Sum(cart)
    ensures cart == [] ==> Total(cart) == 0.0
  {
    if cart != [] {
      TotalIsSum(cart[1..]);
      assert cart == [cart[0]] + cart[1..];
      TotalConcat([cart[0]], cart[1..]);
    }
  }

  // ---------------------------------------------------------------------
  // Scanning a product

  /** A scan is accepted exactly when the cart's quantity of the product plus
      one is within the product's stock. Then a missing line is appended at
      the end as one unit at the MRP, or the existing line gains exactly one
      unit and keeps its price; otherwise the cart is unchanged. */
  lemma ScanAddLine(cart: seq<CartItem>, product: Product)
    ensures !ScanAccepted(cart, product) ==> ScanAdd(cart, product) == cart
    ensures ScanAccepted(cart, product) ==>
              QuantityOf(ScanAdd(cart, product), product.id) == QuantityOf(cart, product.id) + 1
    ensures ScanAccepted(cart, product) && Line(cart, product.id).None? ==>
              ScanAdd(cart, product) == cart + [CartItem(product, 1, product.mrp)]
    ensures ScanAccepted(cart, product) && Line(cart, product.id).Some? ==>
              Line(ScanAdd(cart, product), product.id) == Some(Bump(Line(cart, product.id).value, 1)) &&
              LineIndex(ScanAdd(cart, product), product.id) == LineIndex(cart, product.id)
  {
    match LineIndex(cart, product.id)
    case Some(i) =>
      LineIndexAfterBump(cart, product.id, 1);
    case None =>
      LineIndexAfterAppend(cart, CartItem(product, 1, product.mrp));
  }

  /** A scan leaves every line of every other product as it was, in order. */
  lemma ScanAddKeepsOtherLines(cart: seq<CartItem>, product: Product)
    ensures RemoveLine(ScanAdd(cart, product), product.id) == RemoveLine(cart, product.id)
  {
    var keep := OtherThan(product.id);
    match LineIndex(cart, product.id)
    case Some(i) =>
      if cart[i].quantity + 1 <= product.stock {
        FilterUpdateRejected(cart, i, Bump(cart[i], 1), keep);
      }
    case None =>
      if 1 <= product.stock {
        var x := CartItem(product, 1, product.mrp);
        FilterAppend(cart, [x], keep);
        assert Filter([x], keep) == [];
      }
  }

  /** A scan never creates a second line for a product. */
  lemma ScanAddKeepsUnique(cart: seq<CartItem>, product: Product)
    requires UniqueIds(cart)
    ensures UniqueIds(ScanAdd(cart, product))
  {
  }

  /** An accepted scan raises the total by one unit at the price it
      charges: the existing line's price, or the MRP for a new line. */
  lemma ScanAddTotal(cart: seq<CartItem>, product: Product)
    ensures !ScanAccepted(cart, product) ==> Total(ScanAdd(cart, product)) == Total(cart)
    ensures ScanAccepted(cart, product) ==>
              Total(ScanAdd(cart, product)) == Total(cart) + UnitPrice(cart, product, 0.0)
  {
    match LineIndex(cart, product.id)
    case Some(i) =>
      if cart[i].quantity + 1 <= product.stock {
        BumpTotal(cart, i, 1);
      }
    case None =>
      if 1 <= product.stock {
        AppendTotal(cart, CartItem(product, 1, product.mrp));
      }
  }

  /** While the catalog entry a line was taken from does not change, scans
      never ask for more than that product's stock. */
  lemma ScanAddWithinStock(cart: seq<CartItem>, product: Product)
    requires WithinStock(cart)
    requires forall i :: 0 <= i < |cart| && cart[i].product.id == product.id ==> cart[i].product == product
    ensures WithinStock(ScanAdd(cart, product))
  {
  }

  // ---------------------------------------------------------------------
  // Adding from the search list

  /** A manual add is refused exactly when the requested quantity alone
      exceeds the stock, whatever the cart already holds. Otherwise a missing
      line is appended at the end with the requested quantity and the given
      price (the MRP for a price of 0), or the existing line gains the
      quantity and keeps its price. */
  lemma ManualAddLine(cart: seq<CartItem>, product: Product, quantity: int, price: real)
    ensures quantity > product.stock ==> ManualAdd(cart, product, quantity, price) == cart
    ensures quantity <= product.stock ==>
              QuantityOf(ManualAdd(cart, product, quantity, price), product.id) ==
                QuantityOf(cart, product.id) + quantity
    ensures quantity <= product.stock && Line(cart, product.id).None? ==>
              ManualAdd(cart, product, quantity, price) ==
                cart + [CartItem(product, quantity, if price != 0.0 then price else product.mrp)]
    ensures quantity <= product.stock && Line(cart, product.id).Some? ==>
              Line(ManualAdd(cart, product, quantity, price), product.id) ==
                Some(Bump(Line(cart, product.id).value, quantity)) &&
              LineIndex(ManualAdd(cart, product, quantity, price), product.id) == LineIndex(cart, product.id)
  {
    if quantity <= product.stock {
      match LineIndex(cart, product.id)
      case Some(i) =>
        LineIndexAfterBump(cart, product.id, quantity);
      case None =>
        LineIndexAfterAppend(cart, CartItem(product, quantity, if price != 0.0 then price else product.mrp));
    }
  }

  /** A manual add leaves every line of every other product as it was. */
  lemma ManualAddKeepsOtherLines(cart: seq<CartItem>, product: Product, quantity: int, price: real)
    ensures RemoveLine(ManualAdd(cart, product, quantity, price), product.id) == RemoveLine(cart, product.id)
  {
    var keep := OtherThan(product.id);
    if quantity <= product.stock {
      match LineIndex(cart, product.id)
      case Some(i) =>
        FilterUpdateRejected(cart, i, Bump(cart[i], quantity), keep);
      case None =>
        var x := CartItem(product, quantity, if price != 0.0 then price else product.mrp);
        FilterAppend(cart, [x], keep);
        assert Filter([x], keep) == [];
    }
  }

  /** A manual add never creates a second line for a product. */
  lemma ManualAddKeepsUnique(cart: seq<CartItem>, product: Product, quantity: int, price: real)
    requires UniqueIds(cart)
    ensures UniqueIds(ManualAdd(cart, product, quantity, price))
  {
  }

  /** An accepted manual add raises the total by the requested quantity
      times the unit price it charges: the price of the product's existing
      line, otherwise the entered price, or the MRP when that is 0. */
  lemma ManualAddTotal(cart: seq<CartItem>, product: Product, quantity: int, price: real)
    ensures quantity > product.stock ==> Total(ManualAdd(cart, product, quantity, price)) == Total(cart)
    ensures quantity <= product.stock ==>
              Total(ManualAdd(cart, product, quantity, price)) ==
                Total(cart) + UnitPrice(cart, product, price) * quantity as real
  {
    if quantity <= product.stock {
      match LineIndex(cart, product.id)
      case Some(i) =>
        BumpTotal(cart, i, quantity);
      case None =>
        AppendTotal(cart, CartItem(product, quantity, if price != 0.0 then price else product.mrp));
    }
  }

  /** The manual path does not count what the cart already holds: merging
      into a line can take the line past the product's stock, which the scan
      path never does. */
  lemma ManualMergeExceedsStock(cart: seq<CartItem>, product: Product, quantity: int, price: real)
    requires Line(cart, product.id).Some?
    requires quantity <= product.stock < QuantityOf(cart, product.id) + quantity
    ensures QuantityOf(ManualAdd(cart, product, quantity, price), product.id) > product.stock
    ensures !ScanAccepted(ManualAdd(cart, product, quantity, price), product)
  {
    ManualAddLine(cart, product, quantity, price);
  }

  // ---------------------------------------------------------------------
  // Removing a line

  /** Removing product `id` leaves no line for it and keeps every other line
      in its original order; it changes nothing when `id` has no line. */
  lemma RemoveLineKeepsOthers(cart: seq<CartItem>, id: string)
    ensures forall j :: 0 <= j < |RemoveLine(cart, id)| ==> RemoveLine(cart, id)[j].product.id != id
    ensures forall j :: 0 <= j < |cart| && cart[j].product.id != id ==> cart[j] in RemoveLine(cart, id)
    ensures IsSubsequence(RemoveLine(cart, id), cart)
    ensures Line(cart, id).None? ==> RemoveLine(cart, id) == cart
  {
    FilterSpec(cart, OtherThan(id));
    if Line(cart, id).None? {
      FilterKeepsAll(cart, OtherThan(id));
    }
  }

  /** With one line per id, removing a product cuts out exactly its line. */
  lemma RemoveLineAt(cart: seq<CartItem>, id: string, i: nat)
    requires UniqueIds(cart) && LineIndex(cart, id) == Some(i)
    ensures RemoveLine(cart, id) == cart[..i] + cart[i + 1..]
  {
    forall j | 0 <= j < |cart| && j != i ensures OtherThan(id)(cart[j]) {
      assert cart[j].product.id != cart[i].product.id;
    }
    FilterRejectsOne(cart, i, OtherThan(id));
  }

  /** Removing a line introduces no product id the cart did not hold. */
  lemma {:induction false} RemoveLineAvoids(cart: seq<CartItem>, id: string, other: string)
    requires forall k :: 0 <= k < |cart| ==> cart[k].product.id != other
    ensures forall j :: 0 <= j < |RemoveLine(cart, id)| ==> RemoveLine(cart, id)[j].product.id != other
  {
    if cart != [] {
      var t := cart[1..];
      assert forall k :: 0 <= k < |t| ==> t[k] == cart[k + 1];
      RemoveLineAvoids(t, id, other);
      var rt := RemoveLine(t, id);
      if cart[0].product.id != id {
        assert RemoveLine(cart, id) == [cart[0]] + rt;
      } else {
        assert RemoveLine(cart, id) == rt;
      }
    }
  }

  /** Removing a line keeps a cart with one line per product id. */
  lemma {:induction false} RemoveLineKeepsUnique(cart: seq<CartItem>, id: string)
    requires UniqueIds(cart)
    ensures UniqueIds(RemoveLine(cart, id))
  {
    if cart != [] {
      var t := cart[1..];
      assert forall k :: 0 <= k < |t| ==> t[k] == cart[k + 1];
      RemoveLineKeepsUnique(t, id);
      if cart[0].product.id != id {
        RemoveLineAvoids(t, id, cart[0].product.id);
        var rt := RemoveLine(t, id);
        var r := RemoveLine(cart, id);
        assert r == [cart[0]] + rt;
        assert forall j :: 1 <= j < |r| ==> r[j] == rt[j - 1];
      }
    }
  }

  /** With one line per id, removing a product takes exactly its line's
      subtotal off the total. */
  lemma RemoveLineTotal(cart: seq<CartItem>, id: string)
    requires UniqueIds(cart) && Line(cart, id).Some?
    ensures Total(RemoveLine(cart, id)) == Total(cart) - Subtotal(Line(cart, id).value)
  {
    var i := LineIndex(cart, id).value;
    var a, b := cart[..i], cart[i + 1..];
    RemoveLineAt(cart, id, i);
    assert cart == (a + [cart[i]]) + b;
    TotalConcat(a + [cart[i]], b);
    TotalConcat(a, [cart[i]]);
    TotalConcat(a, b);
  }

  // ---------------------------------------------------------------------
  // Completing the sale

  /** Lines whose quantities are within their snapshots' stock never write a
      negative stock. Scans against an unchanged catalog keep a cart within
      stock (`ScanAddWithinStock`). */
  lemma SaleWithinStockNonNegative(cart: seq<CartItem>)
    requires WithinStock(cart)
    ensures forall i :: 0 <= i < |SaleUpdates(cart)| ==> SaleUpdates(cart)[i].stock >= 0
  {
  }

  /** A product with 5 in stock, added manually as 3 and again as 3: both
      adds are accepted, the line holds 6, and the sale writes a stock of -1. */
  lemma ManualOversellDrivesStockNegative(product: Product)
    requires product.stock == 5
    ensures var cart := ManualAdd(ManualAdd([], product, 3, 0.0), product, 3, 0.0);
            cart == [CartItem(product, 6, product.mrp)] &&
            SaleUpdates(cart) == [product.(stock := -1)]
  {
    var c1 := ManualAdd([], product, 3, 0.0);
    assert c1 == [CartItem(product, 3, product.mrp)];
    assert LineIndex(c1, product.id) == Some(0);
  }

  /** The sale writes the snapshot kept in the line, not the catalog's live
      entry: after a product is scanned and its stock (or any other field)
      changes in the catalog, a second scan checks the live stock, and the
      sale still writes the first snapshot's fields with its stock minus 2. */
  lemma SaleUsesSnapshot(snapshot: Product, live: Product)
    requires live.id == snapshot.id && snapshot.stock >= 1 && live.stock >= 2
    ensures var cart := ScanAdd(ScanAdd([], snapshot), live);
            cart == [CartItem(snapshot, 2, snapshot.mrp)] &&
            SaleUpdates(cart) == [snapshot.(stock := snapshot.stock - 2)]
  {
    var c1 := ScanAdd([], snapshot);
    assert c1 == [CartItem(snapshot, 1, snapshot.mrp)];
    assert LineIndex(c1, live.id) == Some(0);
  }
}
