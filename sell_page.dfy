/** The sell page: the product search, the cart and the manual-add inputs it
    keeps as state, and the actions that change them. Each action is proved
    to produce the cart that module Cart specifies. */
module SellPage {
  import opened Types
  import opened Seqs
  import opened Cart
  import Catalog

  /** `s.includes(sub)`. */
  predicate Contains(s: string, sub: string)
    decreases |s|
  {
    |sub| <= |s| && (s[..|sub|] == sub || Contains(s[1..], sub))
  }

  /** A search hit: the lower-cased name contains the lower-cased query, or
      the barcode contains the query as typed. */
  predicate Matches(p: Product, query: string, lower: string -> string)
  {
    Contains(lower(p.name), lower(query)) || Contains(p.barcode, query)
  }

  /** The filter predicate of `filteredProducts`. */
  function Hit(query: string, lower: string -> string): Product -> bool
  {
    (p: Product) => Matches(p, query, lower)
  }

  /** `filteredProducts`: nothing for an empty query, otherwise the first five
      hits in catalog order. */
  function FilteredProducts(products: seq<Product>, query: string, lower: string -> string): seq<Product>
  {
    if query == "" then []
    else Take(Filter(products, Hit(query, lower)), 5)
  }

  /** At most five products, all of them hits from the catalog, in catalog
      order; the hits of a prefix of the catalog, so no hit is skipped for a
      later one; fewer than five only when it is the whole list of hits; none
      for an empty query. */
  lemma FilteredProductsSpec(products: seq<Product>, query: string, lower: string -> string)
    ensures var r := FilteredProducts(products, query, lower);
            |r| <= 5 &&
            (query == "" ==> r == []) &&
            (forall i :: 0 <= i < |r| ==> r[i] in products && Matches(r[i], query, lower)) &&
            IsSubsequence(r, products) &&
            (exists k :: 0 <= k <= |products| && r == Filter(products[..k], Hit(query, lower))) &&
            (query != "" && |r| < 5 ==> r == Filter(products, Hit(query, lower)))
  {
    var r := FilteredProducts(products, query, lower);
    if query == "" {
      assert products[..0] == [];
      assert r == Filter(products[..0], Hit(query, lower));
    } else {
      var hits := Filter(products, Hit(query, lower));
      FilterSpec(products, Hit(query, lower));
      if |hits| <= 5 {
        assert r == hits;
        assert products[..|products|] == products;
        assert r == Filter(products[..|products|], Hit(query, lower));
      } else {
        assert r == hits[..5];
        SubsequencePrefix(hits, products, 5);
        FilterPrefix(products, Hit(query, lower), 5);
      }
    }
  }

  /** The stock a completed sale leaves in the store: with one line per
      product, each line's document whose id exists reads back as the line's
      snapshot with its quantity taken off the snapshot's stock, and every
      document of a product not in the cart is as it was. */
  lemma SaleStoresEach(docs: Catalog.Store, cart: seq<CartItem>)
    requires UniqueIds(cart)
    ensures forall i :: 0 <= i < |cart| && cart[i].product.id in docs ==>
              var p := Catalog.Rebuild(cart[i].product.id, Catalog.UpdateAll(docs, SaleUpdates(cart))[cart[i].product.id]);
              p == cart[i].product.(stock := cart[i].product.stock - cart[i].quantity)
    ensures forall k :: k in docs && Line(cart, k).None? ==> Catalog.UpdateAll(docs, SaleUpdates(cart))[k] == docs[k]
  {
    var ups := SaleUpdates(cart);
    assert Catalog.DistinctIds(ups);
    Catalog.UpdateAllStoresEach(docs, ups);
    forall k | k in docs && Line(cart, k).None? ensures Catalog.UpdateAll(docs, ups)[k] == docs[k] {
      Catalog.UpdateAllKeepsOthers(docs, ups, k);
    }
  }

  /** The page's state: the cart and the inputs of the manual-add popover. */
  class SaleSession {
    var cart: seq<CartItem>
    var searchQuery: string
    var saleQuantity: int
    var salePrice: real
    var isScannerOpen: bool

    /** The cart holds at most one line per product id. */
    ghost predicate Valid()
      reads this
    {
      UniqueIds(cart)
    }

    constructor ()
      ensures cart == [] && searchQuery == "" && saleQuantity == 1 && salePrice == 0.0
      ensures !isScannerOpen && Valid()
    {
      cart := [];
      searchQuery := "";
      saleQuantity := 1;
      salePrice := 0.0;
      isScannerOpen := false;
    }

    /** `addScannedItemToCart`: reports whether the unit was added. */
    method AddScannedItemToCart(product: Product) returns (added: bool)
      requires Valid()
      modifies this`cart
      ensures added == ScanAccepted(old(cart), product)
      ensures cart == ScanAdd(old(cart), product)
      ensures Valid()
    {
      ScanAddKeepsUnique(cart, product);
      var index := LineIndex(cart, product.id);
      match index
      case Some(i) =>
        if cart[i].quantity + 1 > product.stock {
          return false;
        }
        var item := cart[i];
        cart := cart[i := item.(quantity := item.quantity + 1)];
        added := true;
      case None =>
        if 1 > product.stock {
          return false;
        }
        cart := cart + [CartItem(product, 1, product.mrp)];
        added := true;
    }

    /** `addToCart`: adds `saleQuantity` units at `salePrice` and, when
        accepted, clears the search and resets the popover's inputs. */
    method AddToCart(product: Product) returns (added: bool)
      requires Valid()
      modifies this`cart, this`searchQuery, this`saleQuantity, this`salePrice
      ensures Valid()
      ensures added == (old(saleQuantity) <= product.stock)
      ensures cart == ManualAdd(old(cart), product, old(saleQuantity), old(salePrice))
      ensures added ==> searchQuery == "" && saleQuantity == 1 && salePrice == 0.0
      ensures !added ==> searchQuery == old(searchQuery) && saleQuantity == old(saleQuantity) &&
                         salePrice == old(salePrice)
    {
      ManualAddKeepsUnique(cart, product, saleQuantity, salePrice);
      if saleQuantity > product.stock {
        return false;
      }
      var index := LineIndex(cart, product.id);
      match index {
        case Some(i) =>
          var item := cart[i];
          cart := cart[i := item.(quantity := item.quantity + saleQuantity)];
        case None =>
          cart := cart + [CartItem(product, saleQuantity, if salePrice != 0.0 then salePrice else product.mrp)];
      }
      searchQuery := "";
      saleQuantity := 1;
      salePrice := 0.0;
      added := true;
    }

    /** `removeFromCart`. */
    method RemoveFromCart(id: string)
      requires Valid()
      modifies this`cart
      ensures cart == RemoveLine(old(cart), id)
      ensures Valid()
    {
      RemoveLineKeepsUnique(cart, id);
      cart := Filter(cart, OtherThan(id));
    }

    /** `completeSale`: refused on an empty cart; otherwise one stock update
        per line, in cart order, then an empty cart. Returns the updates
        issued and the total shown on the receipt. Each sold product's stored
        stock becomes its snapshot's stock less the quantity sold. */
    method CompleteSale(store: Catalog.ProductStore) returns (issued: seq<Product>, total: real)
      requires Valid()
      modifies this`cart, store`docs
      ensures Valid()
      ensures store.docs.Keys == old(store.docs).Keys
      ensures forall i :: 0 <= i < |old(cart)| && old(cart)[i].product.id in old(store.docs) ==>
                Catalog.Rebuild(old(cart)[i].product.id, store.docs[old(cart)[i].product.id]).stock ==
                  old(cart)[i].product.stock - old(cart)[i].quantity
      ensures forall k :: k in old(store.docs) && Line(old(cart), k).None? ==> store.docs[k] == old(store.docs)[k]
      ensures old(cart) == [] ==> issued == [] && cart == [] && store.docs == old(store.docs)
      ensures issued == SaleUpdates(old(cart))
      ensures store.docs == Catalog.UpdateAll(old(store.docs), issued)
      ensures total == Total(old(cart))
      ensures cart == []
    {
      total := Total(cart);
      issued := [];
      if |cart| == 0 {
        assert SaleUpdates(cart) == [];
        return;
      }
      ghost var docs0 := store.docs;
      for i := 0 to |cart|
        invariant cart == old(cart)
        invariant issued == SaleUpdates(cart[..i])
        invariant store.docs == Catalog.UpdateAll(docs0, issued)
      {
        var updated := SaleUpdate(cart[i]);
        store.UpdateProduct(updated);
        assert SaleUpdates(cart[..i + 1]) == SaleUpdates(cart[..i]) + [updated];
        issued := issued + [updated];
        assert issued[..|issued| - 1] == SaleUpdates(cart[..i]);
      }
      assert cart[..|cart|] == cart;
      SaleStoresEach(docs0, cart);
      cart := [];
    }

    /** The scanner's detection callback: a non-empty code closes the
        scanner, and the first catalog product with that barcode is scanned
        into the cart; an unknown code changes nothing else. */
    method OnDetected(code: string, products: seq<Product>) returns (found: bool)
      requires Valid()
      modifies this`cart, this`isScannerOpen
      ensures Valid()
      ensures code == "" ==> !found && cart == old(cart) && isScannerOpen == old(isScannerOpen)
      ensures code != "" ==> !isScannerOpen
      ensures found <==> code != "" && Catalog.FindByBarcode(products, code).Some?
      ensures found ==> cart == ScanAdd(old(cart), Catalog.FindByBarcode(products, code).value)
      ensures !found ==> cart == old(cart)
    {
      if code == "" {
        return false;
      }
      isScannerOpen := false;
      var product := Catalog.FindByBarcode(products, code);
      match product
      case Some(p) =>
        var _ := AddScannedItemToCart(p);
        found := true;
      case None =>
        found := false;
    }
  }
}
