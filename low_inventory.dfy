/** The low-inventory view: the products at or below their reorder threshold,
    each labelled "Out of Stock" or "Low Stock". */
module LowInventory {
  import opened Types
  import opened Seqs
  import opened DummyData

  datatype StockStatus = OutOfStock | LowStock

  predicate IsLow(p: Product)
  {
    p.stock <= p.lowInventoryFactor
  }

  /** `lowInventoryProducts`: the catalog filtered by `IsLow`, in catalog order. */
  function LowInventoryProducts(products: seq<Product>): (r: seq<Product>)
    ensures forall i :: 0 <= i < |r| ==> r[i] in products && r[i].stock <= r[i].lowInventoryFactor
    ensures forall i :: 0 <= i < |products| && products[i].stock <= products[i].lowInventoryFactor ==>
              products[i] in r
    ensures IsSubsequence(r, products)
    ensures forall x :: multiset(r)[x] == if x.stock <= x.lowInventoryFactor then multiset(products)[x] else 0
  {
    FilterSpec(products, IsLow);
    FilterMultiset(products, IsLow);
    Filter(products, IsLow)
  }

  /** The badge of a listed product. */
  function Status(p: Product): StockStatus
  {
    if p.stock == 0 then OutOfStock else LowStock
  }

  /** A sold-out product with a non-negative threshold is always listed. */
  lemma OutOfStockListed(products: seq<Product>, i: nat)
    requires i < |products| && products[i].stock == 0 && products[i].lowInventoryFactor >= 0
    ensures products[i] in LowInventoryProducts(products)
    ensures Status(products[i]) == OutOfStock
  {
  }

  /** What the badge of a listed product means: "Out of Stock" exactly when
      nothing is left, otherwise a stock at or below the threshold that is
      not zero (a negative stock also reads "Low Stock"). */
  lemma {:induction false} StatusOfListed(products: seq<Product>, p: Product)
    requires p in LowInventoryProducts(products)
    ensures p in products
    ensures Status(p) == OutOfStock <==> p.stock == 0
    ensures Status(p) == LowStock <==> p.stock != 0 && p.stock <= p.lowInventoryFactor
  {
    var r := LowInventoryProducts(products);
    var i :| 0 <= i < |r| && r[i] == p;
  }

  /** Filtering twice lists the same products as filtering once. */
  lemma {:induction false} LowInventoryIdempotent(products: seq<Product>)
    ensures LowInventoryProducts(LowInventoryProducts(products)) == LowInventoryProducts(products)
  {
    var r := LowInventoryProducts(products);
    FilterKeepsAll(r, IsLow);
  }

  /** On the seed catalog only the chocolate bar (8 left, threshold 15) is
      listed, and it is labelled "Low Stock". */
  lemma SeedLowInventory()
    ensures LowInventoryProducts(DummyProducts) == [Cadbury]
    ensures Status(Cadbury) == LowStock
  {
    assert DummyProducts == [ParleG] + [Cadbury, TataTea, Maggi];
    assert [Cadbury, TataTea, Maggi][1..] == [TataTea, Maggi];
    assert [TataTea, Maggi][1..] == [Maggi];
    assert Filter([Maggi], IsLow) == [];
    assert Filter([TataTea, Maggi], IsLow) == [];
    assert Filter([Cadbury, TataTea, Maggi], IsLow) == [Cadbury];
  }
}
