/** The product store behind the app: a keyed collection of documents, one
    per product, whose key is the product's `id` and whose body is every other
    field. The provider keeps the last list read from it, a loading flag, and
    answers barcode lookups from that list. */
module Catalog {
  import opened Types
  import opened Seqs
  import opened DummyData

  /** A stored document: a product without its `id`. */
  datatype Fields = Fields(
    barcode: string,
    ean: string,
    name: string,
    description: string,
    mrp: real,
    costPriceCode: string,
    stock: int,
    lowInventoryFactor: int)

  type Store = map<string, Fields>

  /** Splits a product into the key of its document and the document body. */
  function Strip(p: Product): (r: (string, Fields))
    ensures r.0 == p.id
  {
    (p.id, Fields(p.barcode, p.ean, p.name, p.description, p.mrp, p.costPriceCode,
                  p.stock, p.lowInventoryFactor))
  }

  /** Reads a document back as a product whose `id` is the document's key. */
  function Rebuild(key: string, f: Fields): (p: Product)
    ensures Strip(p) == (key, f)
  {
    Product(key, f.barcode, f.ean, f.name, f.description, f.mrp, f.costPriceCode,
            f.stock, f.lowInventoryFactor)
  }

  /** The first product in list order whose barcode is `barcode`. */
  function FindByBarcode(products: seq<Product>, barcode: string): (r: Option<Product>)
    ensures r.None? <==> forall i :: 0 <= i < |products| ==> products[i].barcode != barcode
    ensures r.Some? ==> exists i :: 0 <= i < |products| && products[i] == r.value &&
                          r.value.barcode == barcode &&
                          forall j :: 0 <= j < i ==> products[j].barcode != barcode
  {
    match FirstIndex(products, (p: Product) => p.barcode == barcode)
    case None => None
    case Some(i) => Some(products[i])
  }

  /** Creating (or overwriting) the document of `p`. */
  function Put(docs: Store, p: Product): (r: Store)
    ensures p.id in r && Rebuild(p.id, r[p.id]) == p
    ensures r.Keys == docs.Keys + {p.id}
    ensures forall k :: k in docs && k != p.id ==> r[k] == docs[k]
  {
    docs[p.id := Strip(p).1]
  }

  /** Updating the document of `p`: a missing document is an error the
      provider catches and logs, so the store stays as it was. */
  function Update(docs: Store, p: Product): (r: Store)
    ensures r.Keys == docs.Keys
    ensures p.id in docs ==> Rebuild(p.id, r[p.id]) == p
    ensures forall k :: k in docs && k != p.id ==> r[k] == docs[k]
    ensures p.id !in docs ==> r == docs
  {
    if p.id in docs then docs[p.id := Strip(p).1] else docs
  }

  /** Putting each product of `ps` in turn, as a write batch does. */
  function PutAll(docs: Store, ps: seq<Product>): Store
  {
    if ps == [] then docs else Put(PutAll(docs, ps[..|ps| - 1]), ps[|ps| - 1])
  }

  /** Applying the updates of `ps` one after the other. */
  function UpdateAll(docs: Store, ps: seq<Product>): (r: Store)
    ensures r.Keys == docs.Keys
  {
    if ps == [] then docs else Update(UpdateAll(docs, ps[..|ps| - 1]), ps[|ps| - 1])
  }

  predicate DistinctIds(ps: seq<Product>)
  {
    forall i, j :: 0 <= i < j < |ps| ==> ps[i].id != ps[j].id
  }

  /** `order` lists every key of `docs` exactly once: the documents a query
      snapshot delivers, in the order it delivers them. */
  predicate IsListing(order: seq<string>, docs: Store)
  {
    (forall i :: 0 <= i < |order| ==> order[i] in docs) &&
    (forall k :: k in docs ==> k in order) &&
    (forall i, j :: 0 <= i < j < |order| ==> order[i] != order[j])
  }

  /** The product list a snapshot yields: each document read back with its key. */
  function Snapshot(docs: Store, order: seq<string>): (r: seq<Product>)
    requires forall i :: 0 <= i < |order| ==> order[i] in docs
    ensures |r| == |order|
    ensures forall i :: 0 <= i < |order| ==> Strip(r[i]) == (order[i], docs[order[i]])
  {
    seq(|order|, i requires 0 <= i < |order| => Rebuild(order[i], docs[order[i]]))
  }

  lemma StripRebuild(p: Product)
    ensures Rebuild(Strip(p).0, Strip(p).1) == p
  {
  }

  /** Writing a product and reading the store back gives the product again. */
  lemma WriteThenRead(docs: Store, p: Product, order: seq<string>)
    requires IsListing(order, Put(docs, p))
    ensures p in Snapshot(Put(docs, p), order)
  {
    var i :| 0 <= i < |order| && order[i] == p.id;
    assert Snapshot(Put(docs, p), order)[i] == p;
  }

  /** Writing a batch adds exactly the batch's ids to the keys. */
  lemma {:induction false} PutAllKeys(docs: Store, ps: seq<Product>)
    ensures PutAll(docs, ps).Keys == docs.Keys + set i | 0 <= i < |ps| :: ps[i].id
  {
    if ps != [] {
      var init := ps[..|ps| - 1];
      PutAllKeys(docs, init);
      var ids := set i | 0 <= i < |ps| :: ps[i].id;
      var initIds := set i | 0 <= i < |init| :: init[i].id;
      assert ids == initIds + {ps[|ps| - 1].id} by {
        forall k | k in ids ensures k in initIds + {ps[|ps| - 1].id} {
          var i :| 0 <= i < |ps| && ps[i].id == k;
          if i < |ps| - 1 { assert init[i].id == k; }
        }
      }
    }
  }

  /** After writing products with distinct ids, each is stored under its id. */
  lemma {:induction false} PutAllStoresEach(docs: Store, ps: seq<Product>)
    requires DistinctIds(ps)
    ensures forall i :: 0 <= i < |ps| ==>
              ps[i].id in PutAll(docs, ps) && Rebuild(ps[i].id, PutAll(docs, ps)[ps[i].id]) == ps[i]
  {
    if ps != [] {
      var init := ps[..|ps| - 1];
      PutAllStoresEach(docs, init);
      forall i | 0 <= i < |ps| - 1
        ensures ps[i].id in PutAll(docs, ps) && Rebuild(ps[i].id, PutAll(docs, ps)[ps[i].id]) == ps[i]
      {
        assert init[i] == ps[i];
      }
    }
  }

  /** Applying a list of updates leaves every document whose id none of
      them carries as it was. */
  lemma {:induction false} UpdateAllKeepsOthers(docs: Store, ps: seq<Product>, k: string)
    requires k in docs && forall i :: 0 <= i < |ps| ==> ps[i].id != k
    ensures UpdateAll(docs, ps)[k] == docs[k]
  {
    if ps != [] {
      UpdateAllKeepsOthers(docs, ps[..|ps| - 1], k);
    }
  }

  /** After applying updates with distinct ids, each update whose document
      exists reads back as the update itself. */
  lemma {:induction false} UpdateAllStoresEach(docs: Store, ps: seq<Product>)
    requires DistinctIds(ps)
    ensures forall i :: 0 <= i < |ps| && ps[i].id in docs ==>
              Rebuild(ps[i].id, UpdateAll(docs, ps)[ps[i].id]) == ps[i]
  {
    if ps != [] {
      var init := ps[..|ps| - 1];
      UpdateAllStoresEach(docs, init);
      forall i | 0 <= i < |ps| - 1 && ps[i].id in docs
        ensures Rebuild(ps[i].id, UpdateAll(docs, ps)[ps[i].id]) == ps[i]
      {
        assert init[i] == ps[i];
      }
    }
  }

  lemma DummyIdsDistinct()
    ensures DistinctIds(DummyProducts)
  {
    assert ParleG.id[4] != Cadbury.id[4];
    assert ParleG.id[4] != TataTea.id[4];
    assert ParleG.id[7] != Maggi.id[7];
    assert Cadbury.id[4] != TataTea.id[4];
    assert Cadbury.id[4] != Maggi.id[4];
    assert TataTea.id[4] != Maggi.id[4];
  }

  /** Seeding an empty store puts each dummy product under its own id, and a
      snapshot listing the dummy ids reads back exactly the dummy list. */
  lemma SeedRoundTrip()
    ensures forall i :: 0 <= i < |DummyProducts| ==>
              DummyProducts[i].id in PutAll(map[], DummyProducts) &&
              Rebuild(DummyProducts[i].id, PutAll(map[], DummyProducts)[DummyProducts[i].id]) == DummyProducts[i]
    ensures Snapshot(PutAll(map[], DummyProducts), seq(|DummyProducts|, i requires 0 <= i < |DummyProducts| => DummyProducts[i].id))
              == DummyProducts
  {
    DummyIdsDistinct();
    PutAllStoresEach(map[], DummyProducts);
    PutAllKeys(map[], DummyProducts);
  }

  /** The write batch that seeds the store: each product's fields set under
      its id, one product after the other. */
  method WriteBatch(ps: seq<Product>) returns (batch: Store)
    ensures batch == PutAll(map[], ps)
  {
    batch := map[];
    for i := 0 to |ps|
      invariant batch == PutAll(map[], ps[..i])
    {
      assert ps[..i + 1][..i] == ps[..i];
      var (id, data) := Strip(ps[i]);
      batch := batch[id := data];
    }
    assert ps[..|ps|] == ps;
  }

  /** The provider: the document store, the product list last read from it
      and whether the first read is still outstanding. */
  class ProductStore {
    var docs: Store
    var products: seq<Product>
    var isLoading: bool

    constructor (initial: Store)
      ensures docs == initial && products == [] && isLoading
    {
      docs := initial;
      products := [];
      isLoading := true;
    }

    /** `addProduct`: writes the product's fields under its id. */
    method AddProduct(p: Product)
      modifies this`docs
      ensures docs == Put(old(docs), p)
    {
      var (id, data) := Strip(p);
      docs := docs[id := data];
    }

    /** `updateProduct`: replaces the fields stored under the product's id;
        a missing document leaves the store unchanged. */
    method UpdateProduct(p: Product)
      modifies this`docs
      ensures docs == Update(old(docs), p)
    {
      var (id, data) := Strip(p);
      if id in docs {
        docs := docs[id := data];
      }
    }

    /** The snapshot listener. An empty snapshot makes it seed the store with
        the dummy products in one batch (the product list then waits for the
        next snapshot); otherwise the product list becomes the snapshot read
        back. Either way loading is over. */
    method OnSnapshot(order: seq<string>)
      requires IsListing(order, docs)
      modifies this`docs, this`products, this`isLoading
      ensures old(docs) == map[] ==> docs == PutAll(map[], DummyProducts) && products == old(products)
      ensures old(docs) != map[] ==> docs == old(docs) && products == Snapshot(docs, order)
      ensures !isLoading
    {
      if |order| == 0 {
        assert docs == map[];
        var batch := WriteBatch(DummyProducts);
        assert docs + batch == batch;
        docs := docs + batch;
      } else {
        assert order[0] in docs;
        products := Snapshot(docs, order);
      }
      isLoading := false;
    }

    /** The listener's error path: fall back to the dummy products. */
    method OnReadError()
      modifies this`products, this`isLoading
      ensures products == DummyProducts && !isLoading
    {
      products := DummyProducts;
      isLoading := false;
    }
  }
}
