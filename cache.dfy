/**
 * The catalogue's two read-through caches: product id to product, and
 * product id to sale listing. A lookup serves a cached entry when there is
 * one; otherwise it asks the store, caches what it found and returns it.
 * Entries are never evicted or refreshed.
 */
module Cache {
  import opened Wrappers
  import opened Catalog
  import opened Aggregate
  import opened Repository

  /** The header a lookup sees: a failed query is read as "no such product". */
  function HeaderFound(db: Database, id: nat): (r: Option<HeaderRow>)
    ensures db.headerOf(id).QueryError? ==> r.None?
    ensures db.headerOf(id).Fetched? ==> r == db.headerOf(id).value
  {
    match db.headerOf(id)
    case QueryError => None
    case Fetched(row) => row
  }

  /** Whether a listing lookup finds a row: a failed query is read as "not listed". */
  function ListingFound(db: Database, id: nat): (r: bool)
    ensures r <==> db.listingOf(id) == Fetched(true)
  {
    match db.listingOf(id)
    case QueryError => false
    case Fetched(found) => found
  }

  class CatalogCache {
    /** The product cache (`S_PRODUCT_INFO`). */
    var products: map<nat, Product>
    /** The sale-listing cache (`S_SALE_PRODUCT`). */
    var saleProducts: map<nat, SaleProductInfo>

    constructor ()
      ensures products == map[] && saleProducts == map[]
    {
      products := map[];
      saleProducts := map[];
    }

    /**
     * `get_product`: a hit returns a copy of the cached product and leaves the
     * cache alone; a miss whose header is found caches a product built from
     * the header row and its SKUs and returns a separate copy of it; a miss
     * without a header (or with a failed query) returns `None` and caches
     * nothing.
     */
    method GetProduct(db: Database, id: nat) returns (r: Option<Product>)
      modifies this
      ensures saleProducts == old(saleProducts)
      ensures id in old(products) ==>
        && products == old(products)
        && r.Some? && fresh(r.value)
        && r.value.info == products[id].info && r.value.skus == products[id].skus
      ensures id !in old(products) && HeaderFound(db, id).Some? ==>
        && id in products && fresh(products[id])
        && products == old(products)[id := products[id]]
        && r.Some? && fresh(r.value) && r.value != products[id]
        && r.value.info == products[id].info == InfoOfRow(id, HeaderFound(db, id).value)
        && r.value.skus == products[id].skus == SkusFor(db, id)
      ensures id !in old(products) && HeaderFound(db, id).None? ==>
        r == None && products == old(products)
    {
      if id in products {
        var copy := products[id].Clone();
        return Some(copy);
      }
      var row := match db.headerOf(id) case QueryError => None case Fetched(found) => found;
      if row.Some? {
        var skus := LoadSkus(db, id);
        var cached := new Product(InfoOfRow(id, row.value), skus);
        var copy := cached.Clone();
        products := products[id := cached];
        r := Some(copy);
      } else {
        r := None;
      }
    }

    /** `get_product_skus`: the SKU snapshot of the looked-up product, or none. */
    method GetProductSkus(db: Database, id: nat) returns (skus: seq<Sku>)
      modifies this
      ensures saleProducts == old(saleProducts)
      ensures id in old(products) ==> products == old(products) && skus == products[id].Skus()
      ensures id !in old(products) && HeaderFound(db, id).Some? ==>
        && id in products && fresh(products[id])
        && products == old(products)[id := products[id]]
        && products[id].info == InfoOfRow(id, HeaderFound(db, id).value)
        && products[id].skus == SkusFor(db, id)
        && skus == products[id].Skus()
      ensures id !in old(products) && HeaderFound(db, id).None? ==> skus == [] && products == old(products)
    {
      var p := GetProduct(db, id);
      if p.Some? {
        skus := p.value.Skus();
      } else {
        skus := [];
      }
    }

    /** `get_product_info`: the header of the looked-up product, or `None`. */
    method GetProductInfo(db: Database, id: nat) returns (info: Option<ProductInfo>)
      modifies this
      ensures saleProducts == old(saleProducts)
      ensures id in old(products) ==> products == old(products) && info == Some(products[id].info)
      ensures id !in old(products) && HeaderFound(db, id).Some? ==>
        && id in products && fresh(products[id])
        && products == old(products)[id := products[id]]
        && products[id].info == InfoOfRow(id, HeaderFound(db, id).value)
        && products[id].skus == SkusFor(db, id)
        && info == Some(InfoOfRow(id, HeaderFound(db, id).value))
      ensures id !in old(products) && HeaderFound(db, id).None? ==> info == None && products == old(products)
    {
      var p := GetProduct(db, id);
      if p.Some? {
        info := Some(p.value.Info());
      } else {
        info := None;
      }
    }

    /**
     * `get_sale_product`: a hit returns the cached listing and leaves the
     * cache alone; a miss for a listed product caches and returns the all-zero
     * listing; otherwise `None` and nothing is cached.
     */
    method GetSaleProduct(db: Database, id: nat) returns (r: Option<SaleProductInfo>)
      modifies this
      ensures products == old(products)
      ensures id in old(saleProducts) ==>
        r == Some(old(saleProducts)[id]) && saleProducts == old(saleProducts)
      ensures id !in old(saleProducts) && ListingFound(db, id) ==>
        r == Some(ZeroListing(id)) && saleProducts == old(saleProducts)[id := ZeroListing(id)]
      ensures id !in old(saleProducts) && !ListingFound(db, id) ==>
        r == None && saleProducts == old(saleProducts)
    {
      if id in saleProducts {
        return Some(saleProducts[id]);
      }
      var found := match db.listingOf(id) case QueryError => false case Fetched(b) => b;
      if found {
        var listing := SaleProductInfo(id, 0, 0, 0, 0, 0);
        saleProducts := saleProducts[id := listing];
        r := Some(listing);
      } else {
        r := None;
      }
    }

    /**
     * `get_sale_products`: one all-zero listing per product id of the shop, in
     * query order; each id not yet cached gets that listing cached, and cached
     * entries are left alone. A failed query returns nothing and caches nothing.
     */
    method GetSaleProducts(db: Database, shopId: nat) returns (listings: seq<SaleProductInfo>)
      modifies this
      ensures products == old(products)
      ensures db.storeProducts(shopId).QueryError? ==> listings == [] && saleProducts == old(saleProducts)
      ensures db.storeProducts(shopId).Fetched? ==> var ids := db.storeProducts(shopId).value;
        && |listings| == |ids|
        && (forall i :: 0 <= i < |ids| ==> listings[i] == ZeroListing(ids[i]))
        && saleProducts.Keys == old(saleProducts).Keys + (set x | x in ids)
        && (forall k :: k in old(saleProducts) ==> saleProducts[k] == old(saleProducts)[k])
        && (forall k :: k in saleProducts && k !in old(saleProducts) ==> saleProducts[k] == ZeroListing(k))
    {
      listings := [];
      match db.storeProducts(shopId)
      case QueryError =>
      case Fetched(ids) =>
        for i := 0 to |ids|
          invariant products == old(products)
          invariant |listings| == i
          invariant forall j :: 0 <= j < i ==> listings[j] == ZeroListing(ids[j])
          invariant saleProducts.Keys == old(saleProducts).Keys + (set x | x in ids[..i])
          invariant forall k :: k in old(saleProducts) ==> saleProducts[k] == old(saleProducts)[k]
          invariant forall k :: k in saleProducts && k !in old(saleProducts) ==> saleProducts[k] == ZeroListing(k)
        {
          assert ids[..i + 1] == ids[..i] + [ids[i]];
          var listing := SaleProductInfo(ids[i], 0, 0, 0, 0, 0);
          if ids[i] !in saleProducts {
            saleProducts := saleProducts[ids[i] := listing];
          }
          listings := listings + [listing];
        }
        assert ids[..|ids|] == ids;
    }
  }

  /**
   * Read-through: after a first lookup finds a product, a second lookup on
   * the same cache returns an equal copy whatever the store answers then,
   * because it is served from the cache.
   */
  method LookupTwice(first: Database, second: Database, id: nat) returns (a: Option<Product>, b: Option<Product>)
    ensures a.Some? <==> HeaderFound(first, id).Some?
    ensures a.Some? ==> a.value.info == InfoOfRow(id, HeaderFound(first, id).value) && a.value.skus == SkusFor(first, id)
    ensures a.Some? ==> b.Some? && b.value != a.value && b.value.info == a.value.info && b.value.skus == a.value.skus
  {
    var cache := new CatalogCache();
    a := cache.GetProduct(first, id);
    b := cache.GetProduct(second, id);
  }
}
