/**
 * The repository side of the catalogue: the rows the relational store hands
 * back, the store itself as an oracle, the null-tolerant mapping of rows to
 * headers and SKUs, `load_skus` and the bulk per-owner loaders.
 *
 * The store is a value of type `Database`: one function per query the
 * catalogue issues, each giving either `QueryError` or the rows fetched.
 * Connection handling, SQL text and row decoding are not modelled.
 */
module Repository {
  import opened Wrappers
  import opened Catalog
  import opened SkuMap
  import opened Aggregate

  /** The result of running one query: it failed, or it fetched a value. */
  datatype Fetch<T> = QueryError | Fetched(value: T)

  /** The columns of `product_info_old` the catalogue reads, after the id. */
  datatype HeaderRow = HeaderRow(
    productName: Option<string>,
    detailTitle: Option<string>,
    mainUrl: Option<string>,
    verifiedStatus: int,
    levelId: int,
    prdtTypeId: int,
    brandId: int)

  /** A header row of a bulk listing, led by its `id` column. */
  datatype OwnedRow = OwnedRow(id: nat, header: HeaderRow)

  /** A row of `product_sku`: `id, sku_id, custom_price, detail`. */
  datatype SkuRow = SkuRow(id: nat, skuId: Option<string>, customPrice: Price, detail: Option<string>)

  /** Whose products a bulk listing asks for: a tenant's (`tent_id`) or a producer's (`sources_id`). */
  datatype Owner = Tenant(tentId: nat) | Producer(sourcesId: nat)

  /**
   * The relational store as seen by the catalogue's reads.
   * - `headerOf(id)`: the header query by `product_id` (first row, if any);
   * - `skuRowsOf(id)`: the SKU rows of a product;
   * - `listingOf(id)`: whether `product_store_prod` has a row for the product;
   * - `ownedBy(o)`: the header rows owned by a tenant or a producer;
   * - `storeProducts(shop)`: the product ids listed in a shop.
   */
  datatype Database = Database(
    headerOf: nat -> Fetch<Option<HeaderRow>>,
    skuRowsOf: nat -> Fetch<seq<SkuRow>>,
    listingOf: nat -> Fetch<bool>,
    ownedBy: Owner -> Fetch<seq<OwnedRow>>,
    storeProducts: nat -> Fetch<seq<nat>>)

  /** The header built from a row: null text columns become empty strings. */
  function InfoOfRow(id: nat, row: HeaderRow): (r: ProductInfo)
    ensures r.productId == id && r.saleStatus == 0
    ensures r.productName == (if row.productName.Some? then row.productName.value else "")
    ensures r.detailDesc == (if row.detailTitle.Some? then row.detailTitle.value else "")
    ensures r.mainUrl == (if row.mainUrl.Some? then row.mainUrl.value else "")
    ensures r.verifiedStatus == row.verifiedStatus && r.levelId == row.levelId
    ensures r.prdtTypeId == row.prdtTypeId && r.brandId == row.brandId
  {
    NewProductInfo(id, row.productName.GetOr(""), row.detailTitle.GetOr(""), row.mainUrl.GetOr(""),
                   row.verifiedStatus, row.levelId, row.prdtTypeId, row.brandId)
  }

  /** The SKU built from a row of product `pid`: null text columns become empty strings. */
  function SkuOfRow(pid: nat, row: SkuRow): (r: Sku)
    ensures r.id == row.id && r.productId == pid && r.customPrice == row.customPrice
    ensures r.sku == (if row.skuId.Some? then row.skuId.value else "")
    ensures r.detail == (if row.detail.Some? then row.detail.value else "")
  {
    Sku(row.id, pid, row.skuId.GetOr(""), row.detail.GetOr(""), row.customPrice)
  }

  function SkusOfRows(pid: nat, rows: seq<SkuRow>): (r: seq<Sku>)
    ensures |r| == |rows| && forall i :: 0 <= i < |rows| ==> r[i] == SkuOfRow(pid, rows[i])
  {
    seq(|rows|, i requires 0 <= i < |rows| => SkuOfRow(pid, rows[i]))
  }

  /** What `load_skus` yields: the rows in order, keyed by row id; nothing if the query failed. */
  function SkusFor(db: Database, pid: nat): map<nat, Sku>
  {
    match db.skuRowsOf(pid)
    case QueryError => map[]
    case Fetched(rows) => FromList(SkusOfRows(pid, rows))
  }

  /** `load_skus`: run the SKU query and insert every row's SKU under the row id. */
  method LoadSkus(db: Database, pid: nat) returns (skus: map<nat, Sku>)
    ensures skus == SkusFor(db, pid)
  {
    skus := map[];
    match db.skuRowsOf(pid)
    case QueryError =>
    case Fetched(rows) =>
      for i := 0 to |rows|
        invariant skus == FromList(SkusOfRows(pid, rows[..i]))
      {
        assert SkusOfRows(pid, rows[..i + 1])[..i] == SkusOfRows(pid, rows[..i]);
        var sku := Sku(rows[i].id, pid, rows[i].skuId.GetOr(""), rows[i].detail.GetOr(""), rows[i].customPrice);
        skus := skus[rows[i].id := sku];
      }
      assert rows[..|rows|] == rows;
  }

  /**
   * The SKUs built from fetched rows: each belongs to `pid` and sits under
   * its row id; the keys are exactly the row ids; the last row with an id
   * supplies its SKU, null text columns read as empty.
   */
  lemma {:induction false} SkusOfFetchedRows(pid: nat, rows: seq<SkuRow>)
    ensures var m := FromList(SkusOfRows(pid, rows));
      && KeyedById(m)
      && (forall k :: k in m ==> m[k].productId == pid)
      && (forall k :: k in m <==> exists i :: 0 <= i < |rows| && rows[i].id == k)
      && (forall j :: 0 <= j < |rows| && (forall i :: j < i < |rows| ==> rows[i].id != rows[j].id) ==>
            m[rows[j].id] == Sku(rows[j].id, pid, rows[j].skuId.GetOr(""), rows[j].detail.GetOr(""), rows[j].customPrice))
  {
    var l := SkusOfRows(pid, rows);
    FromListKeys(l);
    FromListKeyedById(l);
    FromListValues(l);
    forall j | 0 <= j < |rows| && (forall i :: j < i < |rows| ==> rows[i].id != rows[j].id)
      ensures FromList(l)[rows[j].id] == SkuOfRow(pid, rows[j])
    {
      FromListLastWins(l, j);
    }
  }

  /** What `load_skus` yields: the fetched rows' SKUs as above, and none if the query failed. */
  lemma LoadedSkus(db: Database, pid: nat)
    ensures KeyedById(SkusFor(db, pid))
    ensures forall k :: k in SkusFor(db, pid) ==> SkusFor(db, pid)[k].productId == pid
    ensures db.skuRowsOf(pid).QueryError? ==> SkusFor(db, pid) == map[]
    ensures db.skuRowsOf(pid).Fetched? ==>
      forall k :: k in SkusFor(db, pid) <==> exists i :: 0 <= i < |db.skuRowsOf(pid).value| && db.skuRowsOf(pid).value[i].id == k
  {
    if db.skuRowsOf(pid).Fetched? {
      SkusOfFetchedRows(pid, db.skuRowsOf(pid).value);
    }
  }

  /**
   * `get_producer_products` / `get_tenant_products` with the log line fixed:
   * one product per header row, in row order, each with the SKUs of its row
   * id and null text columns read as empty; a failed query yields none. The
   * listing bypasses the cache.
   */
  method LoadOwnedProducts(db: Database, owner: Owner) returns (products: seq<Product>)
    ensures db.ownedBy(owner).QueryError? ==> products == []
    ensures db.ownedBy(owner).Fetched? ==> var rows := db.ownedBy(owner).value;
      && |products| == |rows|
      && forall i :: 0 <= i < |rows| ==>
           && fresh(products[i])
           && products[i].info == InfoOfRow(rows[i].id, rows[i].header)
           && products[i].skus == SkusFor(db, rows[i].id)
  {
    products := [];
    match db.ownedBy(owner)
    case QueryError =>
    case Fetched(rows) =>
      for i := 0 to |rows|
        invariant |products| == i
        invariant forall j :: 0 <= j < i ==>
          && fresh(products[j])
          && products[j].info == InfoOfRow(rows[j].id, rows[j].header)
          && products[j].skus == SkusFor(db, rows[j].id)
      {
        var skus := LoadSkus(db, rows[i].id);
        var p := new Product(InfoOfRow(rows[i].id, rows[i].header), skus);
        products := products + [p];
      }
  }

  /**
   * `get_producer_products` / `get_tenant_products` as written: the log line
   * before each product unwraps the product name, so a row with a null name
   * aborts the whole call (`None`) before the empty-string default is reached.
   */
  method LoadOwnedProductsAsWritten(db: Database, owner: Owner) returns (products: Option<seq<Product>>)
    ensures db.ownedBy(owner).QueryError? ==> products == Some([])
    ensures db.ownedBy(owner).Fetched? ==> var rows := db.ownedBy(owner).value;
      && (products.None? <==> exists i :: 0 <= i < |rows| && rows[i].header.productName.None?)
      && (products.Some? ==>
            && |products.value| == |rows|
            && forall i :: 0 <= i < |rows| ==>
                 && fresh(products.value[i])
                 && products.value[i].info == InfoOfRow(rows[i].id, rows[i].header)
                 && products.value[i].skus == SkusFor(db, rows[i].id))
  {
    var acc: seq<Product> := [];
    match db.ownedBy(owner)
    case QueryError =>
      products := Some([]);
    case Fetched(rows) =>
      for i := 0 to |rows|
        invariant |acc| == i
        invariant forall j :: 0 <= j < i ==> rows[j].header.productName.Some?
        invariant forall j :: 0 <= j < i ==>
          && fresh(acc[j])
          && acc[j].info == InfoOfRow(rows[j].id, rows[j].header)
          && acc[j].skus == SkusFor(db, rows[j].id)
      {
        if rows[i].header.productName.None? {
          return None;
        }
        var skus := LoadSkus(db, rows[i].id);
        var p := new Product(InfoOfRow(rows[i].id, rows[i].header), skus);
        acc := acc + [p];
      }
      products := Some(acc);
  }

  /**
   * `get_producer_products` as written: the products whose `sources_id` is the
   * producer, or an abort (`None`) when one of them has a null name.
   */
  method GetProducerProducts(db: Database, producerId: nat) returns (products: Option<seq<Product>>)
    ensures db.ownedBy(Producer(producerId)).QueryError? ==> products == Some([])
    ensures db.ownedBy(Producer(producerId)).Fetched? ==> var rows := db.ownedBy(Producer(producerId)).value;
      && (products.None? <==> exists i :: 0 <= i < |rows| && rows[i].header.productName.None?)
      && (products.Some? ==>
            && |products.value| == |rows|
            && forall i :: 0 <= i < |rows| ==>
                 && fresh(products.value[i])
                 && products.value[i].info == InfoOfRow(rows[i].id, rows[i].header)
                 && products.value[i].skus == SkusFor(db, rows[i].id))
  {
    products := LoadOwnedProductsAsWritten(db, Producer(producerId));
  }

  /**
   * `get_tenant_products` as written: the products whose `tent_id` is the
   * tenant, or an abort (`None`) when one of them has a null name.
   */
  method GetTenantProducts(db: Database, tentId: nat) returns (products: Option<seq<Product>>)
    ensures db.ownedBy(Tenant(tentId)).QueryError? ==> products == Some([])
    ensures db.ownedBy(Tenant(tentId)).Fetched? ==> var rows := db.ownedBy(Tenant(tentId)).value;
      && (products.None? <==> exists i :: 0 <= i < |rows| && rows[i].header.productName.None?)
      && (products.Some? ==>
            && |products.value| == |rows|
            && forall i :: 0 <= i < |rows| ==>
                 && fresh(products.value[i])
                 && products.value[i].info == InfoOfRow(rows[i].id, rows[i].header)
                 && products.value[i].skus == SkusFor(db, rows[i].id))
  {
    products := LoadOwnedProductsAsWritten(db, Tenant(tentId));
  }
}
