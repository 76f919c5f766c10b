# Product catalogue cache and repository, modelled in Dafny

This project models the product-catalogue layer of a multi-tenant commerce
back end (`shared/src/product.rs`) and two helpers next to it
(`shared/src/utils.rs`). It covers the following:

- **Value entities** (`catalog.dfy`, module `Catalog`): `ProductInfo`, `Sku`,
  `SaleProductInfo`, `SaleProductData`, `ProductImportSku`. Headers and SKUs
  compare by id only. Sale listings compare structurally (Dafny `==`).
  `Sku::update` copies `detail` and `custom_price`. `SaleProductInfo::update`
  asserts that the ids match, then copies every statistic.
- **The SKU map specification** (`sku_map.dfy`, module `SkuMap`): the
  `BTreeMap<u64, Sku>` as a `map<nat, Sku>`. `Upserted` specifies
  `update_sku`. `FromList` specifies `set_skus` and `load_skus`, where later
  duplicates win. `SortedKeys`/`InKeyOrder` specify the ascending iteration
  behind `get_skus`.
- **The product aggregate** (`product.dfy`, module `Aggregate`): class
  `Product` with fields `info` and `skus`. `UpdateSku` and `SetSkus`
  reassign `skus` in place; `SetSkus` does it in a loop. `Skus` is the
  `get_skus` snapshot. `Id`, `Info` and `SameAs` are `get_id`, `get_info`
  (which also stands for `get_ref_info`) and `PartialEq`. `Clone` is the
  derived `clone`.
- **The repository** (`repository.dfy`, module `Repository`): the store is a
  `Database` value with one oracle function per query. Each oracle answers
  `QueryError` or the rows fetched. `InfoOfRow` and `SkuOfRow` map rows and
  turn null text columns into `""`. `LoadSkus` is `load_skus`: a query error
  yields an empty map. `GetProducerProducts` and `GetTenantProducts` are the bulk
  loaders as written, which bypass the cache; `LoadOwnedProducts` is the
  same loader with its log line fixed.
- **The caches** (`cache.dfy`, module `Cache`): class `CatalogCache` holds
  the two process-wide maps `products` and `saleProducts`. It offers
  `GetProduct`, `GetProductSkus`, `GetProductInfo`, `GetSaleProduct` and
  `GetSaleProducts`.
  - Every product handed out is a fresh copy, as the source clones. On a
    miss, the cached object and the returned one are distinct.
  - A header query that fails reads as "no such product", which reproduces
    the source's `unwrap_or(None)`.
- **The import transaction** (`import.dfy`, module `Import`): `RunImport` is
  the transaction body shared by `ImportSelfProduct` and
  `ImportProducerProduct`. It issues the header insert, then SKU inserts up
  to the first failure, then a commit or a rollback.
  - A `TxnOracle` says which steps succeed.
  - The method returns its outcome and the statements it issued.
  - A failed transaction start, commit or rollback is unwrapped in the
    source, so it panics; the model calls this outcome `Aborted`.
  - `Persisted` states the store's transaction semantics: the inserts
    survive only after a successful commit.
- **Helpers** (`utils.dfy`, module `Utils`): `ResponseJson` (`get_response_json`)
  and `NormalizeVector` (`normalize_vector`). The pager is shown as written
  and, separately, as evidently intended (`Paginate`).

Where the code and its documentation disagree, the model follows the code:

- A failed commit makes the import panic: the source returns the commit's
  `Err` into `.unwrap()`. So an import never returns `false` because of the
  commit; that case is `Aborted`.
- The bulk loaders' log line panics on a null product name (see Findings):
  `GetProducerProducts` and `GetTenantProducts` return `None` for that
  abort.
- The SQL text of `get_sale_product` is malformed (`SELECT  FROM …`). The
  model stands that query for an oracle, `listingOf`. With the text as
  written, every such query fails, so a miss returns `None` and caches
  nothing; `GetSaleProduct`'s third postcondition covers that case.
- The bulk loaders take the header's `id` column as the product id and load
  SKUs for it. `get_product` queries by the `product_id` column. The model
  keeps the two as separate oracle inputs.
- `get_sale_products` always returns freshly synthesised zero listings, even
  for ids whose cached entry differs. It caches only ids that are absent.

## Model

| member | source | states |
|---|---|---|
| `Catalog.NewProductInfo` | shared/src/product.rs:27-39 | a new header carries the given id and fields, and its sale status is always 0 |
| `Catalog.Sku.Update` | shared/src/product.rs:55-58 | the updated SKU keeps id, product id and SKU code, and takes `detail` and `custom_price` from the other SKU |
| `Catalog.IdentityEquality` | shared/src/product.rs:21-53 | header and SKU equality hold iff the ids match, and both are equivalence relations |
| `Catalog.IdentityEqualityIsNotStructural` | shared/src/product.rs:49-53 | two headers, or two SKUs, can be equal while differing in other fields |
| `Catalog.SkuUpdateIdempotent` | shared/src/product.rs:55-58 | an update keeps the SKU's identity; repeating it changes nothing; updating from itself is the identity |
| `Catalog.SaleProductInfo.Update` | shared/src/product.rs:136-143 | requires matching ids (the assertion); afterwards the listing is structurally equal to the other one |
| `Catalog.ZeroListing` | shared/src/product.rs:343-350 | the synthesised listing has the given id and all five statistics zero |
| `Catalog.NewSaleProductData` | shared/src/product.rs:165-174 | the record holds the given header and the five statistics of the listing |
| `Catalog.SaleProductDataForgetsOnlyListingId` | shared/src/product.rs:164-175 | two listings give the same record for a header iff they agree on every statistic; the listing's id is never checked |
| `SkuMap.UpsertedEffect` | shared/src/product.rs:93-100 | the upsert adds exactly `s.id`; an existing entry keeps id, product id and code and takes detail and price; a new id maps to `s`; other entries are unchanged; keying by id is preserved |
| `SkuMap.UpsertedIdempotent` | shared/src/product.rs:93-100 | upserting the same SKU twice gives the map the first upsert gave |
| `SkuMap.FromListKeys` | shared/src/product.rs:103-106 | after the replacement the keys are exactly the ids in the list |
| `SkuMap.FromListLastWins` | shared/src/product.rs:104-106 | each id maps to the last list element carrying it |
| `SkuMap.FromListKeyedById` | shared/src/product.rs:104-106 | every element is stored under its own id |
| `SkuMap.FromListValues` | shared/src/product.rs:104-106 | every stored SKU is an element of the list |
| `SkuMap.SortedKeys` | shared/src/product.rs:88-91 | the keys come in strictly ascending order, each key exactly once |
| `SkuMap.InKeyOrderSnapshot` | shared/src/product.rs:88-91 | the snapshot has one SKU per entry and contains every entry's SKU; ids strictly ascend when entries sit under their own ids |
| `Aggregate.Product.NewLess` | shared/src/product.rs:67-72 | the product has the given header and no SKUs |
| `Aggregate.Product.constructor` | shared/src/product.rs:73-78 | the product has the given header and SKU map, which is not validated |
| `Aggregate.Product.Id` | shared/src/product.rs:79-81 | `get_id` is the header's product id |
| `Aggregate.Product.Info` | shared/src/product.rs:82-87 | `get_info` and `get_ref_info` give the product's header |
| `Aggregate.Product.Skus` | shared/src/product.rs:88-91 | `get_skus` returns one SKU per entry, covering all entries, in strictly ascending id order for a map keyed by id |
| `Aggregate.Product.UpdateSku` | shared/src/product.rs:93-100 | the SKU map becomes the upsert of the old map with `s`; the header is unchanged; keying by id is preserved |
| `Aggregate.Product.SetSkus` | shared/src/product.rs:101-107 | the SKU map becomes the list inserted in order (later duplicates win); the header is unchanged |
| `Aggregate.Product.Clone` | shared/src/product.rs:61-65 | a fresh product with the same header and SKUs |
| `Aggregate.ProductEqualityIsHeaderEquality` | shared/src/product.rs:109-113 | product equality holds iff the header ids match |
| `Aggregate.SetSkusResult` | shared/src/product.rs:101-107 | after `set_skus(l)` the keys are exactly the ids of `l`, each mapped to the last element with that id |
| `Repository.InfoOfRow` | shared/src/product.rs:296-307 | the header has the queried id, sale status 0, the row's numeric columns, and `""` for each null text column |
| `Repository.SkuOfRow` | shared/src/product.rs:206-212 | the SKU has the row's id and price, the queried product id, and `""` for a null `sku_id` or `detail` |
| `Repository.LoadSkus` | shared/src/product.rs:192-217 | the map is the rows' SKUs inserted in row order under their row ids, or empty when the query failed |
| `Repository.SkusOfFetchedRows` | shared/src/product.rs:205-214 | every loaded SKU belongs to the queried product and sits under its id; keys are exactly the row ids; the last row with an id supplies its SKU; nulls become `""` |
| `Repository.LoadedSkus` | shared/src/product.rs:192-217 | the loaded SKUs belong to the product and are keyed by id; a failed query gives none; a fetch gives exactly the row ids |
| `Repository.LoadOwnedProducts` | shared/src/product.rs:226-246 | with the log line fixed: one fresh product per header row, in order, with its null-tolerant header and its loaded SKUs; a failed query gives none |
| `Repository.LoadOwnedProductsAsWritten` | shared/src/product.rs:226-246 | as written: aborts iff some fetched row has a null product name; otherwise one fresh product per row with its null-tolerant header and its loaded SKUs |
| `Repository.GetProducerProducts` | shared/src/product.rs:219-248 | aborts iff one of the producer's header rows has a null name; otherwise one fresh product per row, with header and SKUs as loaded; empty on query failure |
| `Repository.GetTenantProducts` | shared/src/product.rs:250-280 | aborts iff one of the tenant's header rows has a null name; otherwise one fresh product per row, with header and SKUs as loaded; empty on query failure |
| `Cache.HeaderFound` | shared/src/product.rs:289-294 | a failed header query reads the same as a missing row |
| `Cache.ListingFound` | shared/src/product.rs:335-340 | a listing lookup finds a row only when the query succeeds and returns one |
| `Cache.CatalogCache.constructor` | shared/src/product.rs:183-188 | both caches start empty |
| `Cache.CatalogCache.GetProduct` | shared/src/product.rs:281-313 | hit: an equal fresh copy and the cache unchanged; miss with a row: the cache gains exactly that id, mapped to a product built from the row and its SKUs, and a distinct equal copy is returned; miss without a row: `None` and the cache unchanged |
| `Cache.CatalogCache.GetProductSkus` | shared/src/product.rs:314-319 | hit: the cached product's ascending SKU snapshot, cache unchanged; miss with a row: the cache gains exactly that id, with a product built from the row and its SKUs, whose snapshot is returned; miss without a row: empty, cache unchanged |
| `Cache.CatalogCache.GetProductInfo` | shared/src/product.rs:321-327 | hit: the cached header, cache unchanged; miss with a row: the cache gains exactly that id, with a product built from the row and its SKUs, and the row's header is returned; miss without a row: `None`, cache unchanged |
| `Cache.CatalogCache.GetSaleProduct` | shared/src/product.rs:329-356 | hit: the cached listing, cache unchanged; miss and listed: caches and returns the zero listing; otherwise `None`, cache unchanged |
| `Cache.CatalogCache.GetSaleProducts` | shared/src/product.rs:358-393 | one zero listing per shop product id in query order; the cache gains exactly the absent ids with zero listings; existing entries are untouched; on query failure, nothing is returned and nothing changes |
| `Cache.LookupTwice` | shared/src/product.rs:281-313 | after a first lookup that finds the product, a second lookup returns an equal copy whatever the store answers then |
| `Import.FirstFailure` | shared/src/product.rs:408-413 | the index where the SKU loop stops: every earlier insert succeeded, and it failed unless it is the end |
| `Import.RunImport` | shared/src/product.rs:401-427 | the outcome and the statements issued are exactly the run the protocol prescribes (`Expected`) |
| `Import.ImportGuarantees` | shared/src/product.rs:401-427 | returns true iff every step succeeds; false iff an insert fails and the rollback succeeds; the header insert is first; no SKU insert follows a failure; commit iff no failure, else rollback; all rows persist or none |
| `Import.ImportSelfProduct` | shared/src/product.rs:401-427 | the guarantees above, with header columns `(tent_id, sources_id) = (tid, 0)` |
| `Import.ImportProducerProduct` | shared/src/product.rs:429-455 | the guarantees above, with header columns `(tent_id, sources_id) = (0, pid)` |
| `Utils.DigitsRoundTrip` | shared/src/utils.rs:1-8 | the decimal digits of a natural number read back to the number |
| `Utils.DecimalRoundTrip` | shared/src/utils.rs:1-8 | the signed decimal rendering of the code reads back to the code |
| `Utils.ResponseJson` | shared/src/utils.rs:1-8 | the exact layout: `{`, newline, `"code":` and the code, then `,` newline `"message":"` and `msg`, then `",` newline `"data":` and `data`, then newline `}`; `msg` and `data` are verbatim |
| `Utils.ResponseJsonCodeRoundTrip` | shared/src/utils.rs:1-8 | the code read back from the envelope is the code sent |
| `Utils.ResponseJsonDoesNotEscape` | shared/src/utils.rs:1-8 | different message/data pairs can yield the same envelope, because nothing is escaped |
| `Utils.NormalizeVector` | shared/src/utils.rs:10-30 | with `first = size*(no-1)` and `last = min(no*size-1, len)`: panics iff `first` is negative and `last > first`; the slice `from[first..last]` when `0 <= first < len` and `last > first`; empty when `first >= len` or `last <= first` |
| `Utils.NormalizeVectorPage` | shared/src/utils.rs:15-28 | on a page `no >= 1`, `size >= 0`: no panic; at most `size - 1` elements; a contiguous in-order run starting at `size*(no-1)`; empty past the end |
| `Utils.NormalizeVectorPageZeroPanics` | shared/src/utils.rs:15-24 | page 0 with at least two slots per page panics |
| `Utils.NormalizeVectorDropsLastSlot` | shared/src/utils.rs:16-24 | with two slots per page, the second of two elements appears on neither page 1 nor page 2 |
| `Utils.Paginate` | shared/src/utils.rs:15-24 | intended pager: page `no` holds `min(size, len - min(size*(no-1), len))` elements |
| `Utils.PagesTile` | shared/src/utils.rs:15-24 | intended pager: pages `1..n` concatenated are exactly the first `min(n*size, len)` elements |

## Findings

| source | as written | input that shows it | evidently intended | confidence | as-written member | corrected member |
|---|---|---|---|---|---|---|
| shared/src/product.rs:233 | the log line before each product unwraps `product_name` (also line 264), so the `""` default on line 237 can never apply to a null name | a producer or tenant header row whose `product_name` is null: the whole listing call panics | log the name with a default, as `get_product` does on line 297, so that null names become `""` | high; not executed | `Repository.LoadOwnedProductsAsWritten` | `Repository.LoadOwnedProducts` |
| shared/src/utils.rs:16 | `last = page_no*page_size-1` is used as an exclusive end, so each page drops its last slot and that element appears on no page | `page_size = 2` over `[10, 20]`: page 1 is `[10]` and page 2 is empty | `last = page_no*page_size`, so pages tile the vector | high; not executed | `Utils.NormalizeVectorDropsLastSlot` | `Utils.PagesTile` |

## Left out

- Locking and laziness: the `Mutex`/`Lazy` globals are left out. The caches
  are fields of one object, and operations run one at a time. So the
  concurrent-miss behaviour (two loads of one id, last insert wins) and the
  pool lock held across queries are not modelled.
- The store itself: SQL text, the connection pool, `start_transaction` and
  row decoding are left out. The store is replaced by oracles
  (`Repository.Database`, `Import.TxnOracle`). Panics while decoding a row
  (`x.unwrap()` on a row error, `from_row` on a type mismatch) are not
  modelled. `Import.Persisted` is the store's transaction semantics, not
  code of the catalogue.
- Side effects: `println!` logging and the `NOW()` creation timestamp are
  left out.
- Numeric types: `custom_price: f32` is an opaque 32-bit value that is only
  copied. `u64` ids are `nat`, and `i32` fields are `int`, because they are
  only copied and compared.
- `Catalog.Sku.Update`: `Sku::update` and `SaleProductInfo::update` assign
  fields of a value that lives inside a map. They are modelled as functions
  that return the updated value. The in-place change is the reassignment of
  the map entry in `Aggregate.Product.UpdateSku`.
- `SaleProductInfo::new` and `ProductImportSku` are plain constructors with
  no logic. They are the datatype constructors `Catalog.SaleProductInfo` and
  `Catalog.ImportSku`.
- `Utils.NormalizeVector`: inputs whose `i32` products overflow are excluded
  by its requires. A debug build panics on them and a release build wraps.
  So is a vector longer than `i32::MAX`, whose length cast would truncate.
- `Repository.LoadOwnedProducts`: it is the corrected loader of the first
  finding, and nothing else calls it. The code as written is
  `Repository.LoadOwnedProductsAsWritten`, which `GetProducerProducts` and
  `GetTenantProducts` use. An abort there also poisons the pool lock; that
  is not modelled.
- `shared/src/config.rs` (configuration file and Redis connection) and
  `shared/src/request.rs` (HTTP client) are not part of this model: they are
  file, network and foreign-library I/O.
