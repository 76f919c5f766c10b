/**
 * The value entities of the product catalogue: product headers, SKUs, sale
 * listings and their presentation record, with the equalities the catalogue
 * defines on them.
 *
 * Ids are Rust `u64` and the status and statistics fields are Rust `i32`;
 * they are modelled as `nat` and `int` because the catalogue only copies and
 * compares them.
 */
module Catalog {

  /** The 32 raw bits of an `f32` SKU price: prices are copied, never computed with. */
  datatype Price = Price(bits: bv32)

  /** A product header (`ProductInfo`). */
  datatype ProductInfo = ProductInfo(
    productId: nat,
    productName: string,
    detailDesc: string,
    mainUrl: string,
    verifiedStatus: int,
    saleStatus: int,
    levelId: int,
    prdtTypeId: int,
    brandId: int)
  {
    /** `PartialEq`: headers are the same product when their ids agree. */
    predicate SameAs(other: ProductInfo)
    {
      productId == other.productId
    }
  }

  /** `ProductInfo::new`: a fresh header is never marked as on sale. */
  function NewProductInfo(id: nat, name: string, desc: string, url: string,
                          verify: int, lid: int, prdt: int, bId: int): (r: ProductInfo)
    ensures r.productId == id && r.saleStatus == 0
    ensures r.productName == name && r.detailDesc == desc && r.mainUrl == url
    ensures r.verifiedStatus == verify && r.levelId == lid && r.prdtTypeId == prdt && r.brandId == bId
  {
    ProductInfo(id, name, desc, url, verify, 0, lid, prdt, bId)
  }

  /** A stock-keeping unit of a product (`Sku`). */
  datatype Sku = Sku(id: nat, productId: nat, sku: string, detail: string, customPrice: Price)
  {
    /** `PartialEq`: SKUs are the same when their ids agree. */
    predicate SameAs(other: Sku)
    {
      id == other.id
    }

    /**
     * `Sku::update`: this SKU with the mutable fields (`detail`, `custom_price`)
     * of `other`; the identity fields and the SKU code are kept.
     */
    function Update(other: Sku): (r: Sku)
      ensures r.id == id && r.productId == productId && r.sku == sku
      ensures r.detail == other.detail && r.customPrice == other.customPrice
    {
      this.(detail := other.detail, customPrice := other.customPrice)
    }
  }

  /** Header and SKU equality ignore every field but the id, and are equivalences. */
  lemma IdentityEquality(a: ProductInfo, b: ProductInfo, c: ProductInfo, s: Sku, t: Sku, u: Sku)
    ensures a.SameAs(b) <==> a.productId == b.productId
    ensures s.SameAs(t) <==> s.id == t.id
    ensures a.SameAs(a) && (a.SameAs(b) ==> b.SameAs(a)) && (a.SameAs(b) && b.SameAs(c) ==> a.SameAs(c))
    ensures s.SameAs(s) && (s.SameAs(t) ==> t.SameAs(s)) && (s.SameAs(t) && t.SameAs(u) ==> s.SameAs(u))
  {
  }

  /** Identity equality is strictly coarser than structural equality. */
  lemma IdentityEqualityIsNotStructural()
    ensures exists a: ProductInfo, b: ProductInfo :: a.SameAs(b) && a != b
    ensures exists s: Sku, t: Sku :: s.SameAs(t) && s != t
  {
    var a := NewProductInfo(1, "a", "", "", 0, 0, 0, 0);
    var b := NewProductInfo(1, "b", "", "", 0, 0, 0, 0);
    assert a.SameAs(b) && a != b;
    var s := Sku(7, 1, "x", "red", Price(0));
    var t := Sku(7, 2, "y", "blue", Price(1));
    assert s.SameAs(t) && s != t;
  }

  /** Updating a SKU keeps it the same SKU, and a second identical update changes nothing. */
  lemma SkuUpdateIdempotent(s: Sku, o: Sku)
    ensures s.Update(o).SameAs(s)
    ensures s.Update(o).Update(o) == s.Update(o)
    ensures s.Update(s) == s
  {
  }

  /** A sale listing (`SaleProductInfo`); its equality is structural, Dafny's `==`. */
  datatype SaleProductInfo = SaleProductInfo(
    productId: nat,
    monthBeforeIncome: int,
    monthBeforeCharge: int,
    saleCount: int,
    selectionType: int,
    stockTotal: int)
  {
    /**
     * `SaleProductInfo::update`: copy every statistic of `other`. The id check
     * is an assertion in the catalogue (a mismatch aborts), hence a requires.
     */
    function Update(other: SaleProductInfo): (r: SaleProductInfo)
      requires productId == other.productId
      ensures r == other
    {
      this.(monthBeforeCharge := other.monthBeforeCharge,
            monthBeforeIncome := other.monthBeforeIncome,
            saleCount := other.saleCount,
            selectionType := other.selectionType,
            stockTotal := other.stockTotal)
    }
  }

  /** The all-zero listing the catalogue synthesises for a listed product id. */
  function ZeroListing(id: nat): (r: SaleProductInfo)
    ensures r.productId == id
    ensures r.monthBeforeIncome == r.monthBeforeCharge == r.saleCount == r.selectionType == r.stockTotal == 0
  {
    SaleProductInfo(id, 0, 0, 0, 0, 0)
  }

  /** The presentation record joining a header with a listing's statistics (`SaleProductData`). */
  datatype SaleProductData = SaleProductData(
    product: ProductInfo,
    monthBeforeIncome: int,
    monthBeforeCharge: int,
    saleCount: int,
    selectionType: int,
    stockTotal: int)

  /** `SaleProductData::new`: the header as given and the five statistics of `sale`. */
  function NewSaleProductData(prod: ProductInfo, sale: SaleProductInfo): (r: SaleProductData)
    ensures r.product == prod
    ensures r.monthBeforeIncome == sale.monthBeforeIncome && r.monthBeforeCharge == sale.monthBeforeCharge
    ensures r.saleCount == sale.saleCount && r.selectionType == sale.selectionType && r.stockTotal == sale.stockTotal
  {
    SaleProductData(prod, sale.monthBeforeIncome, sale.monthBeforeCharge,
                    sale.saleCount, sale.selectionType, sale.stockTotal)
  }

  /**
   * The presentation record forgets only the listing's own id: two listings
   * give the same record for a header exactly when they agree on every
   * statistic (the listing id is never checked against the header's).
   */
  lemma SaleProductDataForgetsOnlyListingId(prod: ProductInfo, s: SaleProductInfo, t: SaleProductInfo)
    ensures NewSaleProductData(prod, s) == NewSaleProductData(prod, t) <==> s.(productId := t.productId) == t
  {
  }

  /** One SKU of an import request (`ProductImportSku`); its price is an `i32`. */
  datatype ImportSku = ImportSku(detail: string, sku: string, customPrice: int)
}
