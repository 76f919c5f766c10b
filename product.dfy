/**
 * The product aggregate (`Product`): one header and the product's SKUs keyed
 * by SKU id, changed in place by an upsert and by a full replacement.
 */
module Aggregate {
  import opened Catalog
  import opened SkuMap

  class Product {
    var info: ProductInfo
    var skus: map<nat, Sku>

    /** `Product::new_less`: a product without SKUs. */
    constructor NewLess(i: ProductInfo)
      ensures info == i && skus == map[]
    {
      info := i;
      skus := map[];
    }

    /** `Product::new`: a product over a given SKU map (not re-validated). */
    constructor (i: ProductInfo, s: map<nat, Sku>)
      ensures info == i && skus == s
    {
      info := i;
      skus := s;
    }

    /** `get_id` */
    function Id(): (r: nat)
      reads this
      ensures r == Info().productId
    {
      info.productId
    }

    /** `get_info` (and `get_ref_info`, which lends the same header) */
    function Info(): (r: ProductInfo)
      reads this
      ensures r == info
    {
      info
    }

    /** `PartialEq`: products are the same when their ids agree. */
    predicate SameAs(other: Product)
      reads this, other
    {
      Id() == other.Id()
    }

    /**
     * `get_skus`: a snapshot with one SKU per entry in ascending key order, so
     * in strictly ascending id order when every SKU sits under its own id.
     */
    function Skus(): (r: seq<Sku>)
      reads this
      ensures |r| == |skus|
      ensures forall i :: 0 <= i < |r| ==> r[i] in skus.Values
      ensures forall k :: k in skus ==> exists i :: 0 <= i < |r| && r[i] == skus[k]
      ensures KeyedById(skus) ==> forall i, j :: 0 <= i < j < |r| ==> r[i].id < r[j].id
    {
      InKeyOrderSnapshot(skus);
      InKeyOrder(skus)
    }

    /** `update_sku`: upsert `s` by id; the header is untouched. */
    method UpdateSku(s: Sku)
      modifies this
      ensures info == old(info)
      ensures skus == Upserted(old(skus), s)
      ensures KeyedById(old(skus)) ==> KeyedById(skus)
    {
      UpsertedEffect(skus, s);
      if s.id in skus {
        skus := skus[s.id := skus[s.id].Update(s)];
      } else {
        skus := skus[s.id := s];
      }
    }

    /**
     * `set_skus`: clear the SKUs, then insert every element of `l` in order
     * under its id, so that later duplicates overwrite earlier ones.
     */
    method SetSkus(l: seq<Sku>)
      modifies this
      ensures info == old(info)
      ensures skus == FromList(l)
      ensures KeyedById(skus)
    {
      skus := map[];
      for i := 0 to |l|
        invariant info == old(info)
        invariant skus == FromList(l[..i])
      {
        assert l[..i + 1][..i] == l[..i];
        skus := skus[l[i].id := l[i]];
      }
      assert l[..|l|] == l;
      FromListKeyedById(l);
    }

    /** `clone`: a new, unaliased product with the same header and SKUs. */
    method Clone() returns (c: Product)
      ensures fresh(c) && c.info == info && c.skus == skus
    {
      c := new Product(info, skus);
    }
  }

  /** Product equality is header equality, so it too looks at the id alone. */
  lemma ProductEqualityIsHeaderEquality(p: Product, q: Product)
    ensures p.SameAs(q) <==> p.Info().SameAs(q.Info())
    ensures p.SameAs(q) <==> p.Id() == q.Id()
  {
  }

  /**
   * After `set_skus(l)` the keys are exactly the ids in `l`, and each key maps
   * to the last element of `l` carrying that id.
   */
  lemma SetSkusResult(l: seq<Sku>)
    ensures forall k :: k in FromList(l) <==> exists i :: 0 <= i < |l| && l[i].id == k
    ensures forall j :: 0 <= j < |l| && (forall i :: j < i < |l| ==> l[i].id != l[j].id) ==>
      FromList(l)[l[j].id] == l[j]
  {
    FromListKeys(l);
    forall j | 0 <= j < |l| && (forall i :: j < i < |l| ==> l[i].id != l[j].id)
      ensures FromList(l)[l[j].id] == l[j]
    {
      FromListLastWins(l, j);
    }
  }
}
