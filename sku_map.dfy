/**
 * The keyed SKU collection of a product (a `BTreeMap<u64, Sku>`) as a Dafny
 * map, with the functions that specify how the aggregate changes it: the
 * upsert of `update_sku`, the replacement of `set_skus` and the ascending
 * snapshot of `get_skus`.
 */
module SkuMap {
  import opened Catalog

  /** Every entry is stored under its own id. */
  predicate KeyedById(m: map<nat, Sku>)
  {
    forall k :: k in m ==> m[k].id == k
  }

  /** Upsert by id: update the mutable fields of an existing entry, or insert `s`. */
  function Upserted(m: map<nat, Sku>, s: Sku): map<nat, Sku>
  {
    if s.id in m then m[s.id := m[s.id].Update(s)] else m[s.id := s]
  }

  /**
   * What an upsert does: an existing entry keeps its id, product id and SKU
   * code and takes `detail` and `custom_price` from `s`; otherwise `s` itself
   * is inserted; every other entry is left alone.
   */
  lemma UpsertedEffect(m: map<nat, Sku>, s: Sku)
    ensures Upserted(m, s).Keys == m.Keys + {s.id}
    ensures s.id in m ==> var e := Upserted(m, s)[s.id];
      e.id == m[s.id].id && e.productId == m[s.id].productId && e.sku == m[s.id].sku &&
      e.detail == s.detail && e.customPrice == s.customPrice
    ensures s.id !in m ==> Upserted(m, s)[s.id] == s
    ensures forall k :: k in m && k != s.id ==> Upserted(m, s)[k] == m[k]
    ensures KeyedById(m) ==> KeyedById(Upserted(m, s))
  {
  }

  /** Upserting the same SKU twice leaves the map as the first upsert did. */
  lemma UpsertedIdempotent(m: map<nat, Sku>, s: Sku)
    ensures Upserted(Upserted(m, s), s) == Upserted(m, s)
  {
  }

  /** Insert every element of `l` in order under its id, later elements winning. */
  function FromList(l: seq<Sku>): map<nat, Sku>
  {
    if l == [] then map[] else FromList(l[..|l| - 1])[l[|l| - 1].id := l[|l| - 1]]
  }

  /** The keys of `FromList(l)` are exactly the ids that occur in `l`. */
  lemma {:induction false} FromListKeys(l: seq<Sku>)
    ensures forall k :: k in FromList(l) ==> exists i :: 0 <= i < |l| && l[i].id == k
    ensures forall i :: 0 <= i < |l| ==> l[i].id in FromList(l)
  {
    if l != [] {
      var n := |l| - 1;
      FromListKeys(l[..n]);
      forall k | k in FromList(l)
        ensures exists i :: 0 <= i < |l| && l[i].id == k
      {
        if k != l[n].id {
          var i :| 0 <= i < n && l[..n][i].id == k;
          assert l[i].id == k;
        }
      }
      forall i | 0 <= i < |l|
        ensures l[i].id in FromList(l)
      {
        if i < n {
          assert l[..n][i] == l[i];
        }
      }
    }
  }

  /** Last write wins: each id maps to the last element of `l` carrying it. */
  lemma {:induction false} FromListLastWins(l: seq<Sku>, j: nat)
    requires j < |l|
    requires forall i :: j < i < |l| ==> l[i].id != l[j].id
    ensures l[j].id in FromList(l) && FromList(l)[l[j].id] == l[j]
  {
    var n := |l| - 1;
    if j < n {
      assert forall i :: j < i < n ==> l[..n][i] == l[i];
      FromListLastWins(l[..n], j);
      assert l[..n][j] == l[j];
    }
  }

  /** A map built by `FromList` stores every element under its own id. */
  lemma {:induction false} FromListKeyedById(l: seq<Sku>)
    ensures KeyedById(FromList(l))
  {
    if l != [] {
      FromListKeyedById(l[..|l| - 1]);
    }
  }

  /** Every value of `FromList(l)` is an element of `l`. */
  lemma {:induction false} FromListValues(l: seq<Sku>)
    ensures forall k :: k in FromList(l) ==> FromList(l)[k] in l
  {
    if l != [] {
      var n := |l| - 1;
      FromListValues(l[..n]);
      forall k | k in FromList(l) && k != l[n].id
        ensures FromList(l)[k] in l
      {
        var i :| 0 <= i < n && l[..n][i] == FromList(l[..n])[k];
        assert l[i] == FromList(l)[k];
      }
    }
  }

  /** The smallest element of a non-empty set of keys. */
  function MinKey(ks: set<nat>): (m: nat)
    requires ks != {}
    ensures m in ks && forall k :: k in ks ==> m <= k
  {
    MinKeyExists(ks);
    var m :| m in ks && forall k :: k in ks ==> m <= k;
    m
  }

  lemma {:induction false} MinKeyExists(ks: set<nat>)
    requires ks != {}
    ensures exists m :: m in ks && forall k :: k in ks ==> m <= k
    decreases ks
  {
    var x :| x in ks;
    if ks == {x} {
      assert forall k :: k in ks ==> x <= k;
    } else {
      var rest := ks - {x};
      MinKeyExists(rest);
      var m :| m in rest && forall k :: k in rest ==> m <= k;
      var least := if x < m then x else m;
      forall k | k in ks
        ensures least <= k
      {
        if k != x {
          assert k in rest;
        }
      }
      assert least in ks;
    }
  }

  predicate StrictlyIncreasing(s: seq<nat>)
  {
    forall i, j :: 0 <= i < j < |s| ==> s[i] < s[j]
  }

  /** The keys in ascending order, as a `BTreeMap` iterates them. */
  function SortedKeys(ks: set<nat>): (r: seq<nat>)
    ensures |r| == |ks| && StrictlyIncreasing(r)
    ensures forall i :: 0 <= i < |r| ==> r[i] in ks
    ensures forall k :: k in ks ==> k in r
    decreases ks
  {
    if ks == {} then []
    else
      var m := MinKey(ks);
      var rest := SortedKeys(ks - {m});
      assert forall i :: 0 <= i < |rest| ==> m < rest[i];
      [m] + rest
  }

  /** The values of `m` in ascending key order. */
  function InKeyOrder(m: map<nat, Sku>): seq<Sku>
  {
    var ks := SortedKeys(m.Keys);
    seq(|ks|, i requires 0 <= i < |ks| => m[ks[i]])
  }

  /**
   * A snapshot lists one SKU per entry, each entry exactly once, and when the
   * map is keyed by id its SKUs come in strictly ascending id order.
   */
  lemma InKeyOrderSnapshot(m: map<nat, Sku>)
    ensures |InKeyOrder(m)| == |m|
    ensures forall i :: 0 <= i < |InKeyOrder(m)| ==> InKeyOrder(m)[i] in m.Values
    ensures forall k :: k in m ==> exists i :: 0 <= i < |InKeyOrder(m)| && InKeyOrder(m)[i] == m[k]
    ensures KeyedById(m) ==> forall i, j :: 0 <= i < j < |InKeyOrder(m)| ==> InKeyOrder(m)[i].id < InKeyOrder(m)[j].id
  {
    var ks := SortedKeys(m.Keys);
    var r := InKeyOrder(m);
    assert |m.Keys| == |m|;
    forall k | k in m
      ensures exists i :: 0 <= i < |r| && r[i] == m[k]
    {
      var i :| 0 <= i < |ks| && ks[i] == k;
      assert r[i] == m[k];
    }
  }
}
