/**
 * The import transaction: insert one header row and then one row per SKU
 * inside a single transaction, stop at the first failed insert, commit when
 * every insert succeeded and roll back otherwise.
 *
 * The store is an oracle (`TxnOracle`) that says which statements succeed;
 * an import returns the statements it issued, in order, with its outcome.
 * Every `Result` the import unwraps becomes `Aborted` when it is an error.
 */
module Import {
  import opened Catalog

  /** The columns of a header insert into `product_info_old`. */
  datatype HeaderInsert = HeaderInsert(
    tentId: nat, sourcesId: nat, productId: nat, productName: string, detailTitle: string, mainUrl: string)

  /** The columns of a SKU insert into `product_sku`. */
  datatype SkuInsert = SkuInsert(productId: nat, skuId: string, detail: string, customPrice: int)

  /** A statement sent to the store inside the transaction. */
  datatype Statement = InsertHeader(header: HeaderInsert) | InsertSku(sku: SkuInsert) | Commit | Rollback

  /**
   * Which steps succeed: starting the transaction, the header insert, the
   * `i`-th SKU insert (`skuOk(i)`), the commit and the rollback.
   */
  datatype TxnOracle = TxnOracle(beginOk: bool, headerOk: bool, skuOk: nat -> bool, commitOk: bool, rollbackOk: bool)

  /** An import returns a boolean, or aborts on an error it unwraps. */
  datatype ImportOutcome = Returned(ok: bool) | Aborted

  function SkuInsertOf(productId: nat, s: ImportSku): SkuInsert
  {
    SkuInsert(productId, s.sku, s.detail, s.customPrice)
  }

  /** The SKU insert statements for `skus`, in order. */
  function SkuInserts(productId: nat, skus: seq<ImportSku>): (r: seq<Statement>)
    ensures |r| == |skus| && forall i :: 0 <= i < |skus| ==> r[i] == InsertSku(SkuInsertOf(productId, skus[i]))
  {
    seq(|skus|, i requires 0 <= i < |skus| => InsertSku(SkuInsertOf(productId, skus[i])))
  }

  /** The index of the first failing step among `from .. n-1`, or `n` when none fails. */
  function FirstFailure(ok: nat -> bool, from: nat, n: nat): (f: nat)
    requires from <= n
    ensures from <= f <= n
    ensures forall j :: from <= j < f ==> ok(j)
    ensures f < n ==> !ok(f)
    decreases n - from
  {
    if from == n || !ok(from) then from else FirstFailure(ok, from + 1, n)
  }

  /** Every SKU insert succeeds. */
  predicate AllSkusOk(db: TxnOracle, n: nat)
  {
    forall j :: 0 <= j < n ==> db.skuOk(j)
  }

  /** The inserts that survive the transaction: all of them after a successful commit, none otherwise. */
  function Persisted(issued: seq<Statement>, commitOk: bool): seq<Statement>
  {
    if |issued| > 0 && issued[|issued| - 1] == Commit && commitOk then issued[..|issued| - 1] else []
  }

  /**
   * The run the transaction protocol prescribes, as (outcome, statements
   * issued): nothing when the transaction cannot start; otherwise the header
   * insert, the SKU inserts up to and including the first failing one, and a
   * rollback after a failure or a commit after none. A failed start, commit
   * or rollback aborts.
   */
  function Expected(header: HeaderInsert, skus: seq<ImportSku>, db: TxnOracle): (ImportOutcome, seq<Statement>)
  {
    if !db.beginOk then (Aborted, [])
    else if !db.headerOk then
      (if db.rollbackOk then Returned(false) else Aborted, [InsertHeader(header), Rollback])
    else
      var f := FirstFailure(db.skuOk, 0, |skus|);
      if f == |skus| then
        (if db.commitOk then Returned(true) else Aborted,
         [InsertHeader(header)] + SkuInserts(header.productId, skus) + [Commit])
      else
        (if db.rollbackOk then Returned(false) else Aborted,
         [InsertHeader(header)] + SkuInserts(header.productId, skus[..f + 1]) + [Rollback])
  }

  /**
   * The transaction body shared by both imports: the header insert, then the
   * SKU inserts until one fails, then commit or roll back.
   */
  method RunImport(header: HeaderInsert, skus: seq<ImportSku>, db: TxnOracle)
    returns (outcome: ImportOutcome, issued: seq<Statement>)
    ensures (outcome, issued) == Expected(header, skus, db)
  {
    issued := [];
    if !db.beginOk {
      return Aborted, issued;
    }
    var ok := db.headerOk;
    issued := issued + [InsertHeader(header)];
    var i := 0;
    if ok {
      while i < |skus|
        invariant 0 <= i <= |skus|
        invariant ok && forall j :: 0 <= j < i ==> db.skuOk(j)
        invariant issued == [InsertHeader(header)] + SkuInserts(header.productId, skus[..i])
      {
        assert SkuInserts(header.productId, skus[..i + 1]) == SkuInserts(header.productId, skus[..i]) + [InsertSku(SkuInsertOf(header.productId, skus[i]))];
        issued := issued + [InsertSku(SkuInsertOf(header.productId, skus[i]))];
        ok := db.skuOk(i);
        if !ok {
          assert FirstFailure(db.skuOk, 0, |skus|) == i by {
            FirstFailureIsFirst(db.skuOk, 0, |skus|, i);
          }
          assert issued == [InsertHeader(header)] + SkuInserts(header.productId, skus[..i + 1]);
          break;
        }
        i := i + 1;
      }
      if ok {
        assert skus[..|skus|] == skus;
        assert FirstFailure(db.skuOk, 0, |skus|) == |skus| by {
          FirstFailureNone(db.skuOk, 0, |skus|);
        }
      }
    }
    if ok {
      issued := issued + [Commit];
      outcome := if db.commitOk then Returned(true) else Aborted;
    } else {
      issued := issued + [Rollback];
      outcome := if db.rollbackOk then Returned(false) else Aborted;
    }
    assert outcome == Expected(header, skus, db).0;
    assert issued == Expected(header, skus, db).1;
  }

  /** A failing step with no failure before it is the first failure. */
  lemma {:induction false} FirstFailureIsFirst(ok: nat -> bool, from: nat, n: nat, i: nat)
    requires from <= i < n && !ok(i)
    requires forall j :: from <= j < i ==> ok(j)
    ensures FirstFailure(ok, from, n) == i
    decreases n - from
  {
    if from < i {
      FirstFailureIsFirst(ok, from + 1, n, i);
    }
  }

  /** With no failing step the first failure is `n`. */
  lemma {:induction false} FirstFailureNone(ok: nat -> bool, from: nat, n: nat)
    requires from <= n
    requires forall j :: from <= j < n ==> ok(j)
    ensures FirstFailure(ok, from, n) == n
    decreases n - from
  {
    if from < n {
      FirstFailureNone(ok, from + 1, n);
    }
  }

  /**
   * What every import promises, from its transcript: it returns true exactly
   * when every step succeeds, false exactly when an insert fails and the
   * rollback succeeds; the header insert comes first; no SKU insert follows
   * a failed one; the transaction ends in a commit exactly when no insert
   * failed and in a rollback otherwise; and either the header and every SKU persist, or
   * nothing does.
   */
  lemma {:induction false} ImportGuarantees(header: HeaderInsert, skus: seq<ImportSku>, db: TxnOracle,
                                            outcome: ImportOutcome, issued: seq<Statement>)
    requires (outcome, issued) == Expected(header, skus, db)
    ensures outcome == Returned(true) <==> db.beginOk && db.headerOk && AllSkusOk(db, |skus|) && db.commitOk
    ensures outcome == Returned(false) <==> db.beginOk && !(db.headerOk && AllSkusOk(db, |skus|)) && db.rollbackOk
    ensures db.beginOk ==> |issued| > 0 && issued[0] == InsertHeader(header)
    ensures forall p :: 0 < p < |issued| && issued[p].InsertSku? ==> db.headerOk && AllSkusOk(db, p - 1)
    ensures db.beginOk ==> |issued| >= 2 && issued[|issued| - 1] == if db.headerOk && AllSkusOk(db, |skus|) then Commit else Rollback
    ensures Persisted(issued, db.commitOk) ==
      if outcome == Returned(true) then [InsertHeader(header)] + SkuInserts(header.productId, skus) else []
  {
    if db.beginOk && db.headerOk {
      var f := FirstFailure(db.skuOk, 0, |skus|);
      if f == |skus| {
        var body := [InsertHeader(header)] + SkuInserts(header.productId, skus);
        assert issued == body + [Commit];
        assert issued[..|issued| - 1] == body;
      } else {
        assert !AllSkusOk(db, |skus|);
        var n := f + 1;
        forall p | 0 < p < |issued| && issued[p].InsertSku?
          ensures AllSkusOk(db, p - 1)
        {
          assert p <= n;
        }
      }
    }
  }

  /** `import_self_product`: import a product owned by tenant `tid` (its `sources_id` is 0). */
  method ImportSelfProduct(tid: nat, productId: nat, name: string, desc: string, url: string,
                           skus: seq<ImportSku>, db: TxnOracle)
    returns (outcome: ImportOutcome, issued: seq<Statement>)
    ensures db.beginOk ==> |issued| > 0 && issued[0] == InsertHeader(HeaderInsert(tid, 0, productId, name, desc, url))
    ensures outcome == Returned(true) <==> db.beginOk && db.headerOk && AllSkusOk(db, |skus|) && db.commitOk
    ensures outcome == Returned(false) <==> db.beginOk && !(db.headerOk && AllSkusOk(db, |skus|)) && db.rollbackOk
    ensures forall p :: 0 < p < |issued| && issued[p].InsertSku? ==> db.headerOk && AllSkusOk(db, p - 1)
    ensures db.beginOk ==> |issued| >= 2 && issued[|issued| - 1] == if db.headerOk && AllSkusOk(db, |skus|) then Commit else Rollback
    ensures Persisted(issued, db.commitOk) ==
      if outcome == Returned(true)
      then [InsertHeader(HeaderInsert(tid, 0, productId, name, desc, url))] + SkuInserts(productId, skus)
      else []
  {
    var header := HeaderInsert(tid, 0, productId, name, desc, url);
    outcome, issued := RunImport(header, skus, db);
    ImportGuarantees(header, skus, db, outcome, issued);
  }

  /** `import_producer_product`: import a product supplied by producer `pid` (its `tent_id` is 0). */
  method ImportProducerProduct(pid: nat, productId: nat, name: string, desc: string, url: string,
                               skus: seq<ImportSku>, db: TxnOracle)
    returns (outcome: ImportOutcome, issued: seq<Statement>)
    ensures db.beginOk ==> |issued| > 0 && issued[0] == InsertHeader(HeaderInsert(0, pid, productId, name, desc, url))
    ensures outcome == Returned(true) <==> db.beginOk && db.headerOk && AllSkusOk(db, |skus|) && db.commitOk
    ensures outcome == Returned(false) <==> db.beginOk && !(db.headerOk && AllSkusOk(db, |skus|)) && db.rollbackOk
    ensures forall p :: 0 < p < |issued| && issued[p].InsertSku? ==> db.headerOk && AllSkusOk(db, p - 1)
    ensures db.beginOk ==> |issued| >= 2 && issued[|issued| - 1] == if db.headerOk && AllSkusOk(db, |skus|) then Commit else Rollback
    ensures Persisted(issued, db.commitOk) ==
      if outcome == Returned(true)
      then [InsertHeader(HeaderInsert(0, pid, productId, name, desc, url))] + SkuInserts(productId, skus)
      else []
  {
    var header := HeaderInsert(0, pid, productId, name, desc, url);
    outcome, issued := RunImport(header, skus, db);
    ImportGuarantees(header, skus, db, outcome, issued);
  }
}
