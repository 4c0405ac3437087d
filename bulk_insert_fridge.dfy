/** The debugging script that fills the `products` collection the refrigerator screen
    shows, and can clear it first. What `random` and the clock give for one product is a
    `FridgeDraw`; the catalogues it picks from are not reproduced, the picks are inputs. */
module BulkInsertFridgeProducts {
  import opened Wrappers
  import opened Seeding

  const MillisPerDay: int := 24 * 60 * 60 * 1000

  /** A document of the `products` collection; the expiry date is in milliseconds since
      the epoch and `addedDate` is the server's timestamp, not modelled. */
  datatype FridgeProduct = FridgeProduct(janCode: string, name: string, scannedAt: Option<string>, expiryDate: int,
                                         category: string, imageUrl: Option<string>, imageUrls: Option<seq<string>>,
                                         barcode: string, manufacturer: string, quantity: int, unit: string,
                                         deletedAt: Option<string>)

  /** The random and clock values behind one product; `docId` is the id Firestore
      assigns to `document()`. */
  datatype FridgeDraw = FridgeDraw(docId: string, category: string, name: string, janNumber: nat, daysAhead: int,
                                   nowMillis: int, barcodeNumber: nat, manufacturer: string, quantity: int,
                                   unit: string)

  predicate InRange(d: FridgeDraw) {
    1 <= d.daysAhead <= 30 && 1 <= d.quantity <= 5
  }

  /** `create_fridge_product`. */
  function CreateFridgeProduct(d: FridgeDraw): (p: FridgeProduct)
    ensures p.name == d.name && p.category == d.category && p.quantity == d.quantity
    ensures p.expiryDate == d.nowMillis + d.daysAhead * MillisPerDay
    ensures p.janCode == JanCode(d.janNumber) && p.barcode == Barcode(d.barcodeNumber)
    ensures p.unit == d.unit && p.manufacturer == d.manufacturer
    ensures p.scannedAt.None? && p.imageUrl.None? && p.imageUrls.None? && p.deletedAt.None?
  {
    FridgeProduct(JanCode(d.janNumber), d.name, None, d.nowMillis + d.daysAhead * MillisPerDay, d.category, None, None,
                  Barcode(d.barcodeNumber), d.manufacturer, d.quantity, d.unit, None)
  }

  /** The writes of one run, in order. */
  function FridgeWrites(draws: seq<FridgeDraw>): (ws: seq<Write<FridgeProduct>>)
    ensures |ws| == |draws|
    ensures forall k :: 0 <= k < |draws| ==> ws[k] == Set(draws[k].docId, CreateFridgeProduct(draws[k]))
  {
    seq(|draws|, k requires 0 <= k < |draws| => Set(draws[k].docId, CreateFridgeProduct(draws[k])))
  }

  /** `bulk_insert_fridge_products`: one `set` per product, a commit after every 500th and
      one for the remainder. */
  method BulkInsertFridge(store: Store<FridgeProduct>, draws: seq<FridgeDraw>) returns (created: nat)
    modifies store
    ensures created == |draws|
    ensures store.committed == old(store.committed) + Chunks(FridgeWrites(draws))
  {
    ghost var base := store.committed;
    ghost var all := FridgeWrites(draws);
    ghost var done: seq<Write<FridgeProduct>> := [];
    var batch: seq<Write<FridgeProduct>> := [];
    created := 0;
    PendingStart(base);
    for i := 0 to |draws|
      invariant created == i && done == all[..i]
      invariant Pending(store.committed, base, done, batch)
    {
      var w := Set(draws[i].docId, CreateFridgeProduct(draws[i]));
      assert done + [w] == all[..i + 1];
      if (created + 1) % BatchSize == 0 {
        PendingFull(store.committed, base, done, batch, w);
      } else {
        PendingAdd(store.committed, base, done, batch, w);
      }
      batch := batch + [w];
      done := done + [w];
      created := created + 1;
      if created % BatchSize == 0 {
        store.Commit(batch);
        batch := [];
      }
    }
    assert done == all;
    PendingFinish(store.committed, base, done, batch);
    if created % BatchSize != 0 {
      store.Commit(batch);
    }
  }

  /** The deletions of every fetched document, in order. */
  function Deletes(docIds: seq<string>): (ws: seq<Write<FridgeProduct>>)
    ensures |ws| == |docIds|
    ensures forall k :: 0 <= k < |docIds| ==> ws[k] == Delete(docIds[k])
  {
    seq(|docIds|, k requires 0 <= k < |docIds| => Delete(docIds[k]))
  }

  /** `clear_existing_products`: nothing at all for an empty collection; otherwise every
      document is deleted, in batches of at most 500, and `count` is their number. */
  method ClearExistingProducts(store: Store<FridgeProduct>, docIds: seq<string>) returns (count: nat)
    modifies store
    ensures docIds == [] ==> count == 0 && store.committed == old(store.committed)
    ensures count == |docIds|
    ensures store.committed == old(store.committed) + Chunks(Deletes(docIds))
  {
    if |docIds| == 0 {
      assert Chunks(Deletes(docIds)) == [];
      return 0;
    }
    ghost var base := store.committed;
    ghost var all := Deletes(docIds);
    ghost var done: seq<Write<FridgeProduct>> := [];
    var batch: seq<Write<FridgeProduct>> := [];
    count := 0;
    PendingStart(base);
    for i := 0 to |docIds|
      invariant count == i && done == all[..i]
      invariant Pending(store.committed, base, done, batch)
    {
      var w := Delete(docIds[i]);
      assert done + [w] == all[..i + 1];
      if (count + 1) % BatchSize == 0 {
        PendingFull(store.committed, base, done, batch, w);
      } else {
        PendingAdd(store.committed, base, done, batch, w);
      }
      batch := batch + [w];
      done := done + [w];
      count := count + 1;
      if count % 500 == 0 {
        store.Commit(batch);
        batch := [];
      }
    }
    assert done == all;
    PendingFinish(store.committed, base, done, batch);
    if count % 500 != 0 {
      store.Commit(batch);
    }
  }

  // ---- show_fridge_statistics

  /** `(expiry_date - now).days`: whole days, rounded down. */
  function DaysUntil(expiryMillis: int, nowMillis: int): (d: int)
    ensures d * MillisPerDay <= expiryMillis - nowMillis < (d + 1) * MillisPerDay
  {
    (expiryMillis - nowMillis) / MillisPerDay
  }

  /** An `expiryDate` the statistics look at: present and not zero. */
  predicate Dated(expiry: Option<int>) {
    expiry.Some? && expiry.value != 0
  }

  /** The fresh, warning and urgent counts: more than seven days, more than three, the
      rest. */
  function Buckets(expiries: seq<Option<int>>, nowMillis: int): (counts: (nat, nat, nat)) {
    if |expiries| == 0 then (0, 0, 0)
    else
      var rest := Buckets(expiries[..|expiries| - 1], nowMillis);
      var e := expiries[|expiries| - 1];
      if !Dated(e) then rest
      else if DaysUntil(e.value, nowMillis) > 7 then (rest.0 + 1, rest.1, rest.2)
      else if DaysUntil(e.value, nowMillis) > 3 then (rest.0, rest.1 + 1, rest.2)
      else (rest.0, rest.1, rest.2 + 1)
  }

  /** The statistics loop over the products the query returned. */
  method FridgeStatistics(expiries: seq<Option<int>>, nowMillis: int)
    returns (freshCount: nat, warningCount: nat, urgentCount: nat)
    ensures (freshCount, warningCount, urgentCount) == Buckets(expiries, nowMillis)
  {
    freshCount, warningCount, urgentCount := 0, 0, 0;
    for i := 0 to |expiries|
      invariant (freshCount, warningCount, urgentCount) == Buckets(expiries[..i], nowMillis)
    {
      assert expiries[..i + 1][..i] == expiries[..i];
      var e := expiries[i];
      if Dated(e) {
        var days := DaysUntil(e.value, nowMillis);
        if days > 7 {
          freshCount := freshCount + 1;
        } else if days > 3 {
          warningCount := warningCount + 1;
        } else {
          urgentCount := urgentCount + 1;
        }
      }
    }
    assert expiries[..|expiries|] == expiries;
  }

  /** The number of dated products. */
  function DatedCount(expiries: seq<Option<int>>): nat {
    if |expiries| == 0 then 0
    else DatedCount(expiries[..|expiries| - 1]) + (if Dated(expiries[|expiries| - 1]) then 1 else 0)
  }

  /** The three buckets split exactly the dated products; the undated ones are in none. */
  lemma {:induction false} BucketsSplitDated(expiries: seq<Option<int>>, nowMillis: int)
    ensures var c := Buckets(expiries, nowMillis);
      c.0 + c.1 + c.2 == DatedCount(expiries)
  {
    if |expiries| > 0 {
      BucketsSplitDated(expiries[..|expiries| - 1], nowMillis);
    }
  }

  /** A product this script has just written, counted at the same instant, lands in the
      bucket of its day count: fresh exactly when it was generated more than seven days
      ahead. */
  lemma FreshlyWrittenBucket(d: FridgeDraw)
    requires InRange(d) && d.nowMillis + d.daysAhead * MillisPerDay != 0
    ensures var e := CreateFridgeProduct(d).expiryDate;
      Buckets([Some(e)], d.nowMillis) == (if d.daysAhead > 7 then (1, 0, 0) else if d.daysAhead > 3 then (0, 1, 0) else (0, 0, 1))
  {
    var e := CreateFridgeProduct(d).expiryDate;
    assert [Some(e)][..0] == [];
    assert DaysUntil(e, d.nowMillis) == d.daysAhead by {
      var k := DaysUntil(e, d.nowMillis);
      assert (k - d.daysAhead) * MillisPerDay <= 0 < (k + 1 - d.daysAhead) * MillisPerDay;
    }
  }

  /** The statistics read the clock again after the inserts. Counted any time up to a
      day after it was written, a product has lost one day: one drawn eight days ahead
      is already counted under "warning", one drawn four days ahead under "urgent". */
  lemma CountedLaterBucket(d: FridgeDraw, elapsed: int)
    requires InRange(d) && d.nowMillis + d.daysAhead * MillisPerDay != 0
    requires 0 < elapsed <= MillisPerDay
    ensures var e := CreateFridgeProduct(d).expiryDate;
      Buckets([Some(e)], d.nowMillis + elapsed)
        == (if d.daysAhead > 8 then (1, 0, 0) else if d.daysAhead > 4 then (0, 1, 0) else (0, 0, 1))
  {
    var e := CreateFridgeProduct(d).expiryDate;
    assert [Some(e)][..0] == [];
    assert DaysUntil(e, d.nowMillis + elapsed) == d.daysAhead - 1 by {
      var k := DaysUntil(e, d.nowMillis + elapsed);
      assert (k - d.daysAhead + 1) * MillisPerDay <= MillisPerDay - elapsed < MillisPerDay;
      assert (k + 1 - d.daysAhead + 1) * MillisPerDay > MillisPerDay - elapsed >= 0;
    }
  }
}
