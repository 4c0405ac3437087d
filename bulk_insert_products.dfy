/** The debugging script that fills one household's `items` collection with random
    products. What `random`, `uuid` and the clock return for one product is a `Draw`;
    the catalogues it picks from are not reproduced, the picks are inputs. */
module BulkInsertProducts {
  import opened Wrappers
  import opened Seeding
  import Cloud = CloudFunctions

  const MicrosPerDay: int := 24 * 60 * 60 * 1000000

  /** The random and clock values behind one product. `elapsedMicros` is the time
      between the `datetime.now()` that fixes the expiry date and the one the day count
      is measured from. */
  datatype Draw = Draw(category: string, productName: string, itemId: string, janNumber: nat, daysAhead: int,
                       elapsedMicros: nat, quantity: int, unit: string, barcodeNumber: nat, price: int,
                       manufacturer: string)

  /** The ranges `random.randint` draws from. */
  predicate InRange(d: Draw) {
    10000000000 <= d.janNumber <= 99999999999 && 1 <= d.daysAhead <= 30 && 1 <= d.quantity <= 5
    && 1000000000000 <= d.barcodeNumber <= 9999999999999 && 100 <= d.price <= 2000
  }

  /** `(expiry_date - datetime.now()).days`: whole days, rounded down. */
  function DaysUntilExpiry(daysAhead: int, elapsedMicros: nat): (d: int)
    ensures d * MicrosPerDay <= daysAhead * MicrosPerDay - elapsedMicros < (d + 1) * MicrosPerDay
  {
    (daysAhead * MicrosPerDay - elapsedMicros) / MicrosPerDay
  }

  /** Measured on the same instant the count is exact; any later instant within the
      day loses a whole day. */
  lemma DaysUntilExpiryLosesADay(daysAhead: int, elapsedMicros: nat)
    ensures elapsedMicros == 0 ==> DaysUntilExpiry(daysAhead, elapsedMicros) == daysAhead
    ensures 0 < elapsedMicros <= MicrosPerDay ==> DaysUntilExpiry(daysAhead, elapsedMicros) == daysAhead - 1
  {
    var d := DaysUntilExpiry(daysAhead, elapsedMicros);
    if elapsedMicros == 0 {
      assert (d - daysAhead) * MicrosPerDay <= 0 < (d + 1 - daysAhead) * MicrosPerDay;
    } else if elapsedMicros <= MicrosPerDay {
      assert (d - daysAhead + 1) * MicrosPerDay <= MicrosPerDay - elapsedMicros < (d + 2 - daysAhead) * MicrosPerDay;
    }
  }

  /** The script's own emotion rule. */
  function EmotionFor(d: int): (s: string)
    ensures s == Cloud.Happy <==> d > 7
    ensures s == Cloud.Neutral <==> 3 < d <= 7
    ensures s == Cloud.Worried <==> 1 < d <= 3
    ensures s == Cloud.Panicking <==> d == 1
    ensures s == Cloud.Dead <==> d <= 0
  {
    if d > 7 then Cloud.Happy
    else if d > 3 then Cloud.Neutral
    else if d > 1 then Cloud.Worried
    else if d >= 1 then Cloud.Panicking
    else Cloud.Dead
  }

  /** The script and the status trigger agree on every day count except zero, which the
      script calls expired and the trigger calls urgent. */
  lemma EmotionAgreesWithTrigger(d: int)
    ensures EmotionFor(d) == Cloud.StatusFor(d) <==> d != 0
  {
  }

  /** `create_sample_product`. */
  function CreateSampleProduct(householdId: string, userId: string, d: Draw): (item: ItemRecord)
    ensures item.itemId == d.itemId && item.householdId == householdId && item.addedBy == userId
    ensures item.productName == d.productName && item.category == d.category
    ensures item.expiryDaysAhead == d.daysAhead
    ensures item.status == EmotionFor(DaysUntilExpiry(d.daysAhead, d.elapsedMicros))
    ensures item.janCode == JanCode(d.janNumber) && item.barcode == Barcode(d.barcodeNumber)
    ensures item.quantity == d.quantity && item.unit == d.unit && item.price == d.price
    ensures item.manufacturer == d.manufacturer
    ensures item.imageUrl.None? && item.deletedAt.None?
  {
    ItemRecord(d.itemId, householdId, d.productName, JanCode(d.janNumber), d.category, d.quantity, d.unit,
               d.daysAhead, EmotionFor(DaysUntilExpiry(d.daysAhead, d.elapsedMicros)), Barcode(d.barcodeNumber),
               d.price, d.manufacturer, None, userId, None)
  }

  /** The products of one run, in the order they are written. */
  function SampleProducts(householdId: string, userId: string, draws: seq<Draw>): (items: seq<ItemRecord>)
    ensures |items| == |draws|
    ensures forall k :: 0 <= k < |draws| ==> items[k] == CreateSampleProduct(householdId, userId, draws[k])
  {
    seq(|draws|, k requires 0 <= k < |draws| => CreateSampleProduct(householdId, userId, draws[k]))
  }

  /** `bulk_insert_products`: one `set` per product, a commit after every 500th and one
      for the remainder. Every product is written, in order, in batches Firestore
      accepts. */
  method BulkInsert(store: Store<ItemRecord>, householdId: string, userId: string, draws: seq<Draw>)
    returns (created: nat)
    modifies store
    ensures created == |draws|
    ensures store.committed == old(store.committed) + Chunks(ItemWrites(SampleProducts(householdId, userId, draws)))
  {
    ghost var base := store.committed;
    ghost var all := ItemWrites(SampleProducts(householdId, userId, draws));
    ghost var done: seq<Write<ItemRecord>> := [];
    var batch: seq<Write<ItemRecord>> := [];
    created := 0;
    PendingStart(base);
    for i := 0 to |draws|
      invariant created == i && done == all[..i]
      invariant Pending(store.committed, base, done, batch)
    {
      var product := CreateSampleProduct(householdId, userId, draws[i]);
      var w := Set(product.itemId, product);
      assert done + [w] == all[..i + 1];
      if (created + 1) % BatchSize == 0 {
        PendingFull(store.committed, base, done, batch, w);
      } else {
        PendingAdd(store.committed, base, done, batch, w);
      }
      batch := batch + [w];
      done := done + [w];
      created := created + 1;
      if created % BatchSize == 0 {
        store.Commit(batch);
        batch := [];
      }
    }
    assert done == all;
    PendingFinish(store.committed, base, done, batch);
    if created % BatchSize != 0 {
      store.Commit(batch);
    }
  }

  /** What every generated product satisfies: thirteen-digit codes, quantity and price
      in their ranges, an expiry 1 to 30 days ahead and the status the rule gives. */
  lemma GeneratedProduct(householdId: string, userId: string, d: Draw)
    requires InRange(d)
    ensures var item := CreateSampleProduct(householdId, userId, d);
      |item.janCode| == 13 && |item.barcode| == 13
      && 1 <= item.quantity <= 5 && 100 <= item.price <= 2000 && 1 <= item.expiryDaysAhead <= 30
      && item.status in {Cloud.Happy, Cloud.Neutral, Cloud.Worried, Cloud.Panicking, Cloud.Dead}
  {
    CodesHaveThirteenDigits(d.janNumber, d.barcodeNumber);
  }

  /** A product generated one day ahead is stored as expired once any time has passed
      between the two clock readings. */
  lemma OneDayAheadStoredAsExpired(householdId: string, userId: string, d: Draw)
    requires d.daysAhead == 1 && 0 < d.elapsedMicros <= MicrosPerDay
    ensures CreateSampleProduct(householdId, userId, d).status == Cloud.Dead
  {
    DaysUntilExpiryLosesADay(d.daysAhead, d.elapsedMicros);
  }

  /** The day count rounded up, as the status trigger computes it. */
  function DaysUntilExpiryRoundedUp(daysAhead: int, elapsedMicros: nat): (d: int)
    ensures (d - 1) * MicrosPerDay < daysAhead * MicrosPerDay - elapsedMicros <= d * MicrosPerDay
  {
    -((elapsedMicros - daysAhead * MicrosPerDay) / MicrosPerDay)
  }

  /** With the day count rounded up, a product generated `k` days ahead within a day of
      its creation gets the trigger's status for `k` days, and none is expired. */
  lemma RoundedUpStatusMatchesTrigger(d: Draw)
    requires InRange(d) && d.elapsedMicros < MicrosPerDay
    ensures Cloud.StatusFor(DaysUntilExpiryRoundedUp(d.daysAhead, d.elapsedMicros)) == Cloud.StatusFor(d.daysAhead)
    ensures Cloud.StatusFor(DaysUntilExpiryRoundedUp(d.daysAhead, d.elapsedMicros)) != Cloud.Dead
  {
    var up := DaysUntilExpiryRoundedUp(d.daysAhead, d.elapsedMicros);
    assert (up - 1 - d.daysAhead) * MicrosPerDay < 0 - d.elapsedMicros as int <= (up - d.daysAhead) * MicrosPerDay;
  }

  // ---- show_statistics

  /** The three buckets: 😊 fresh, 😐 or 😟 warning, 😰 or 💀 urgent; `.get('status')`
      of a document without one matches none. */
  function Buckets(statuses: seq<Option<string>>): (counts: (nat, nat, nat))
    ensures counts.0 + counts.1 + counts.2 <= |statuses|
  {
    if |statuses| == 0 then (0, 0, 0)
    else
      var rest := Buckets(statuses[..|statuses| - 1]);
      var s := statuses[|statuses| - 1];
      if s == Some(Cloud.Happy) then (rest.0 + 1, rest.1, rest.2)
      else if s == Some(Cloud.Neutral) || s == Some(Cloud.Worried) then (rest.0, rest.1 + 1, rest.2)
      else if s == Some(Cloud.Panicking) || s == Some(Cloud.Dead) then (rest.0, rest.1, rest.2 + 1)
      else rest
  }

  predicate KnownStatus(s: Option<string>) {
    s.Some? && s.value in {Cloud.Happy, Cloud.Neutral, Cloud.Worried, Cloud.Panicking, Cloud.Dead}
  }

  /** The buckets account for every document exactly when every document carries one of
      the five statuses. */
  lemma {:induction false} BucketsPartition(statuses: seq<Option<string>>)
    ensures var c := Buckets(statuses);
      c.0 + c.1 + c.2 == |statuses| <==> forall k :: 0 <= k < |statuses| ==> KnownStatus(statuses[k])
  {
    if |statuses| > 0 {
      var init := statuses[..|statuses| - 1];
      BucketsPartition(init);
      assert forall k :: 0 <= k < |init| ==> init[k] == statuses[k];
    }
  }

  /** The products this script writes all land in a bucket. */
  lemma GeneratedProductsFillBuckets(householdId: string, userId: string, draws: seq<Draw>)
    ensures var items := SampleProducts(householdId, userId, draws);
      var c := Buckets(seq(|items|, k requires 0 <= k < |items| => Some(items[k].status)));
      c.0 + c.1 + c.2 == |draws|
  {
    var items := SampleProducts(householdId, userId, draws);
    var statuses := seq(|items|, k requires 0 <= k < |items| => Some(items[k].status));
    BucketsPartition(statuses);
  }
}
