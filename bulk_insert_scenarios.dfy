/** The debugging script that inserts products for a chosen scenario: items about to
    expire, bulk stock, or a mix of both with ordinary items. What `random`, `uuid` and
    the food tables give for one product is a `ScenarioDraw`. */
module BulkInsertWithScenarios {
  import opened Wrappers
  import opened Text
  import opened Seeding
  import Cloud = CloudFunctions

  datatype ScenarioDraw = ScenarioDraw(food: string, category: string, unit: string, itemId: string, janNumber: nat,
                                       daysAhead: int, quantity: int, barcodeNumber: nat, price: int,
                                       manufacturer: string)

  /** The ranges of the three kinds of product. */
  predicate ExpiryRanges(d: ScenarioDraw) {
    0 <= d.daysAhead <= 3 && 1 <= d.quantity <= 3 && 100 <= d.price <= 800
  }

  predicate BulkRanges(d: ScenarioDraw) {
    7 <= d.daysAhead <= 30 && 5 <= d.quantity <= 20 && 300 <= d.price <= 2000
  }

  predicate NormalRanges(d: ScenarioDraw) {
    3 <= d.daysAhead <= 14 && 1 <= d.quantity <= 4 && 150 <= d.price <= 1500
  }

  /** The status of an item about to expire: today 💀, tomorrow 😰, later 😟. */
  function ExpiryStatus(daysAhead: int): string {
    if daysAhead == 0 then Cloud.Dead else if daysAhead <= 1 then Cloud.Panicking else Cloud.Worried
  }

  /** The status of an ordinary item. */
  function NormalStatus(daysAhead: int): string {
    if daysAhead > 7 then Cloud.Happy else if daysAhead > 3 then Cloud.Neutral else Cloud.Worried
  }

  /** One product; its name is the food followed by `_` and its 1-based position in its
      own group. */
  function Record(householdId: string, userId: string, d: ScenarioDraw, position: nat, status: string): ItemRecord {
    ItemRecord(d.itemId, householdId, d.food + "_" + NatToString(position + 1), JanCode(d.janNumber), d.category,
               d.quantity, d.unit, d.daysAhead, status, Barcode(d.barcodeNumber), d.price, d.manufacturer, None,
               userId, None)
  }

  /** `create_expiry_scenario_data`. */
  function ExpiryScenario(householdId: string, userId: string, draws: seq<ScenarioDraw>): (items: seq<ItemRecord>)
    ensures |items| == |draws|
    ensures forall k :: 0 <= k < |draws| ==>
      items[k] == Record(householdId, userId, draws[k], k, ExpiryStatus(draws[k].daysAhead))
  {
    seq(|draws|, k requires 0 <= k < |draws| => Record(householdId, userId, draws[k], k, ExpiryStatus(draws[k].daysAhead)))
  }

  /** `create_bulk_scenario_data`: every item is fresh. */
  function BulkScenario(householdId: string, userId: string, draws: seq<ScenarioDraw>): (items: seq<ItemRecord>)
    ensures |items| == |draws|
    ensures forall k :: 0 <= k < |draws| ==> items[k] == Record(householdId, userId, draws[k], k, Cloud.Happy)
  {
    seq(|draws|, k requires 0 <= k < |draws| => Record(householdId, userId, draws[k], k, Cloud.Happy))
  }

  /** The ordinary items of the mixed scenario. */
  function NormalItems(householdId: string, userId: string, draws: seq<ScenarioDraw>): (items: seq<ItemRecord>)
    ensures |items| == |draws|
    ensures forall k :: 0 <= k < |draws| ==>
      items[k] == Record(householdId, userId, draws[k], k, NormalStatus(draws[k].daysAhead))
  {
    seq(|draws|, k requires 0 <= k < |draws| => Record(householdId, userId, draws[k], k, NormalStatus(draws[k].daysAhead)))
  }

  /** `create_mixed_scenario_data`: an expiry share and a bulk share, then ordinary items
      for whatever remains of `count`. The shares are `int(count * 0.2)` and
      `int(count * 0.3)`; here they are the lengths of the first two lists. */
  function MixedScenario(householdId: string, userId: string, count: nat, expiry: seq<ScenarioDraw>,
                         bulk: seq<ScenarioDraw>, normal: seq<ScenarioDraw>): seq<ItemRecord>
    requires |expiry| + |bulk| <= count && |normal| >= count - |expiry| - |bulk|
  {
    var products := ExpiryScenario(householdId, userId, expiry) + BulkScenario(householdId, userId, bulk);
    var remaining := count - |products|;
    products + NormalItems(householdId, userId, normal[..remaining])
  }

  /** The ordinary items fill the mix up to exactly `count`, whatever the two shares are,
      and the three groups follow each other in order. */
  lemma MixedScenarioHasCount(householdId: string, userId: string, count: nat, expiry: seq<ScenarioDraw>,
                              bulk: seq<ScenarioDraw>, normal: seq<ScenarioDraw>)
    requires |expiry| + |bulk| <= count && |normal| >= count - |expiry| - |bulk|
    ensures var items := MixedScenario(householdId, userId, count, expiry, bulk, normal);
      |items| == count
      && items[..|expiry|] == ExpiryScenario(householdId, userId, expiry)
      && items[|expiry|..|expiry| + |bulk|] == BulkScenario(householdId, userId, bulk)
  {
    var e := ExpiryScenario(householdId, userId, expiry);
    var b := BulkScenario(householdId, userId, bulk);
    var n := NormalItems(householdId, userId, normal[..count - |e| - |b|]);
    assert (e + b + n)[..|e|] == e;
    assert (e + b + n)[|e|..|e| + |b|] == b;
  }

  /** With exact arithmetic the two shares never exceed the count together. */
  lemma SharesFit(count: nat)
    ensures count * 2 / 10 + count * 3 / 10 <= count
  {
  }

  /** Within their ranges, items about to expire are never fresh or merely watched, and
      ordinary items are never urgent and get the status trigger's status. */
  lemma ScenarioStatuses(d: ScenarioDraw)
    ensures ExpiryRanges(d) ==> ExpiryStatus(d.daysAhead) in {Cloud.Dead, Cloud.Panicking, Cloud.Worried}
    ensures ExpiryRanges(d) ==> (ExpiryStatus(d.daysAhead) == Cloud.Dead <==> d.daysAhead == 0)
    ensures NormalRanges(d) ==> NormalStatus(d.daysAhead) in {Cloud.Happy, Cloud.Neutral, Cloud.Worried}
    ensures NormalRanges(d) ==> (NormalStatus(d.daysAhead) == Cloud.Worried <==> d.daysAhead == 3)
    ensures NormalRanges(d) ==> NormalStatus(d.daysAhead) == Cloud.StatusFor(d.daysAhead)
  {
  }

  /** The scenario names the script accepts. */
  datatype Scenario = Expiry | Bulk | Mixed

  function ParseScenario(name: string): (s: Option<Scenario>)
    ensures s.Some? <==> name in {"expiry", "bulk", "mixed"}
  {
    if name == "expiry" then Some(Expiry) else if name == "bulk" then Some(Bulk)
    else if name == "mixed" then Some(Mixed) else None
  }

  /** The random values one run needs: one list per kind of product. */
  datatype Draws = Draws(expiry: seq<ScenarioDraw>, bulk: seq<ScenarioDraw>, normal: seq<ScenarioDraw>)

  /** There are draws for `count` products of the scenario. */
  predicate DrawsFor(scenario: Scenario, count: nat, draws: Draws) {
    match scenario
    case Expiry => |draws.expiry| == count
    case Bulk => |draws.bulk| == count
    case Mixed =>
      |draws.expiry| == count * 2 / 10 && |draws.bulk| == count * 3 / 10
      && |draws.normal| == count - |draws.expiry| - |draws.bulk|
  }

  /** The products a scenario generates. */
  function ScenarioProducts(householdId: string, userId: string, scenario: Scenario, count: nat, draws: Draws)
    : (items: seq<ItemRecord>)
    requires DrawsFor(scenario, count, draws)
    ensures |items| == count
  {
    match scenario
    case Expiry => ExpiryScenario(householdId, userId, draws.expiry)
    case Bulk => BulkScenario(householdId, userId, draws.bulk)
    case Mixed =>
      SharesFit(count);
      MixedScenarioHasCount(householdId, userId, count, draws.expiry, draws.bulk, draws.normal);
      MixedScenario(householdId, userId, count, draws.expiry, draws.bulk, draws.normal)
  }

  /** `bulk_insert_scenario_products`: an unknown scenario writes nothing; otherwise every
      product is written, in order, committing after each 500th and once more for the
      remainder. */
  method BulkInsertScenarioProducts(store: Store<ItemRecord>, householdId: string, userId: string, scenario: string,
                                    count: nat, draws: Draws)
    requires ParseScenario(scenario).Some? ==> DrawsFor(ParseScenario(scenario).value, count, draws)
    modifies store
    ensures ParseScenario(scenario).None? ==> store.committed == old(store.committed)
    ensures ParseScenario(scenario).Some? ==>
      store.committed == old(store.committed)
        + Chunks(ItemWrites(ScenarioProducts(householdId, userId, ParseScenario(scenario).value, count, draws)))
  {
    var kind := ParseScenario(scenario);
    if kind.None? {
      return;
    }
    var products := ScenarioProducts(householdId, userId, kind.value, count, draws);
    ghost var base := store.committed;
    ghost var all := ItemWrites(products);
    ghost var done: seq<Write<ItemRecord>> := [];
    var batch: seq<Write<ItemRecord>> := [];
    PendingStart(base);
    for i := 0 to |products|
      invariant done == all[..i]
      invariant Pending(store.committed, base, done, batch)
    {
      var w := Set(products[i].itemId, products[i]);
      assert done + [w] == all[..i + 1];
      if (i + 1) % BatchSize == 0 {
        PendingFull(store.committed, base, done, batch, w);
      } else {
        PendingAdd(store.committed, base, done, batch, w);
      }
      batch := batch + [w];
      done := done + [w];
      if (i + 1) % BatchSize == 0 {
        store.Commit(batch);
        batch := [];
      }
    }
    assert done == all;
    PendingFinish(store.committed, base, done, batch);
    if |products| % BatchSize != 0 {
      store.Commit(batch);
    }
  }

  // ---- show_scenario_statistics

  /** The fields the statistics read, each possibly missing from the document. */
  datatype StoredItem = StoredItem(status: Option<string>, quantity: Option<int>, price: Option<int>)

  /** `data.get('status', '😊')`. */
  function StatusOf(item: StoredItem): string {
    item.status.GetOr(Cloud.Happy)
  }

  /** The number of items whose status, defaulted, is `s`. */
  function CountStatus(items: seq<StoredItem>, s: string): nat {
    if |items| == 0 then 0
    else CountStatus(items[..|items| - 1], s) + (if StatusOf(items[|items| - 1]) == s then 1 else 0)
  }

  /** `status_counts` after the loop. */
  function StatusCounts(items: seq<StoredItem>): map<string, nat> {
    if |items| == 0 then map[]
    else
      var counts := StatusCounts(items[..|items| - 1]);
      var s := StatusOf(items[|items| - 1]);
      counts[s := (if s in counts then counts[s] else 0) + 1]
  }

  /** `quantity_total` and `price_total`: a missing quantity counts as one, a missing
      price as zero. */
  function QuantityTotal(items: seq<StoredItem>): int {
    if |items| == 0 then 0 else QuantityTotal(items[..|items| - 1]) + items[|items| - 1].quantity.GetOr(1)
  }

  function PriceTotal(items: seq<StoredItem>): int {
    if |items| == 0 then 0 else PriceTotal(items[..|items| - 1]) + items[|items| - 1].price.GetOr(0)
  }

  /** The statistics loop. */
  method ScenarioStatistics(items: seq<StoredItem>) returns (counts: map<string, nat>, quantityTotal: int, priceTotal: int)
    ensures counts == StatusCounts(items)
    ensures quantityTotal == QuantityTotal(items) && priceTotal == PriceTotal(items)
  {
    counts := map[];
    quantityTotal := 0;
    priceTotal := 0;
    for i := 0 to |items|
      invariant counts == StatusCounts(items[..i])
      invariant quantityTotal == QuantityTotal(items[..i]) && priceTotal == PriceTotal(items[..i])
    {
      assert items[..i + 1][..i] == items[..i];
      var status := StatusOf(items[i]);
      counts := counts[status := (if status in counts then counts[status] else 0) + 1];
      quantityTotal := quantityTotal + items[i].quantity.GetOr(1);
      priceTotal := priceTotal + items[i].price.GetOr(0);
    }
    assert items[..|items|] == items;
  }

  /** `status_counts.get(s, 0)` is the number of items with status `s`, a missing status
      counting as 😊; the keys are exactly the statuses that occur. */
  lemma {:induction false} StatusCountsCount(items: seq<StoredItem>)
    ensures forall s :: (if s in StatusCounts(items) then StatusCounts(items)[s] else 0) == CountStatus(items, s)
    ensures forall s :: s in StatusCounts(items) <==> exists k :: 0 <= k < |items| && StatusOf(items[k]) == s
  {
    if |items| > 0 {
      var init := items[..|items| - 1];
      StatusCountsCount(init);
      assert forall k :: 0 <= k < |init| ==> init[k] == items[k];
      forall s | s in StatusCounts(items)
        ensures exists k :: 0 <= k < |items| && StatusOf(items[k]) == s
      {
        if s != StatusOf(items[|items| - 1]) {
          var k :| 0 <= k < |init| && StatusOf(init[k]) == s;
          assert StatusOf(items[k]) == s;
        }
      }
    }
  }

  /** When every status is one of the five, the five printed counts add up to the
      number of items. */
  lemma {:induction false} PrintedCountsCoverAll(items: seq<StoredItem>)
    requires forall k :: 0 <= k < |items| ==>
      StatusOf(items[k]) in {Cloud.Happy, Cloud.Neutral, Cloud.Worried, Cloud.Panicking, Cloud.Dead}
    ensures CountStatus(items, Cloud.Happy) + CountStatus(items, Cloud.Neutral) + CountStatus(items, Cloud.Worried)
      + CountStatus(items, Cloud.Panicking) + CountStatus(items, Cloud.Dead) == |items|
  {
    if |items| > 0 {
      PrintedCountsCoverAll(items[..|items| - 1]);
    }
  }
}
