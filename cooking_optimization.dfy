/** The cooking-optimisation stage. The fallback sorts the dishes longest first, cuts
    each time to 80% (at least 5 minutes), lays them out on a cumulative schedule,
    reports the longest optimised time as the total and scores the efficiency; the
    optimised entries are then zipped back onto the dishes by position. */
module CookingOptimization {
  import opened Wrappers
  import opened Text
  import opened Seqs
  import opened Errors
  import opened Schemas
  import opened ModelCall

  /** Python's `int(x)` of the exact quotient `a / b`: truncation toward zero. */
  function TruncDiv(a: int, b: int): (q: int)
    requires b != 0
    ensures b > 0 && a >= 0 ==> q == a / b
    ensures b > 0 && a < 0 ==> q == -((-a) / b)
    ensures b < 0 && a >= 0 ==> q == -(a / (-b))
    ensures b < 0 && a < 0 ==> q == (-a) / (-b)
  {
    var n := (if a < 0 then -a else a) / (if b < 0 then -b else b);
    if (a < 0) == (b < 0) || a == 0 then n else -n
  }

  /** `max(5, int(t * 0.8))`. */
  function OptimizedTime(t: int): (o: int)
    ensures o >= 5
    ensures t >= 7 ==> o == TruncDiv(4 * t, 5) && o <= t
    ensures t < 7 ==> o == 5
  {
    var cut := TruncDiv(4 * t, 5);
    if cut > 5 then cut else 5
  }

  // ---- the stable descending sort by cooking time

  /** Insert `x` after every element whose key is at least as large, so that among
      equal keys the earlier element stays first. */
  function InsertDesc<T>(s: seq<T>, x: T, key: T -> int): (r: seq<T>)
    ensures |r| == |s| + 1
    decreases |s|
  {
    if |s| == 0 then [x]
    else if key(s[0]) >= key(x) then [s[0]] + InsertDesc(s[1..], x, key)
    else [x] + s
  }

  /** `sorted(xs, key=key, reverse=True)`. */
  function SortDesc<T>(xs: seq<T>, key: T -> int): (r: seq<T>)
    ensures |r| == |xs|
  {
    if |xs| == 0 then [] else InsertDesc(SortDesc(xs[..|xs| - 1], key), xs[|xs| - 1], key)
  }

  predicate SortedDesc<T>(s: seq<T>, key: T -> int) {
    forall i, j :: 0 <= i < j < |s| ==> key(s[i]) >= key(s[j])
  }

  /** Inserting adds exactly the one element. */
  lemma {:induction false} InsertDescPermutation<T>(s: seq<T>, x: T, key: T -> int)
    ensures multiset(InsertDesc(s, x, key)) == multiset(s) + multiset{x}
    decreases |s|
  {
    if |s| > 0 {
      assert s == [s[0]] + s[1..];
      if key(s[0]) >= key(x) {
        InsertDescPermutation(s[1..], x, key);
      }
    }
  }

  lemma {:induction false} InsertDescSorted<T>(s: seq<T>, x: T, key: T -> int)
    requires SortedDesc(s, key)
    ensures SortedDesc(InsertDesc(s, x, key), key)
    ensures multiset(InsertDesc(s, x, key)) == multiset(s) + multiset{x}
    decreases |s|
  {
    InsertDescPermutation(s, x, key);
    if |s| > 0 && key(s[0]) >= key(x) {
      var r := InsertDesc(s[1..], x, key);
      InsertDescSorted(s[1..], x, key);
      InsertDescPermutation(s[1..], x, key);
      assert s == [s[0]] + s[1..];
      forall j | 0 <= j < |r|
        ensures key(s[0]) >= key(r[j])
      {
        assert r[j] in multiset(s[1..]) + multiset{x};
      }
      assert InsertDesc(s, x, key) == [s[0]] + r;
    }
  }

  /** The elements come out largest key first, each exactly as often as given. */
  lemma {:induction false} SortDescSortedPermutation<T>(xs: seq<T>, key: T -> int)
    ensures SortedDesc(SortDesc(xs, key), key)
    ensures multiset(SortDesc(xs, key)) == multiset(xs)
  {
    if |xs| > 0 {
      var ys, x := xs[..|xs| - 1], xs[|xs| - 1];
      SortDescSortedPermutation(ys, key);
      InsertDescSorted(SortDesc(ys, key), x, key);
      assert xs == ys + [x];
    }
  }

  function KeyIs<T>(key: T -> int, v: int): T -> bool {
    (m: T) => key(m) == v
  }

  lemma {:induction false} InsertDescStable<T>(s: seq<T>, x: T, key: T -> int, v: int)
    requires SortedDesc(s, key)
    ensures Filter(InsertDesc(s, x, key), KeyIs(key, v)) == Filter(s, KeyIs(key, v)) + (if key(x) == v then [x] else [])
    decreases |s|
  {
    var p := KeyIs(key, v);
    var tail := if key(x) == v then [x] else [];
    if |s| == 0 {
      FilterPrepend(x, [], p);
    } else if key(s[0]) >= key(x) {
      var head := if p(s[0]) then [s[0]] else [];
      InsertDescStable(s[1..], x, key, v);
      calc {
        Filter(InsertDesc(s, x, key), p);
        Filter([s[0]] + InsertDesc(s[1..], x, key), p);
        { FilterPrepend(s[0], InsertDesc(s[1..], x, key), p); }
        head + Filter(InsertDesc(s[1..], x, key), p);
        head + (Filter(s[1..], p) + tail);
        (head + Filter(s[1..], p)) + tail;
        { FilterPrepend(s[0], s[1..], p); assert s == [s[0]] + s[1..]; }
        Filter(s, p) + tail;
      }
    } else {
      InsertFirstStable(s, x, key, v);
    }
  }

  lemma InsertFirstStable<T>(s: seq<T>, x: T, key: T -> int, v: int)
    requires SortedDesc(s, key)
    requires |s| > 0 && key(s[0]) < key(x)
    ensures Filter([x] + s, KeyIs(key, v)) == Filter(s, KeyIs(key, v)) + (if key(x) == v then [x] else [])
  {
    var p := KeyIs(key, v);
    FilterPrepend(x, s, p);
    if key(x) == v {
      assert forall k :: 0 <= k < |s| ==> key(s[k]) <= key(s[0]);
      FilterNone(s, p);
    }
  }

  /** Elements with equal keys keep their order: the sort is stable. */
  lemma {:induction false} SortDescStable<T>(xs: seq<T>, key: T -> int, v: int)
    ensures Filter(SortDesc(xs, key), KeyIs(key, v)) == Filter(xs, KeyIs(key, v))
  {
    if |xs| > 0 {
      var ys, x := xs[..|xs| - 1], xs[|xs| - 1];
      SortDescStable(ys, key, v);
      SortDescSortedPermutation(ys, key);
      InsertDescStable(SortDesc(ys, key), x, key, v);
      assert xs == ys + [x];
      FilterAppend(ys, [x], KeyIs(key, v));
      FilterPrepend(x, [], KeyIs(key, v));
    }
  }

  /** The sort key of the rule-based optimisation. */
  function CookingTime(): MealItem -> int {
    (m: MealItem) => m.cookingTime
  }

  /** The dishes in the order the rule-based optimisation visits them. */
  function Longest(recipes: seq<MealItem>): seq<MealItem> {
    SortDesc(recipes, CookingTime())
  }

  /** A longer dish never gets a shorter optimised time. */
  lemma OptimizedTimeMonotone(t: int, u: int)
    requires t <= u
    ensures OptimizedTime(t) <= OptimizedTime(u)
  {
    if t >= 0 {
      assert TruncDiv(4 * t, 5) == 4 * t / 5;
      assert TruncDiv(4 * u, 5) == 4 * u / 5;
    }
  }

  // ---- the rule-based optimisation

  /** One entry of `optimized_recipes`; the model may leave any key out. */
  datatype OptEntry = OptEntry(
    name: Option<string>,
    optimizedCookingTime: Option<int>,
    preparationOrder: Option<string>,
    cookingTips: Option<seq<string>>)

  /** The dictionary both optimisation paths hand to `process`. */
  datatype Optimization = Optimization(
    optimizedRecipes: seq<OptEntry>,
    cookingSchedule: seq<ScheduleEntry>,
    totalTime: int,
    efficiencyScore: real)

  const MockTips: seq<string> := ["事前に材料を準備しておく", "強火で短時間調理する"]

  function OptTimes(s: seq<MealItem>): (ts: seq<int>)
    ensures |ts| == |s|
    ensures forall i :: 0 <= i < |ts| ==> ts[i] == OptimizedTime(s[i].cookingTime)
  {
    seq(|s|, i requires 0 <= i < |s| => OptimizedTime(s[i].cookingTime))
  }

  /** When the `i`-th dish of the sorted list starts: the sum of the earlier optimised times. */
  function Start(s: seq<MealItem>, i: nat): int
    requires i <= |s|
  {
    Sum(OptTimes(s)[..i])
  }

  /** The `i`-th `optimized_recipes` entry of the rule-based answer. */
  function EntryAt(s: seq<MealItem>, i: nat): OptEntry
    requires i < |s|
  {
    OptEntry(Some(s[i].name), Some(OptimizedTime(s[i].cookingTime)),
             Some(IntToString(i + 1) + "番目に準備"), Some(MockTips))
  }

  /** The `i`-th `cooking_schedule` entry of the rule-based answer. */
  function ScheduleAt(s: seq<MealItem>, i: nat): ScheduleEntry
    requires i < |s|
  {
    ScheduleEntry(ZeroPad2(Start(s, i)) + ":00", s[i].name + "の準備開始",
                  OptimizedTime(s[i].cookingTime), i > 0)
  }

  /** `min(100, int((original - total) / original * 100 + 70))`, the quotient taken
      exactly: it is `(170 * original - 100 * total) / original` truncated. */
  function Efficiency(original: int, total: int): int
    requires original != 0
  {
    var v := TruncDiv(170 * original - 100 * total, original);
    if v < 100 then v else 100
  }

  lemma DivAtLeast(a: int, b: int, k: int)
    requires b > 0 && a >= k * b
    ensures a / b >= k
  {
    var q, r := a / b, a % b;
    assert a == q * b + r && r < b;
    assert (k - 1) * b == k * b - b;
    assert (q - (k - 1)) * b == q * b - (k - 1) * b;
    assert (q - (k - 1)) * b > 0;
    ProductPositive(q - (k - 1), b);
  }

  lemma ProductPositive(x: int, b: int)
    requires b > 0 && x * b > 0
    ensures x > 0
  {
  }

  /** The score is capped at 100 but has no lower clamp; it is at least 70 whenever
      the total does not exceed the original sum. */
  lemma EfficiencyBounds(original: int, total: int)
    requires original != 0
    ensures Efficiency(original, total) <= 100
    ensures original > 0 && total <= original ==> Efficiency(original, total) >= 70
    ensures Efficiency(1, 5) < 0
  {
    if original > 0 && total <= original {
      var a := 170 * original - 100 * total;
      assert a >= 70 * original;
      DivAtLeast(a, original, 70);
      assert TruncDiv(a, original) == a / original;
    }
    assert TruncDiv(170 - 500, 1) == -330;
  }

  /** `_get_mock_optimization` as a value: an empty dish list has no maximum
      (`ValueError`), a zero time sum divides by zero. */
  function MockSpec(recipes: seq<MealItem>): Result<Optimization, Exception> {
    var s := Longest(recipes);
    if |s| == 0 then Err(Builtin(ValueError, "max() arg is an empty sequence"))
    else
      var original := Sum(CookingTimes(recipes));
      if original == 0 then Err(Builtin(ZeroDivisionError, "division by zero"))
      else
        var total := Max(OptTimes(s));
        Ok(Optimization(seq(|s|, i requires 0 <= i < |s| => EntryAt(s, i)),
                        seq(|s|, i requires 0 <= i < |s| => ScheduleAt(s, i)),
                        total, Efficiency(original, total) as real))
  }

  /** `_get_mock_optimization`: walk the dishes longest first, appending one entry and
      one schedule step each and advancing the clock by the optimised time. */
  method MockOptimization(recipes: seq<MealItem>) returns (r: Result<Optimization, Exception>)
    ensures r == MockSpec(recipes)
  {
    var s := Longest(recipes);
    var entries: seq<OptEntry> := [];
    var schedule: seq<ScheduleEntry> := [];
    var current := 0;
    var i := 0;
    while i < |s|
      invariant 0 <= i <= |s|
      invariant |entries| == i && |schedule| == i
      invariant forall k :: 0 <= k < i ==> entries[k] == EntryAt(s, k)
      invariant forall k :: 0 <= k < i ==> schedule[k] == ScheduleAt(s, k)
      invariant current == Start(s, i)
    {
      var optimized := OptimizedTime(s[i].cookingTime);
      var entry := OptEntry(Some(s[i].name), Some(optimized), Some(IntToString(i + 1) + "番目に準備"), Some(MockTips));
      var step := ScheduleEntry(ZeroPad2(current) + ":00", s[i].name + "の準備開始", optimized, i > 0);
      RecordStep(s, i, entries, schedule, entry, step);
      entries := entries + [entry];
      schedule := schedule + [step];
      current := current + optimized;
      i := i + 1;
    }
    if |s| == 0 {
      return Err(Builtin(ValueError, "max() arg is an empty sequence"));
    }
    var total := Max(OptTimes(s));
    var original := Sum(CookingTimes(recipes));
    if original == 0 {
      return Err(Builtin(ZeroDivisionError, "division by zero"));
    }
    assert entries == seq(|s|, k requires 0 <= k < |s| => EntryAt(s, k));
    assert schedule == seq(|s|, k requires 0 <= k < |s| => ScheduleAt(s, k));
    r := Ok(Optimization(entries, schedule, total, Efficiency(original, total) as real));
  }

  /** Appending the `i`-th entry and step after the earlier ones keeps both lists
      equal to the specification so far. */
  lemma RecordStep(s: seq<MealItem>, i: nat, entries: seq<OptEntry>, schedule: seq<ScheduleEntry>,
                   entry: OptEntry, step: ScheduleEntry)
    requires i < |s| && |entries| == i && |schedule| == i
    requires forall k :: 0 <= k < i ==> entries[k] == EntryAt(s, k)
    requires forall k :: 0 <= k < i ==> schedule[k] == ScheduleAt(s, k)
    requires entry == EntryAt(s, i) && step == ScheduleAt(s, i)
    ensures forall k :: 0 <= k <= i ==> (entries + [entry])[k] == EntryAt(s, k)
    ensures forall k :: 0 <= k <= i ==> (schedule + [step])[k] == ScheduleAt(s, k)
    ensures Start(s, i + 1) == Start(s, i) + OptimizedTime(s[i].cookingTime)
  {
    assert OptTimes(s)[..i + 1] == OptTimes(s)[..i] + [OptTimes(s)[i]];
    SumAppend(OptTimes(s)[..i], [OptTimes(s)[i]]);
  }

  /** Each step starts when the one before it ends, lasts at least 5 minutes, runs in
      parallel exactly when it is not the first, and the durations never grow. */
  lemma {:induction false} ScheduleBackToBack(s: seq<MealItem>, i: nat)
    requires SortedDesc(s, CookingTime())
    requires i + 1 < |s|
    ensures Start(s, i + 1) == Start(s, i) + ScheduleAt(s, i).duration
    ensures ScheduleAt(s, i).duration >= ScheduleAt(s, i + 1).duration >= 5
    ensures !ScheduleAt(s, 0).parallel && ScheduleAt(s, i + 1).parallel
  {
    assert OptTimes(s)[..i + 1][..i] == OptTimes(s)[..i];
    OptimizedTimeMonotone(s[i + 1].cookingTime, s[i].cookingTime);
  }

  /** The reported total is the longest optimised time, not the sum of the schedule;
      it is at least 5 and at most the time the last step ends. */
  lemma MockTotalIsMax(recipes: seq<MealItem>)
    requires |recipes| > 0 && Sum(CookingTimes(recipes)) != 0
    ensures MockSpec(recipes).Ok?
    ensures var s := Longest(recipes);
      MockSpec(recipes).value.totalTime == OptimizedTime(s[0].cookingTime)
      && MockSpec(recipes).value.totalTime >= 5
      && MockSpec(recipes).value.totalTime <= Start(s, |s|)
  {
    var s := Longest(recipes);
    SortDescSortedPermutation(recipes, CookingTime());
    var ts := OptTimes(s);
    forall k | 0 <= k < |s| ensures ts[k] <= ts[0] {
      OptimizedTimeMonotone(s[k].cookingTime, s[0].cookingTime);
    }
    SumPositiveAtLeast(ts, 0);
    assert ts[..|s|] == ts;
  }

  lemma {:induction false} SumPositiveAtLeast(ts: seq<int>, k: nat)
    requires k < |ts|
    requires forall j :: 0 <= j < |ts| ==> ts[j] >= 0
    ensures Sum(ts) >= ts[k]
  {
    var n := |ts| - 1;
    if k == n {
      SumNonNegative(ts[..n]);
    } else {
      SumPositiveAtLeast(ts[..n], k);
    }
  }

  lemma {:induction false} SumNonNegative(ts: seq<int>)
    requires forall j :: 0 <= j < |ts| ==> ts[j] >= 0
    ensures Sum(ts) >= 0
  {
    if |ts| > 0 {
      SumNonNegative(ts[..|ts| - 1]);
    }
  }

  // ---- the model path

  /** The parsed model reply; every key may be missing. */
  datatype OptimizationReply = OptimizationReply(
    optimizedRecipes: Option<seq<OptEntry>>,
    cookingSchedule: Option<seq<ScheduleEntry>>,
    totalTime: Option<int>,
    efficiencyScore: Option<real>)

  /** The cleaning of the model's reply: lists default to empty, the total to 30 and is
      raised to at least 1, the score defaults to 75 and is clamped into [0, 100]. */
  function FromModel(d: OptimizationReply): (o: Optimization)
    ensures o.optimizedRecipes == d.optimizedRecipes.GetOr([])
    ensures o.cookingSchedule == d.cookingSchedule.GetOr([])
    ensures o.totalTime >= 1 && 0.0 <= o.efficiencyScore <= 100.0
    ensures d.totalTime.None? ==> o.totalTime == 30
    ensures d.totalTime.Some? && d.totalTime.value >= 1 ==> o.totalTime == d.totalTime.value
    ensures d.totalTime.Some? && d.totalTime.value < 1 ==> o.totalTime == 1
    ensures d.efficiencyScore.Some? && d.efficiencyScore.value > 100.0 ==> o.efficiencyScore == 100.0
    ensures d.efficiencyScore.Some? && d.efficiencyScore.value < 0.0 ==> o.efficiencyScore == 0.0
    ensures d.efficiencyScore.None? ==> o.efficiencyScore == 75.0
    ensures d.efficiencyScore.Some? && 0.0 <= d.efficiencyScore.value <= 100.0 ==>
              o.efficiencyScore == d.efficiencyScore.value
  {
    var t := d.totalTime.GetOr(30);
    var e := d.efficiencyScore.GetOr(75.0);
    var capped := if e < 100.0 then e else 100.0;
    Optimization(d.optimizedRecipes.GetOr([]), d.cookingSchedule.GetOr([]),
                 if t > 1 then t else 1, if capped > 0.0 then capped else 0.0)
  }

  // ---- merging the optimisation back into the dishes

  /** One dish with one optimisation entry: the entry's time (or the dish's own) goes
      to both the dish and its recipe, and the entry's tips follow the recipe's tips. */
  function ZipOne(original: MealItem, opt: OptEntry): (m: MealItem)
    ensures m.cookingTime == m.recipe.cookingTime == opt.optimizedCookingTime.GetOr(original.cookingTime)
    ensures m.recipe.tips == original.recipe.tips + opt.cookingTips.GetOr([])
    ensures m.(cookingTime := original.cookingTime,
               recipe := m.recipe.(cookingTime := original.recipe.cookingTime, tips := original.recipe.tips))
            == original
  {
    var t := opt.optimizedCookingTime.GetOr(original.cookingTime);
    original.(cookingTime := t,
              recipe := original.recipe.(cookingTime := t, tips := original.recipe.tips + opt.cookingTips.GetOr([])))
  }

  /** `_create_optimized_recipes`: zip by position, so the shorter list decides the length. */
  method CreateOptimizedRecipes(originals: seq<MealItem>, data: seq<OptEntry>) returns (rs: seq<MealItem>)
    ensures |rs| == if |originals| < |data| then |originals| else |data|
    ensures forall i :: 0 <= i < |rs| ==> rs[i] == ZipOne(originals[i], data[i])
  {
    rs := [];
    var i := 0;
    while i < |originals| && i < |data|
      invariant 0 <= i <= |originals| && i <= |data|
      invariant |rs| == i
      invariant forall k :: 0 <= k < i ==> rs[k] == ZipOne(originals[k], data[k])
    {
      rs := rs + [ZipOne(originals[i], data[i])];
      i := i + 1;
    }
  }

  // ---- merging by name (corrected)

  /** The first entry carrying `name`. */
  function EntryFor(name: string, data: seq<OptEntry>): (r: Option<OptEntry>)
    ensures r.Some? ==> exists k :: 0 <= k < |data| && data[k] == r.value && data[k].name == Some(name)
    ensures (exists k :: 0 <= k < |data| && data[k].name == Some(name)) ==> r.Some?
  {
    if |data| == 0 then None
    else if data[0].name == Some(name) then Some(data[0])
    else
      var r := EntryFor(name, data[1..]);
      assert forall k :: 1 <= k < |data| ==> data[k] == data[1..][k - 1];
      r
  }

  /** Each dish takes the entry named after it; a dish without one is unchanged. */
  function MatchByName(originals: seq<MealItem>, data: seq<OptEntry>): (rs: seq<MealItem>)
    ensures |rs| == |originals|
  {
    seq(|originals|, i requires 0 <= i < |originals| =>
      match EntryFor(originals[i].name, data)
      case Some(e) => ZipOne(originals[i], e)
      case None => originals[i])
  }

  /** Dishes sharing a name are the same dish. */
  predicate NamesIdentify(xs: seq<MealItem>) {
    forall i, j :: 0 <= i < |xs| && 0 <= j < |xs| && xs[i].name == xs[j].name ==> xs[i] == xs[j]
  }

  /** Merged by name, every dish receives the optimised time computed from its own
      cooking time, whatever position the sort gave it. */
  lemma MatchByNameGetsOwnTime(recipes: seq<MealItem>)
    requires |recipes| > 0 && Sum(CookingTimes(recipes)) != 0
    requires NamesIdentify(recipes)
    ensures MockSpec(recipes).Ok?
    ensures forall j :: 0 <= j < |recipes| ==>
      MatchByName(recipes, MockSpec(recipes).value.optimizedRecipes)[j].cookingTime
        == OptimizedTime(recipes[j].cookingTime)
  {
    var s := Longest(recipes);
    SortDescSortedPermutation(recipes, CookingTime());
    var data := MockSpec(recipes).value.optimizedRecipes;
    forall j | 0 <= j < |recipes|
      ensures MatchByName(recipes, data)[j].cookingTime == OptimizedTime(recipes[j].cookingTime)
    {
      EntryOfDish(recipes, s, data, j);
    }
  }

  /** The entry named after dish `j` belongs to a dish equal to it. */
  lemma EntryOfDish(recipes: seq<MealItem>, s: seq<MealItem>, data: seq<OptEntry>, j: nat)
    requires NamesIdentify(recipes) && multiset(s) == multiset(recipes) && j < |recipes|
    requires |data| == |s| && forall k :: 0 <= k < |s| ==> data[k] == EntryAt(s, k)
    ensures MatchByName(recipes, data)[j].cookingTime == OptimizedTime(recipes[j].cookingTime)
  {
    var n := recipes[j].name;
    assert recipes[j] in multiset(s);
    var k :| 0 <= k < |s| && s[k] == recipes[j];
    assert data[k].name == Some(n);
    var e := EntryFor(n, data);
    var k' :| 0 <= k' < |data| && data[k'] == e.value && data[k'].name == Some(n);
    assert s[k'] in multiset(recipes);
    var j' :| 0 <= j' < |recipes| && recipes[j'] == s[k'];
    assert recipes[j'] == recipes[j];
  }

  /** The optimisation the stage uses: the model's cleaned reply when there is one,
      the rule-based answer otherwise. */
  function Chosen(recipes: seq<MealItem>, hasKey: bool, oracle: Oracle<OptimizationReply>): Result<Optimization, Exception> {
    match oracle.Answer(hasKey)
    case Some(d) => Ok(FromModel(d))
    case None => MockSpec(recipes)
  }

  /** `process`: choose the optimisation, then zip it onto the dishes as given. */
  method Process(recipes: seq<MealItem>, hasKey: bool, oracle: Oracle<OptimizationReply>)
    returns (r: Result<CookingOptimizationResult, Exception>)
    ensures Chosen(recipes, hasKey, oracle).Err? ==> r == Err(Chosen(recipes, hasKey, oracle).error)
    ensures Chosen(recipes, hasKey, oracle).Ok? ==> r.Ok?
    ensures Chosen(recipes, hasKey, oracle).Ok? ==> (
      var o := Chosen(recipes, hasKey, oracle).value;
      r.value.cookingSchedule == o.cookingSchedule && r.value.totalTime == o.totalTime
      && r.value.efficiencyScore == o.efficiencyScore
      && |r.value.optimizedRecipes| == (if |recipes| < |o.optimizedRecipes| then |recipes| else |o.optimizedRecipes|)
      && forall i :: 0 <= i < |r.value.optimizedRecipes| ==>
           r.value.optimizedRecipes[i] == ZipOne(recipes[i], o.optimizedRecipes[i]))
  {
    var chosen: Result<Optimization, Exception>;
    match oracle.Answer(hasKey) {
      case Some(d) => chosen := Ok(FromModel(d));
      case None => chosen := MockOptimization(recipes);
    }
    match chosen {
      case Err(e) => return Err(e);
      case Ok(o) =>
        var optimized := CreateOptimizedRecipes(recipes, o.optimizedRecipes);
        r := Ok(CookingOptimizationResult(optimized, o.cookingSchedule, o.totalTime, o.efficiencyScore));
    }
  }

  // ---- a worked example

  lemma LongestExample(a: MealItem, b: MealItem, c: MealItem, d: MealItem)
    requires a.cookingTime == 30 && b.cookingTime == 20 && c.cookingTime == 10 && d.cookingTime == 40
    ensures Longest([a, b, c, d]) == [d, a, b, c]
  {
    var key := CookingTime();
    assert [a, b, c, d][..3] == [a, b, c] && [a, b, c][..2] == [a, b] && [a, b][..1] == [a];
    assert SortDesc([a], key) == [a];
    assert SortDesc([a, b], key) == InsertDesc([a], b, key) == [a, b];
    assert InsertDesc([b], c, key) == [b, c];
    assert SortDesc([a, b, c], key) == InsertDesc([a, b], c, key) == [a, b, c];
  }

  lemma SumExample()
    ensures Sum([30, 20, 10, 40]) == 100
  {
    assert [30, 20, 10, 40][..3] == [30, 20, 10];
    assert [30, 20, 10][..2] == [30, 20];
    assert [30, 20][..1] == [30];
    assert [30][..0] == [];
  }

  /** Four dishes of 30, 20, 10 and 40 minutes: the rule-based answer visits them as
      40, 30, 20, 10, reports a total of 32 and a capped efficiency of 100, and the
      positional zip gives the dishes, in their given order, 32, 24, 16 and 8 minutes. */
  lemma MockExample(base: MealItem)
    ensures var rs := [base.(cookingTime := 30), base.(cookingTime := 20),
                       base.(cookingTime := 10), base.(cookingTime := 40)];
      var o := MockSpec(rs);
      o.Ok? && o.value.totalTime == 32 && o.value.efficiencyScore == 100.0
      && |o.value.optimizedRecipes| == 4
      && (forall i :: 0 <= i < 4 ==>
            ZipOne(rs[i], o.value.optimizedRecipes[i]).cookingTime == [32, 24, 16, 8][i])
  {
    var a, b, c, d := base.(cookingTime := 30), base.(cookingTime := 20),
                      base.(cookingTime := 10), base.(cookingTime := 40);
    var rs := [a, b, c, d];
    LongestExample(a, b, c, d);
    var s := Longest(rs);
    assert OptTimes(s) == [32, 24, 16, 8];
    assert CookingTimes(rs) == [30, 20, 10, 40];
    SumExample();
    assert Max([32, 24, 16, 8]) == 32;
    assert TruncDiv(170 * 100 - 100 * 32, 100) == 138;
  }
}
