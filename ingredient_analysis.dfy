/** The ingredient-analysis stage: each refrigerator product becomes an ingredient with
    an expiry priority band, a Japanese category and an expiry note; the list is
    stable-sorted by priority score; the urgent/soon subsets are filtered out; the
    recommendations come from the model or from a counting fallback. */
module IngredientAnalysis {
  import opened Wrappers
  import opened Text
  import opened Seqs
  import opened Errors
  import opened Schemas
  import opened ModelCall

  /** `_determine_expiry_priority`: the band of a day count. */
  function DetermineExpiryPriority(days: int): (p: ExpiryPriority)
    ensures p == Urgent <==> days <= 1
    ensures p == Soon <==> 2 <= days <= 3
    ensures p == Fresh <==> 4 <= days <= 7
    ensures p == LongTerm <==> days >= 8
  {
    if days <= 0 then Urgent
    else if days <= 1 then Urgent
    else if days <= 3 then Soon
    else if days <= 7 then Fresh
    else LongTerm
  }

  /** Fewer days left never gives a less urgent band. */
  lemma PriorityMonotone(d: int, e: int)
    requires d <= e
    ensures DetermineExpiryPriority(d).Score() <= DetermineExpiryPriority(e).Score()
  {
  }

  const CategoryMap: map<string, string> := map[
    "vegetables" := "野菜",
    "fruits" := "果物",
    "meat" := "肉",
    "fish" := "魚",
    "dairy" := "乳製品",
    "grains" := "主食",
    "seasonings" := "調味料",
    "beverages" := "飲み物",
    "snacks" := "お菓子",
    "frozen" := "冷凍食品"]

  /** `_translate_category`: look the lower-cased name up; an unknown category is
      returned exactly as given, not lower-cased. */
  function TranslateCategory(category: string): (r: string)
    ensures Lower(category) in CategoryMap ==> r == CategoryMap[Lower(category)]
    ensures Lower(category) !in CategoryMap ==> r == category
  {
    var key := Lower(category);
    if key in CategoryMap then CategoryMap[key] else category
  }

  /** No translation has ASCII letters, so translating twice changes nothing. */
  lemma TranslateCategoryIdempotent(category: string)
    ensures TranslateCategory(TranslateCategory(category)) == TranslateCategory(category)
  {
    var r := TranslateCategory(category);
    if Lower(category) in CategoryMap {
      assert r in CategoryMap.Values;
      assert Lower(r) == r;
      assert r !in CategoryMap;
    }
  }

  const NotePrefix: string := "賞味期限まで"

  /** The ingredient note `f"賞味期限まで{d}日"`. */
  function ExpiryNote(days: int): string {
    NotePrefix + IntToString(days) + "日"
  }

  /** `notes.split('まで')[1].split('日')[0]`, with the `IndexError` when there is no
      'まで' in the note. */
  function DaysText(note: string): (r: Result<string, Exception>)
    ensures r.Err? <==> !Contains(note, "まで")
  {
    var parts := Split(note, "まで");
    if |parts| < 2 then Err(Builtin(IndexError, "list index out of range"))
    else Ok(Split(parts[1], "日")[0])
  }

  /** The note written for an ingredient gives back the day count it was built from. */
  lemma NoteRoundTrip(days: int)
    ensures DaysText(ExpiryNote(days)) == Ok(IntToString(days))
  {
    var digits := IntToString(days);
    var rest := digits + "日";
    assert ExpiryNote(days) == "賞味期限" + "まで" + rest;
    FindAfterPrefix("賞味期限", "まで", rest);
    assert ExpiryNote(days)[4 + 2..] == rest;
    NotContainsByFirstChar(rest, "まで");
    assert Split(rest, "まで") == [rest];
    assert rest == digits + "日" + "";
    FindAfterPrefix(digits, "日", "");
    assert Split(rest, "日")[0] == digits;
  }

  /** The ingredient built from a product in `_analyze_ingredients`. */
  function ToIngredient(p: Product): (i: Ingredient)
    ensures i.name == p.name && i.available && !i.shoppingRequired
    ensures i.priority == DetermineExpiryPriority(p.daysUntilExpiry)
    ensures i.notes == Some(ExpiryNote(p.daysUntilExpiry)) && i.productId == Some(p.id)
    ensures i.quantity == p.quantity && i.unit == p.unit && i.expiryDate == Some(p.expiryDate)
    ensures i.category == TranslateCategory(p.category) && i.imageUrl == p.currentImageUrl
  {
    Ingredient(
      name := p.name,
      quantity := p.quantity,
      unit := p.unit,
      available := true,
      expiryDate := Some(p.expiryDate),
      shoppingRequired := false,
      productId := Some(p.id),
      priority := DetermineExpiryPriority(p.daysUntilExpiry),
      category := TranslateCategory(p.category),
      imageUrl := p.currentImageUrl,
      notes := Some(ExpiryNote(p.daysUntilExpiry)))
  }

  /** Ingredients whose priority score is `k`. */
  function ScoreIs(k: int): Ingredient -> bool {
    (i: Ingredient) => i.PriorityScore() == k
  }

  function Bucket(xs: seq<Ingredient>, k: int): seq<Ingredient> {
    Filter(xs, ScoreIs(k))
  }

  /** `list.sort(key=priority_score)`: Python's sort is stable and the score takes the
      four values 1..4, so the result is the four score groups in order, each in its
      original order. */
  function SortByPriority(xs: seq<Ingredient>): seq<Ingredient> {
    Bucket(xs, 1) + Bucket(xs, 2) + Bucket(xs, 3) + Bucket(xs, 4)
  }

  predicate SortedByScore(xs: seq<Ingredient>) {
    forall i, j :: 0 <= i < j < |xs| ==> xs[i].PriorityScore() <= xs[j].PriorityScore()
  }

  /** The sorted list is non-decreasing in priority score. */
  lemma SortIsSorted(xs: seq<Ingredient>)
    ensures SortedByScore(SortByPriority(xs))
  {
    var b1, b2, b3, b4 := Bucket(xs, 1), Bucket(xs, 2), Bucket(xs, 3), Bucket(xs, 4);
    var s := SortByPriority(xs);
    forall i | 0 <= i < |s|
      ensures s[i].PriorityScore() ==
        (if i < |b1| then 1 else if i < |b1| + |b2| then 2 else if i < |b1| + |b2| + |b3| then 3 else 4)
    {
      if i < |b1| {
        assert s[i] == b1[i] && ScoreIs(1)(b1[i]);
      } else if i < |b1| + |b2| {
        assert s[i] == b2[i - |b1|] && ScoreIs(2)(b2[i - |b1|]);
      } else if i < |b1| + |b2| + |b3| {
        assert s[i] == b3[i - |b1| - |b2|] && ScoreIs(3)(b3[i - |b1| - |b2|]);
      } else {
        assert s[i] == b4[i - |b1| - |b2| - |b3|] && ScoreIs(4)(b4[i - |b1| - |b2| - |b3|]);
      }
    }
  }

  /** Appending one ingredient adds it to exactly the group of its score. */
  lemma BucketSnoc(xs: seq<Ingredient>, x: Ingredient, k: int)
    ensures Bucket(xs + [x], k) == Bucket(xs, k) + (if x.PriorityScore() == k then [x] else [])
  {
    assert (xs + [x])[..|xs + [x]| - 1] == xs;
  }

  /** The sorted list holds exactly the input ingredients, each as often. */
  lemma {:induction false} SortIsPermutation(xs: seq<Ingredient>)
    ensures multiset(SortByPriority(xs)) == multiset(xs)
    decreases |xs|
  {
    if |xs| > 0 {
      var ys := xs[..|xs| - 1];
      var x := xs[|xs| - 1];
      assert xs == ys + [x];
      SortIsPermutation(ys);
      SortSnoc(ys, x);
    }
  }

  /** Appending one ingredient adds it once to the sorted list's contents. */
  lemma SortSnoc(ys: seq<Ingredient>, x: Ingredient)
    ensures multiset(SortByPriority(ys + [x])) == multiset(SortByPriority(ys)) + multiset{x}
  {
    BucketSnoc(ys, x, 1);
    BucketSnoc(ys, x, 2);
    BucketSnoc(ys, x, 3);
    BucketSnoc(ys, x, 4);
    var s := x.PriorityScore();
    assert 1 <= s <= 4;
  }

  /** Filtering distributes over the four groups of the sorted list. */
  lemma FilterGroups(b1: seq<Ingredient>, b2: seq<Ingredient>, b3: seq<Ingredient>, b4: seq<Ingredient>, p: Ingredient -> bool)
    ensures Filter(b1 + b2 + b3 + b4, p) == Filter(b1, p) + Filter(b2, p) + Filter(b3, p) + Filter(b4, p)
  {
    FilterAppend(b1 + b2 + b3, b4, p);
    FilterAppend(b1 + b2, b3, p);
    FilterAppend(b1, b2, p);
  }

  /** Ingredients of equal priority keep their relative order. */
  lemma SortIsStable(xs: seq<Ingredient>, k: int)
    ensures Filter(SortByPriority(xs), ScoreIs(k)) == Filter(xs, ScoreIs(k))
  {
    FilterGroups(Bucket(xs, 1), Bucket(xs, 2), Bucket(xs, 3), Bucket(xs, 4), ScoreIs(k));
    if 1 <= k <= 4 {
      GroupsFilteredToOne(xs, k);
    } else {
      GroupsFilteredToNone(xs, k);
    }
  }

  /** For a score `k` in 1..4, filtering the four groups for `k` keeps group `k` alone. */
  lemma GroupsFilteredToOne(xs: seq<Ingredient>, k: int)
    requires 1 <= k <= 4
    ensures Filter(Bucket(xs, 1), ScoreIs(k)) + Filter(Bucket(xs, 2), ScoreIs(k)) + Filter(Bucket(xs, 3), ScoreIs(k))
      + Filter(Bucket(xs, 4), ScoreIs(k)) == Bucket(xs, k)
  {
    var f1, f2, f3, f4 := Filter(Bucket(xs, 1), ScoreIs(k)), Filter(Bucket(xs, 2), ScoreIs(k)),
                          Filter(Bucket(xs, 3), ScoreIs(k)), Filter(Bucket(xs, 4), ScoreIs(k));
    BucketFiltered(xs, 1, k);
    BucketFiltered(xs, 2, k);
    BucketFiltered(xs, 3, k);
    BucketFiltered(xs, 4, k);
    if k == 1 {
      assert f1 + f2 + f3 + f4 == f1;
    } else if k == 2 {
      assert f1 + f2 + f3 + f4 == f2;
    } else if k == 3 {
      assert f1 + f2 + f3 + f4 == f3;
    } else {
      assert f1 + f2 + f3 + f4 == f4;
    }
  }

  /** No ingredient has a score outside 1..4, so filtering for one keeps nothing. */
  lemma GroupsFilteredToNone(xs: seq<Ingredient>, k: int)
    requires k < 1 || k > 4
    ensures Filter(Bucket(xs, 1), ScoreIs(k)) + Filter(Bucket(xs, 2), ScoreIs(k)) + Filter(Bucket(xs, 3), ScoreIs(k))
      + Filter(Bucket(xs, 4), ScoreIs(k)) == Filter(xs, ScoreIs(k)) == []
  {
    BucketFiltered(xs, 1, k);
    BucketFiltered(xs, 2, k);
    BucketFiltered(xs, 3, k);
    BucketFiltered(xs, 4, k);
    forall m | 0 <= m < |xs|
      ensures !ScoreIs(k)(xs[m])
    {
      assert 1 <= xs[m].priority.Score() <= 4;
    }
    FilterNone(xs, ScoreIs(k));
  }

  /** Filtering group `j` for score `k` keeps the group when `j == k`, else nothing. */
  lemma BucketFiltered(xs: seq<Ingredient>, j: int, k: int)
    ensures Filter(Bucket(xs, j), ScoreIs(k)) == if j == k then Bucket(xs, k) else []
  {
    var b := Bucket(xs, j);
    if j == k {
      FilterAll(b, ScoreIs(k));
    } else {
      assert forall m :: 0 <= m < |b| ==> ScoreIs(j)(b[m]);
      FilterNone(b, ScoreIs(k));
    }
  }

  function IsUrgentOrSoon(): Ingredient -> bool {
    (i: Ingredient) => i.priority == Urgent || i.priority == Soon
  }

  function IsUrgent(): Ingredient -> bool {
    (i: Ingredient) => i.priority == Urgent
  }

  /** A filter that keeps every element of the first `n` groups and none of the
      rest selects exactly those groups. */
  lemma FilterSelectsGroups(b1: seq<Ingredient>, b2: seq<Ingredient>, b3: seq<Ingredient>, b4: seq<Ingredient>,
                            p: Ingredient -> bool, n: nat)
    requires 1 <= n <= 2
    requires forall m :: 0 <= m < |b1| ==> p(b1[m])
    requires forall m :: 0 <= m < |b2| ==> (p(b2[m]) <==> n == 2)
    requires forall m :: 0 <= m < |b3| ==> !p(b3[m])
    requires forall m :: 0 <= m < |b4| ==> !p(b4[m])
    ensures Filter(b1 + b2 + b3 + b4, p) == if n == 2 then b1 + b2 else b1
  {
    FilterGroups(b1, b2, b3, b4, p);
    FilterAll(b1, p);
    if n == 2 {
      FilterAll(b2, p);
    } else {
      FilterNone(b2, p);
    }
    FilterNone(b3, p);
    FilterNone(b4, p);
  }

  /** On the sorted list, `priority_ingredients` is its leading urgent-then-soon part. */
  lemma PriorityIngredientsArePrefix(xs: seq<Ingredient>)
    ensures Filter(SortByPriority(xs), IsUrgentOrSoon()) == Bucket(xs, 1) + Bucket(xs, 2)
    ensures Bucket(xs, 1) + Bucket(xs, 2) <= SortByPriority(xs)
  {
    var b1, b2, b3, b4 := Bucket(xs, 1), Bucket(xs, 2), Bucket(xs, 3), Bucket(xs, 4);
    var p := IsUrgentOrSoon();
    forall m | 0 <= m < |b1| ensures p(b1[m]) {
      assert ScoreIs(1)(b1[m]);
    }
    forall m | 0 <= m < |b2| ensures p(b2[m]) {
      assert ScoreIs(2)(b2[m]);
    }
    forall m | 0 <= m < |b3| ensures !p(b3[m]) {
      assert ScoreIs(3)(b3[m]);
    }
    forall m | 0 <= m < |b4| ensures !p(b4[m]) {
      assert ScoreIs(4)(b4[m]);
    }
    FilterSelectsGroups(b1, b2, b3, b4, p, 2);
    assert b1 + b2 + b3 + b4 == (b1 + b2) + (b3 + b4);
  }

  /** On the sorted list, `expiring_soon` is its leading urgent part. */
  lemma ExpiringSoonIsPrefix(xs: seq<Ingredient>)
    ensures Filter(SortByPriority(xs), IsUrgent()) == Bucket(xs, 1)
    ensures Bucket(xs, 1) <= SortByPriority(xs)
  {
    var b1, b2, b3, b4 := Bucket(xs, 1), Bucket(xs, 2), Bucket(xs, 3), Bucket(xs, 4);
    var p := IsUrgent();
    forall m | 0 <= m < |b1| ensures p(b1[m]) {
      assert ScoreIs(1)(b1[m]);
    }
    forall m | 0 <= m < |b2| ensures !p(b2[m]) {
      assert ScoreIs(2)(b2[m]);
    }
    forall m | 0 <= m < |b3| ensures !p(b3[m]) {
      assert ScoreIs(3)(b3[m]);
    }
    forall m | 0 <= m < |b4| ensures !p(b4[m]) {
      assert ScoreIs(4)(b4[m]);
    }
    FilterSelectsGroups(b1, b2, b3, b4, p, 1);
    assert b1 + b2 + b3 + b4 == b1 + (b2 + b3 + b4);
  }

  /** The products converted one by one, in order. */
  function Convert(products: seq<Product>): (r: seq<Ingredient>)
    ensures |r| == |products|
    ensures forall k :: 0 <= k < |products| ==> r[k] == ToIngredient(products[k])
  {
    seq(|products|, k requires 0 <= k < |products| => ToIngredient(products[k]))
  }

  /** The sorted list has the input's length and only the input's elements. */
  lemma SortKeepsElements(xs: seq<Ingredient>)
    ensures |SortByPriority(xs)| == |xs|
    ensures forall k :: 0 <= k < |xs| ==> SortByPriority(xs)[k] in xs
  {
    SortIsPermutation(xs);
    var s := SortByPriority(xs);
    assert |s| == |multiset(s)|;
    forall k | 0 <= k < |xs| ensures s[k] in xs {
      assert s[k] in multiset(s);
    }
  }

  /** `_analyze_ingredients`: one ingredient per product, then sorted by priority. */
  method AnalyzeIngredients(products: seq<Product>) returns (ingredients: seq<Ingredient>)
    ensures ingredients == SortByPriority(Convert(products))
    ensures |ingredients| == |products|
    ensures SortedByScore(ingredients)
    ensures forall k :: 0 <= k < |ingredients| ==> ingredients[k].available && !ingredients[k].shoppingRequired
  {
    ingredients := [];
    var i := 0;
    while i < |products|
      invariant 0 <= i <= |products|
      invariant |ingredients| == i
      invariant forall k :: 0 <= k < i ==> ingredients[k] == ToIngredient(products[k])
    {
      ingredients := ingredients + [ToIngredient(products[i])];
      i := i + 1;
    }
    var unsorted := ingredients;
    assert unsorted == Convert(products);
    ingredients := SortByPriority(unsorted);
    SortIsSorted(unsorted);
    SortKeepsElements(unsorted);
  }

  function UrgentMessage(count: int): string {
    "期限切れ間近の食材" + IntToString(count) + "個を最優先で使用してください"
  }

  function SoonMessage(count: int): string {
    "2-3日以内に期限切れの食材" + IntToString(count) + "個の調理を計画してください"
  }

  const ClosingMessage: string := "栄養バランスを考慮して野菜とタンパク質を組み合わせた献立を提案します"

  /** `_get_mock_recommendations`: a message per non-empty urgent/soon group, then
      the fixed closing advice. */
  function MockRecommendations(ingredients: seq<Ingredient>): (r: seq<string>)
    ensures 1 <= |r| <= 3 && r[|r| - 1] == ClosingMessage
  {
    var urgent := |Filter(ingredients, IsUrgent())|;
    var soon := |Filter(ingredients, ScoreIs(2))|;
    (if urgent > 0 then [UrgentMessage(urgent)] else [])
      + (if soon > 0 then [SoonMessage(soon)] else [])
      + [ClosingMessage]
  }

  /** The urgent message appears exactly when something is urgent, and a message about
      the soon group exactly when something is soon. */
  lemma MockRecommendationsMessages(ingredients: seq<Ingredient>)
    ensures var r := MockRecommendations(ingredients);
      (UrgentMessage(|Filter(ingredients, IsUrgent())|) in r <==> |Filter(ingredients, IsUrgent())| > 0)
      && ((exists m :: SoonMessage(m) in r) <==> |Filter(ingredients, ScoreIs(2))| > 0)
  {
    var urgent := |Filter(ingredients, IsUrgent())|;
    var soon := |Filter(ingredients, ScoreIs(2))|;
    MessageHeads(urgent);
    var r := MockRecommendations(ingredients);
    if soon > 0 {
      assert SoonMessage(soon) in r;
    }
  }

  /** The three messages start with three different characters. */
  lemma MessageHeads(urgent: int)
    ensures ClosingMessage[0] == '栄' && UrgentMessage(urgent)[0] == '期'
    ensures forall m :: SoonMessage(m)[0] == '2'
  {
  }

  /** One line of the prompt's ingredient summary. */
  function SummaryLine(i: Ingredient): Result<string, Exception> {
    var tag := if i.priority == Urgent then "[緊急]" else if i.priority == Soon then "[期限間近]" else "";
    match i.notes
    case None => Err(Builtin(AttributeError, "'NoneType' object has no attribute 'split'"))
    case Some(note) =>
      match DaysText(note)
      case Err(e) => Err(e)
      case Ok(days) => Ok(tag + i.name + " " + i.quantity + i.unit + " (賞味期限まで" + days + "日)")
  }

  /** The summary of the whole list, failing on the first bad line. */
  function Summary(ingredients: seq<Ingredient>): (r: Result<seq<string>, Exception>)
    ensures r.Ok? ==> |r.value| == |ingredients|
    ensures r.Ok? <==> forall k :: 0 <= k < |ingredients| ==> SummaryLine(ingredients[k]).Ok?
  {
    if |ingredients| == 0 then Ok([])
    else match Summary(ingredients[..|ingredients| - 1])
      case Err(e) => Err(e)
      case Ok(lines) =>
        match SummaryLine(ingredients[|ingredients| - 1])
        case Err(e) => Err(e)
        case Ok(line) => Ok(lines + [line])
  }

  /** The summary of analysed ingredients never fails: every note was written by
      `ExpiryNote`. */
  lemma SummaryOfAnalysedSucceeds(products: seq<Product>)
    ensures Summary(Convert(products)).Ok?
  {
    forall k | 0 <= k < |products|
      ensures SummaryLine(ToIngredient(products[k])).Ok?
    {
      NoteRoundTrip(products[k].daysUntilExpiry);
    }
  }

  /** The JSON object of the model's reply, as far as this stage reads it. */
  datatype RecommendationsData = RecommendationsData(recommendations: Option<seq<string>>)

  /** `_generate_ai_recommendations`: no key, a failing summary, or no usable reply
      gives the fallback; a parsed reply gives its list, or `[]` when it has none. */
  function GenerateAiRecommendations(hasKey: bool, ingredients: seq<Ingredient>, oracle: Oracle<RecommendationsData>): (r: seq<string>)
    ensures !hasKey ==> r == MockRecommendations(ingredients)
    ensures hasKey && Summary(ingredients).Ok? && oracle.Answer(true).Some? ==>
      r == oracle.Answer(true).value.recommendations.GetOr([])
    ensures oracle.Answer(hasKey).None? ==> r == MockRecommendations(ingredients)
  {
    if !hasKey then MockRecommendations(ingredients)
    else if Summary(ingredients).Err? then MockRecommendations(ingredients)
    else match oracle.Answer(true)
      case None => MockRecommendations(ingredients)
      case Some(data) => data.recommendations.GetOr([])
  }

  /** `process`: analyse, filter the two subsets, attach the recommendations. */
  method Process(products: seq<Product>, hasKey: bool, oracle: Oracle<RecommendationsData>) returns (r: IngredientAnalysisResult)
    ensures r.analyzedIngredients == SortByPriority(Convert(products))
    ensures r.priorityIngredients == Filter(r.analyzedIngredients, IsUrgentOrSoon())
    ensures r.expiringSoon == Filter(r.analyzedIngredients, IsUrgent())
    ensures r.recommendations == GenerateAiRecommendations(hasKey, r.analyzedIngredients, oracle)
  {
    var analysed := AnalyzeIngredients(products);
    var recommendations := GenerateAiRecommendations(hasKey, analysed, oracle);
    r := IngredientAnalysisResult(analysed, Filter(analysed, IsUrgentOrSoon()), Filter(analysed, IsUrgent()), recommendations);
  }
}
