/** The preference-conversation stage: keyword rules that turn a free-text answer into
    structured preferences, the questions still to ask, and the parse of the
    structured preferences into a validated `UserPreferences`. */
module UserPreference {
  import opened Wrappers
  import opened Text
  import opened Seqs
  import opened Errors
  import opened Schemas
  import opened ModelCall

  // ---- keyword rules

  /** The time limit named in the input: 30 minutes wins over an hour, which wins over
      15 minutes; nothing named means 60. */
  function TimeFromInput(u: string): (t: int)
    ensures Contains(u, "30分") ==> t == 30
    ensures !Contains(u, "30分") && (Contains(u, "1時間") || Contains(u, "60分")) ==> t == 60
    ensures !Contains(u, "30分") && !Contains(u, "1時間") && !Contains(u, "60分") && Contains(u, "15分") ==> t == 15
    ensures !Contains(u, "30分") && !Contains(u, "1時間") && !Contains(u, "60分") && !Contains(u, "15分") ==> t == 60
  {
    WithinImpliesMinutes(u);
    if Contains(u, "30分") || Contains(u, "30分以内") then 30
    else if Contains(u, "1時間") || Contains(u, "60分") then 60
    else if Contains(u, "15分") then 15
    else 60
  }

  /** Every input naming 30分以内 also names 30分. */
  lemma WithinImpliesMinutes(u: string)
    ensures Contains(u, "30分以内") ==> Contains(u, "30分")
  {
    assert OccursAt("30分以内", "30分", 0);
    OccursAtContains("30分以内", "30分", 0);
    if Contains(u, "30分以内") {
      ContainsTransitive(u, "30分以内", "30分");
    }
  }

  /** The difficulty named in the input, as an enum value: hard wins over medium; the
      default is easy. */
  function DifficultyFromInput(u: string): (d: string)
    ensures d == "hard" <==> Contains(u, "難しい") || Contains(u, "上級")
    ensures d == "medium" <==> !Contains(u, "難しい") && !Contains(u, "上級") && (Contains(u, "普通") || Contains(u, "中級"))
    ensures ParseDifficulty(d).Some?
  {
    if Contains(u, "難しい") || Contains(u, "上級") then "hard"
    else if Contains(u, "普通") || Contains(u, "中級") then "medium"
    else "easy"
  }

  /** An allergy counts when the input names the item and the word アレルギー. */
  function AllergyNamed(u: string): string -> bool {
    (x: string) => Contains(u, x) && Contains(u, "アレルギー")
  }

  /** A dislike counts when the input names the item and 嫌い or 苦手. */
  function DislikeNamed(u: string): string -> bool {
    (x: string) => Contains(u, x) && (Contains(u, "嫌い") || Contains(u, "苦手"))
  }

  /** A cuisine counts when the input names it or its synonym. */
  function CuisineNamed(u: string): string -> bool {
    (x: string) =>
      (x == "和食" && (Contains(u, "和食") || Contains(u, "日本料理")))
      || (x == "イタリアン" && (Contains(u, "イタリアン") || Contains(u, "パスタ")))
      || (x == "中華" && (Contains(u, "中華") || Contains(u, "中国料理")))
  }

  const AllergyItems: seq<string> := ["エビ", "卵"]
  const DislikeItems: seq<string> := ["にんじん", "魚"]
  const CuisineItems: seq<string> := ["和食", "イタリアン", "中華"]

  const AskAllergies: string := "アレルギーはありますか？"
  const AskDislikes: string := "苦手な食材はありますか？"
  const AskCuisines: string := "好みの料理ジャンルはありますか？"
  const AskAnythingElse: string := "他にご希望はありますか？"

  /** The questions still to ask: one per empty list, else the catch-all. */
  function Questions(allergies: seq<string>, dislikes: seq<string>, cuisines: seq<string>): (q: seq<string>)
    ensures 1 <= |q| <= 3
    ensures AskAllergies in q <==> allergies == []
    ensures AskDislikes in q <==> dislikes == []
    ensures AskCuisines in q <==> cuisines == []
    ensures q == [AskAnythingElse] <==> allergies != [] && dislikes != [] && cuisines != []
  {
    var q := (if allergies == [] then [AskAllergies] else [])
             + (if dislikes == [] then [AskDislikes] else [])
             + (if cuisines == [] then [AskCuisines] else []);
    if q == [] then [AskAnythingElse] else q
  }

  lemma FilterTwo(a: string, b: string, p: string -> bool)
    ensures Filter([a, b], p) == (if p(a) then [a] else []) + (if p(b) then [b] else [])
  {
    assert [a, b][..1] == [a] && [a][..0] == [];
  }

  lemma FilterThree(a: string, b: string, c: string, p: string -> bool)
    ensures Filter([a, b, c], p) == (if p(a) then [a] else []) + (if p(b) then [b] else []) + (if p(c) then [c] else [])
  {
    assert [a, b, c][..2] == [a, b];
    FilterTwo(a, b, p);
  }

  lemma CuisinesInOrder(u: string)
    ensures Filter(CuisineItems, CuisineNamed(u))
      == (if Contains(u, "和食") || Contains(u, "日本料理") then ["和食"] else [])
         + (if Contains(u, "イタリアン") || Contains(u, "パスタ") then ["イタリアン"] else [])
         + (if Contains(u, "中華") || Contains(u, "中国料理") then ["中華"] else [])
  {
    FilterThree("和食", "イタリアン", "中華", CuisineNamed(u));
  }

  /** An allergy is listed exactly when the input names it together with アレルギー,
      and without that word nothing is listed; the shrimp comes before the egg. */
  lemma AllergyRule(u: string)
    ensures "エビ" in Filter(AllergyItems, AllergyNamed(u)) <==> Contains(u, "エビ") && Contains(u, "アレルギー")
    ensures "卵" in Filter(AllergyItems, AllergyNamed(u)) <==> Contains(u, "卵") && Contains(u, "アレルギー")
    ensures !Contains(u, "アレルギー") ==> Filter(AllergyItems, AllergyNamed(u)) == []
    ensures |Filter(AllergyItems, AllergyNamed(u))| == 2 ==> Filter(AllergyItems, AllergyNamed(u)) == ["エビ", "卵"]
  {
    FilterTwo("エビ", "卵", AllergyNamed(u));
  }

  /** A cuisine is listed exactly when the input names it or its synonym. */
  lemma CuisineRule(u: string)
    ensures "和食" in Filter(CuisineItems, CuisineNamed(u)) <==> Contains(u, "和食") || Contains(u, "日本料理")
    ensures "イタリアン" in Filter(CuisineItems, CuisineNamed(u)) <==> Contains(u, "イタリアン") || Contains(u, "パスタ")
    ensures "中華" in Filter(CuisineItems, CuisineNamed(u)) <==> Contains(u, "中華") || Contains(u, "中国料理")
  {
    CuisinesInOrder(u);
  }

  /** The allergy block of `_get_mock_conversation`. */
  method AllergiesNamed(u: string) returns (allergies: seq<string>)
    ensures allergies == Filter(AllergyItems, AllergyNamed(u))
  {
    allergies := [];
    if Contains(u, "エビ") && Contains(u, "アレルギー") {
      allergies := allergies + ["エビ"];
    }
    if Contains(u, "卵") && Contains(u, "アレルギー") {
      allergies := allergies + ["卵"];
    }
    assert allergies == Filter(AllergyItems, AllergyNamed(u)) by {
      FilterTwo("エビ", "卵", AllergyNamed(u));
    }
  }

  /** The dislike block of `_get_mock_conversation`. */
  method DislikesNamed(u: string) returns (dislikes: seq<string>)
    ensures dislikes == Filter(DislikeItems, DislikeNamed(u))
  {
    dislikes := [];
    if Contains(u, "にんじん") && (Contains(u, "嫌い") || Contains(u, "苦手")) {
      dislikes := dislikes + ["にんじん"];
    }
    if Contains(u, "魚") && (Contains(u, "嫌い") || Contains(u, "苦手")) {
      dislikes := dislikes + ["魚"];
    }
    assert dislikes == Filter(DislikeItems, DislikeNamed(u)) by {
      FilterTwo("にんじん", "魚", DislikeNamed(u));
    }
  }

  /** The cuisine block of `_get_mock_conversation`: each cuisine (or its synonym)
      named in the input is collected, in the fixed order. */
  method PreferredCuisines(u: string) returns (cuisines: seq<string>)
    ensures cuisines == Filter(CuisineItems, CuisineNamed(u))
  {
    cuisines := [];
    if Contains(u, "和食") || Contains(u, "日本料理") {
      cuisines := cuisines + ["和食"];
    }
    if Contains(u, "イタリアン") || Contains(u, "パスタ") {
      cuisines := cuisines + ["イタリアン"];
    }
    if Contains(u, "中華") || Contains(u, "中国料理") {
      cuisines := cuisines + ["中華"];
    }
    CuisinesInOrder(u);
  }

  /** The question block of `_get_mock_conversation`. */
  method NextQuestions(allergies: seq<string>, dislikes: seq<string>, cuisines: seq<string>)
    returns (questions: seq<string>)
    ensures questions == Questions(allergies, dislikes, cuisines)
  {
    questions := [];
    if allergies == [] {
      questions := questions + [AskAllergies];
    }
    if dislikes == [] {
      questions := questions + [AskDislikes];
    }
    if cuisines == [] {
      questions := questions + [AskCuisines];
    }
    if questions == [] {
      questions := questions + [AskAnythingElse];
    }
  }

  /** The rule-based answer's dictionary. */
  datatype Conversation = Conversation(
    structuredPreferences: PreferenceData,
    confidenceScore: real,
    nextQuestions: seq<string>,
    updatedProfile: ProfileData)

  /** The rule-based answer as a value: the preferences the keywords select, the
      questions for whatever is still unknown, and the profile that records the input. */
  function RuleBasedConversation(userInput: string, now: Timestamp): Conversation {
    var u := Lower(userInput);
    var prefs := PreferenceData(Some(TimeFromInput(u)), Some(DifficultyFromInput(u)), Some([]),
                                Some(Filter(AllergyItems, AllergyNamed(u))),
                                Some(Filter(DislikeItems, DislikeNamed(u))),
                                Some(Filter(CuisineItems, CuisineNamed(u))));
    Conversation(prefs, 0.7, Questions(prefs.allergies.value, prefs.dislikedIngredients.value,
                                       prefs.preferredCuisines.value),
                 ProfileData(Some("user_123"), Some(prefs), Some([userInput]), Some(now)))
  }

  /** `_get_mock_conversation`: match keywords in the lower-cased input, collecting the
      allergies, dislikes and cuisines in their fixed order; dietary restrictions stay
      empty and the confidence is 0.7. */
  method MockConversation(userInput: string, now: Timestamp) returns (c: Conversation)
    ensures c.structuredPreferences.maxCookingTime == Some(TimeFromInput(Lower(userInput)))
    ensures c.structuredPreferences.preferredDifficulty == Some(DifficultyFromInput(Lower(userInput)))
    ensures c.structuredPreferences.dietaryRestrictions == Some([])
    ensures c.structuredPreferences.allergies == Some(Filter(AllergyItems, AllergyNamed(Lower(userInput))))
    ensures c.structuredPreferences.dislikedIngredients == Some(Filter(DislikeItems, DislikeNamed(Lower(userInput))))
    ensures c.structuredPreferences.preferredCuisines == Some(Filter(CuisineItems, CuisineNamed(Lower(userInput))))
    ensures var p := c.structuredPreferences;
      c.nextQuestions == Questions(p.allergies.value, p.dislikedIngredients.value, p.preferredCuisines.value)
    ensures c.confidenceScore == 0.7
    ensures c.updatedProfile == ProfileData(Some("user_123"), Some(c.structuredPreferences), Some([userInput]), Some(now))
    ensures c == RuleBasedConversation(userInput, now)
  {
    var u := Lower(userInput);

    var maxCookingTime := 60;
    if Contains(u, "30分") || Contains(u, "30分以内") {
      maxCookingTime := 30;
    } else if Contains(u, "1時間") || Contains(u, "60分") {
      maxCookingTime := 60;
    } else if Contains(u, "15分") {
      maxCookingTime := 15;
    }

    var difficulty := "easy";
    if Contains(u, "難しい") || Contains(u, "上級") {
      difficulty := "hard";
    } else if Contains(u, "普通") || Contains(u, "中級") {
      difficulty := "medium";
    }

    var allergies := AllergiesNamed(u);
    var dislikes := DislikesNamed(u);
    var cuisines := PreferredCuisines(u);

    var questions := NextQuestions(allergies, dislikes, cuisines);
    var prefs := PreferenceData(Some(maxCookingTime), Some(difficulty), Some([]), Some(allergies),
                                Some(dislikes), Some(cuisines));
    c := Conversation(prefs, 0.7, questions, ProfileData(Some("user_123"), Some(prefs), Some([userInput]), Some(now)));
  }

  // ---- parsing the structured preferences

  /** `_parse_preferences`: defaults for missing keys (60, easy, empty lists), the
      difficulty read by value (`ValueError` otherwise), then the record's own check
      of the time limit. */
  function ParsePreferences(d: PreferenceData): (r: Result<UserPreferences, Exception>)
    ensures ParseDifficulty(d.preferredDifficulty.GetOr("easy")).None? ==>
      r.Err? && r.error.Builtin? && r.error.kind == ValueError
    ensures r.Ok? <==> ParseDifficulty(d.preferredDifficulty.GetOr("easy")).Some?
                       && 10 <= d.maxCookingTime.GetOr(60) <= 300
    ensures r.Ok? ==>
      r.value.maxCookingTime == d.maxCookingTime.GetOr(60)
      && Some(r.value.preferredDifficulty) == ParseDifficulty(d.preferredDifficulty.GetOr("easy"))
      && r.value.dietaryRestrictions == d.dietaryRestrictions.GetOr([])
      && r.value.allergies == d.allergies.GetOr([])
      && r.value.dislikedIngredients == d.dislikedIngredients.GetOr([])
      && r.value.preferredCuisines == d.preferredCuisines.GetOr([])
  {
    match ParseDifficulty(d.preferredDifficulty.GetOr("easy"))
    case None => Err(Builtin(ValueError, "'" + d.preferredDifficulty.GetOr("easy") + "' is not a valid DifficultyLevel"))
    case Some(level) =>
      ValidateUserPreferences(UserPreferences(d.maxCookingTime.GetOr(60), level, d.dietaryRestrictions.GetOr([]),
                                              d.allergies.GetOr([]), d.dislikedIngredients.GetOr([]),
                                              d.preferredCuisines.GetOr([])))
  }

  /** An empty dictionary parses to the default preferences. */
  lemma EmptyParsesToDefaults()
    ensures ParsePreferences(PreferenceData(None, None, None, None, None, None)) == Ok(UserPreferences())
  {
  }

  /** Whatever the input, the rule-based preferences parse: every time it picks lies in
      [10, 300] and every difficulty it picks is an enum value. */
  lemma MockPreferencesParse(u: string)
    ensures ParsePreferences(PreferenceData(Some(TimeFromInput(u)), Some(DifficultyFromInput(u)), Some([]),
                                            None, None, None)).Ok?
  {
  }

  // ---- the model path

  datatype ConversationReply = ConversationReply(
    structuredPreferences: Option<PreferenceData>,
    confidenceScore: Option<real>,
    nextQuestions: Option<seq<string>>,
    updatedProfile: Option<ProfileData>)

  const EmptyPreferences: PreferenceData := PreferenceData(None, None, None, None, None, None)
  const EmptyProfile: ProfileData := ProfileData(None, None, None, None)

  /** The cleaning of the model's reply: the confidence defaults to 0.5 and is clamped
      into [0, 1]; missing parts become empty. */
  function FromModel(d: ConversationReply): (c: Conversation)
    ensures 0.0 <= c.confidenceScore <= 1.0
    ensures d.confidenceScore.None? ==> c.confidenceScore == 0.5
    ensures d.confidenceScore.Some? && 0.0 <= d.confidenceScore.value <= 1.0 ==> c.confidenceScore == d.confidenceScore.value
    ensures d.confidenceScore.Some? && d.confidenceScore.value > 1.0 ==> c.confidenceScore == 1.0
    ensures d.confidenceScore.Some? && d.confidenceScore.value < 0.0 ==> c.confidenceScore == 0.0
    ensures c.structuredPreferences == d.structuredPreferences.GetOr(EmptyPreferences)
    ensures c.nextQuestions == d.nextQuestions.GetOr([]) && c.updatedProfile == d.updatedProfile.GetOr(EmptyProfile)
  {
    var x := d.confidenceScore.GetOr(0.5);
    var capped := if x < 1.0 then x else 1.0;
    Conversation(d.structuredPreferences.GetOr(EmptyPreferences), if capped > 0.0 then capped else 0.0,
                 d.nextQuestions.GetOr([]), d.updatedProfile.GetOr(EmptyProfile))
  }

  /** `process`: the model's cleaned reply or the rule-based answer, then the parse of
      its structured preferences. */
  method Process(userInput: string, now: Timestamp, hasKey: bool, oracle: Oracle<ConversationReply>)
    returns (r: Result<UserPreferenceResult, Exception>)
    ensures oracle.Answer(hasKey).None? ==> r.Ok? && r.value.confidenceScore == 0.7
    ensures oracle.Answer(hasKey).None? ==> r.value.nextQuestions != []
    ensures oracle.Answer(hasKey).None? ==>
      var c := RuleBasedConversation(userInput, now);
      ParsePreferences(c.structuredPreferences).Ok?
      && r == Ok(UserPreferenceResult(ParsePreferences(c.structuredPreferences).value, 0.7,
                                      c.nextQuestions, c.updatedProfile))
    ensures oracle.Answer(hasKey).Some? ==>
      var c := FromModel(oracle.Answer(hasKey).value);
      (r.Ok? <==> ParsePreferences(c.structuredPreferences).Ok?)
      && (r.Ok? ==> r.value == UserPreferenceResult(ParsePreferences(c.structuredPreferences).value,
                                                    c.confidenceScore, c.nextQuestions, c.updatedProfile))
  {
    var c: Conversation;
    match oracle.Answer(hasKey) {
      case Some(d) => c := FromModel(d);
      case None =>
        c := MockConversation(userInput, now);
        MockPreferencesParse(Lower(userInput));
    }
    var parsed := ParsePreferences(c.structuredPreferences);
    match parsed {
      case Err(e) => r := Err(e);
      case Ok(prefs) => r := Ok(UserPreferenceResult(prefs, c.confidenceScore, c.nextQuestions, c.updatedProfile));
    }
  }
}
