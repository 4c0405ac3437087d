/** The Cloud Functions of the refrigerator app: the daily expiry check that notifies
    households, the status trigger that keeps each item's emoji up to date, the prompt
    for the character images, and the argument checks of the callable functions.
    Firestore, messaging, storage and the image model are outside the model; what they
    return is passed in. Times are whole milliseconds. */
module CloudFunctions {
  import opened Wrappers
  import opened Text

  const MillisPerDay: int := 1000 * 60 * 60 * 24

  /** `Math.ceil(ms / (1000 * 60 * 60 * 24))`. */
  function CeilDays(ms: int): (d: int)
    ensures (d - 1) * MillisPerDay < ms <= d * MillisPerDay
  {
    -((-ms) / MillisPerDay)
  }

  // ---- updateProductStatus

  const Dead := "💀"
  const Panicking := "😰"
  const Worried := "😟"
  const Neutral := "😐"
  const Happy := "😊"

  /** The emoji for an item `d` days from its expiry. */
  function StatusFor(d: int): (s: string)
    ensures s == Dead <==> d < 0
    ensures s == Panicking <==> 0 <= d <= 1
    ensures s == Worried <==> 2 <= d <= 3
    ensures s == Neutral <==> 4 <= d <= 7
    ensures s == Happy <==> d > 7
  {
    if d < 0 then Dead
    else if d <= 1 then Panicking
    else if d <= 3 then Worried
    else if d <= 7 then Neutral
    else Happy
  }

  /** How alarming a status is, most alarming first. */
  function Severity(s: string): int {
    if s == Dead then 0 else if s == Panicking then 1 else if s == Worried then 2 else if s == Neutral then 3 else 4
  }

  /** The further away the expiry, the calmer the status. */
  lemma StatusMonotone(d: int, e: int)
    requires d <= e
    ensures Severity(StatusFor(d)) <= Severity(StatusFor(e))
  {
  }

  /** A stored item: its status field, if any, and how far its expiry date lies ahead. */
  datatype StoredItem = StoredItem(status: Option<string>, millisUntilExpiry: int)

  /** The `onWrite` trigger: nothing for a deleted document; otherwise the status the
      expiry calls for, written only when it differs from the stored one. */
  function UpdateProductStatus(after: Option<StoredItem>): (update: Option<string>)
    ensures after.None? ==> update.None?
    ensures after.Some? ==> var wanted := StatusFor(CeilDays(after.value.millisUntilExpiry));
      update == (if after.value.status == Some(wanted) then None else Some(wanted))
  {
    match after
    case None => None
    case Some(item) =>
      var status := StatusFor(CeilDays(item.millisUntilExpiry));
      if item.status != Some(status) then Some(status) else None
  }

  /** The trigger's own write fires it again; that second run writes nothing, so the
      trigger does not loop. */
  lemma UpdateProductStatusSettles(item: StoredItem)
    ensures var update := UpdateProductStatus(Some(item));
      update.Some? ==> UpdateProductStatus(Some(item.(status := update))) == None
  {
  }

  // ---- checkExpiringProducts and sendExpiryNotification

  datatype Settings = Settings(enableNotifications: Option<bool>, notificationDays: Option<int>)

  datatype Household = Household(id: string, settings: Option<Settings>)

  /** A document of the `items` collection. */
  datatype Item = Item(itemId: string, householdId: string, productName: string, millisUntilExpiry: int)

  datatype Notification = Notification(title: string, body: string, productId: string, householdId: string, topic: string)

  /** `settings?.enableNotifications` is truthy. */
  predicate NotificationsEnabled(h: Household) {
    h.settings.Some? && h.settings.value.enableNotifications == Some(true)
  }

  /** `settings?.notificationDays || 3`: missing and zero both give three days. */
  function NotificationDays(h: Household): (n: int)
    ensures h.settings.None? || h.settings.value.notificationDays.None? ==> n == 3
    ensures h.settings.Some? && h.settings.value.notificationDays == Some(0) ==> n == 3
    ensures n != 0
  {
    if h.settings.Some? && h.settings.value.notificationDays.Some? && h.settings.value.notificationDays.value != 0
    then h.settings.value.notificationDays.value
    else 3
  }

  /** The query: this household's items that expire between now and `days` days ahead. */
  predicate InWindow(h: Household, days: int, item: Item) {
    item.householdId == h.id && 0 <= item.millisUntilExpiry <= days * MillisPerDay
  }

  function NotificationBody(d: int): string {
    if d == 0 then "今日が賞味期限です！" else "あと" + IntToString(d) + "日で賞味期限です"
  }

  /** The message `sendExpiryNotification` sends for one item. */
  function ExpiryNotification(householdId: string, item: Item, d: int): (m: Notification)
    ensures m.title == item.productName + "の賞味期限が近づいています"
    ensures m.topic == "household_" + householdId && m.householdId == householdId && m.productId == item.itemId
    ensures d == 0 ==> m.body == "今日が賞味期限です！"
    ensures d != 0 ==> m.body == "あと" + IntToString(d) + "日で賞味期限です"
  {
    Notification(item.productName + "の賞味期限が近づいています", NotificationBody(d), item.itemId, householdId,
                 "household_" + householdId)
  }

  /** The messages for one household, in the order its query returns the items. */
  function HouseholdNotifications(h: Household, items: seq<Item>): seq<Notification> {
    if |items| == 0 then []
    else
      var last := items[|items| - 1];
      HouseholdNotifications(h, items[..|items| - 1])
      + (if InWindow(h, NotificationDays(h), last) then [ExpiryNotification(h.id, last, CeilDays(last.millisUntilExpiry))] else [])
  }

  /** The messages for all households, skipping those without notifications enabled. */
  function AllNotifications(households: seq<Household>, items: seq<Item>): seq<Notification> {
    if |households| == 0 then []
    else
      var last := households[|households| - 1];
      AllNotifications(households[..|households| - 1], items)
      + (if NotificationsEnabled(last) then HouseholdNotifications(last, items) else [])
  }

  /** The messages for one household's items. */
  method NotifyHousehold(h: Household, items: seq<Item>) returns (sent: seq<Notification>)
    ensures sent == HouseholdNotifications(h, items)
  {
    var days := NotificationDays(h);
    sent := [];
    for j := 0 to |items|
      invariant sent == HouseholdNotifications(h, items[..j])
    {
      assert items[..j + 1][..j] == items[..j];
      var item := items[j];
      if InWindow(h, days, item) {
        var d := CeilDays(item.millisUntilExpiry);
        sent := sent + [ExpiryNotification(h.id, item, d)];
      }
    }
    assert items[..|items|] == items;
  }

  /** `checkExpiringProducts`: for every household with notifications enabled, one
      message per item of its expiry window. A failed send is logged and skipped, so
      every message is attempted. */
  method CheckExpiringProducts(households: seq<Household>, items: seq<Item>) returns (sent: seq<Notification>)
    ensures sent == AllNotifications(households, items)
  {
    sent := [];
    for i := 0 to |households|
      invariant sent == AllNotifications(households[..i], items)
    {
      assert households[..i + 1][..i] == households[..i];
      var h := households[i];
      if NotificationsEnabled(h) {
        var messages := NotifyHousehold(h, items);
        sent := sent + messages;
      }
    }
    assert households[..|households|] == households;
  }

  /** Every message of a household's run is about one of its items inside the window,
      and counts between zero and the window's length in days. */
  lemma {:induction false} HouseholdNotificationsInWindow(h: Household, items: seq<Item>)
    ensures forall m :: m in HouseholdNotifications(h, items) ==>
      m.householdId == h.id && m.topic == "household_" + h.id && Notified(h, items, m)
  {
    if |items| > 0 {
      HouseholdNotificationsInWindow(h, items[..|items| - 1]);
      forall m | m in HouseholdNotifications(h, items)
        ensures Notified(h, items, m)
      {
        if m in HouseholdNotifications(h, items[..|items| - 1]) {
          var item :| item in items[..|items| - 1] && InWindow(h, NotificationDays(h), item)
            && m == ExpiryNotification(h.id, item, CeilDays(item.millisUntilExpiry));
          assert item in items;
        } else {
          assert items[|items| - 1] in items;
        }
      }
    }
  }

  /** `m` is the message for some item of `items` inside the household's window. */
  predicate Notified(h: Household, items: seq<Item>, m: Notification) {
    exists item :: item in items && InWindow(h, NotificationDays(h), item)
      && m == ExpiryNotification(h.id, item, CeilDays(item.millisUntilExpiry))
  }

  /** An item inside the window is between zero and `days` days from expiry, and it is
      "today" exactly when it expires at this very moment: any later time, even the same
      day, rounds up to one day. */
  lemma WindowDays(h: Household, item: Item)
    requires InWindow(h, NotificationDays(h), item)
    ensures 0 <= CeilDays(item.millisUntilExpiry) <= NotificationDays(h)
    ensures CeilDays(item.millisUntilExpiry) == 0 <==> item.millisUntilExpiry == 0
  {
  }

  /** The two forms of the message body never coincide: "today" starts with 今, a day
      count with あ. */
  lemma NotificationBodiesDiffer(d: int)
    requires d != 0
    ensures NotificationBody(d) != NotificationBody(0)
    ensures NotificationBody(d)[0] == 'あ' && NotificationBody(0)[0] == '今'
  {
  }

  /** A household without notifications enabled receives nothing. */
  lemma {:induction false} DisabledHouseholdsSkipped(households: seq<Household>, items: seq<Item>, id: string)
    requires forall k :: 0 <= k < |households| && households[k].id == id ==> !NotificationsEnabled(households[k])
    ensures forall m :: m in AllNotifications(households, items) ==> m.householdId != id
  {
    if |households| > 0 {
      var last := households[|households| - 1];
      DisabledHouseholdsSkipped(households[..|households| - 1], items, id);
      if NotificationsEnabled(last) {
        HouseholdNotificationsInWindow(last, items);
      }
    }
  }

  // ---- the callable functions

  /** The `HttpsError` codes the callables raise. */
  datatype HttpsError = Unauthenticated(message: string) | InvalidArgument(message: string) | Internal(message: string)

  const Unauthorised := Unauthenticated("User must be authenticated")

  /** `${category}` of a missing category is the text `undefined`. */
  function CategoryText(category: Option<string>): string {
    category.GetOr("undefined")
  }

  function BasePrompt(productName: string, category: Option<string>): string {
    "Cute kawaii Japanese mascot character representing " + productName + " (" + CategoryText(category) + " food item), "
  }

  const HappySuffix := "happy and fresh, bright colors, smiling face, sparkles around, chibi style, simple design"
  const NeutralSuffix := "neutral expression, slightly concerned, pastel colors, chibi style, simple design"
  const WorriedSuffix := "worried expression, sweat drops, muted colors, looking anxious, chibi style, simple design"
  const PanickingSuffix := "very worried and panicking, dark shadows, urgent expression, chibi style, simple design"
  const DeadSuffix := "zombie-like appearance, expired and spooky, dark colors, ghost-like, chibi style, simple design"
  const DefaultSuffix := "neutral kawaii expression, chibi style, simple design"

  /** The per-emotion ending of the prompt; any other emotion gets the neutral one. */
  function EmotionSuffix(emotionState: string): string {
    if emotionState == Happy then HappySuffix
    else if emotionState == Neutral then NeutralSuffix
    else if emotionState == Worried then WorriedSuffix
    else if emotionState == Panicking then PanickingSuffix
    else if emotionState == Dead then DeadSuffix
    else DefaultSuffix
  }

  /** The six endings have six different lengths. */
  lemma SuffixLengths()
    ensures |HappySuffix| == 89 && |NeutralSuffix| == 81 && |WorriedSuffix| == 90
    ensures |PanickingSuffix| == 87 && |DeadSuffix| == 95 && |DefaultSuffix| == 53
  {
  }

  /** `createPrompt`: the base prompt followed by the emotion's ending. */
  function CreatePrompt(productName: string, emotionState: string, category: Option<string>): (p: string)
    ensures |p| == |BasePrompt(productName, category)| + |EmotionSuffix(emotionState)|
    ensures p[..|BasePrompt(productName, category)|] == BasePrompt(productName, category)
    ensures p[|BasePrompt(productName, category)|..] == EmotionSuffix(emotionState)
  {
    Halves(BasePrompt(productName, category), EmotionSuffix(emotionState));
    BasePrompt(productName, category) + EmotionSuffix(emotionState)
  }

  lemma Halves(a: string, b: string)
    ensures (a + b)[..|a|] == a && (a + b)[|a|..] == b
  {
  }

  /** The five known emotions give five different prompts, and every other emotion the
      same neutral one, distinct from all five. */
  lemma PromptsDistinguishEmotions(productName: string, category: Option<string>, e: string, f: string)
    requires e in {Happy, Neutral, Worried, Panicking, Dead} && e != f
    ensures CreatePrompt(productName, e, category) != CreatePrompt(productName, f, category)
  {
    SuffixLengths();
    assert |EmotionSuffix(e)| != |EmotionSuffix(f)|;
  }

  /** `generateCharacterImage`: authentication first, then both arguments must be
      non-empty; a failure of the image call becomes `internal`. `upload` is the URL
      the image call produced, or `None` when it threw. */
  function GenerateCharacterImage(authenticated: bool, productName: Option<string>, emotionState: Option<string>,
                                  upload: Option<string>): (r: Result<string, HttpsError>)
    ensures !authenticated ==> r == Err(Unauthorised)
    ensures authenticated && (productName.None? || productName == Some("") || emotionState.None? || emotionState == Some(""))
      ==> r == Err(InvalidArgument("Product name and emotion state are required"))
    ensures authenticated && productName.Some? && productName.value != "" && emotionState.Some? && emotionState.value != ""
      ==> r == (if upload.Some? then Ok(upload.value) else Err(Internal("Failed to generate character image")))
  {
    if !authenticated then Err(Unauthorised)
    else if productName.None? || productName.value == "" || emotionState.None? || emotionState.value == "" then
      Err(InvalidArgument("Product name and emotion state are required"))
    else match upload
      case Some(url) => Ok(url)
      case None => Err(Internal("Failed to generate character image"))
  }

  /** What a callable may receive as `ingredients`. */
  datatype Argument = Missing | NotAnArray | AnArray(items: seq<string>)

  datatype MockRecipe = MockRecipe(name: string, cookingTime: string, difficulty: string, ingredients: seq<string>,
                                   instructions: seq<string>, calories: string)

  /** `${i}: 適量`. */
  function AsNeeded(ingredient: string): (line: string)
    ensures |line| == |ingredient| + 4 && line[..|ingredient|] == ingredient && line[|ingredient|..] == ": 適量"
  {
    ingredient + ": 適量"
  }

  /** `getRecipesFromGemini`: one fixed stir-fry recipe listing every given ingredient
      with "as needed", in the given order. */
  function RecipesFromGemini(ingredients: seq<string>): (recipes: seq<MockRecipe>)
    ensures |recipes| == 1 && |recipes[0].ingredients| == |ingredients|
    ensures forall k :: 0 <= k < |ingredients| ==> recipes[0].ingredients[k] == AsNeeded(ingredients[k])
  {
    [MockRecipe("野菜炒め", "15分", "簡単", seq(|ingredients|, k requires 0 <= k < |ingredients| => AsNeeded(ingredients[k])),
                ["材料を切る", "フライパンで炒める", "調味料を加える"], "約200kcal")]
  }

  /** The ingredient names can be read back from the recipe's lines. */
  lemma AsNeededRoundTrip(ingredients: seq<string>)
    ensures var lines := RecipesFromGemini(ingredients)[0].ingredients;
      forall k :: 0 <= k < |ingredients| ==> lines[k][..|lines[k]| - |": 適量"|] == ingredients[k]
  {
  }

  /** `getRecipeSuggestions`: authentication first, then an array of ingredients (an
      empty array is accepted). */
  function GetRecipeSuggestions(authenticated: bool, ingredients: Argument): (r: Result<seq<MockRecipe>, HttpsError>)
    ensures !authenticated ==> r == Err(Unauthorised)
    ensures authenticated ==> (r.Ok? <==> ingredients.AnArray?)
    ensures authenticated && !ingredients.AnArray? ==> r == Err(InvalidArgument("Ingredients array is required"))
    ensures r.Ok? ==> r.value == RecipesFromGemini(ingredients.items)
  {
    if !authenticated then Err(Unauthorised)
    else match ingredients
      case AnArray(items) => Ok(RecipesFromGemini(items))
      case _ => Err(InvalidArgument("Ingredients array is required"))
  }
}
