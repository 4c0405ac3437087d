/** The stand-alone image service's keyword fallback: read a dish name and description
    from the prompt, find the first known food word in them, and answer with a stock
    photograph for it or a default one. */
module SimpleImageApi {
  import opened Wrappers
  import opened Text

  /** The food words and their image keys, in the dictionary's insertion order. */
  const Keywords: seq<(string, string)> := [
    ("鶏むね肉", "chicken-breast"), ("鶏肉", "chicken"), ("肉", "meat"), ("豚肉", "pork"), ("牛肉", "beef"),
    ("トマト煮込み", "tomato-stew"), ("煮込み", "stew"), ("シチュー", "stew"),
    ("炒め物", "stir-fry"), ("炒める", "stir-fry"), ("炒め", "stir-fry"),
    ("玉ねぎ", "onion"), ("にんじん", "carrot"), ("じゃがいも", "potato"), ("野菜", "vegetables"),
    ("トマト", "tomato"), ("キャベツ", "cabbage"), ("白菜", "chinese-cabbage"),
    ("汁物", "soup"), ("スープ", "soup"), ("味噌汁", "miso-soup"),
    ("副菜", "side-dish"), ("サラダ", "salad"), ("和え物", "dressed-dish"),
    ("ご飯", "rice"), ("白米", "white-rice"), ("玄米", "brown-rice"),
    ("パン", "bread"), ("麺", "noodles"), ("うどん", "udon"), ("そば", "soba"), ("ラーメン", "ramen"),
    ("魚", "fish"), ("鮭", "salmon"), ("鯖", "mackerel"), ("鯛", "sea-bream")]

  const MeatPhoto := "https://images.unsplash.com/photo-1529692236671-f1f6cf9683ba?w=1024&h=1024&fit=crop"
  const ChickenPhoto := "https://images.unsplash.com/photo-1604503468506-a8da13d82791?w=1024&h=1024&fit=crop"
  const StewPhoto := "https://images.unsplash.com/photo-1565299624946-b28f40a0ca4b?w=1024&h=1024&fit=crop"
  const VegetablePhoto := "https://images.unsplash.com/photo-1540420773420-3366772f4999?w=1024&h=1024&fit=crop"
  const SoupPhoto := "https://images.unsplash.com/photo-1547592180-85f173990554?w=1024&h=1024&fit=crop"
  const RicePhoto := "https://images.unsplash.com/photo-1586201375761-83865001e31c?w=1024&h=1024&fit=crop"
  const FishPhoto := "https://images.unsplash.com/photo-1544943910-4c1dc44aab44?w=1024&h=1024&fit=crop"

  /** The photograph for each image key that has one. */
  const PhotoFor: map<string, string> := map[
    "chicken-breast" := ChickenPhoto, "chicken" := ChickenPhoto,
    "meat" := MeatPhoto, "pork" := MeatPhoto, "beef" := MeatPhoto,
    "tomato-stew" := StewPhoto, "stew" := StewPhoto,
    "stir-fry" := "https://images.unsplash.com/photo-1559847844-5315695dadae?w=1024&h=1024&fit=crop",
    "vegetables" := VegetablePhoto,
    "onion" := "https://images.unsplash.com/photo-1518977956812-cd3dbadaaf31?w=1024&h=1024&fit=crop",
    "carrot" := "https://images.unsplash.com/photo-1598170845058-32b9d6a5da37?w=1024&h=1024&fit=crop",
    "potato" := "https://images.unsplash.com/photo-1518977676601-b53f82aba655?w=1024&h=1024&fit=crop",
    "tomato" := "https://images.unsplash.com/photo-1592924357228-91a4daadcfea?w=1024&h=1024&fit=crop",
    "soup" := SoupPhoto, "miso-soup" := SoupPhoto,
    "side-dish" := VegetablePhoto, "salad" := VegetablePhoto,
    "rice" := RicePhoto, "white-rice" := RicePhoto,
    "bread" := "https://images.unsplash.com/photo-1509440159596-0249088772ff?w=1024&h=1024&fit=crop",
    "noodles" := "https://images.unsplash.com/photo-1569718212165-3a8278d5f624?w=1024&h=1024&fit=crop",
    "fish" := FishPhoto, "salmon" := FishPhoto]

  const DefaultPhoto := "https://images.unsplash.com/photo-1546833999-b9f581a1996d?w=1024&h=1024&fit=crop"

  /** The image keys that have no photograph of their own. */
  const KeysWithoutPhoto: set<string> :=
    {"cabbage", "chinese-cabbage", "dressed-dish", "brown-rice", "udon", "soba", "ramen", "mackerel", "sea-bream"}

  // ---- reading the prompt

  /** `prompt.split(':')[0].strip()` and, when the prompt has a colon,
      `prompt.split(':')[1].strip()`: only the text up to a second colon. */
  function PromptParts(prompt: string): (parts: (string, string))
    ensures !Contains(prompt, ":") ==> parts == (Strip(prompt), "")
    ensures Contains(prompt, ":") ==> parts.0 == Strip(prompt[..Find(prompt, ":")])
  {
    SplitFirst(prompt, ":");
    var pieces := Split(prompt, ":");
    (Strip(pieces[0]), if Contains(prompt, ":") then Strip(pieces[1]) else "")
  }

  /** `f"{dish_name} {dish_description}".lower()`. */
  function SearchText(prompt: string): string {
    var parts := PromptParts(prompt);
    Lower(parts.0 + " " + parts.1)
  }

  // ---- choosing the keyword

  /** The index of the first keyword that occurs in `text`, or -1. */
  function FirstMatch(keys: seq<(string, string)>, text: string): (i: int)
    ensures -1 <= i < |keys|
    ensures i >= 0 ==> Contains(text, keys[i].0)
    ensures forall j :: 0 <= j < |keys| && (i < 0 || j < i) ==> !Contains(text, keys[j].0)
  {
    if |keys| == 0 then -1
    else if Contains(text, keys[0].0) then 0
    else
      var k := FirstMatch(keys[1..], text);
      assert forall j :: 1 <= j < |keys| ==> keys[j] == keys[1..][j - 1];
      if k < 0 then -1 else k + 1
  }

  /** The keyword loop: scan the dictionary in order and stop at the first hit, so at
      most one pair is collected. */
  method MatchKeywords(text: string) returns (matched: seq<(string, string)>)
    ensures FirstMatch(Keywords, text) < 0 ==> matched == []
    ensures FirstMatch(Keywords, text) >= 0 ==> matched == [Keywords[FirstMatch(Keywords, text)]]
  {
    matched := [];
    for i := 0 to |Keywords|
      invariant matched == []
      invariant forall j :: 0 <= j < i ==> !Contains(text, Keywords[j].0)
    {
      if Contains(text, Keywords[i].0) {
        matched := matched + [Keywords[i]];
        FirstMatchIsFirstHit(text, i);
        break;
      }
    }
  }

  /** A keyword that occurs, with none occurring before it, is the first match. */
  lemma FirstMatchIsFirstHit(text: string, i: int)
    requires 0 <= i < |Keywords| && Contains(text, Keywords[i].0)
    requires forall j :: 0 <= j < i ==> !Contains(text, Keywords[j].0)
    ensures FirstMatch(Keywords, text) == i
  {
  }

  /** The photograph for the collected pairs: the first pair's key looked up, and the
      default when there is none or the key has no photograph. */
  function SelectPhoto(matched: seq<(string, string)>): (url: string)
    ensures url != ""
    ensures |matched| > 0 && matched[0].1 in PhotoFor ==> url == PhotoFor[matched[0].1]
    ensures |matched| == 0 || matched[0].1 !in PhotoFor ==> url == DefaultPhoto
  {
    var found := if |matched| > 0 && matched[0].1 in PhotoFor then PhotoFor[matched[0].1] else "";
    if found == "" then DefaultPhoto else found
  }

  /** The photograph the fallback chooses for a prompt. */
  function FallbackPhoto(prompt: string): string {
    var i := FirstMatch(Keywords, SearchText(prompt));
    SelectPhoto(if i < 0 then [] else [Keywords[i]])
  }

  /** `_fallback_image_generation`: nothing in it can raise, so it always answers with
      a photograph. */
  method FallbackImageGeneration(prompt: string) returns (url: Option<string>)
    ensures url == Some(FallbackPhoto(prompt))
    ensures url.Some? && url.value != ""
  {
    var matched := MatchKeywords(SearchText(prompt));
    url := Some(SelectPhoto(matched));
  }

  // ---- what the choice promises

  /** A keyword that contains an earlier one is never the first match: the earlier one
      occurs wherever it does. */
  lemma ShadowedKeyword(keys: seq<(string, string)>, text: string, earlier: int, later: int)
    requires 0 <= earlier < later < |keys|
    requires Contains(keys[later].0, keys[earlier].0)
    ensures FirstMatch(keys, text) != later
  {
    if FirstMatch(keys, text) == later {
      ContainsTransitive(text, keys[later].0, keys[earlier].0);
    }
  }

  lemma MeatWords()
    ensures Keywords[2] == ("肉", "meat") && Keywords[3] == ("豚肉", "pork") && Keywords[4] == ("牛肉", "beef")
    ensures Contains("豚肉", "肉") && Contains("牛肉", "肉")
  {
    assert "豚肉"[1..2] == "肉" && "牛肉"[1..2] == "肉";
    OccursAtContains("豚肉", "肉", 1);
    OccursAtContains("牛肉", "肉", 1);
  }

  /** Pork and beef are never chosen: both words contain 肉, which comes earlier in the
      dictionary and is chosen instead. */
  lemma PorkAndBeefShadowed(text: string)
    ensures Keywords[3].1 == "pork" && Keywords[4].1 == "beef"
    ensures FirstMatch(Keywords, text) != 3 && FirstMatch(Keywords, text) != 4
  {
    MeatWords();
    ShadowedKeyword(Keywords, text, 2, 3);
    ShadowedKeyword(Keywords, text, 2, 4);
  }

  /** None of the nine keys without a photograph has an entry. */
  lemma KeysWithoutPhotoDisjoint()
    ensures forall k :: k in KeysWithoutPhoto ==> k !in PhotoFor
  {
    CabbagesHaveNoPhoto();
    GrainsHaveNoPhoto();
    FishHaveNoPhoto();
  }

  lemma CabbagesHaveNoPhoto()
    ensures "cabbage" !in PhotoFor && "chinese-cabbage" !in PhotoFor && "dressed-dish" !in PhotoFor
  {
  }

  lemma GrainsHaveNoPhoto()
    ensures "brown-rice" !in PhotoFor && "udon" !in PhotoFor && "soba" !in PhotoFor
  {
  }

  lemma FishHaveNoPhoto()
    ensures "ramen" !in PhotoFor && "mackerel" !in PhotoFor && "sea-bream" !in PhotoFor
  {
  }

  /** A prompt whose first food word leads to a key without a photograph gets the
      default. */
  lemma KeysWithoutPhotoGetDefault(prompt: string)
    ensures var i := FirstMatch(Keywords, SearchText(prompt));
      i >= 0 && Keywords[i].1 in KeysWithoutPhoto ==> FallbackPhoto(prompt) == DefaultPhoto
  {
    KeysWithoutPhotoDisjoint();
  }

  /** How the image is produced when the model is called: the call raised, streamed no
      image data, or gave image data saved under a fresh name with the extension
      guessed from its MIME type. */
  datatype ModelOutcome = CallRaised | NoImageData | ImageData(uniqueHex: string, guessedExtension: Option<string>)

  const StaticPrefix := "http://localhost:8003/static/"

  /** `generate_actual_image`: without a key, after a failed call and when no image data
      arrives, the keyword fallback; otherwise the URL of the saved file. */
  function ActualImage(prompt: string, apiKey: Option<string>, outcome: ModelOutcome): (url: Option<string>)
    ensures url.Some?
    ensures apiKey.None? || apiKey == Some("") ==> url == Some(FallbackPhoto(prompt))
    ensures apiKey.Some? && apiKey.value != "" && !outcome.ImageData? ==> url == Some(FallbackPhoto(prompt))
    ensures apiKey.Some? && apiKey.value != "" && outcome.ImageData? ==>
      |url.value| > |StaticPrefix| && url.value[..|StaticPrefix|] == StaticPrefix
  {
    if apiKey.None? || apiKey.value == "" then Some(FallbackPhoto(prompt))
    else match outcome
      case ImageData(hex, extension) =>
        var ext := if extension.Some? && extension.value != "" then extension.value else ".png";
        Some(StaticPrefix + "nano_banana_" + hex + ext)
      case _ => Some(FallbackPhoto(prompt))
  }
}
