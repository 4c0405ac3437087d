/** The image-generation stage: one prompt per dish built from the dish, the theme and
    the requested style, an optional model pass that rewrites the prompt, and exactly
    one image URL and one metadata record per dish. */
module ImageGeneration {
  import opened Wrappers
  import opened Text
  import opened Errors
  import opened Schemas

  // ---- URLs

  const PlaceholderPrefix: string := "https://via.placeholder.com/400x400?text="
  const ImagenPrefix: string := "https://storage.googleapis.com/imagen-generated/"

  /** `_get_placeholder_url`: the fixed prefix and the name with spaces turned into `+`. */
  function PlaceholderUrl(name: string): (u: string)
    ensures |u| == |PlaceholderPrefix| + |name| && u[..|PlaceholderPrefix|] == PlaceholderPrefix
    ensures forall k :: 0 <= k < |name| ==>
      u[|PlaceholderPrefix| + k] == (if name[k] == ' ' then '+' else name[k])
  {
    PlaceholderPrefix + ReplaceChar(name, ' ', '+')
  }

  /** The query part carries no space, and names without `+` keep distinct URLs. */
  lemma PlaceholderUrlInjective(a: string, b: string)
    requires forall k :: 0 <= k < |a| ==> a[k] != '+'
    requires forall k :: 0 <= k < |b| ==> b[k] != '+'
    requires PlaceholderUrl(a) == PlaceholderUrl(b)
    ensures a == b
  {
    var n := |PlaceholderPrefix|;
    assert |a| == |b|;
    forall k | 0 <= k < |a| ensures a[k] == b[k] {
      assert PlaceholderUrl(a)[n + k] == PlaceholderUrl(b)[n + k];
    }
  }

  /** Python's `s[:8]`. */
  function Take8(s: string): (r: string)
    ensures |r| == if |s| < 8 then |s| else 8
    ensures r == s[..|r|]
  {
    if |s| <= 8 then s else s[..8]
  }

  /** `_generate_imagen_url`: the first eight hex digits of the prompt's digest; the
      digest (MD5 in the agent) is a parameter. */
  function ImagenUrl(prompt: string, digest: string -> string): (u: string)
    ensures |u| >= |ImagenPrefix| + 4
    ensures u[..|ImagenPrefix|] == ImagenPrefix && u[|u| - 4..] == ".jpg"
    ensures |digest(prompt)| >= 8 ==> |u| == |ImagenPrefix| + 12
    ensures var n := if |digest(prompt)| < 8 then |digest(prompt)| else 8;
      |u| == |ImagenPrefix| + n + 4 && u[|ImagenPrefix|..|ImagenPrefix| + n] == digest(prompt)[..n]
  {
    ImagenPrefix + Take8(digest(prompt)) + ".jpg"
  }

  // ---- prompts

  /** `image_style`: each key may be missing. */
  datatype ImageStyle = ImageStyle(mood: Option<string>, lighting: Option<string>, composition: Option<string>)

  /** The style line, with the defaults appetizing, natural and professional. */
  function StyleLine(style: ImageStyle): string {
    "Style: " + style.mood.GetOr("appetizing") + ", " + style.lighting.GetOr("natural") + " lighting, "
    + style.composition.GetOr("professional") + " composition"
  }

  /** The palette line, with the default palette warm, natural. */
  function PaletteLine(visual: VisualStyle): string {
    "Color palette: " + Join(visual.colorPalette.GetOr(["warm", "natural"]), ", ")
  }

  /** A missing style key reads as appetizing, natural or professional, and a missing
      palette as warm and natural; a given key is used as given. */
  lemma PromptDefaults(style: ImageStyle, visual: VisualStyle)
    ensures StyleLine(ImageStyle(None, None, None))
            == StyleLine(ImageStyle(Some("appetizing"), Some("natural"), Some("professional")))
    ensures PaletteLine(visual.(colorPalette := None)) == PaletteLine(visual.(colorPalette := Some(["warm", "natural"])))
    ensures style.mood.Some? && style.lighting.Some? && style.composition.Some? ==>
      StyleLine(style) == "Style: " + style.mood.value + ", " + style.lighting.value + " lighting, "
                          + style.composition.value + " composition"
  {
  }

  const Technical: string :=
    "Technical requirements:\n- High resolution (1024x1024)\n- Professional food photography quality\n"
    + "- Natural lighting with warm tones\n- Clean, uncluttered background\n- Focus on food presentation\n"
    + "- Appetizing and delicious appearance\n- Suitable for menu display"

  const Avoid: string :=
    "Avoid: artificial lighting, overly processed look, cluttered background, poor composition"

  function Header(recipe: MealItem): string {
    "Professional food photography of " + recipe.name + ": " + recipe.description
  }

  /** The lines between the dish and the things to avoid. */
  function Middle(theme: MealThemeResult, style: ImageStyle): string {
    "\n\n" + StyleLine(style) + "\nTheme: " + theme.themeName + "\n"
    + PaletteLine(theme.visualStyle) + "\nMood: " + theme.visualStyle.mood.GetOr("appetizing and delicious")
    + "\nPresentation: " + theme.visualStyle.presentationStyle.GetOr("elegant plating")
    + "\n\n" + Technical + "\n\n"
  }

  /** The prompt's text between the f-string's opening and closing newlines. */
  function PromptBody(recipe: MealItem, theme: MealThemeResult, style: ImageStyle): string {
    Header(recipe) + Middle(theme, style) + Avoid
  }

  /** `_create_image_prompt`: the f-string, stripped. */
  function ImagePrompt(recipe: MealItem, theme: MealThemeResult, style: ImageStyle): string {
    Strip("\n" + PromptBody(recipe, theme, style) + "\n")
  }

  /** Stripping a text framed by two newlines gives the text back when it neither
      starts nor ends with white space. */
  lemma StripFramed(body: string)
    requires |body| > 0 && !IsSpace(body[0]) && !IsSpace(body[|body| - 1])
    ensures Strip("\n" + body + "\n") == body
  {
    var s := "\n" + body + "\n";
    assert s[1..] == body + "\n";
    assert TrimLeft(s) == TrimLeft(s[1..]);
    assert TrimLeft(body + "\n") == body + "\n";
    assert (body + "\n")[..|body|] == body;
    assert TrimRight(body + "\n") == TrimRight(body);
  }

  /** Stripping removes exactly the two surrounding newlines, so every prompt opens
      with the dish's name and description and closes with the list of things to avoid. */
  lemma ImagePromptShape(recipe: MealItem, theme: MealThemeResult, style: ImageStyle)
    ensures var p := ImagePrompt(recipe, theme, style);
      p == PromptBody(recipe, theme, style)
      && p[..|Header(recipe)|] == Header(recipe)
      && p[|p| - |Avoid|..] == Avoid
  {
    var h, m := Header(recipe), Middle(theme, style);
    var body := h + m + Avoid;
    assert h[0] == 'P';
    assert body[0] == h[0];
    assert body[|body| - 1] == Avoid[|Avoid| - 1] == 'n';
    StripFramed(body);
    ConcatEnds(h, m, Avoid);
  }

  lemma ConcatEnds(h: string, m: string, a: string)
    ensures (h + m + a)[..|h|] == h && (h + m + a)[|h + m + a| - |a|..] == a
  {
    assert (h + m + a)[..|h|] == (h + m)[..|h|];
  }

  /** `_optimize_prompt_for_imagen`: without a key, on a failed call or on an empty
      reply the prompt is kept; otherwise the stripped reply replaces it. */
  function OptimizePrompt(prompt: string, hasKey: bool, reply: Option<string>): (r: string)
    ensures !hasKey || reply.None? || reply == Some("") ==> r == prompt
    ensures hasKey && reply.Some? && reply.value != "" ==> r == Strip(reply.value)
  {
    if !hasKey then prompt
    else match reply
      case None => prompt
      case Some(text) => if text != "" then Strip(text) else prompt
  }

  // ---- one image per dish

  /** What happens for one dish on the model path: the optimiser's reply (`None` when
      the call raised) and a failure of the image step, if any. */
  datatype Attempt = Attempt(optimizerReply: Option<string>, failure: Option<string>)

  datatype Image = Image(url: string, metadata: ImageMetadata)

  /** The URL and metadata the model path records for one dish. */
  function AiImage(recipe: MealItem, theme: MealThemeResult, style: ImageStyle, hasKey: bool,
                   attempt: Attempt, digest: string -> string): (im: Image)
    ensures im.metadata.recipeName == recipe.name
    ensures attempt.failure.Some? <==> im.metadata.Placeholder?
    ensures attempt.failure.Some? ==> im.url == PlaceholderUrl(recipe.name)
  {
    var prompt := ImagePrompt(recipe, theme, style);
    match attempt.failure
    case Some(error) => Image(PlaceholderUrl(recipe.name), Placeholder(recipe.name, error))
    case None =>
      var optimized := OptimizePrompt(prompt, hasKey, attempt.optimizerReply);
      Image(ImagenUrl(optimized, digest), Generated(recipe.name, prompt, optimized))
  }

  /** The rule-based image for one dish. */
  function MockImage(recipe: MealItem): (im: Image)
    ensures im.url == PlaceholderUrl(recipe.name)
    ensures im.metadata == Mock(recipe.name, "Mock image for " + recipe.name)
  {
    Image(PlaceholderUrl(recipe.name), Mock(recipe.name, "Mock image for " + recipe.name))
  }

  /** `_generate_ai_images`: one URL and one metadata record per dish, in order,
      whether that dish's attempt succeeded or not. */
  method GenerateAiImages(recipes: seq<MealItem>, theme: MealThemeResult, style: ImageStyle, hasKey: bool,
                          attempts: seq<Attempt>, digest: string -> string)
    returns (urls: seq<string>, metadata: seq<ImageMetadata>)
    requires |attempts| == |recipes|
    ensures |urls| == |recipes| && |metadata| == |recipes|
    ensures forall i :: 0 <= i < |recipes| ==>
      Image(urls[i], metadata[i]) == AiImage(recipes[i], theme, style, hasKey, attempts[i], digest)
  {
    urls, metadata := [], [];
    for i := 0 to |recipes|
      invariant |urls| == i && |metadata| == i
      invariant forall k :: 0 <= k < i ==>
        Image(urls[k], metadata[k]) == AiImage(recipes[k], theme, style, hasKey, attempts[k], digest)
    {
      var image := AiImage(recipes[i], theme, style, hasKey, attempts[i], digest);
      RecordImage(recipes, theme, style, hasKey, attempts, digest, urls, metadata, image);
      urls := urls + [image.url];
      metadata := metadata + [image.metadata];
    }
  }

  /** Recording dish `|urls|`'s image after the earlier ones keeps every record right. */
  lemma RecordImage(recipes: seq<MealItem>, theme: MealThemeResult, style: ImageStyle, hasKey: bool,
                    attempts: seq<Attempt>, digest: string -> string, urls: seq<string>,
                    metadata: seq<ImageMetadata>, image: Image)
    requires |urls| == |metadata| < |recipes| == |attempts|
    requires forall k :: 0 <= k < |urls| ==>
      Image(urls[k], metadata[k]) == AiImage(recipes[k], theme, style, hasKey, attempts[k], digest)
    requires image == AiImage(recipes[|urls|], theme, style, hasKey, attempts[|urls|], digest)
    ensures forall k :: 0 <= k <= |urls| ==>
      Image((urls + [image.url])[k], (metadata + [image.metadata])[k])
        == AiImage(recipes[k], theme, style, hasKey, attempts[k], digest)
  {
    forall k | 0 <= k <= |urls|
      ensures Image((urls + [image.url])[k], (metadata + [image.metadata])[k])
        == AiImage(recipes[k], theme, style, hasKey, attempts[k], digest)
    {
      if k < |urls| {
        assert (urls + [image.url])[k] == urls[k] && (metadata + [image.metadata])[k] == metadata[k];
      }
    }
  }

  /** `_get_mock_images`: one placeholder URL and one mock record per dish. */
  method MockImages(recipes: seq<MealItem>) returns (urls: seq<string>, metadata: seq<ImageMetadata>)
    ensures |urls| == |recipes| && |metadata| == |recipes|
    ensures forall i :: 0 <= i < |recipes| ==> Image(urls[i], metadata[i]) == MockImage(recipes[i])
  {
    urls, metadata := [], [];
    for i := 0 to |recipes|
      invariant |urls| == i && |metadata| == i
      invariant forall k :: 0 <= k < i ==> Image(urls[k], metadata[k]) == MockImage(recipes[k])
    {
      urls := urls + [PlaceholderUrl(recipes[i].name)];
      metadata := metadata + [Mock(recipes[i].name, "Mock image for " + recipes[i].name)];
    }
  }

  // ---- process

  /** Looking up a setting: the settings class may not declare it at all. */
  datatype SettingLookup = Undeclared | Declared(value: Option<string>)

  /** How the settings class answers `openai_api_key`: it declares no such field. */
  const OpenAiKeyAsConfigured: SettingLookup := Undeclared

  /** `process`: branch on the OpenAI key, build the result with the measured time. An
      undeclared setting raises `AttributeError` before any image is made. */
  method Process(recipes: seq<MealItem>, theme: MealThemeResult, style: ImageStyle, openAiKey: SettingLookup,
                 hasGeminiKey: bool, attempts: seq<Attempt>, digest: string -> string, elapsed: real)
    returns (r: Result<ImageGenerationResult, Exception>)
    requires |attempts| == |recipes|
    ensures openAiKey.Undeclared? <==> r.Err?
    ensures r.Err? ==> r.error == Builtin(AttributeError, "'Settings' object has no attribute 'openai_api_key'")
    ensures r.Ok? ==> |r.value.imageUrls| == |recipes| && |r.value.imageMetadata| == |recipes|
    ensures r.Ok? && openAiKey.value.GetOr("") == "" ==>
      forall i :: 0 <= i < |recipes| ==> Image(r.value.imageUrls[i], r.value.imageMetadata[i]) == MockImage(recipes[i])
    ensures r.Ok? && openAiKey.value.GetOr("") != "" ==>
      forall i :: 0 <= i < |recipes| ==>
        Image(r.value.imageUrls[i], r.value.imageMetadata[i]) == AiImage(recipes[i], theme, style, hasGeminiKey, attempts[i], digest)
  {
    match openAiKey {
      case Undeclared =>
        return Err(Builtin(AttributeError, "'Settings' object has no attribute 'openai_api_key'"));
      case Declared(key) =>
        var urls, metadata;
        if key.GetOr("") != "" {
          urls, metadata := GenerateAiImages(recipes, theme, style, hasGeminiKey, attempts, digest);
        } else {
          urls, metadata := MockImages(recipes);
        }
        r := Ok(ImageGenerationResult(urls, metadata, elapsed));
    }
  }
}
