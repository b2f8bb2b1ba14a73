/**
 * The application state and its event handlers: complication toggles, recipe
 * phrases, the generation run (analyzing, rendering, complete or error), the
 * brand and style pickers with their per-brand-and-style design cache, and
 * loading a design back from the history.
 *
 * Each handler is one atomic transition. A handler returns the run of states
 * the user sees after the event, in order; an empty run means nothing changed.
 * The replies of the two remote calls, the fresh id and the clock are inputs.
 */
module App {
  import opened Base
  import opened Text
  import opened Types
  import opened Gemini
  import History
  import Selection

  datatype State = State(
    lang: string,
    prompt: string,
    style: string,
    brandId: string,
    selected: seq<string>,
    gen: GenerationState,
    current: Option<Design>,
    cache: map<string, Design>,
    history: seq<Design>)

  /** The state on start-up, before any saved history is restored. */
  const Initial := State("zh", "", Minimalist, Brands[0].id, [],
    GenerationState(false, Idle, None), None, map[], [])

  /**
   * What the outside world supplies to one generation: the specification
   * service's answer to each request, the image reply, the fresh id and the clock.
   */
  datatype Env = Env(specs: SpecsRequest -> SpecsReply, image: ImageReply, id: string, now: int)

  /** The languages offered by the header switch. */
  const UiLanguages: seq<string> := ["en", "zh"]

  /** The recipe phrases offered under the prompt box. */
  const Recipes: seq<string> := [
    "Minimalist layout with ultra-thin hands and plenty of white space.",
    "Forged carbon fiber chassis with neon matrix gauges and futuristic data flow.",
    "Warm brass casing, ivory textured face, and high-contrast Breguet numbers.",
    "Electric blue highlights on deep matte black, synthwave aesthetic, pulsing ring glow.",
    "Organic patterns inspired by moss on stone, soft green gradients, earthy textures."
  ]

  const ErrorEn := "Generation failed. " + "Please try again."
  const ErrorZh := "生成失败，请重试。"

  /** The localized error text; languages without a translation table use English. */
  function ErrorText(lang: string): string {
    if lang == "zh" then ErrorZh else ErrorEn
  }

  /** The selected brand, or the first supported brand for an unknown id. */
  function CurrentBrand(s: State): Brand {
    BrandById(s.brandId)
  }

  // ---------------------------------------------------------------- simple handlers

  /** `prev ? prev.trim() + " " + phrase : phrase`. */
  function RecipeClick(prompt: string, phrase: string): string {
    if prompt == [] then phrase else Trim(prompt) + " " + phrase
  }

  /**
   * The first recipe click: an empty prompt becomes the phrase itself; any other
   * prompt is trimmed on both sides and followed by one space and the phrase.
   */
  lemma RecipeFirstClick(prompt: string, phrase: string)
    ensures prompt == [] ==> RecipeClick(prompt, phrase) == phrase
    ensures prompt != [] ==> var r, t := RecipeClick(prompt, phrase), Trim(prompt);
      && |r| == |t| + 1 + |phrase|
      && r[..|t|] == t && r[|t|] == ' ' && r[|t| + 1..] == phrase
      && (t == [] <==> AllSpace(prompt))
      && (t != [] ==> !IsSpace(r[0]) && !IsSpace(r[|t| - 1]))
  {}

  /** A prompt of blanks only is not empty, so the phrase lands after one space. */
  lemma RecipeOnBlankPrompt(prompt: string, phrase: string)
    requires prompt != [] && AllSpace(prompt)
    ensures RecipeClick(prompt, phrase) == " " + phrase
  {}

  /**
   * A second recipe is appended after the first: once the prompt holds a
   * non-blank character and the first phrase ends in a non-blank, nothing of
   * the first click's result is trimmed away.
   */
  lemma RecipesAccumulate(prompt: string, a: string, b: string)
    requires !AllSpace(prompt)
    requires a != [] && !IsSpace(a[|a| - 1])
    ensures RecipeClick(RecipeClick(prompt, a), b) == RecipeClick(prompt, a) + " " + b
  {
    var t := RecipeClick(prompt, a);
    assert t[|t| - 1] == a[|a| - 1];
    TrimTrimmed(t);
  }

  // ---------------------------------------------------------------- generation

  /** `brandOverride || currentBrand`. */
  function UsedBrand(s: State, brandOverride: Option<Brand>): Brand {
    brandOverride.GetOr(CurrentBrand(s))
  }

  /** `styleOverride || selectedStyle`: an empty override counts as absent. */
  function UsedStyle(s: State, styleOverride: Option<string>): string {
    if styleOverride.Some? && styleOverride.value != "" then styleOverride.value else s.style
  }

  /** The design assembled from the specification and the application's own fields. */
  function NewDesign(sp: Specs, id: string, url: string, now: int, lang: string, prompt: string): Design {
    Design(id, sp.name, sp.description, sp.style, sp.targetDevice, sp.colorPalette,
      sp.complications, sp.visualPrompt, prompt, Some(url), now, lang)
  }

  /** The `catch` branch: an error step with the localized message. */
  function Failed(s: State): State {
    s.(gen := GenerationState(false, Error, Some(ErrorText(s.lang))))
  }

  /** The `finally` branch: a state still marked as generating stops generating. */
  function Finally(s: State): State {
    if s.gen.isGenerating then s.(gen := s.gen.(isGenerating := false)) else s
  }

  /** How the two remote calls of a run went. */
  datatype Outcome = SpecsFailed | ImageFailed | Done(specs: Specs, url: string)

  /**
   * The specification request of a run: the prompt, the style used, the device
   * name and screen shape of the brand used, the language and the selection.
   */
  function Ask(s: State, brand: Brand, style: string): SpecsRequest {
    BuildSpecsRequest(s.prompt, style, brand.name, s.lang, brand.shape, s.selected)
  }

  /** The outcome of a run that sends `req`, read off the service's answers. */
  function OutcomeOf(env: Env, req: SpecsRequest): Outcome {
    match GenerateSpecs(env.specs(req), req.targetDevice)
    case Fail(_) => SpecsFailed
    case Ok(sp) =>
      match GenerateImage(env.image)
      case Fail(_) => ImageFailed
      case Ok(url) => Done(sp, url)
  }

  /** The run fails at the first call that fails; it is done when both succeed. */
  lemma OutcomeOfSpec(env: Env, req: SpecsRequest)
    ensures var o, sp := OutcomeOf(env, req), GenerateSpecs(env.specs(req), req.targetDevice);
      && (o.SpecsFailed? <==> sp.Fail?)
      && (o.ImageFailed? <==> sp.Ok? && GenerateImage(env.image).Fail?)
      && (o.Done? ==> o.specs == sp.value && o.url == GenerateImage(env.image).value)
      && (o.Done? ==> o.specs.targetDevice == req.targetDevice && DataUrlPayload(o.url).Some?)
  {
    if OutcomeOf(env, req).Done? {
      ImagePayloadRoundTrip(env.image);
    }
  }

  /** The first state of a run: analyzing, no design shown, the cache cleared on request. */
  function Started(s: State, clearCache: bool): State {
    s.(gen := GenerationState(true, Analyzing, None), current := None,
       cache := if clearCache then map[] else s.cache)
  }

  /**
   * The last state of a run: the error step after a failed call, or, once the
   * image arrived, the new design shown, cached under brand and style, and put
   * at the head of the history.
   */
  function RunEnd(s: State, brand: Brand, style: string, clearCache: bool, o: Outcome,
                  id: string, now: int): State
  {
    var a := Started(s, clearCache);
    match o
    case SpecsFailed => Finally(Failed(a))
    case ImageFailed => Finally(Failed(a.(gen := GenerationState(true, Rendering, None))))
    case Done(sp, url) =>
      var d := NewDesign(sp, id, url, now, s.lang, s.prompt);
      Finally(a.(
        current := Some(d),
        cache := a.cache[CacheKey(brand.id, style) := d],
        history := History.Update(d, a.history),
        gen := GenerationState(false, Complete, None)))
  }

  /** The states of an accepted run: analyzing, rendering once the specification arrived, the end. */
  function Run(s: State, brand: Brand, style: string, clearCache: bool, o: Outcome,
               id: string, now: int): seq<State>
  {
    var a := Started(s, clearCache);
    var last := RunEnd(s, brand, style, clearCache, o, id, now);
    if o.SpecsFailed? then [a, last]
    else [a, a.(gen := GenerationState(true, Rendering, None)), last]
  }

  /**
   * `handleGenerate`: refused for a blank prompt or while a run is going,
   * otherwise a run for the override brand and style or the selected ones.
   */
  function Generate(s: State, brandOverride: Option<Brand>, styleOverride: Option<string>,
                    clearCache: bool, env: Env): seq<State>
  {
    if Trim(s.prompt) == [] || s.gen.isGenerating then []
    else
      var brand, style := UsedBrand(s, brandOverride), UsedStyle(s, styleOverride);
      Run(s, brand, style, clearCache, OutcomeOf(env, Ask(s, brand, style)), env.id, env.now)
  }

  /** The steps a run goes through. */
  function Steps(run: seq<State>): (r: seq<Step>)
    ensures |r| == |run|
  {
    seq(|run|, k requires 0 <= k < |run| => run[k].gen.step)
  }

  /** The state after a run: its last state, or the state before it when nothing changed. */
  function Final(s: State, run: seq<State>): State {
    if |run| == 0 then s else run[|run| - 1]
  }

  /**
   * The shape of every run: it opens with analyzing and no design, is marked as
   * generating until its last state, which is not, and goes through
   * analyzing-rendering-complete, analyzing-error or analyzing-rendering-error
   * as the calls went.
   */
  lemma RunShape(s: State, brand: Brand, style: string, clearCache: bool, o: Outcome, id: string, now: int)
    ensures |Run(s, brand, style, clearCache, o, id, now)| >= 2
    ensures Run(s, brand, style, clearCache, o, id, now)[0] == Started(s, clearCache)
    ensures Started(s, clearCache).gen == GenerationState(true, Analyzing, None)
    ensures Started(s, clearCache).current == None
    ensures forall k | 0 <= k < |Run(s, brand, style, clearCache, o, id, now)| - 1 ::
      Run(s, brand, style, clearCache, o, id, now)[k].gen.isGenerating
    ensures Final(s, Run(s, brand, style, clearCache, o, id, now)) == RunEnd(s, brand, style, clearCache, o, id, now)
    ensures !RunEnd(s, brand, style, clearCache, o, id, now).gen.isGenerating
    ensures o.SpecsFailed? ==> Steps(Run(s, brand, style, clearCache, o, id, now)) == [Analyzing, Error]
    ensures o.ImageFailed? ==> Steps(Run(s, brand, style, clearCache, o, id, now)) == [Analyzing, Rendering, Error]
    ensures o.Done? ==> Steps(Run(s, brand, style, clearCache, o, id, now)) == [Analyzing, Rendering, Complete]
  {
  }

  /**
   * How a run ends. An error carries the localized message, shows no design,
   * and leaves the history alone and the cache cleared or untouched as asked.
   * The prompt, selection, language, brand and style are never touched.
   */
  lemma RunEndFailed(s: State, brand: Brand, style: string, clearCache: bool, o: Outcome, id: string, now: int)
    ensures var t := RunEnd(s, brand, style, clearCache, o, id, now);
      && (t.gen.step == Error <==> !o.Done?)
      && (t.gen.step == Complete <==> o.Done?)
      && (!o.Done? ==>
        && t.gen.errorMessage == Some(ErrorText(s.lang))
        && t.current == None
        && t.history == s.history
        && t.cache == (if clearCache then map[] else s.cache))
      && t.prompt == s.prompt && t.selected == s.selected && t.lang == s.lang
      && t.brandId == s.brandId && t.style == s.style
  {}

  /**
   * A complete run shows the new design: built from the specification, it
   * carries the prompt, language, id, clock and image URL, is cached under the
   * brand and style used (in a fresh cache when clearing was asked for), and
   * heads a history of at most ten entries with distinct image URLs.
   */
  lemma RunEndDone(s: State, brand: Brand, style: string, clearCache: bool, o: Outcome, id: string, now: int)
    requires o.Done?
    ensures var t, key := RunEnd(s, brand, style, clearCache, o, id, now), CacheKey(brand.id, style);
      && t.current.Some? && var d := t.current.value;
      && d.name == o.specs.name && d.description == o.specs.description
      && d.style == o.specs.style && d.targetDevice == o.specs.targetDevice
      && d.colorPalette == o.specs.colorPalette && d.complications == o.specs.complications
      && d.visualPrompt == o.specs.visualPrompt
      && d.originalPrompt == s.prompt && d.language == s.lang
      && d.id == id && d.createdAt == now && d.imageUrl == Some(o.url)
      && t.gen.errorMessage == None
      && t.cache == (if clearCache then map[key := d] else s.cache[key := d])
      && t.history == History.Update(d, s.history)
      && |t.history| >= 1 && t.history[0] == d && |t.history| <= History.MaxHistory
      && History.UniqueUrls(t.history)
  {
    var t := RunEnd(s, brand, style, clearCache, o, id, now);
    History.UpdateSpec(t.current.value, s.history);
  }

  /** Generation is refused exactly for a blank prompt or while a run is going; otherwise it is a run. */
  lemma GenerateGuard(s: State, brandOverride: Option<Brand>, styleOverride: Option<string>,
                      clearCache: bool, env: Env)
    ensures |Generate(s, brandOverride, styleOverride, clearCache, env)| == 0 <==> Trim(s.prompt) == [] || s.gen.isGenerating
    ensures |Generate(s, brandOverride, styleOverride, clearCache, env)| != 0 ==>
      Final(s, Generate(s, brandOverride, styleOverride, clearCache, env))
        == RunEnd(s, UsedBrand(s, brandOverride), UsedStyle(s, styleOverride), clearCache,
                  OutcomeOf(env, Ask(s, UsedBrand(s, brandOverride), UsedStyle(s, styleOverride))), env.id, env.now)
  {
    if !(Trim(s.prompt) == [] || s.gen.isGenerating) {
      var brand, style := UsedBrand(s, brandOverride), UsedStyle(s, styleOverride);
      RunShape(s, brand, style, clearCache, OutcomeOf(env, Ask(s, brand, style)), env.id, env.now);
    }
  }

  /**
   * Which steps an accepted generation goes through: complete exactly when both
   * calls succeed, an error right after analyzing exactly when the
   * specification call fails, an error after rendering otherwise.
   */
  lemma GenerateOutcome(s: State, brandOverride: Option<Brand>, styleOverride: Option<string>,
                        clearCache: bool, env: Env)
    requires !AllSpace(s.prompt) && !s.gen.isGenerating
    ensures var run, specs := Generate(s, brandOverride, styleOverride, clearCache, env),
                              GenerateSpecs(env.specs(Ask(s, UsedBrand(s, brandOverride), UsedStyle(s, styleOverride))),
                                            UsedBrand(s, brandOverride).name);
      && (specs.Fail? ==> Steps(run) == [Analyzing, Error])
      && (specs.Ok? && GenerateImage(env.image).Fail? ==> Steps(run) == [Analyzing, Rendering, Error])
      && (specs.Ok? && GenerateImage(env.image).Ok? ==> Steps(run) == [Analyzing, Rendering, Complete])
  {
    var brand, style := UsedBrand(s, brandOverride), UsedStyle(s, styleOverride);
    OutcomeOfSpec(env, Ask(s, brand, style));
    RunShape(s, brand, style, clearCache, OutcomeOf(env, Ask(s, brand, style)), env.id, env.now);
  }

  /**
   * A complete generation shows a design for the brand used, with the image the
   * image call returned, cached under that brand and the style used.
   */
  lemma GenerateSuccess(s: State, brandOverride: Option<Brand>, styleOverride: Option<string>,
                        clearCache: bool, env: Env)
    requires !AllSpace(s.prompt) && !s.gen.isGenerating
    requires SpecsAnswered(env.specs(Ask(s, UsedBrand(s, brandOverride), UsedStyle(s, styleOverride))))
    requires GenerateImage(env.image).Ok?
    ensures var t, brand := Final(s, Generate(s, brandOverride, styleOverride, clearCache, env)),
                            UsedBrand(s, brandOverride);
      var key := CacheKey(brand.id, UsedStyle(s, styleOverride));
      && t.current.Some? && var d := t.current.value;
      && d.targetDevice == brand.name && d.imageUrl == Some(GenerateImage(env.image).value)
      && d.originalPrompt == s.prompt && d.id == env.id && d.createdAt == env.now
      && t.cache == (if clearCache then map[key := d] else s.cache[key := d])
      && |t.history| >= 1 && t.history[0] == d
  {
    var brand, style := UsedBrand(s, brandOverride), UsedStyle(s, styleOverride);
    var o := OutcomeOf(env, Ask(s, brand, style));
    GenerateGuard(s, brandOverride, styleOverride, clearCache, env);
    OutcomeOfSpec(env, Ask(s, brand, style));
    RunEndDone(s, brand, style, clearCache, o, env.id, env.now);
  }

  /**
   * What an accepted generation asks the specification service for: the prompt,
   * the style used, the used brand's device name and screen shape, the name of
   * the current language and the selection's two lines, the features line
   * naming a valid selection in order. The run ends on the answer to that request.
   */
  lemma GenerateAsks(s: State, brandOverride: Option<Brand>, styleOverride: Option<string>,
                     clearCache: bool, env: Env)
    requires !AllSpace(s.prompt) && !s.gen.isGenerating
    ensures var brand, style := UsedBrand(s, brandOverride), UsedStyle(s, styleOverride);
      var req := Ask(s, brand, style);
      && Final(s, Generate(s, brandOverride, styleOverride, clearCache, env))
           == RunEnd(s, brand, style, clearCache, OutcomeOf(env, req), env.id, env.now)
      && req.userPrompt == s.prompt && req.styleHint == style
      && req.targetDevice == brand.name && req.shape == brand.shape
      && req.languageName == LangName(s.lang)
      && req.featuresLine == FeaturesRequest(s.selected)
      && req.requiredLine == RequiredComplications(s.selected)
      && (ValidSelection(s.selected) ==>
            ParseFeatures(req.featuresLine) == if |s.selected| == 0 then None else Some(s.selected))
  {
    GenerateGuard(s, brandOverride, styleOverride, clearCache, env);
    if ValidSelection(s.selected) {
      FeaturesRoundTrip(s.selected);
    }
  }

  /**
   * A request names what it was built from: among supported brands and valid
   * selections, two runs send the same request only for the same brand, style,
   * prompt and selection. So a different brand, shape included, is a different
   * request.
   */
  lemma AskDetermines(s: State, t: State, b1: Brand, b2: Brand, st1: string, st2: string)
    requires b1 in Brands && b2 in Brands
    requires ValidSelection(s.selected) && ValidSelection(t.selected)
    requires Ask(s, b1, st1) == Ask(t, b2, st2)
    ensures b1 == b2 && st1 == st2 && s.prompt == t.prompt && s.selected == t.selected
  {
    FeaturesRoundTrip(s.selected);
    FeaturesRoundTrip(t.selected);
    assert |s.selected| == 0 <==> FeaturesRequest(s.selected) == FeaturesFallback;
    assert |t.selected| == 0 <==> FeaturesRequest(t.selected) == FeaturesFallback;
    BrandsDistinct();
    var i :| 0 <= i < |Brands| && Brands[i] == b1;
    var j :| 0 <= j < |Brands| && Brands[j] == b2;
    assert b1.name == b2.name;
    if i < j {
      assert Brands[i].name != Brands[j].name;
    } else if j < i {
      assert Brands[j].name != Brands[i].name;
    }
  }

  // ---------------------------------------------------------------- brand and style pickers

  /**
   * What a picker does once its new brand or style is in `s1`: show the design
   * cached under `key`, or, failing that, start a run without clearing the
   * cache when a design is shown and the prompt is not blank.
   */
  function Pick(s1: State, key: string, brandOverride: Option<Brand>, styleOverride: Option<string>,
                env: Env): seq<State>
  {
    if key in s1.cache then [s1.(current := Some(s1.cache[key]))]
    else if s1.current.Some? && Trim(s1.prompt) != [] then Generate(s1, brandOverride, styleOverride, false, env)
    else [s1]
  }

  /** `handleBrandSelect`: ignored while generating; the key pairs the new brand with the selected style. */
  function OnBrand(s: State, b: Brand, env: Env): seq<State> {
    if s.gen.isGenerating then []
    else Pick(s.(brandId := b.id), CacheKey(b.id, s.style), Some(b), None, env)
  }

  /** `handleStyleSelect`: ignored while generating; the key pairs the selected brand id with the new style. */
  function OnStyle(s: State, style: string, env: Env): seq<State> {
    if s.gen.isGenerating then []
    else Pick(s.(style := style), CacheKey(s.brandId, style), None, Some(style), env)
  }

  /** A picker's regeneration is a run that keeps the cache. */
  lemma PickRegenerates(s1: State, key: string, brandOverride: Option<Brand>, styleOverride: Option<string>, env: Env)
    requires !s1.gen.isGenerating && key !in s1.cache && s1.current.Some? && !AllSpace(s1.prompt)
    ensures Pick(s1, key, brandOverride, styleOverride, env) == Generate(s1, brandOverride, styleOverride, false, env)
    ensures |Pick(s1, key, brandOverride, styleOverride, env)| > 1
    ensures Final(s1, Pick(s1, key, brandOverride, styleOverride, env))
      == RunEnd(s1, UsedBrand(s1, brandOverride), UsedStyle(s1, styleOverride), false,
                OutcomeOf(env, Ask(s1, UsedBrand(s1, brandOverride), UsedStyle(s1, styleOverride))), env.id, env.now)
  {
    var brand, style := UsedBrand(s1, brandOverride), UsedStyle(s1, styleOverride);
    RunShape(s1, brand, style, false, OutcomeOf(env, Ask(s1, brand, style)), env.id, env.now);
  }

  /**
   * A picker shows a cache hit and starts nothing; on a miss it starts a run
   * exactly when a design is shown and the prompt is not blank.
   */
  lemma PickStarts(s1: State, key: string, brandOverride: Option<Brand>, styleOverride: Option<string>, env: Env)
    requires !s1.gen.isGenerating
    ensures |Pick(s1, key, brandOverride, styleOverride, env)| >= 1
    ensures key in s1.cache ==>
      Pick(s1, key, brandOverride, styleOverride, env) == [s1.(current := Some(s1.cache[key]))]
    ensures key !in s1.cache ==>
      (|Pick(s1, key, brandOverride, styleOverride, env)| > 1 <==> s1.current.Some? && Trim(s1.prompt) != [])
  {
    if key !in s1.cache && s1.current.Some? && Trim(s1.prompt) != [] {
      PickRegenerates(s1, key, brandOverride, styleOverride, env);
    }
  }

  /**
   * Whatever a picker does, it ends with no run going, the picked brand and
   * style in place, and every cache entry kept; a complete run adds its design
   * under the key that was looked up, when that is the key of the brand and
   * style the run uses.
   */
  lemma PickEnd(s1: State, key: string, brandOverride: Option<Brand>, styleOverride: Option<string>, env: Env)
    requires !s1.gen.isGenerating
    requires brandOverride.None? ==> Supported(s1.brandId)
    requires key == CacheKey(if brandOverride.Some? then brandOverride.value.id else s1.brandId,
                             UsedStyle(s1, styleOverride))
    ensures var t := Final(s1, Pick(s1, key, brandOverride, styleOverride, env));
      && !t.gen.isGenerating && t.brandId == s1.brandId && t.style == s1.style
      && (forall k | k in s1.cache :: k in t.cache && t.cache[k] == s1.cache[k])
      && (|Pick(s1, key, brandOverride, styleOverride, env)| > 1 && t.gen.step == Complete ==>
        && t.current.Some? && t.current.value.targetDevice == UsedBrand(s1, brandOverride).name
        && t.cache == s1.cache[key := t.current.value])
  {
    if key !in s1.cache && s1.current.Some? && Trim(s1.prompt) != [] {
      var brand, style := UsedBrand(s1, brandOverride), UsedStyle(s1, styleOverride);
      assert key == CacheKey(brand.id, style);
      var o := OutcomeOf(env, Ask(s1, brand, style));
      PickRegenerates(s1, key, brandOverride, styleOverride, env);
      OutcomeOfSpec(env, Ask(s1, brand, style));
      RunEndKeepsCache(s1, brand, style, o, env.id, env.now);
    }
  }

  /** A run that keeps the cache ends idle, in place, and adds at most its own design. */
  lemma RunEndKeepsCache(s: State, brand: Brand, style: string, o: Outcome, id: string, now: int)
    requires o.Done? ==> o.specs.targetDevice == brand.name
    ensures var t := RunEnd(s, brand, style, false, o, id, now);
      && !t.gen.isGenerating && t.brandId == s.brandId && t.style == s.style
      && (forall k | k in s.cache && k != CacheKey(brand.id, style) :: k in t.cache && t.cache[k] == s.cache[k])
      && (t.gen.step == Complete ==>
        && t.current.Some? && t.current.value.targetDevice == brand.name
        && t.cache == s.cache[CacheKey(brand.id, style) := t.current.value])
  {
    RunShape(s, brand, style, false, o, id, now);
    RunEndFailed(s, brand, style, false, o, id, now);
    if o.Done? {
      RunEndDone(s, brand, style, false, o, id, now);
    }
  }


  /**
   * Picking a brand: a hit shows the design cached for that brand and the
   * selected style without a request; a miss with a design shown and a prompt
   * regenerates for that brand and, once complete, caches the design under the
   * same key it was looked up with.
   */
  lemma BrandPick(s: State, b: Brand, env: Env)
    requires !s.gen.isGenerating
    ensures var run, key := OnBrand(s, b, env), CacheKey(b.id, s.style);
      var t := Final(s, run);
      && (key in s.cache ==> run == [s.(brandId := b.id, current := Some(s.cache[key]))])
      && (key !in s.cache ==> (|run| > 1 <==> s.current.Some? && Trim(s.prompt) != []))
      && t.brandId == b.id && t.style == s.style && !t.gen.isGenerating
      && (|run| > 1 && t.gen.step == Complete ==>
        t.current.Some? && t.current.value.targetDevice == b.name && t.cache == s.cache[key := t.current.value])
  {
    var s1 := s.(brandId := b.id);
    PickStarts(s1, CacheKey(b.id, s.style), Some(b), None, env);
    PickEnd(s1, CacheKey(b.id, s.style), Some(b), None, env);
  }

  /**
   * On a miss with a design shown and a prompt, picking a brand asks for that
   * brand's device name and screen shape, the selected style, the prompt and
   * the selection, and ends on the answer.
   */
  lemma BrandPickAsks(s: State, b: Brand, env: Env)
    requires !s.gen.isGenerating && CacheKey(b.id, s.style) !in s.cache
    requires s.current.Some? && !AllSpace(s.prompt)
    ensures var s1 := s.(brandId := b.id);
      var req := Ask(s1, b, s.style);
      && Final(s, OnBrand(s, b, env)) == RunEnd(s1, b, s.style, false, OutcomeOf(env, req), env.id, env.now)
      && req.targetDevice == b.name && req.shape == b.shape && req.styleHint == s.style
      && req.userPrompt == s.prompt && req.featuresLine == FeaturesRequest(s.selected)
  {
    var s1 := s.(brandId := b.id);
    PickRegenerates(s1, CacheKey(b.id, s.style), Some(b), None, env);
  }

  /**
   * On a miss with a design shown and a prompt, picking a style asks for the
   * current brand with the picked style, and ends on the answer.
   */
  lemma StylePickAsks(s: State, style: string, env: Env)
    requires !s.gen.isGenerating && CacheKey(s.brandId, style) !in s.cache
    requires s.current.Some? && !AllSpace(s.prompt)
    ensures var s1 := s.(style := style);
      var req := Ask(s1, CurrentBrand(s), style);
      && Final(s, OnStyle(s, style, env)) == RunEnd(s1, CurrentBrand(s), style, false, OutcomeOf(env, req), env.id, env.now)
      && req.targetDevice == CurrentBrand(s).name && req.shape == CurrentBrand(s).shape && req.styleHint == style
      && req.userPrompt == s.prompt && req.featuresLine == FeaturesRequest(s.selected)
  {
    var s1 := s.(style := style);
    PickRegenerates(s1, CacheKey(s.brandId, style), None, Some(style), env);
  }

  /**
   * Picking a style mirrors picking a brand; for a supported selected brand the
   * key a complete run caches under is the key the lookup used.
   */
  lemma StylePick(s: State, style: string, env: Env)
    requires !s.gen.isGenerating && Supported(s.brandId)
    ensures var run, key := OnStyle(s, style, env), CacheKey(s.brandId, style);
      var t := Final(s, run);
      && (key in s.cache ==> run == [s.(style := style, current := Some(s.cache[key]))])
      && (key !in s.cache ==> (|run| > 1 <==> s.current.Some? && Trim(s.prompt) != []))
      && t.brandId == s.brandId && t.style == style && !t.gen.isGenerating
      && (|run| > 1 && t.gen.step == Complete ==>
        t.current.Some? && t.current.value.targetDevice == CurrentBrand(s).name
        && t.cache == s.cache[key := t.current.value])
  {
    PickStarts(s.(style := style), CacheKey(s.brandId, style), None, Some(style), env);
    PickEnd(s.(style := style), CacheKey(s.brandId, style), None, Some(style), env);
  }

  /**
   * Once picking a brand has generated a design for it, coming back to that
   * brand after picking any other shows the same design from the cache,
   * without a request.
   */
  lemma BrandRevisitIsCached(s: State, b: Brand, env: Env, other: Brand, env2: Env, env3: Env)
    requires !s.gen.isGenerating && CacheKey(b.id, s.style) !in s.cache
    requires s.current.Some? && !AllSpace(s.prompt)
    requires SpecsAnswered(env.specs(Ask(s.(brandId := b.id), b, s.style))) && GenerateImage(env.image).Ok?
    ensures var t := Final(s, OnBrand(s, b, env));
      var u := Final(t, OnBrand(t, other, env2));
      OnBrand(u, b, env3) == [u.(brandId := b.id, current := t.current)]
  {
    var key := CacheKey(b.id, s.style);
    var s1 := s.(brandId := b.id);
    PickRegenerates(s1, key, Some(b), None, env);
    OutcomeOfSpec(env, Ask(s1, b, s.style));
    RunEndFailed(s1, b, s.style, false, OutcomeOf(env, Ask(s1, b, s.style)), env.id, env.now);
    BrandPick(s, b, env);
    var t := Final(s, OnBrand(s, b, env));
    assert t.style == s.style && key in t.cache && t.cache[key] == t.current.value;
    var t1 := t.(brandId := other.id);
    PickEnd(t1, CacheKey(other.id, t.style), Some(other), None, env2);
    PickStarts(t1, CacheKey(other.id, t.style), Some(other), None, env2);
    var p2 := Pick(t1, CacheKey(other.id, t.style), Some(other), None, env2);
    assert OnBrand(t, other, env2) == p2;
    var u := Final(t, p2);
    assert Final(t1, p2) == u;
    assert u.style == s.style && key in u.cache && u.cache[key] == t.current.value;
    var u1 := u.(brandId := b.id);
    PickStarts(u1, key, Some(b), None, env3);
    assert OnBrand(u, b, env3) == Pick(u1, key, Some(b), None, env3);
  }

  // ---------------------------------------------------------------- history

  /** The style-enumeration value equal to `x`, if any. */
  function FindStyle(styles: seq<string>, x: string): (r: Option<string>)
    ensures r.Some? ==> r.value == x && x in styles
    ensures r.None? ==> x !in styles
  {
    if styles == [] then None
    else if styles[0] == x then Some(x)
    else FindStyle(styles[1..], x)
  }

  /** `Object.values(DesignStyle).find(s => s === x) || x`. */
  function MatchStyle(x: string): string {
    FindStyle(Styles, x).GetOr(x)
  }

  /** The style match always gives back the stored style, enumeration value or not. */
  lemma MatchStyleIsStored(x: string)
    ensures MatchStyle(x) == x
    ensures FindStyle(Styles, x).Some? <==> x in Styles
  {}

  /**
   * `loadFromHistory`: ignored while generating; otherwise the design is shown,
   * its prompt restored, the brand looked up by the design's device name and
   * its style selected, and the cache reset to that one design.
   */
  function OnLoad(s: State, d: Design): State {
    if s.gen.isGenerating then s
    else
      var b := BrandByName(d.targetDevice);
      var style := MatchStyle(d.style);
      s.(cache := map[CacheKey(b.id, style) := d], current := Some(d), prompt := d.originalPrompt,
         brandId := b.id, style := style)
  }

  /**
   * Loading shows the design and its prompt, selects its style as stored and
   * the brand with its device name (the first brand when none has it), and
   * leaves a cache of exactly that design under that brand and style; the
   * language, selection, history and generation state are kept.
   */
  lemma LoadSpec(s: State, d: Design)
    requires !s.gen.isGenerating
    ensures var t := OnLoad(s, d);
      && t.current == Some(d) && t.prompt == d.originalPrompt && t.style == d.style
      && t.brandId == BrandByName(d.targetDevice).id
      && ((exists k | 0 <= k < |Brands| :: Brands[k].name == d.targetDevice) ==> CurrentBrand(t).name == d.targetDevice)
      && ((forall k | 0 <= k < |Brands| :: Brands[k].name != d.targetDevice) ==> t.brandId == "apple")
      && t.cache == map[CacheKey(t.brandId, d.style) := d]
      && t.lang == s.lang && t.selected == s.selected && t.history == s.history && t.gen == s.gen
  {
    MatchStyleIsStored(d.style);
    LookupOwn(BrandByName(d.targetDevice));
  }

  /** Right after loading, re-picking the loaded style is a cache hit on the loaded design. */
  lemma LoadThenSameStyleHits(s: State, d: Design, env: Env)
    requires !s.gen.isGenerating
    ensures var t := OnLoad(s, d);
      OnStyle(t, d.style, env) == [t.(style := d.style, current := Some(d))]
  {
    LoadSpec(s, d);
  }

  /** A design generated for a supported brand loads back with that brand selected. */
  lemma GeneratedLoadsBack(s: State, b: Brand, styleOverride: Option<string>, clearCache: bool,
                           env: Env, later: State)
    requires b in Brands && !AllSpace(s.prompt) && !s.gen.isGenerating
    requires SpecsAnswered(env.specs(Ask(s, b, UsedStyle(s, styleOverride)))) && GenerateImage(env.image).Ok?
    requires !later.gen.isGenerating
    ensures Final(s, Generate(s, Some(b), styleOverride, clearCache, env)).current.Some?
    ensures OnLoad(later, Final(s, Generate(s, Some(b), styleOverride, clearCache, env)).current.value).brandId == b.id
  {
    GenerateSuccess(s, Some(b), styleOverride, clearCache, env);
    LookupOwn(b);
  }

  // ---------------------------------------------------------------- events

  datatype Event =
    | TypePrompt(text: string)
    | SwitchLanguage(code: string)
    | ToggleComplication(key: string)
    | ToggleEvery
    | Recipe(phrase: string)
    | GenerateClicked
    | PickBrand(brand: Brand)
    | PickStyle(style: string)
    | LoadDesign(design: Design)

  /** The run of states after one event. */
  function Handle(s: State, e: Event, env: Env): seq<State> {
    match e
    case TypePrompt(text) => [s.(prompt := text)]
    case SwitchLanguage(code) => [s.(lang := code)]
    case ToggleComplication(c) => [s.(selected := Selection.Toggle(s.selected, c))]
    case ToggleEvery => [s.(selected := Selection.ToggleAll(s.selected))]
    case Recipe(phrase) => [s.(prompt := RecipeClick(s.prompt, phrase))]
    case GenerateClicked => Generate(s, None, None, true, env)
    case PickBrand(b) => OnBrand(s, b, env)
    case PickStyle(style) => OnStyle(s, style, env)
    case LoadDesign(d) => if s.gen.isGenerating then [] else [OnLoad(s, d)]
  }

  /** The events the interface can produce: its own keys, phrases, brands, styles and languages. */
  predicate Offered(e: Event) {
    match e
    case SwitchLanguage(code) => code in UiLanguages
    case ToggleComplication(c) => c in Complications
    case Recipe(phrase) => phrase in Recipes
    case PickStyle(style) => style in Styles
    case PickBrand(b) => b in Brands
    case _ => true
  }

  /**
   * Between events: a valid selection, a duplicate-free history of at most ten
   * designs, a known brand, no run going, and an error message exactly in the
   * error step.
   */
  predicate Inv(s: State) {
    && ValidSelection(s.selected)
    && History.UniqueUrls(s.history) && |s.history| <= History.MaxHistory
    && Supported(s.brandId)
    && !s.gen.isGenerating
    && (s.gen.errorMessage.Some? <==> s.gen.step == Error)
  }

  lemma InitialInv()
    ensures Inv(Initial)
  {}

  /** Generation keeps the invariant (a run touches only the generation fields, design, cache and history). */
  lemma GenerateKeepsInv(s: State, brandOverride: Option<Brand>, styleOverride: Option<string>,
                         clearCache: bool, env: Env)
    requires Inv(s)
    ensures Inv(Final(s, Generate(s, brandOverride, styleOverride, clearCache, env)))
  {
    if !(Trim(s.prompt) == [] || s.gen.isGenerating) {
      GenerateGuard(s, brandOverride, styleOverride, clearCache, env);
      var brand, style := UsedBrand(s, brandOverride), UsedStyle(s, styleOverride);
      RunEndKeepsInv(s, brand, style, clearCache, OutcomeOf(env, Ask(s, brand, style)), env.id, env.now);
    }
  }

  /** The end of a run keeps the invariant. */
  lemma RunEndKeepsInv(s: State, brand: Brand, style: string, clearCache: bool, o: Outcome, id: string, now: int)
    requires Inv(s)
    ensures Inv(RunEnd(s, brand, style, clearCache, o, id, now))
  {
    RunEndFailed(s, brand, style, clearCache, o, id, now);
    if o.Done? {
      RunEndDone(s, brand, style, clearCache, o, id, now);
    }
  }

  /** A picker keeps the invariant. */
  lemma PickKeepsInv(s1: State, key: string, brandOverride: Option<Brand>, styleOverride: Option<string>, env: Env)
    requires Inv(s1)
    ensures |Pick(s1, key, brandOverride, styleOverride, env)| >= 1
    ensures Inv(Final(s1, Pick(s1, key, brandOverride, styleOverride, env)))
  {
    if key !in s1.cache && s1.current.Some? && Trim(s1.prompt) != [] {
      PickRegenerates(s1, key, brandOverride, styleOverride, env);
      var brand, style := UsedBrand(s1, brandOverride), UsedStyle(s1, styleOverride);
      RunEndKeepsInv(s1, brand, style, false, OutcomeOf(env, Ask(s1, brand, style)), env.id, env.now);
    }
  }

  /** Every event the interface offers keeps the invariant. */
  lemma HandleKeepsInv(s: State, e: Event, env: Env)
    requires Inv(s) && Offered(e)
    ensures Inv(Final(s, Handle(s, e, env)))
  {
    match e
    case ToggleComplication(c) =>
      Selection.ToggleValid(s.selected, c);
    case ToggleEvery =>
      Selection.ToggleAllValid(s.selected);
    case GenerateClicked =>
      assert Handle(s, e, env) == Generate(s, None, None, true, env);
      GenerateKeepsInv(s, None, None, true, env);
    case PickBrand(b) =>
      assert Handle(s, e, env) == OnBrand(s, b, env);
      OnBrandKeepsInv(s, b, env);
    case PickStyle(style) =>
      assert Handle(s, e, env) == OnStyle(s, style, env);
      OnStyleKeepsInv(s, style, env);
    case LoadDesign(d) =>
      LookupOwn(BrandByName(d.targetDevice));
    case _ =>
  }

  lemma OnBrandKeepsInv(s: State, b: Brand, env: Env)
    requires Inv(s) && b in Brands
    ensures Inv(Final(s, OnBrand(s, b, env)))
  {
    var s1 := s.(brandId := b.id);
    LookupOwn(b);
    var p := Pick(s1, CacheKey(b.id, s.style), Some(b), None, env);
    assert OnBrand(s, b, env) == p;
    PickKeepsInv(s1, CacheKey(b.id, s.style), Some(b), None, env);
  }

  lemma OnStyleKeepsInv(s: State, style: string, env: Env)
    requires Inv(s)
    ensures Inv(Final(s, OnStyle(s, style, env)))
  {
    var s1 := s.(style := style);
    var p := Pick(s1, CacheKey(s.brandId, style), None, Some(style), env);
    assert OnStyle(s, style, env) == p;
    PickKeepsInv(s1, CacheKey(s.brandId, style), None, Some(style), env);
  }

  /** While a run is going, every picker and the history are ignored. */
  lemma BusyIgnoresPickers(s: State, b: Brand, style: string, d: Design, env: Env)
    requires s.gen.isGenerating
    ensures OnBrand(s, b, env) == [] && OnStyle(s, style, env) == [] && OnLoad(s, d) == s
    ensures Generate(s, None, None, true, env) == []
  {}
}
