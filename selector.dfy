/**
 * The rule-based model selector (`AIModelSelector`): a first-match-wins chain of
 * case-insensitive substring tests mapping a prompt and a style to one of three
 * model tags, a reasoning sentence and a confidence. Confidences are in hundredths.
 */
module Selector {

  import opened Text
  import Schema

  datatype ModelId = StableDiffusion | Flux | Sdxl {
    /** The tag as it appears in responses and in image labels. */
    function Name(): string {
      match this
      case StableDiffusion => "stable-diffusion"
      case Flux => "flux"
      case Sdxl => "sdxl"
    }
  }

  datatype Selection = Selection(selectedModel: ModelId, reasoning: string, confidence: int)

  const ArtisticPromptWords: seq<string> := ["art", "creative", "abstract", "painting", "illustration"]
  const PhotoPromptWords: seq<string> := ["photo", "realistic", "portrait", "landscape"]
  const TechPromptWords: seq<string> := ["text", "logo", "tech", "geometric"]

  /** Some word of `words` occurs in `s`. */
  predicate MentionsAny(s: string, words: seq<string>) {
    |words| > 0 && (Contains(s, words[0]) || MentionsAny(s, words[1..]))
  }

  /** The first rule fires: the lowered style names "artistic" or the lowered prompt an artistic word. */
  predicate ArtisticTrigger(lowerPrompt: string, lowerStyle: string) {
    Contains(lowerStyle, "artistic") || MentionsAny(lowerPrompt, ArtisticPromptWords)
  }

  predicate PhotoTrigger(lowerPrompt: string, lowerStyle: string) {
    Contains(lowerStyle, "photorealistic") || MentionsAny(lowerPrompt, PhotoPromptWords)
  }

  predicate TechTrigger(lowerPrompt: string, lowerStyle: string) {
    Contains(lowerStyle, "typography") || MentionsAny(lowerPrompt, TechPromptWords)
  }

  const FluxReasoning := "Selected Flux for its excellent artistic and creative capabilities"
  const SdxlReasoning := "Selected SDXL for high-quality photorealistic results"
  const TechReasoning := "Selected Stable Diffusion for technical and text-focused content"
  const DefaultReasoning := "Selected Stable Diffusion as the most reliable option for general content"

  /** Unfolds `MentionsAny` on a list given as a head and a tail. */
  lemma MentionsAnyCons(s: string, w: string, ws: seq<string>)
    ensures MentionsAny(s, [w] + ws) <==> Contains(s, w) || MentionsAny(s, ws)
  {
    assert ([w] + ws)[1..] == ws;
  }

  lemma ArtisticWordsListed(s: string)
    ensures MentionsAny(s, ArtisticPromptWords) <==>
      Contains(s, "art") || Contains(s, "creative") || Contains(s, "abstract")
      || Contains(s, "painting") || Contains(s, "illustration")
  {
    MentionsAnyCons(s, "illustration", []);
    MentionsAnyCons(s, "painting", ["illustration"]);
    MentionsAnyCons(s, "abstract", ["painting", "illustration"]);
    MentionsAnyCons(s, "creative", ["abstract", "painting", "illustration"]);
    MentionsAnyCons(s, "art", ["creative", "abstract", "painting", "illustration"]);
  }

  lemma PhotoWordsListed(s: string)
    ensures MentionsAny(s, PhotoPromptWords) <==>
      Contains(s, "photo") || Contains(s, "realistic") || Contains(s, "portrait") || Contains(s, "landscape")
  {
    MentionsAnyCons(s, "landscape", []);
    MentionsAnyCons(s, "portrait", ["landscape"]);
    MentionsAnyCons(s, "realistic", ["portrait", "landscape"]);
    MentionsAnyCons(s, "photo", ["realistic", "portrait", "landscape"]);
  }

  lemma TechWordsListed(s: string)
    ensures MentionsAny(s, TechPromptWords) <==>
      Contains(s, "text") || Contains(s, "logo") || Contains(s, "tech") || Contains(s, "geometric")
  {
    MentionsAnyCons(s, "geometric", []);
    MentionsAnyCons(s, "tech", ["geometric"]);
    MentionsAnyCons(s, "logo", ["tech", "geometric"]);
    MentionsAnyCons(s, "text", ["logo", "tech", "geometric"]);
  }

  /**
   * `selectModelByRules`. The aspect ratio is accepted and ignored. Each rule has its
   * own confidence, so the tag and the confidence pair up one to one.
   */
  function SelectModelByRules(prompt: string, style: string, aspectRatio: string): (r: Selection)
    ensures r.confidence in {90, 85, 80, 75}
    ensures r.selectedModel == Flux <==> r.confidence == 90
    ensures r.selectedModel == Sdxl <==> r.confidence == 85
    ensures r.selectedModel == StableDiffusion <==> r.confidence <= 80
    ensures r.reasoning in {FluxReasoning, SdxlReasoning, TechReasoning, DefaultReasoning}
  {
    var lowerPrompt := ToLower(prompt);
    var lowerStyle := ToLower(style);
    if Contains(lowerStyle, "artistic")
       || Contains(lowerPrompt, "art")
       || Contains(lowerPrompt, "creative")
       || Contains(lowerPrompt, "abstract")
       || Contains(lowerPrompt, "painting")
       || Contains(lowerPrompt, "illustration")
    then
      Selection(Flux, FluxReasoning, 90)
    else if Contains(lowerStyle, "photorealistic")
       || Contains(lowerPrompt, "photo")
       || Contains(lowerPrompt, "realistic")
       || Contains(lowerPrompt, "portrait")
       || Contains(lowerPrompt, "landscape")
    then
      Selection(Sdxl, SdxlReasoning, 85)
    else if Contains(lowerStyle, "typography")
       || Contains(lowerPrompt, "text")
       || Contains(lowerPrompt, "logo")
       || Contains(lowerPrompt, "tech")
       || Contains(lowerPrompt, "geometric")
    then
      Selection(StableDiffusion, TechReasoning, 80)
    else
      Selection(StableDiffusion, DefaultReasoning, 75)
  }

  /**
   * Which rule fires, stated through the keyword lists: Flux exactly on an artistic
   * trigger, SDXL exactly on a photo trigger without an artistic one, and 0.8 exactly
   * on a typography trigger with neither of the others.
   */
  lemma RuleTiers(prompt: string, style: string, aspectRatio: string)
    ensures var r := SelectModelByRules(prompt, style, aspectRatio);
      var lp, ls := ToLower(prompt), ToLower(style);
      && (r.selectedModel == Flux <==> ArtisticTrigger(lp, ls))
      && (r.selectedModel == Sdxl <==> !ArtisticTrigger(lp, ls) && PhotoTrigger(lp, ls))
      && (r.confidence == 80 <==> !ArtisticTrigger(lp, ls) && !PhotoTrigger(lp, ls) && TechTrigger(lp, ls))
      && (r.confidence == 75 <==> !ArtisticTrigger(lp, ls) && !PhotoTrigger(lp, ls) && !TechTrigger(lp, ls))
  {
    ArtisticWordsListed(ToLower(prompt));
    PhotoWordsListed(ToLower(prompt));
    TechWordsListed(ToLower(prompt));
  }

  /** `selectBestModel`: delegates to the rules. */
  function SelectBestModel(prompt: string, style: string, aspectRatio: string): (r: Selection)
    ensures r.confidence in {90, 85, 80, 75}
    ensures r.selectedModel == Flux <==> ArtisticTrigger(ToLower(prompt), ToLower(style))
    ensures Schema.ValidModelSelection(r.selectedModel.Name(), r.confidence)
    ensures r.reasoning != []
  {
    RuleTiers(prompt, style, aspectRatio);
    SelectModelByRules(prompt, style, aspectRatio)
  }

  /** Only the lowered prompt and style matter; the aspect ratio never does. */
  lemma DependsOnlyOnLowercase(p1: string, s1: string, a1: string, p2: string, s2: string, a2: string)
    requires ToLower(p1) == ToLower(p2) && ToLower(s1) == ToLower(s2)
    ensures SelectModelByRules(p1, s1, a1) == SelectModelByRules(p2, s2, a2)
  {
  }

  /**
   * First match wins: the artistic word "art" hidden inside "smart" beats the
   * photorealistic style.
   */
  lemma ArtisticOverridesPhoto(aspectRatio: string)
    ensures SelectModelByRules("A smart photo of a city", "photorealistic", aspectRatio).selectedModel == Flux
  {
    var lp := ToLower("A smart photo of a city");
    assert OccursAt(lp, "art", 4);
    ContainsWitness(lp, "art", 4);
  }

  /**
   * Style "abstract" is not itself a trigger (only the prompt is searched for
   * "abstract"), so with a prompt free of every keyword the default rule fires.
   */
  lemma AbstractStyleFallsThrough(prompt: string, aspectRatio: string)
    requires !MentionsAny(ToLower(prompt), ArtisticPromptWords)
    requires !MentionsAny(ToLower(prompt), PhotoPromptWords)
    requires !MentionsAny(ToLower(prompt), TechPromptWords)
    ensures SelectModelByRules(prompt, "abstract", aspectRatio) == Selection(StableDiffusion, DefaultReasoning, 75)
  {
    ArtisticWordsListed(ToLower(prompt));
    PhotoWordsListed(ToLower(prompt));
    TechWordsListed(ToLower(prompt));
    var ls := ToLower("abstract");
    assert ls == "abstract";
    assert "abstract" != "artistic";
    ContainsAt(ls, "artistic");
    ShorterLacks(ls, "photorealistic");
    ShorterLacks(ls, "typography");
    assert !OccursAt(ls, "artistic", 0);
  }

  /** The typography rule and the default rule agree on the tag and differ only in reasoning and confidence. */
  lemma StableDiffusionRules(prompt: string, style: string, aspectRatio: string)
    requires !ArtisticTrigger(ToLower(prompt), ToLower(style)) && !PhotoTrigger(ToLower(prompt), ToLower(style))
    ensures var r := SelectModelByRules(prompt, style, aspectRatio);
      r.selectedModel == StableDiffusion
      && (if TechTrigger(ToLower(prompt), ToLower(style))
          then r.confidence == 80 && r.reasoning == TechReasoning
          else r.confidence == 75 && r.reasoning == DefaultReasoning)
  {
    ArtisticWordsListed(ToLower(prompt));
    PhotoWordsListed(ToLower(prompt));
    TechWordsListed(ToLower(prompt));
  }

  const FallbackSdxlReasoning := "Selected SDXL for high-quality photorealistic content"
  const FallbackFluxReasoning := "Selected Flux for artistic and creative content"
  const FallbackDefaultReasoning := "Selected Stable Diffusion as reliable free option"

  /**
   * `getFallbackSelection` (never called): photo words are checked before artistic
   * ones, "real" replaces "realistic", and the confidence is always 0.8.
   */
  function FallbackSelection(style: string, prompt: string): (r: Selection)
    ensures r.confidence == 80
  {
    var lowerPrompt := ToLower(prompt);
    var lowerStyle := ToLower(style);
    if Contains(lowerStyle, "photorealistic") || Contains(lowerPrompt, "photo") || Contains(lowerPrompt, "real") then
      Selection(Sdxl, FallbackSdxlReasoning, 80)
    else if Contains(lowerStyle, "artistic") || Contains(lowerPrompt, "art") || Contains(lowerPrompt, "creative") then
      Selection(Flux, FallbackFluxReasoning, 80)
    else
      Selection(StableDiffusion, FallbackDefaultReasoning, 80)
  }

  /** In the fallback the photo test comes first: SDXL exactly on a photo trigger, Flux only without one. */
  lemma FallbackTiers(style: string, prompt: string)
    ensures var r := FallbackSelection(style, prompt);
      var lp, ls := ToLower(prompt), ToLower(style);
      var photo := Contains(ls, "photorealistic") || MentionsAny(lp, ["photo", "real"]);
      var art := Contains(ls, "artistic") || MentionsAny(lp, ["art", "creative"]);
      && (r.selectedModel == Sdxl <==> photo)
      && (r.selectedModel == Flux <==> !photo && art)
      && (r.selectedModel == StableDiffusion <==> !photo && !art)
  {
    var lp := ToLower(prompt);
    MentionsAnyCons(lp, "real", []);
    MentionsAnyCons(lp, "photo", ["real"]);
    MentionsAnyCons(lp, "creative", []);
    MentionsAnyCons(lp, "art", ["creative"]);
  }

  /** The two rule orders disagree: a prompt with both an art and a photo word goes to Flux by the main rules and to SDXL by the fallback. */
  lemma FallbackOrderDiffers(aspectRatio: string)
    ensures SelectModelByRules("photo art", "", aspectRatio).selectedModel == Flux
    ensures FallbackSelection("", "photo art").selectedModel == Sdxl
  {
    var lp := ToLower("photo art");
    assert OccursAt(lp, "art", 6);
    ContainsWitness(lp, "art", 6);
    assert OccursAt(lp, "photo", 0);
    ContainsWitness(lp, "photo", 0);
  }
}
