/**
  The data model shared by the registry, the store and the generation pipeline:
  site configuration, model records, aspect ratios, generation requests and the
  bootstrap values used when nothing is stored.
*/
module Types {

  import opened Wrappers

  /** The interface languages; a closed set of two codes. */
  datatype Language = En | ZhTW
  {
    /** The code the language is stored and selected by. */
    function Code(): (c: string)
    {
      match this
      case En => "en"
      case ZhTW => "zh-TW"
    }
  }

  /** Distinct languages have distinct codes, and every code is one of the two. */
  lemma LanguageCodes(a: Language, b: Language)
    ensures a.Code() == "en" || a.Code() == "zh-TW"
    ensures a.Code() == b.Code() ==> a == b
  {
  }

  /** Site-wide presentation settings. */
  datatype SiteConfig = SiteConfig(title: string, description: string, language: Language)

  /** One registered image model: the provider's model name and its credential. */
  datatype AIModel = AIModel(id: string, name: string, apiKey: string, isDefault: bool, isEnabled: bool)

  /** The two supported output shapes. */
  datatype AspectRatio = Portrait | Landscape
  {
    /** The ratio string handed to the provider's image configuration. */
    function Value(): (v: string)
    {
      match this
      case Portrait => "9:16"
      case Landscape => "16:9"
    }
  }

  /** Portrait is "9:16", Landscape is "16:9", and the two values differ. */
  lemma AspectRatioValues(r: AspectRatio)
    ensures r.Value() == (if r == Portrait then "9:16" else "16:9")
    ensures r == Landscape ==> r.Value() == "16:9"
    ensures Portrait.Value() != Landscape.Value()
  {
  }

  /**
    One request to the generation provider. The image data and its MIME type are
    independently optional: nothing in the type ties one to the other.
  */
  datatype GenerationRequest = GenerationRequest(
    prompt: string,
    sourceImageBase64: Option<string>,
    sourceImageMimeType: Option<string>,
    aspectRatio: AspectRatio,
    model: AIModel)

  /** The settings used when none are stored. */
  const DefaultSiteConfig := SiteConfig(
    "AI Imager Studio",
    "Transform your ideas into reality with our advanced AI image engine.",
    En)

  /** The model name of the bootstrap model (also the admin form's initial name). */
  const DefaultModelName := "gemini-2.5-flash-image"

  /** `process.env.API_KEY || ''`: the build-time key, or the empty string when there is none. */
  function EnvApiKey(env: Option<string>): (k: string)
    ensures env.None? ==> k == ""
    ensures env.Some? ==> k == env.value
  {
    match env
    case None => ""
    case Some(key) => if key == "" then "" else key
  }

  /** The bootstrap model; its key comes from the build environment. */
  function DefaultModel(env: Option<string>): (m: AIModel)
  {
    AIModel("default-1", DefaultModelName, EnvApiKey(env), true, true)
  }

  /**
    The bootstrap model is both default and enabled, and with no key in the
    environment its key is empty, so the missing-key failure is reachable.
  */
  lemma DefaultModelFacts(env: Option<string>)
    ensures DefaultModel(env).isDefault && DefaultModel(env).isEnabled
    ensures env.None? ==> DefaultModel(env).apiKey == ""
  {
  }

  /** The default settings define every field, in English. */
  lemma DefaultSiteConfigFacts()
    ensures DefaultSiteConfig.language == En && DefaultSiteConfig.language.Code() == "en"
    ensures DefaultSiteConfig.title != "" && DefaultSiteConfig.description != ""
  {
  }
}
