/**
  The browser's key-value store as used by the application: the site settings,
  the model list and the admin flag, each under its own key. Stored values are
  kept as structured values rather than JSON text.
*/
module Store {

  import opened Wrappers
  import opened Types

  const SiteConfigKey := "ai_imager_config"
  const ModelsKey := "ai_imager_models"
  const IsAdminKey := "ai_imager_is_admin"

  /** Stored settings: any field may be missing (an older or partial record). */
  datatype StoredConfig = StoredConfig(title: Option<string>, description: Option<string>, language: Option<Language>)

  /** A stored model record; records written before the enabled flag existed lack it. */
  datatype StoredModel = StoredModel(id: string, name: string, apiKey: string, isDefault: bool, isEnabled: Option<bool>)

  /** What a key can hold: plain text, or the parsed form of a settings record or a model list. */
  datatype Value = Text(text: string) | ConfigJson(config: StoredConfig) | ModelsJson(models: seq<StoredModel>)

  /** `JSON.stringify` of a full settings record: every field present. */
  function ConfigRecord(c: SiteConfig): (r: StoredConfig)
    ensures r.title == Some(c.title) && r.description == Some(c.description) && r.language == Some(c.language)
  {
    StoredConfig(Some(c.title), Some(c.description), Some(c.language))
  }

  /** `JSON.stringify` of a model list: every record carries its enabled flag. */
  function ModelRecords(ms: seq<AIModel>): (r: seq<StoredModel>)
    ensures |r| == |ms|
    ensures forall i :: 0 <= i < |ms| ==> r[i].isEnabled.Some?
  {
    if ms == [] then []
    else
      var m := ms[0];
      [StoredModel(m.id, m.name, m.apiKey, m.isDefault, Some(m.isEnabled))] + ModelRecords(ms[1..])
  }

  /** The stored field when present, the default otherwise (object spread). */
  function Override<T>(stored: Option<T>, default: T): (v: T)
    ensures stored.Some? ==> v == stored.value
    ensures stored.None? ==> v == default
  {
    match stored
    case Some(v) => v
    case None => default
  }

  /**
    Reading the settings: stored fields override the defaults field by field,
    and with nothing stored the defaults are returned whole.
  */
  function SiteConfigIn(items: map<string, Value>): (c: SiteConfig)
    ensures SiteConfigKey !in items ==> c == DefaultSiteConfig
    ensures SiteConfigKey in items && items[SiteConfigKey].ConfigJson? ==>
      var p := items[SiteConfigKey].config;
      && (p.title.Some? ==> c.title == p.title.value)
      && (p.title.None? ==> c.title == DefaultSiteConfig.title)
      && (p.description.Some? ==> c.description == p.description.value)
      && (p.description.None? ==> c.description == DefaultSiteConfig.description)
      && (p.language.Some? ==> c.language == p.language.value)
      && (p.language.None? ==> c.language == DefaultSiteConfig.language)
  {
    if SiteConfigKey in items && items[SiteConfigKey].ConfigJson? then
      var p := items[SiteConfigKey].config;
      SiteConfig(
        Override(p.title, DefaultSiteConfig.title),
        Override(p.description, DefaultSiteConfig.description),
        Override(p.language, DefaultSiteConfig.language))
    else
      DefaultSiteConfig
  }

  /** The migration applied to one stored record: a missing enabled flag reads as `true`. */
  function Migrate(s: StoredModel): (m: AIModel)
    ensures m.id == s.id && m.name == s.name && m.apiKey == s.apiKey && m.isDefault == s.isDefault
    ensures m.isEnabled == (s.isEnabled != Some(false))
  {
    AIModel(s.id, s.name, s.apiKey, s.isDefault, if s.isEnabled.Some? then s.isEnabled.value else true)
  }

  /**
    The migration over a stored list: length, order and every field are kept,
    an explicit flag is kept (even `false`) and only a missing one becomes `true`.
  */
  function MigrateAll(list: seq<StoredModel>): (r: seq<AIModel>)
    ensures |r| == |list|
    ensures forall i :: 0 <= i < |list| ==>
      && r[i].id == list[i].id && r[i].name == list[i].name && r[i].apiKey == list[i].apiKey
      && r[i].isDefault == list[i].isDefault
      && (list[i].isEnabled.Some? ==> r[i].isEnabled == list[i].isEnabled.value)
      && (list[i].isEnabled.None? ==> r[i].isEnabled)
  {
    if list == [] then [] else [Migrate(list[0])] + MigrateAll(list[1..])
  }

  /** Reading the model list: the migrated stored list, or the bootstrap list when nothing is stored. */
  function ModelsIn(items: map<string, Value>, env: Option<string>): (r: seq<AIModel>)
    ensures ModelsKey !in items ==> r == [DefaultModel(env)]
    ensures ModelsKey in items && items[ModelsKey].ModelsJson? ==> r == MigrateAll(items[ModelsKey].models)
    ensures ModelsKey in items && !items[ModelsKey].ModelsJson? ==> r == [DefaultModel(env)]
  {
    if ModelsKey in items && items[ModelsKey].ModelsJson? then MigrateAll(items[ModelsKey].models)
    else [DefaultModel(env)]
  }

  /** Index of the first entry satisfying `p` (`Array.prototype.find`). */
  function FindFirst(ms: seq<AIModel>, p: AIModel -> bool): (r: Option<nat>)
    ensures r.Some? ==> r.value < |ms| && p(ms[r.value]) && forall j :: 0 <= j < r.value ==> !p(ms[j])
    ensures r.None? ==> forall j :: 0 <= j < |ms| ==> !p(ms[j])
  {
    if ms == [] then None
    else if p(ms[0]) then Some(0)
    else match FindFirst(ms[1..], p)
      case None => None
      case Some(k) => Some(k + 1)
  }

  /**
    The active model: the first default entry, else the first enabled entry, else
    the first entry; `None` (JavaScript's `undefined`) only for an empty list.
  */
  function ActiveModelOf(ms: seq<AIModel>): (r: Option<AIModel>)
    ensures r.None? <==> ms == []
    ensures (exists i :: 0 <= i < |ms| && ms[i].isDefault) ==>
      exists k :: 0 <= k < |ms| && r == Some(ms[k]) && ms[k].isDefault && forall j :: 0 <= j < k ==> !ms[j].isDefault
    ensures (forall i :: 0 <= i < |ms| ==> !ms[i].isDefault) && (exists i :: 0 <= i < |ms| && ms[i].isEnabled) ==>
      exists k :: 0 <= k < |ms| && r == Some(ms[k]) && ms[k].isEnabled && forall j :: 0 <= j < k ==> !ms[j].isEnabled
    ensures ms != [] && (forall i :: 0 <= i < |ms| ==> !ms[i].isDefault && !ms[i].isEnabled) ==> r == Some(ms[0])
  {
    match FindFirst(ms, (m: AIModel) => m.isDefault)
    case Some(k) => Some(ms[k])
    case None =>
      match FindFirst(ms, (m: AIModel) => m.isEnabled)
      case Some(k) => Some(ms[k])
      case None => if ms == [] then None else Some(ms[0])
  }

  /** `isAdmin === 'true'`: the flag reads as set only when the key holds exactly that text. */
  predicate AdminFlagIn(items: map<string, Value>)
  {
    IsAdminKey in items && items[IsAdminKey] == Text("true")
  }

  /** `=== 'true'` is strict: only the exact text reads as set; any other text, "TRUE" or "1" included, does not. */
  lemma AdminFlagExact(items: map<string, Value>, t: string)
    ensures AdminFlagIn(items[IsAdminKey := Text(t)]) <==> t == "true"
    ensures !AdminFlagIn(items - {IsAdminKey})
  {
  }

  /** Saving a list and reading it back yields the same list, whatever the environment key. */
  lemma {:induction false} ModelsRoundTrip(items: map<string, Value>, ms: seq<AIModel>, env: Option<string>)
    ensures ModelsIn(items[ModelsKey := ModelsJson(ModelRecords(ms))], env) == ms
  {
    MigrateRecords(ms);
  }

  /** Migration undoes serialisation. */
  lemma {:induction false} MigrateRecords(ms: seq<AIModel>)
    ensures MigrateAll(ModelRecords(ms)) == ms
  {
    if ms != [] {
      MigrateRecords(ms[1..]);
    }
  }

  /** With nothing stored the active model is the bootstrap model. */
  lemma BootstrapActive(items: map<string, Value>, env: Option<string>)
    requires ModelsKey !in items
    ensures ActiveModelOf(ModelsIn(items, env)) == Some(DefaultModel(env))
  {
  }

  /** Saving settings and reading them back yields the same settings. */
  lemma SiteConfigRoundTrip(items: map<string, Value>, c: SiteConfig)
    ensures SiteConfigIn(items[SiteConfigKey := ConfigJson(ConfigRecord(c))]) == c
  {
  }

  /** The three keys are distinct, so writing one never changes what the others read. */
  lemma KeysIndependent(items: map<string, Value>, v: Value, env: Option<string>)
    ensures SiteConfigIn(items[ModelsKey := v]) == SiteConfigIn(items)
    ensures AdminFlagIn(items[ModelsKey := v]) == AdminFlagIn(items)
    ensures ModelsIn(items[SiteConfigKey := v], env) == ModelsIn(items, env)
    ensures AdminFlagIn(items[SiteConfigKey := v]) == AdminFlagIn(items)
    ensures ModelsIn(items[IsAdminKey := v], env) == ModelsIn(items, env)
    ensures SiteConfigIn(items[IsAdminKey := v]) == SiteConfigIn(items)
    ensures ModelsIn(items - {IsAdminKey}, env) == ModelsIn(items, env)
    ensures SiteConfigIn(items - {IsAdminKey}) == SiteConfigIn(items)
  {
  }

  /** The store itself: one mutable map from key to value, and the build-time key. */
  class ConfigStore {
    var items: map<string, Value>
    const envApiKey: Option<string>

    constructor (initial: map<string, Value>, env: Option<string>)
      ensures items == initial && envApiKey == env
    {
      items := initial;
      envApiKey := env;
    }

    /** `getSiteConfig`. */
    function GetSiteConfig(): (c: SiteConfig)
      reads this
      ensures SiteConfigKey !in items ==> c == DefaultSiteConfig
      ensures SiteConfigKey in items && items[SiteConfigKey].ConfigJson? ==>
        var p := items[SiteConfigKey].config;
        && c.title == Override(p.title, DefaultSiteConfig.title)
        && c.description == Override(p.description, DefaultSiteConfig.description)
        && c.language == Override(p.language, DefaultSiteConfig.language)
    {
      SiteConfigIn(items)
    }

    /** `saveSiteConfig`: only the settings key changes, and it reads back as `c`. */
    method SaveSiteConfig(c: SiteConfig)
      modifies this
      ensures items == old(items)[SiteConfigKey := ConfigJson(ConfigRecord(c))]
      ensures GetSiteConfig() == c
    {
      items := items[SiteConfigKey := ConfigJson(ConfigRecord(c))];
      SiteConfigRoundTrip(old(items), c);
    }

    /** `getModels`. */
    function GetModels(): (ms: seq<AIModel>)
      reads this
      ensures ModelsKey !in items ==> ms == [DefaultModel(envApiKey)]
      ensures ModelsKey in items && items[ModelsKey].ModelsJson? ==> ms == MigrateAll(items[ModelsKey].models)
    {
      ModelsIn(items, envApiKey)
    }

    /** `saveModels`: only the model key changes, and it reads back as `ms`. */
    method SaveModels(ms: seq<AIModel>)
      modifies this
      ensures items == old(items)[ModelsKey := ModelsJson(ModelRecords(ms))]
      ensures GetModels() == ms
    {
      items := items[ModelsKey := ModelsJson(ModelRecords(ms))];
      ModelsRoundTrip(old(items), ms, envApiKey);
    }

    /** `getActiveModel`. */
    function GetActiveModel(): (r: Option<AIModel>)
      reads this
      ensures ModelsKey !in items ==> r == Some(DefaultModel(envApiKey))
      ensures var ms := GetModels();
        && (r.None? <==> ms == [])
        && (r.Some? ==> r.value in ms)
        && ((exists i :: 0 <= i < |ms| && ms[i].isDefault) ==> r.Some? && r.value.isDefault)
    {
      ActiveModelOf(GetModels())
    }

    /** `checkAdminAuth`. */
    predicate CheckAdminAuth()
      reads this
      ensures IsAdminKey !in items ==> !CheckAdminAuth()
      ensures IsAdminKey in items && items[IsAdminKey].Text? ==> (CheckAdminAuth() <==> items[IsAdminKey].text == "true")
      ensures IsAdminKey in items && !items[IsAdminKey].Text? ==> !CheckAdminAuth()
    {
      AdminFlagIn(items)
    }

    /** `setAdminAuth`: `true` writes the flag, `false` removes the key entirely; it reads back as `b`. */
    method SetAdminAuth(b: bool)
      modifies this
      ensures b ==> items == old(items)[IsAdminKey := Text("true")]
      ensures !b ==> items == old(items) - {IsAdminKey} && IsAdminKey !in items
      ensures CheckAdminAuth() == b
    {
      if b {
        items := items[IsAdminKey := Text("true")];
      } else {
        items := items - {IsAdminKey};
      }
    }
  }
}
