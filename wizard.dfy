/**
 * The config generator of the terminal wizard (index.cjs): the provider
 * questions, the default document it builds, and its backup-then-write of
 * the config file.
 * Answers to prompts are parameters; so is the text of
 * `Math.random().toString(36)` from which the gateway token is cut.
 */
module Wizard {
  import opened Results
  import opened Json
  import opened Paths
  import opened Disk
  import Config
  import Server

  // ---------------------------------------------------------------------------
  // Provider questions

  const OpenAIBaseUrl := "https://api.openai.com/v1"
  const AnthropicBaseUrl := "https://api.anthropic.com/v1"
  const GoogleBaseUrl := "https://generativelanguage.googleapis.com/v1beta"

  /** The default base URL offered for each provider the wizard can choose. */
  function DefaultBaseUrl(provider: string): string
  {
    if provider == "anthropic" then AnthropicBaseUrl
    else if provider == "google" then GoogleBaseUrl
    else OpenAIBaseUrl
  }

  /**
   * The answer to "Select Provider (1-4)", compared untrimmed: only "2" and
   * "3" change the openai default, so "4" (Custom) and " 2" give openai.
   */
  method ChooseProvider(answer: string) returns (provider: string, defaultBaseUrl: string)
    ensures answer == "2" ==> provider == "anthropic" && defaultBaseUrl == "https://api.anthropic.com/v1"
    ensures answer == "3" ==> provider == "google" && defaultBaseUrl == "https://generativelanguage.googleapis.com/v1beta"
    ensures answer != "2" && answer != "3" ==> provider == "openai" && defaultBaseUrl == "https://api.openai.com/v1"
    ensures defaultBaseUrl == DefaultBaseUrl(provider)
  {
    provider := "openai";
    defaultBaseUrl := OpenAIBaseUrl;
    if answer == "2" {
      provider := "anthropic";
      defaultBaseUrl := AnthropicBaseUrl;
    }
    if answer == "3" {
      provider := "google";
      defaultBaseUrl := GoogleBaseUrl;
    }
  }

  /**
   * For every provider the wizard writes, verifying its key against the
   * default base URL targets that provider's models endpoint under that URL.
   */
  lemma DefaultsMatchVerification(provider: string, apiKey: string)
    requires provider == "openai" || provider == "anthropic" || provider == "google"
    ensures Server.VerificationRequest(provider, apiKey, DefaultBaseUrl(provider)).url
            == DefaultBaseUrl(provider) + (if provider == "google" then "/models?key=" + apiKey else "/models")
  {
    var base := DefaultBaseUrl(provider);
    assert base[|base| - 1] != '/';
  }

  // ---------------------------------------------------------------------------
  // The generated document

  /** `s.substring(start)` */
  function Substring(s: string, start: nat): string
  {
    if start <= |s| then s[start..] else ""
  }

  /** The gateway token, `"change-me-" + Math.random().toString(36).substring(7)`. */
  function Token(radix36: string): string
  {
    "change-me-" + Substring(radix36, 7)
  }

  function ModelEntry(id: string, name: string): Json
  {
    Obj([("id", Str(id)), ("name", Str(name)), ("reasoning", Bool(false))])
  }

  /** The `gateway` section. */
  function GatewaySection(token: string): Json
  {
    Obj([
      ("port", Num(18789)),
      ("mode", Str("local")),
      ("bind", Str("loopback")),
      ("auth", TokenAuth(token))])
  }

  /** `gateway.auth`: token authentication. */
  function TokenAuth(token: string): Json
  {
    Obj([("mode", Str("token")), ("token", Str(token))])
  }

  /** The `auth` section: one profile, `default`. */
  function AuthSection(provider: string): Json
  {
    Obj([("profiles", Obj([("default", Profile(provider))]))])
  }

  /** `auth.profiles.default`: the chosen provider, authenticated by API key. */
  function Profile(provider: string): Json
  {
    Obj([("provider", Str(provider)), ("mode", Str("api_key"))])
  }

  /** The `models` section: one provider slot, `default`. */
  function ModelsSection(baseUrl: string, apiKey: string): Json
  {
    Obj([("providers", Obj([("default", ProviderSlot(baseUrl, apiKey))]))])
  }

  /** `models.providers.default`: where and how to reach the provider, and its two models. */
  function ProviderSlot(baseUrl: string, apiKey: string): Json
  {
    Obj([
      ("baseUrl", Str(baseUrl)),
      ("apiKey", Str(apiKey)),
      ("api", Str("openai-completions")),
      ("models", Arr([ModelEntry("gpt-4o", "GPT-4o"), ModelEntry("gpt-3.5-turbo", "GPT-3.5 Turbo")]))])
  }

  /** The document `generateConfig` writes. */
  function BuildDocument(provider: string, apiKey: string, baseUrl: string, radix36: string): Json
  {
    Document(MetaSection(), GatewaySection(Token(radix36)), AuthSection(provider), ModelsSection(baseUrl, apiKey))
  }

  /** `meta`: who last wrote the file. */
  function MetaSection(): Json
  {
    Obj([("lastTouchedBy", Str("openclaw-toolkit-lite"))])
  }

  /** The four top-level sections in their order. */
  function Document(meta: Json, gateway: Json, auth: Json, models: Json): Json
  {
    Obj([("meta", meta), ("gateway", gateway), ("auth", auth), ("models", models)])
  }

  lemma DocumentKeys(meta: Json, gateway: Json, auth: Json, models: Json)
    ensures var m := Document(meta, gateway, auth, models).members;
            && UniqueKeys(m) && Keys(m) == ["meta", "gateway", "auth", "models"]
  {
    var m := Document(meta, gateway, auth, models).members;
    assert m[0].0 == "meta" && m[1].0 == "gateway" && m[2].0 == "auth" && m[3].0 == "models";
  }

  lemma DocumentLookups(meta: Json, gateway: Json, auth: Json, models: Json)
    ensures var doc := Document(meta, gateway, auth, models);
            && doc.Obj? && UniqueKeys(doc.members)
            && Keys(doc.members) == ["meta", "gateway", "auth", "models"]
            && Get(doc, "meta") == Some(meta)
            && Get(doc, "gateway") == Some(gateway)
            && Get(doc, "auth") == Some(auth)
            && Get(doc, "models") == Some(models)
  {
    var m := Document(meta, gateway, auth, models).members;
    DocumentKeys(meta, gateway, auth, models);
    FindMember(m, 0);
    FindMember(m, 1);
    FindMember(m, 2);
    FindMember(m, 3);
  }

  /** The four top-level sections, each found under its name. */
  lemma DocumentSections(provider: string, apiKey: string, baseUrl: string, radix36: string)
    ensures var doc := BuildDocument(provider, apiKey, baseUrl, radix36);
            && doc.Obj? && UniqueKeys(doc.members)
            && Keys(doc.members) == ["meta", "gateway", "auth", "models"]
            && Get(doc, "meta") == Some(MetaSection())
            && Get(doc, "gateway") == Some(GatewaySection(Token(radix36)))
            && Get(doc, "auth") == Some(AuthSection(provider))
            && Get(doc, "models") == Some(ModelsSection(baseUrl, apiKey))
  {
    DocumentLookups(MetaSection(), GatewaySection(Token(radix36)), AuthSection(provider), ModelsSection(baseUrl, apiKey));
  }

  lemma GatewayFields(token: string)
    ensures var g := GatewaySection(token);
            && UniqueKeys(g.members)
            && Get(g, "port") == Some(Num(18789))
            && Get(g, "mode") == Some(Str("local"))
            && Get(g, "bind") == Some(Str("loopback"))
            && Get(g, "auth") == Some(TokenAuth(token))
  {
    var m := GatewaySection(token).members;
    assert UniqueKeys(m);
    FindMember(m, 1);
    FindMember(m, 2);
    FindMember(m, 3);
  }

  lemma TokenAuthFields(token: string)
    ensures var a := TokenAuth(token);
            && a.Obj? && UniqueKeys(a.members)
            && Get(a, "mode") == Some(Str("token"))
            && Get(a, "token") == Some(Str(token))
  {
    var m := TokenAuth(token).members;
    assert UniqueKeys(m);
    FindMember(m, 0);
  }

  lemma ProviderSlotFields(baseUrl: string, apiKey: string)
    ensures var slot := ProviderSlot(baseUrl, apiKey);
            && slot.Obj? && UniqueKeys(slot.members)
            && Get(slot, "baseUrl") == Some(Str(baseUrl))
            && Get(slot, "apiKey") == Some(Str(apiKey))
            && Get(slot, "api") == Some(Str("openai-completions"))
            && Get(slot, "models") == Some(Arr([ModelEntry("gpt-4o", "GPT-4o"), ModelEntry("gpt-3.5-turbo", "GPT-3.5 Turbo")]))
  {
    var m := ProviderSlot(baseUrl, apiKey).members;
    assert UniqueKeys(m);
    FindMember(m, 0);
    FindMember(m, 1);
    FindMember(m, 2);
    FindMember(m, 3);
  }

  lemma ProfileFields(provider: string)
    ensures var p := Profile(provider);
            && p.Obj? && UniqueKeys(p.members)
            && Get(p, "provider") == Some(Str(provider))
            && Get(p, "mode") == Some(Str("api_key"))
  {
    var m := Profile(provider).members;
    assert UniqueKeys(m);
    FindMember(m, 0);
  }

  lemma ModelEntryFields(id: string, name: string)
    ensures var m := ModelEntry(id, name);
            && m.Obj? && UniqueKeys(m.members)
            && Get(m, "id") == Some(Str(id))
            && Get(m, "name") == Some(Str(name))
            && Get(m, "reasoning") == Some(Bool(false))
  {
    var m := ModelEntry(id, name).members;
    assert UniqueKeys(m);
    FindMember(m, 0);
    FindMember(m, 1);
  }

  /** The gateway section: fixed settings and a token cut from the random text. */
  lemma DocumentGateway(provider: string, apiKey: string, baseUrl: string, radix36: string)
    ensures var doc := BuildDocument(provider, apiKey, baseUrl, radix36);
            && At(doc, ["gateway", "port"]) == Some(Num(18789))
            && At(doc, ["gateway", "mode"]) == Some(Str("local"))
            && At(doc, ["gateway", "bind"]) == Some(Str("loopback"))
            && At(doc, ["gateway", "auth", "mode"]) == Some(Str("token"))
            && At(doc, ["gateway", "auth", "token"])
               == Some(Str("change-me-" + if |radix36| >= 7 then radix36[7..] else ""))
  {
    var token := Token(radix36);
    DocumentSections(provider, apiKey, baseUrl, radix36);
    GatewayFields(token);
    TokenAuthFields(token);
    GatewayPaths(BuildDocument(provider, apiKey, baseUrl, radix36), GatewaySection(token), TokenAuth(token));
  }

  lemma GatewayPaths(doc: Json, gateway: Json, auth: Json)
    requires Get(doc, "gateway") == Some(gateway) && Get(gateway, "auth") == Some(auth)
    ensures At(doc, ["gateway", "port"]) == Get(gateway, "port")
    ensures At(doc, ["gateway", "mode"]) == Get(gateway, "mode")
    ensures At(doc, ["gateway", "bind"]) == Get(gateway, "bind")
    ensures At(doc, ["gateway", "auth", "mode"]) == Get(auth, "mode")
    ensures At(doc, ["gateway", "auth", "token"]) == Get(auth, "token")
  {
    MemberPath(doc, "gateway", gateway, "port");
    MemberPath(doc, "gateway", gateway, "mode");
    MemberPath(doc, "gateway", gateway, "bind");
    MemberPath(doc, "gateway", gateway, "auth");
    AtAppend(doc, ["gateway", "auth"], ["mode"]);
    AtAppend(doc, ["gateway", "auth"], ["token"]);
    AtKey(auth, "mode");
    AtKey(auth, "token");
    assert ["gateway", "auth"] + ["mode"] == ["gateway", "auth", "mode"];
    assert ["gateway", "auth"] + ["token"] == ["gateway", "auth", "token"];
  }

  /** Exactly one auth profile, `default`, naming the chosen provider with mode api_key. */
  lemma DocumentProfiles(provider: string, apiKey: string, baseUrl: string, radix36: string)
    ensures var doc := BuildDocument(provider, apiKey, baseUrl, radix36);
            && At(doc, ["auth", "profiles"]) == Some(Obj([("default", Profile(provider))]))
            && At(doc, ["auth", "profiles", "default", "provider"]) == Some(Str(provider))
            && At(doc, ["auth", "profiles", "default", "mode"]) == Some(Str("api_key"))
  {
    DocumentSections(provider, apiKey, baseUrl, radix36);
    ProfileFields(provider);
    var profiles := Obj([("default", Profile(provider))]);
    NestedPaths(BuildDocument(provider, apiKey, baseUrl, radix36), "auth", AuthSection(provider), "profiles", profiles,
      "default", Profile(provider), "provider", "mode");
  }

  /** A two-name path through a known member. */
  lemma MemberPath(doc: Json, s: string, section: Json, t: string)
    requires Get(doc, s) == Some(section)
    ensures At(doc, [s, t]) == Get(section, t)
  {
    AtAppend(doc, [s], [t]);
    AtKey(doc, s);
    AtKey(section, t);
    assert [s] + [t] == [s, t];
  }

  /**
   * Four-level lookups below a two-level chain of single-member objects:
   * `doc[s][t][u][a]` and `doc[s][t][u][b]`.
   */
  lemma NestedPaths(doc: Json, s: string, section: Json, t: string, inner: Json, u: string, leaf: Json, a: string, b: string)
    requires Get(doc, s) == Some(section) && Get(section, t) == Some(inner) && Get(inner, u) == Some(leaf)
    ensures At(doc, [s, t]) == Some(inner)
    ensures At(doc, [s, t, u]) == Some(leaf)
    ensures At(doc, [s, t, u, a]) == Get(leaf, a)
    ensures At(doc, [s, t, u, b]) == Get(leaf, b)
  {
    AtAppend(doc, [s], [t]);
    AtAppend(doc, [s, t], [u]);
    AtAppend(doc, [s, t, u], [a]);
    AtAppend(doc, [s, t, u], [b]);
    AtKey(leaf, a);
    AtKey(leaf, b);
    assert [s, t, u] + [a] == [s, t, u, a];
    assert [s, t, u] + [b] == [s, t, u, b];
  }

  /**
   * Exactly one provider slot, `default`, holding the base URL and key, the
   * openai-completions protocol, and the models gpt-4o then gpt-3.5-turbo,
   * neither reasoning.
   */
  lemma DocumentProviderSlot(provider: string, apiKey: string, baseUrl: string, radix36: string)
    ensures var doc := BuildDocument(provider, apiKey, baseUrl, radix36);
            && At(doc, ["models", "providers"]) == Some(Obj([("default", ProviderSlot(baseUrl, apiKey))]))
            && At(doc, ["models", "providers", "default", "baseUrl"]) == Some(Str(baseUrl))
            && At(doc, ["models", "providers", "default", "apiKey"]) == Some(Str(apiKey))
            && At(doc, ["models", "providers", "default", "api"]) == Some(Str("openai-completions"))
            && At(doc, ["models", "providers", "default", "models"])
               == Some(Arr([ModelEntry("gpt-4o", "GPT-4o"), ModelEntry("gpt-3.5-turbo", "GPT-3.5 Turbo")]))
  {
    var doc := BuildDocument(provider, apiKey, baseUrl, radix36);
    var slot := ProviderSlot(baseUrl, apiKey);
    var providers := Obj([("default", slot)]);
    DocumentSections(provider, apiKey, baseUrl, radix36);
    ProviderSlotFields(baseUrl, apiKey);
    NestedPaths(doc, "models", ModelsSection(baseUrl, apiKey), "providers", providers, "default", slot, "baseUrl", "apiKey");
    NestedPaths(doc, "models", ModelsSection(baseUrl, apiKey), "providers", providers, "default", slot, "api", "models");
  }

  /** Each of the two models has its id and name and does not reason. */
  lemma DocumentModels()
    ensures Get(ModelEntry("gpt-4o", "GPT-4o"), "id") == Some(Str("gpt-4o"))
    ensures Get(ModelEntry("gpt-3.5-turbo", "GPT-3.5 Turbo"), "id") == Some(Str("gpt-3.5-turbo"))
    ensures Get(ModelEntry("gpt-4o", "GPT-4o"), "reasoning") == Some(Bool(false))
    ensures Get(ModelEntry("gpt-3.5-turbo", "GPT-3.5 Turbo"), "reasoning") == Some(Bool(false))
  {
    ModelEntryFields("gpt-4o", "GPT-4o");
    ModelEntryFields("gpt-3.5-turbo", "GPT-3.5 Turbo");
  }

  lemma GatewayWellFormed(token: string)
    ensures Config.IsGateway(GatewaySection(token))
  {
    GatewayFields(token);
    TokenAuthFields(token);
  }

  lemma ProfilesWellFormed(provider: string)
    requires provider in Config.ProviderNames
    ensures Get(AuthSection(provider), "profiles").Some?
    ensures Config.IsNamed(Get(AuthSection(provider), "profiles").value, Config.IsProfile)
  {
    ProfileFields(provider);
    assert Config.IsProfile(Profile(provider));
  }

  lemma ModelEntryWellFormed(id: string, name: string)
    ensures Config.IsModel(ModelEntry(id, name))
  {
    ModelEntryFields(id, name);
  }

  lemma SlotWellFormed(baseUrl: string, apiKey: string)
    ensures Config.IsProviderSlot(ProviderSlot(baseUrl, apiKey))
  {
    var gpt4o := ModelEntry("gpt-4o", "GPT-4o");
    var gpt35 := ModelEntry("gpt-3.5-turbo", "GPT-3.5 Turbo");
    ProviderSlotFields(baseUrl, apiKey);
    ModelEntryWellFormed("gpt-4o", "GPT-4o");
    ModelEntryWellFormed("gpt-3.5-turbo", "GPT-3.5 Turbo");
    TwoModels(gpt4o, gpt35);
    SlotOf(ProviderSlot(baseUrl, apiKey), [gpt4o, gpt35]);
  }

  lemma TwoModels(first: Json, second: Json)
    requires Config.IsModel(first) && Config.IsModel(second)
    ensures Config.AreModels([first, second])
  {
  }

  lemma SlotOf(s: Json, models: seq<Json>)
    requires s.Obj? && UniqueKeys(s.members)
    requires Config.IsStr(Get(s, "baseUrl")) && Config.IsStr(Get(s, "apiKey")) && Config.IsStr(Get(s, "api"))
    requires Get(s, "models") == Some(Arr(models)) && Config.AreModels(models)
    ensures Config.IsProviderSlot(s)
  {
  }

  lemma SlotsWellFormed(baseUrl: string, apiKey: string)
    ensures Get(ModelsSection(baseUrl, apiKey), "providers").Some?
    ensures Config.IsNamed(Get(ModelsSection(baseUrl, apiKey), "providers").value, Config.IsProviderSlot)
  {
    var slot := ProviderSlot(baseUrl, apiKey);
    SlotWellFormed(baseUrl, apiKey);
    OnlyMemberNamed("default", slot, Config.IsProviderSlot);
    FindMember(ModelsSection(baseUrl, apiKey).members, 0);
  }

  /** An object with a single valid member is a well-formed name-to-entry map. */
  lemma OnlyMemberNamed(name: string, entry: Json, valid: Json -> bool)
    requires valid(entry)
    ensures Config.IsNamed(Obj([(name, entry)]), valid)
  {
  }

  /** For a provider name it knows, the wizard's document is a well-formed configuration document. */
  lemma DocumentIsWellFormed(provider: string, apiKey: string, baseUrl: string, radix36: string)
    requires provider in Config.ProviderNames
    ensures Config.IsDocument(BuildDocument(provider, apiKey, baseUrl, radix36))
  {
    var meta, auth, models := MetaSection(), AuthSection(provider), ModelsSection(baseUrl, apiKey);
    var doc := BuildDocument(provider, apiKey, baseUrl, radix36);
    FindMember(meta.members, 0);
    GatewayWellFormed(Token(radix36));
    ProfilesWellFormed(provider);
    SlotsWellFormed(baseUrl, apiKey);
    DocumentLookups(meta, GatewaySection(Token(radix36)), auth, models);
    MemberPath(doc, "meta", meta, "lastTouchedBy");
    MemberPath(doc, "auth", auth, "profiles");
    MemberPath(doc, "models", models, "providers");
  }

  // ---------------------------------------------------------------------------
  // Backup, then write

  /**
   * What the file steps of `generateConfig` leave: the disk, the backup
   * failure that was caught and only logged, and the failure that escaped
   * `generateConfig` (the menu does not catch it), if any.
   */
  datatype WriteOutcome = WriteOutcome(disk: Disk, backupWarning: Option<FsError>, escaped: Option<FsError>)

  /** Backup copy in its own `try`, then the directory and the write, which are not caught. */
  function WriteWithBackup(d: Disk, home: string, text: string, faults: Faults): WriteOutcome
  {
    var path := ConfigPath(home);
    var backedUp := if ExistsStep(d, path, faults.configProbe) then CopyStep(d, path, BackupPath(home), faults.copy) else Success(d);
    var d1 := if backedUp.Success? then backedUp.value else d;
    var warning := if backedUp.Failure? then Some(backedUp.error) else None;
    var dir := Dirname(path);
    var made := if ExistsStep(d1, dir, faults.dirProbe) then Success(d1) else MkdirStep(d1, dir, faults.mkdir);
    match made
    case Failure(e) => WriteOutcome(d1, warning, Some(e))
    case Success(d2) =>
      match WriteStep(d2, path, text, faults.write)
      case Failure(e) => WriteOutcome(d2, warning, Some(e))
      case Success(d3) => WriteOutcome(d3, warning, None)
  }

  method WriteConfig(fs: FileSystem, home: string, text: string, faults: Faults)
      returns (backupWarning: Option<FsError>, escaped: Option<FsError>)
    requires fs.Valid()
    modifies fs
    ensures fs.Valid()
    ensures WriteOutcome(fs.State(), backupWarning, escaped) == WriteWithBackup(old(fs.State()), home, text, faults)
  {
    var path := ConfigPath(home);
    backupWarning := None;
    if fs.ExistsSync(path, faults.configProbe) {
      backupWarning := fs.CopyFileSync(path, BackupPath(home), faults.copy);
    }
    var dir := Dirname(path);
    if !fs.ExistsSync(dir, faults.dirProbe) {
      escaped := fs.MkdirSync(dir, faults.mkdir);
      if escaped.Some? {
        return;
      }
    }
    escaped := fs.WriteFileSync(path, text, faults.write);
  }

  /**
   * `generateConfig` from its three answers: choose the provider, fall back
   * to its default base URL on an empty answer, build the document and write
   * its 2-space serialisation (`pretty`).
   */
  method GenerateConfigFile(fs: FileSystem, home: string, providerAnswer: string, apiKey: string,
                            baseUrlAnswer: string, radix36: string, pretty: Json -> string, faults: Faults)
      returns (doc: Json, backupWarning: Option<FsError>, escaped: Option<FsError>)
    requires fs.Valid()
    modifies fs
    ensures fs.Valid()
    ensures var provider := if providerAnswer == "2" then "anthropic"
                            else if providerAnswer == "3" then "google" else "openai";
            doc == BuildDocument(provider, apiKey,
                                 if baseUrlAnswer != "" then baseUrlAnswer else DefaultBaseUrl(provider), radix36)
    ensures WriteOutcome(fs.State(), backupWarning, escaped) == WriteWithBackup(old(fs.State()), home, pretty(doc), faults)
  {
    var provider, defaultBaseUrl := ChooseProvider(providerAnswer);
    var baseUrl := if baseUrlAnswer != "" then baseUrlAnswer else defaultBaseUrl;
    doc := BuildDocument(provider, apiKey, baseUrl, radix36);
    backupWarning, escaped := WriteConfig(fs, home, pretty(doc), faults);
  }

  /**
   * After the wizard's write the config holds the text, the directory exists,
   * and no path other than the config and the backup changed.
   */
  lemma WizardWritesConfig(d: Disk, home: string, text: string, faults: Faults)
    ensures var out := WriteWithBackup(d, home, text, faults);
            out.escaped.None? ==>
              && out.disk.files[ConfigPath(home)] == text
              && ConfigDir(home) in out.disk.dirs
              && out.disk.dirs == d.dirs + {ConfigDir(home)}
              && forall p :: p != ConfigPath(home) && p != BackupPath(home) ==>
                   (p in out.disk.files <==> p in d.files) && (p in d.files ==> out.disk.files[p] == d.files[p])
  {
    ConfigDirIsDirname(home);
  }

  /**
   * Nothing escapes the wizard's write whenever the environment refuses
   * neither the mkdir nor the write, the config path is not a directory, and
   * no file stands at the config directory or at any directory above it;
   * whatever happens to the backup copy is only a warning.
   */
  lemma WizardWritesOnOrdinaryDisk(d: Disk, home: string, text: string, faults: Faults)
    requires Consistent(d)
    requires faults.mkdir.None? && faults.write.None?
    requires ConfigPath(home) !in d.dirs
    requires ConfigDir(home) !in d.files && !UnderFile(d, ConfigDir(home))
    ensures WriteWithBackup(d, home, text, faults).escaped.None?
  {
    ConfigDirIsDirname(home);
    PathsDistinct(home);
  }

  /**
   * When a config file exists, `existsSync` sees it and its copy succeeds, the
   * backup holds exactly its previous text; with no config, or one
   * `existsSync` cannot check, the backup is untouched.
   */
  lemma WizardBacksUpPreviousConfig(d: Disk, home: string, text: string, faults: Faults)
    requires Consistent(d)
    ensures var out := WriteWithBackup(d, home, text, faults);
            && (ConfigPath(home) in d.files && faults.configProbe.None? && out.backupWarning.None? ==>
                  BackupPath(home) in out.disk.files && out.disk.files[BackupPath(home)] == d.files[ConfigPath(home)])
            && (!Exists(d, ConfigPath(home)) || faults.configProbe.Some? ==>
                  && out.backupWarning.None?
                  && (BackupPath(home) in out.disk.files <==> BackupPath(home) in d.files)
                  && (BackupPath(home) in d.files ==> out.disk.files[BackupPath(home)] == d.files[BackupPath(home)]))
  {
    PathsDistinct(home);
  }

  /**
   * A failing backup copy is only a warning: with the rest unobstructed the
   * config is still written and the backup keeps its old contents. (When the
   * directory check fails, mkdir runs on the existing directory, which only
   * fails if a file stands above it.)
   */
  lemma WizardSwallowsBackupFailure(d: Disk, home: string, text: string, faults: Faults)
    requires Consistent(d) && ConfigPath(home) in d.files && faults.configProbe.None?
    requires faults.copy.Some? && faults.mkdir.None? && faults.write.None?
    requires faults.dirProbe.None? || !UnderFile(d, ConfigDir(home))
    ensures var out := WriteWithBackup(d, home, text, faults);
            && out.backupWarning == Some(Refused(BackupPath(home), faults.copy.value))
            && out.escaped.None?
            && out.disk.files == d.files[ConfigPath(home) := text]
  {
    ConfigDirIsDirname(home);
    PathsDistinct(home);
  }

  /**
   * The two copies of backup-then-write differ on a failed copy: the server
   * answers 500 and leaves the config alone, the wizard overwrites it.
   */
  lemma ServerAbortsWhereWizardWrites(d: Disk, home: string, config: Json, pretty: Json -> string, faults: Faults)
    requires Consistent(d) && ConfigPath(home) in d.files && faults.configProbe.None?
    requires faults.copy.Some? && faults.mkdir.None? && faults.write.None?
    requires faults.dirProbe.None? || !UnderFile(d, ConfigDir(home))
    requires d.files[ConfigPath(home)] != pretty(config)
    ensures var saved := Server.SaveConfig(d, home, Success(config), pretty, faults);
            saved.reply.status == 500 && saved.disk.files[ConfigPath(home)] == d.files[ConfigPath(home)]
    ensures WriteWithBackup(d, home, pretty(config), faults).disk.files[ConfigPath(home)] == pretty(config)
  {
    WizardSwallowsBackupFailure(d, home, pretty(config), faults);
  }
}
