/**
 * The web configurator's API (server.cjs): reading the config, saving it with
 * a single-slot backup, and proxying a credential check to a provider.
 * JSON.parse, JSON.stringify and fetch are parameters: `parse` stands for
 * `JSON.parse`, `pretty` for `JSON.stringify(x, null, 2)`, `network` for what
 * `fetch` followed by `res.json()` yields for a request.
 */
module Server {
  import opened Results
  import opened Json
  import opened Paths
  import opened Disk

  /** What an error body's `error: e.message` reports. */
  datatype Cause =
    | BadJson(message: string)     // JSON.parse threw
    | FsFault(error: FsError)      // an fs call threw
    | Transport(message: string)   // fetch or res.json() threw

  /** The body the server sends. */
  datatype Body =
    | Text(text: string)           // sent as is
    | SavedAt(path: string)        // {success: true, path}
    | Verified(data: Json)         // {success: true, data}
    | Rejected(error: Json)        // {success: false, error: data}
    | Failed(cause: Cause)         // {success: false, error: e.message}
    | ReadFailed(fault: FsError)   // {error: e.message}

  /** Status, whether `Content-Type: application/json` is set, and the body. */
  datatype Reply = Reply(status: int, json: bool, body: Body)

  // ---------------------------------------------------------------------------
  // GET /api/config

  /** The reply to GET /api/config on disk `d`: the stored text, never parsed. */
  function ReadConfig(d: Disk, home: string, faults: Faults): Reply
  {
    var path := ConfigPath(home);
    if !ExistsStep(d, path, faults.configProbe) then Reply(200, true, Text("{}"))   // JSON.stringify({})
    else match ReadStep(d, path, faults.read)
      case Success(text) => Reply(200, true, Text(text))
      case Failure(e) => Reply(500, false, ReadFailed(e))
  }

  method HandleGetConfig(fs: FileSystem, home: string, faults: Faults) returns (reply: Reply)
    ensures reply == ReadConfig(fs.State(), home, faults)
  {
    var path := ConfigPath(home);
    if fs.ExistsSync(path, faults.configProbe) {
      var data := fs.ReadFileSync(path, faults.read);
      match data
      case Success(text) =>
        reply := Reply(200, true, Text(text));
      case Failure(e) =>
        reply := Reply(500, false, ReadFailed(e));
    } else {
      reply := Reply(200, true, Text("{}"));
    }
  }

  /** A stored config is returned verbatim with status 200. */
  lemma ReadReturnsStoredText(d: Disk, home: string, faults: Faults)
    requires Consistent(d) && ConfigPath(home) in d.files && faults.configProbe.None? && faults.read.None?
    ensures ReadConfig(d, home, faults) == Reply(200, true, Text(d.files[ConfigPath(home)]))
  {
  }

  /** With no config on disk the reply is status 200 with the text "{}". */
  lemma ReadMissingIsEmptyObject(d: Disk, home: string, faults: Faults)
    requires !Exists(d, ConfigPath(home))
    ensures ReadConfig(d, home, faults) == Reply(200, true, Text("{}"))
  {
  }

  /**
   * A config that `existsSync` cannot check (an access error it swallows) is
   * answered like a missing one, with status 200 and "{}", although it is there.
   */
  lemma ReadUnreachableConfigIsEmptyObject(d: Disk, home: string, faults: Faults)
    requires faults.configProbe.Some?
    ensures ReadConfig(d, home, faults) == Reply(200, true, Text("{}"))
  {
  }

  /** Status 500 happens exactly when the config is seen to exist but cannot be read. */
  lemma ReadFailsOnlyOnUnreadableFile(d: Disk, home: string, faults: Faults)
    ensures ReadConfig(d, home, faults).status == 500
        <==> Exists(d, ConfigPath(home)) && faults.configProbe.None? && (ConfigPath(home) in d.dirs || faults.read.Some?)
  {
  }

  // ---------------------------------------------------------------------------
  // POST /api/config

  /** The reply to a save and the disk it leaves. */
  datatype SaveOutcome = SaveOutcome(reply: Reply, disk: Disk)

  function Abort(d: Disk, e: FsError): SaveOutcome
  {
    SaveOutcome(Reply(500, false, Failed(FsFault(e))), d)
  }

  /**
   * POST /api/config with a body that parsed to `parsed`. One `try` covers
   * every step, so the first failure ends the save with status 500 and leaves
   * the disk as the steps before it made it.
   */
  function SaveConfig(d: Disk, home: string, parsed: Result<Json, string>,
                      pretty: Json -> string, faults: Faults): SaveOutcome
  {
    match parsed
    case Failure(m) => SaveOutcome(Reply(500, false, Failed(BadJson(m))), d)
    case Success(config) =>
      var path := ConfigPath(home);
      var backedUp := if ExistsStep(d, path, faults.configProbe) then CopyStep(d, path, BackupPath(home), faults.copy) else Success(d);
      match backedUp
      case Failure(e) => Abort(d, e)
      case Success(d1) =>
        var dir := Dirname(path);
        var made := if ExistsStep(d1, dir, faults.dirProbe) then Success(d1) else MkdirStep(d1, dir, faults.mkdir);
        match made
        case Failure(e) => Abort(d1, e)
        case Success(d2) =>
          match WriteStep(d2, path, pretty(config), faults.write)
          case Failure(e) => Abort(d2, e)
          case Success(d3) => SaveOutcome(Reply(200, true, SavedAt(path)), d3)
  }

  method HandlePostConfig(fs: FileSystem, home: string, body: string, parse: string -> Result<Json, string>,
                          pretty: Json -> string, faults: Faults) returns (reply: Reply)
    requires fs.Valid()
    modifies fs
    ensures fs.Valid()
    ensures SaveOutcome(reply, fs.State()) == SaveConfig(old(fs.State()), home, parse(body), pretty, faults)
  {
    var parsed := parse(body);
    if parsed.Failure? {
      return Reply(500, false, Failed(BadJson(parsed.error)));
    }
    var config := parsed.value;
    var path := ConfigPath(home);
    if fs.ExistsSync(path, faults.configProbe) {
      var err := fs.CopyFileSync(path, BackupPath(home), faults.copy);
      if err.Some? {
        return Reply(500, false, Failed(FsFault(err.value)));
      }
    }
    var dir := Dirname(path);
    if !fs.ExistsSync(dir, faults.dirProbe) {
      var err := fs.MkdirSync(dir, faults.mkdir);
      if err.Some? {
        return Reply(500, false, Failed(FsFault(err.value)));
      }
    }
    var err := fs.WriteFileSync(path, pretty(config), faults.write);
    if err.Some? {
      return Reply(500, false, Failed(FsFault(err.value)));
    }
    reply := Reply(200, true, SavedAt(path));
  }

  /** A body that does not parse changes nothing and is answered with 500. */
  lemma SaveBadBodyChangesNothing(d: Disk, home: string, message: string, pretty: Json -> string, faults: Faults)
    ensures SaveConfig(d, home, Failure(message), pretty, faults) == SaveOutcome(Reply(500, false, Failed(BadJson(message))), d)
  {
  }

  /** A failed backup copy aborts the save: status 500 and the disk, config included, unchanged. */
  lemma SaveBackupFailureAborts(d: Disk, home: string, config: Json, pretty: Json -> string, faults: Faults)
    requires Exists(d, ConfigPath(home)) && faults.configProbe.None?
    requires CopyStep(d, ConfigPath(home), BackupPath(home), faults.copy).Failure?
    ensures var out := SaveConfig(d, home, Success(config), pretty, faults);
            out.reply.status == 500 && out.disk == d
  {
  }

  /** Whatever fails, a save that does not succeed leaves the config file as it was. */
  lemma SaveFailureKeepsConfig(d: Disk, home: string, parsed: Result<Json, string>, pretty: Json -> string, faults: Faults)
    ensures var out := SaveConfig(d, home, parsed, pretty, faults);
            out.reply.status != 200 ==>
              out.reply.status == 500 && !out.reply.json
              && (ConfigPath(home) in out.disk.files <==> ConfigPath(home) in d.files)
              && (ConfigPath(home) in d.files ==> out.disk.files[ConfigPath(home)] == d.files[ConfigPath(home)])
  {
    PathsDistinct(home);
  }

  /**
   * After a successful save the backup holds exactly the previous config when
   * there was one and `existsSync` saw it, and is untouched otherwise.
   */
  lemma SaveBacksUpPreviousConfig(d: Disk, home: string, parsed: Result<Json, string>, pretty: Json -> string, faults: Faults)
    requires Consistent(d)
    ensures var out := SaveConfig(d, home, parsed, pretty, faults);
            out.reply.status == 200 ==>
              if ConfigPath(home) in d.files && faults.configProbe.None? then
                BackupPath(home) in out.disk.files && out.disk.files[BackupPath(home)] == d.files[ConfigPath(home)]
              else
                (BackupPath(home) in out.disk.files <==> BackupPath(home) in d.files)
                && (BackupPath(home) in d.files ==> out.disk.files[BackupPath(home)] == d.files[BackupPath(home)])
  {
    PathsDistinct(home);
  }

  /**
   * A successful save writes the 2-space serialisation of the parsed body,
   * leaves the config directory in place, and changes no other path.
   */
  lemma SaveWritesConfig(d: Disk, home: string, parsed: Result<Json, string>, pretty: Json -> string, faults: Faults)
    ensures var out := SaveConfig(d, home, parsed, pretty, faults);
            out.reply.status == 200 ==>
              && parsed.Success?
              && out.reply == Reply(200, true, SavedAt(ConfigPath(home)))
              && out.disk.files[ConfigPath(home)] == pretty(parsed.value)
              && ConfigDir(home) in out.disk.dirs
              && out.disk.dirs == d.dirs + {ConfigDir(home)}
              && forall p :: p != ConfigPath(home) && p != BackupPath(home) ==>
                   (p in out.disk.files <==> p in d.files) && (p in d.files ==> out.disk.files[p] == d.files[p])
  {
    ConfigDirIsDirname(home);
  }

  /** Saving then reading gives back the serialised document (the round trip of a save and a GET). */
  lemma SaveThenRead(d: Disk, home: string, config: Json, pretty: Json -> string, faults: Faults, later: Faults)
    requires later.configProbe.None? && later.read.None?
    requires SaveConfig(d, home, Success(config), pretty, faults).reply.status == 200
    ensures ReadConfig(SaveConfig(d, home, Success(config), pretty, faults).disk, home, later)
            == Reply(200, true, Text(pretty(config)))
  {
    ConfigDirIsDirname(home);
  }

  /** Two successful saves in a row: the backup holds the first one's document. */
  lemma SuccessiveSavesKeepOneGeneration(d: Disk, home: string, first: Json, second: Json, pretty: Json -> string,
                                         faults1: Faults, faults2: Faults)
    requires Consistent(d) && faults2.configProbe.None?
    requires SaveConfig(d, home, Success(first), pretty, faults1).reply.status == 200
    requires SaveConfig(SaveConfig(d, home, Success(first), pretty, faults1).disk, home, Success(second), pretty, faults2).reply.status == 200
    ensures var d2 := SaveConfig(SaveConfig(d, home, Success(first), pretty, faults1).disk, home, Success(second), pretty, faults2).disk;
            BackupPath(home) in d2.files && d2.files[BackupPath(home)] == pretty(first)
  {
    var d1 := SaveConfig(d, home, Success(first), pretty, faults1).disk;
    SaveWritesConfig(d, home, Success(first), pretty, faults1);
    SavePreservesConsistency(d, home, Success(first), pretty, faults1);
    SaveBacksUpPreviousConfig(d1, home, Success(second), pretty, faults2);
  }

  /**
   * A parsable body is saved whenever the environment refuses none of the
   * copy, mkdir and write, and the disk leaves room for the files: neither
   * file path is a directory, and no file stands at the config directory or
   * at any directory above it.
   */
  lemma SaveSucceedsOnOrdinaryDisk(d: Disk, home: string, config: Json, pretty: Json -> string, faults: Faults)
    requires Consistent(d)
    requires faults.copy.None? && faults.mkdir.None? && faults.write.None?
    requires ConfigPath(home) !in d.dirs && BackupPath(home) !in d.dirs
    requires ConfigDir(home) !in d.files && !UnderFile(d, ConfigDir(home))
    ensures SaveConfig(d, home, Success(config), pretty, faults).reply.status == 200
  {
    ConfigDirIsDirname(home);
    PathsDistinct(home);
  }

  /**
   * With the config directory missing and a file standing above it, the
   * save cannot succeed (mkdir throws ENOTDIR if nothing before it failed):
   * it answers 500 and changes nothing.
   */
  lemma SaveRefusedUnderFile(d: Disk, home: string, config: Json, pretty: Json -> string, faults: Faults)
    requires Consistent(d)
    requires ConfigDir(home) !in d.dirs && ConfigDir(home) !in d.files && UnderFile(d, ConfigDir(home))
    ensures var out := SaveConfig(d, home, Success(config), pretty, faults);
            out.reply.status == 500 && out.disk == d
  {
    ConfigDirIsDirname(home);
  }

  /** Every save, successful or not, keeps the disk consistent. */
  lemma SavePreservesConsistency(d: Disk, home: string, parsed: Result<Json, string>, pretty: Json -> string, faults: Faults)
    requires Consistent(d)
    ensures Consistent(SaveConfig(d, home, parsed, pretty, faults).disk)
  {
  }

  // ---------------------------------------------------------------------------
  // POST /api/verify

  const AnthropicModelsUrl := "https://api.anthropic.com/v1/models"
  const AnthropicVersion := "2023-06-01"
  const GoogleModelsUrl := "https://generativelanguage.googleapis.com/v1beta/models"

  /** The providers with a branch of their own; any other value builds an empty request. */
  predicate KnownProvider(provider: string)
  {
    provider == "openai" || provider == "custom" || provider == "anthropic" || provider == "google"
  }

  /** The request `fetch` is given: target URL and headers, in order. */
  datatype UpstreamRequest = UpstreamRequest(url: string, headers: seq<(string, string)>)

  predicate EndsWithSlash(s: string)
  {
    |s| > 0 && s[|s| - 1] == '/'
  }

  /** `s.replace(/\/$/, '')`: drops one '/' at the very end. */
  function TrimTrailingSlash(s: string): string
  {
    if EndsWithSlash(s) then s[..|s| - 1] else s
  }

  /** The verification request for one provider, key and base URL. */
  function VerificationRequest(provider: string, apiKey: string, baseUrl: string): (r: UpstreamRequest)
    ensures provider == "openai" || provider == "custom" ==>
              && (EndsWithSlash(baseUrl) ==> r.url == baseUrl + "models")
              && (!EndsWithSlash(baseUrl) ==> r.url == baseUrl + "/models")
              && r.headers == [("Authorization", "Bearer " + apiKey)]
    ensures provider == "anthropic" ==>
              r == UpstreamRequest(AnthropicModelsUrl, [("x-api-key", apiKey), ("anthropic-version", AnthropicVersion)])
    ensures provider == "google" ==> r == UpstreamRequest(GoogleModelsUrl + "?key=" + apiKey, [])
    ensures r.url == "" <==> !KnownProvider(provider)
    ensures !KnownProvider(provider) ==> r.headers == []
  {
    if provider == "openai" || provider == "custom" then
      var url := TrimTrailingSlash(baseUrl) + "/models";
      assert EndsWithSlash(baseUrl) ==> url == baseUrl + "models" by {
        if EndsWithSlash(baseUrl) {
          assert baseUrl == baseUrl[..|baseUrl| - 1] + "/";
        }
      }
      assert url[|url| - 7..] == "/models";
      UpstreamRequest(url, [("Authorization", "Bearer " + apiKey)])
    else if provider == "anthropic" then
      UpstreamRequest(AnthropicModelsUrl, [("x-api-key", apiKey), ("anthropic-version", AnthropicVersion)])
    else if provider == "google" then
      UpstreamRequest(GoogleModelsUrl + "?key=" + apiKey, [])
    else
      UpstreamRequest("", [])
  }

  /** Anthropic's request does not depend on the base URL at all. */
  lemma AnthropicIgnoresBaseUrl(apiKey: string, baseUrl1: string, baseUrl2: string)
    ensures VerificationRequest("anthropic", apiKey, baseUrl1) == VerificationRequest("anthropic", apiKey, baseUrl2)
  {
  }

  /** `openai` and `custom` build the same request. */
  lemma CustomIsOpenAICompatible(apiKey: string, baseUrl: string)
    ensures VerificationRequest("custom", apiKey, baseUrl) == VerificationRequest("openai", apiKey, baseUrl)
  {
  }

  /** The upstream's answer: `apiRes.ok` with the parsed body, or a thrown failure. */
  datatype Upstream = Answered(ok: bool, data: Json) | Threw(message: string)

  /** How the upstream's answer becomes the reply. */
  function VerifyReply(u: Upstream): (r: Reply)
    ensures r.status == 200 <==> u.Answered? && u.ok
    ensures r.status == 400 <==> u.Answered? && !u.ok
    ensures r.status == 500 <==> u.Threw?
    ensures r.json <==> u.Answered?
    ensures r.status == 200 ==> r.body == Verified(u.data)
    ensures r.status == 400 ==> r.body == Rejected(u.data)
    ensures r.status == 500 ==> r.body == Failed(Transport(u.message))
  {
    match u
    case Answered(ok, data) =>
      if ok then Reply(200, true, Verified(data)) else Reply(400, true, Rejected(data))
    case Threw(message) => Reply(500, false, Failed(Transport(message)))
  }

  /** The three fields read from the request body. */
  datatype VerifyRequest = VerifyRequest(provider: string, apiKey: string, baseUrl: string)

  /**
   * POST /api/verify with a body that decoded to `request`: a body that does
   * not decode is a 500 before any request is made; otherwise the one request
   * built for the provider is sent, and its outcome alone decides the reply.
   */
  function HandleVerify(request: Result<VerifyRequest, string>, network: UpstreamRequest -> Upstream): (r: Reply)
    ensures request.Failure? ==> r.status == 500 && !r.json && r.body == Failed(BadJson(request.error))
    ensures request.Success? ==>
              var u := network(VerificationRequest(request.value.provider, request.value.apiKey, request.value.baseUrl));
              && (r.status == 200 <==> u.Answered? && u.ok)
              && (r.status == 400 <==> u.Answered? && !u.ok)
              && (r.status == 500 <==> u.Threw?)
              && (u.Answered? ==> r.json && r.body == (if u.ok then Verified(u.data) else Rejected(u.data)))
              && (u.Threw? ==> !r.json && r.body == Failed(Transport(u.message)))
  {
    match request
    case Failure(m) => Reply(500, false, Failed(BadJson(m)))
    case Success(q) => VerifyReply(network(VerificationRequest(q.provider, q.apiKey, q.baseUrl)))
  }

  /** An unknown provider is answered with 500 when fetch cannot use an empty URL. */
  lemma UnknownProviderFails(q: VerifyRequest, network: UpstreamRequest -> Upstream)
    requires !KnownProvider(q.provider)
    requires network(UpstreamRequest("", [])).Threw?
    ensures HandleVerify(Success(q), network).status == 500
  {
  }
}
