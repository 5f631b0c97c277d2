# openclaw-toolkit configurator, modelled in Dafny

The toolkit is made of two Node scripts that write the OpenClaw configuration
file `~/.openclaw/openclaw.json`:

- `server.cjs` is a small web configurator. It has three API routes:
  - `GET /api/config` returns the stored file;
  - `POST /api/config` saves a document after copying the old file to
    `openclaw.json.bak`;
  - `POST /api/verify` proxies a credential check to the chosen AI provider.
- `index.cjs` is a terminal wizard. Its menu dispatches on a trimmed digit.
  Its config generator asks for a provider, a key and a base URL, builds a
  fixed document around the answers, and writes it after its own
  backup copy.

Modules:

- **Results**: `Option` and `Result`.
- **Json**: JSON values. Objects are ordered member lists. Lookups are by
  name (`Get`) and by path (`At`). A repeated name resolves to its last
  occurrence.
- **Paths**: the config path, backup path and config directory built from
  the home directory, plus `path.dirname`.
- **Disk**: the file system the scripts touch. It comes in two forms:
  - a `Disk` value (files with their text, and directories) with one pure
    step per `fs` call (`ExistsStep`, `ReadStep`, `CopyStep`, `MkdirStep`,
    `WriteStep`);
  - the class `Disk.FileSystem`, which holds the same state in fields. Its
    mutating methods (`CopyFileSync`, `MkdirSync`, `WriteFileSync`) change
    those fields in place; `ExistsSync` and `ReadFileSync` only read them.
    All five are proved to match their pure steps exactly.

  Failures the environment raises (permission denied, disk full, …) are
  injected per step through `Faults`. That includes the two `existsSync`
  checks, of the config file and of its directory: `existsSync` never
  throws, and an error while checking makes it answer false.
- **Config**: the shape of a well-formed configuration document: gateway,
  named auth profiles, and named provider slots with their models.
- **Server**: the three routes.
  - The two file routes are methods on a `FileSystem`. Each is proved equal
    to a pure specification (`ReadConfig`, `SaveConfig`), and the file
    properties are lemmas about those specifications.
  - The verify route is a pure request builder (`VerificationRequest`) and a
    reply mapping (`VerifyReply`).
- **Menu**: `main`'s `switch (choice.trim())`, including the JavaScript
  definition of white space. It becomes a loop over the answers given to the
  prompt.
- **Wizard**: `generateConfig`:
  - the provider choice, as the source's overwritten `let`s;
  - the document, as a pure constructor with its fields stated exactly;
  - the backup-then-write on the `FileSystem` (`WriteConfig`), proved equal
    to `WriteWithBackup`.

`JSON.parse`, `JSON.stringify(x, null, 2)` and `fetch` appear only as
function parameters: `parse`, `pretty` and `network`. The answers typed at
the prompts are parameters. So is the text of `Math.random().toString(36)`,
from which the token is cut with `.substring(7)`.

Behaviours of the code worth knowing, which the model keeps:

- `meta` is the object `{ lastTouchedBy: "openclaw-toolkit-lite" }`, not a
  string.
- The server saves whatever JSON it is sent, without checking it against the
  document shape.
- The provider prompt of the wizard is compared without trimming, unlike the
  menu prompt. So `" 2"` selects openai.

## Model

| member | source | states |
|---|---|---|
| Server.VerificationRequest | server.cjs:102-114 | openai and custom: `baseUrl` with one trailing `/` removed, then `/models`, with only a Bearer header. anthropic: the fixed models URL, with `x-api-key` and `anthropic-version: 2023-06-01`. google: the fixed models URL plus `?key=` and the key, with no header. The URL is empty exactly for any other provider, whose headers are empty |
| Server.AnthropicIgnoresBaseUrl | server.cjs:109-111 | the anthropic request is the same for every base URL |
| Server.CustomIsOpenAICompatible | server.cjs:106-108 | `custom` and `openai` build identical requests |
| Server.VerifyReply | server.cjs:122-131 | 200 with `{success, data}` exactly when upstream answered ok. 400 with `error: data` exactly when it answered not-ok. 500 with the thrown message exactly when fetch or `json()` threw. The JSON content type is set exactly on an answer |
| Server.HandleVerify | server.cjs:100-132 | an undecodable body is a 500 without the JSON content type. Otherwise the reply depends only on the outcome of the one request built for the provider: 200 with the data exactly when it answered ok, 400 with the data exactly when it answered not-ok, 500 with the message exactly when it threw |
| Server.UnknownProviderFails | server.cjs:103-131 | a provider without a branch is answered with 500 once fetch rejects the empty URL |
| Server.HandleGetConfig | server.cjs:49-63 | the GET reply on the file system's state is the one `ReadConfig` specifies |
| Server.ReadReturnsStoredText | server.cjs:51-54 | an existing readable config is returned verbatim, unparsed, with status 200 |
| Server.ReadMissingIsEmptyObject | server.cjs:55-58 | with no config the reply is 200 with the text `{}` |
| Server.ReadUnreachableConfigIsEmptyObject | server.cjs:51-58 | when `existsSync` cannot check the config (it swallows the access error), the reply is 200 with `{}` even though the file is there |
| Server.ReadFailsOnlyOnUnreadableFile | server.cjs:50-62 | status 500 if and only if `existsSync` sees the config but reading it throws (it is a directory or the read is refused) |
| Server.HandlePostConfig | server.cjs:67-94 | parse, copy to backup if present, create the directory if missing, write the 2-space text. The reply and the new state are those `SaveConfig` specifies. The file system stays consistent |
| Server.SaveBadBodyChangesNothing | server.cjs:71-91 | a body that does not parse gives 500 and leaves every file and directory as it was |
| Server.SaveBackupFailureAborts | server.cjs:75-91 | when the backup copy throws, the reply is 500 and the disk is unchanged, so the config is not rewritten |
| Server.SaveFailureKeepsConfig | server.cjs:71-91 | every failed save answers 500 without the JSON content type, and the config file is present and unchanged exactly when it was before |
| Server.SaveBacksUpPreviousConfig | server.cjs:75-77 | after a successful save the backup holds exactly the previous config text when `existsSync` saw it. With no previous config, or one `existsSync` could not check, the backup is untouched |
| Server.SaveWritesConfig | server.cjs:80-87 | a successful save replies with the config path. The config holds `pretty(config)` and the config directory exists. No directory other than that one is added, and no path other than the config and the backup changes |
| Server.SaveThenRead | server.cjs:51-83 | a GET after a successful save returns the saved serialisation |
| Server.SuccessiveSavesKeepOneGeneration | server.cjs:75-83 | after two successful saves the backup holds the first save's serialisation |
| Server.SaveSucceedsOnOrdinaryDisk | server.cjs:71-87 | a parsable body is saved (200) whenever copy, mkdir and write are not refused, neither file path is a directory, and no file stands at or above the config directory |
| Server.SaveRefusedUnderFile | server.cjs:81-90 | with the config directory missing and a file above it, the save answers 500 and leaves the disk unchanged |
| Server.SavePreservesConsistency | server.cjs:71-91 | every save, failed or not, leaves no file without its directory and no path both a file and a directory |
| Paths.BackupPath | server.cjs:9-10 | the backup path is the config path with `.bak` appended |
| Paths.LastSlash | server.cjs:80 | the index of the last `/`, or -1 when there is none; no `/` follows it |
| Paths.ConfigDirIsDirname | server.cjs:80-81 | `path.dirname` of the config path, and of the backup path, is `~/.openclaw` |
| Paths.PathsDistinct | server.cjs:9-10 | config path, backup path and directory are pairwise different |
| Disk.FileSystem.ExistsSync | server.cjs:51 | `existsSync` answers true exactly when the path is a file or a directory and checking it raised no error |
| Disk.ReadStep | server.cjs:52 | the read succeeds if and only if the path is a file, not a directory, and nothing refuses it. It then yields that file's text |
| Disk.CopyStep | server.cjs:76 | a successful copy overwrites only the destination, with the source's text, keeps the directories, and keeps the disk consistent |
| Disk.MkdirStep | server.cjs:81 | mkdir succeeds if and only if the path is not a file, no file stands at its parent or any directory above it, and nothing refuses it. It adds exactly that directory |
| Disk.WriteStep | server.cjs:83 | the write succeeds if and only if the path is not a directory, its parent directory exists, and nothing refuses it. It sets exactly that file's text |
| Disk.FileSystem.ReadFileSync | server.cjs:52 | the in-place read returns what `ReadStep` gives on the current state |
| Disk.FileSystem.CopyFileSync | server.cjs:76 | the in-place copy changes the state exactly as `CopyStep`, or leaves it unchanged and returns its error |
| Disk.FileSystem.MkdirSync | server.cjs:81 | the in-place mkdir changes the state exactly as `MkdirStep`, or leaves it unchanged and returns its error |
| Disk.FileSystem.WriteFileSync | server.cjs:83 | the in-place write changes the state exactly as `WriteStep`, or leaves it unchanged and returns its error |
| Menu.TrimStartRemovesLeadingSpace | index.cjs:43 | trimming the start removes a prefix made only of white space, and the rest does not start with white space |
| Menu.TrimEndRemovesTrailingSpace | index.cjs:43 | trimming the end removes a suffix made only of white space, and the rest does not end with white space |
| Menu.TrimStartSkipsSpace | index.cjs:43 | any white-space prefix before a non-space character is removed completely |
| Menu.TrimEndSkipsSpace | index.cjs:43 | any white-space suffix after a non-space character is removed completely |
| Menu.PaddedChoiceTrims | index.cjs:43-58 | a digit surrounded by any white space trims to that digit, so it selects its menu entry |
| Menu.TrimmedChoiceIsPadded | index.cjs:43-58 | conversely, an answer that trims to one character is that character with white space around it |
| Menu.Menu | index.cjs:41-61 | the selected action is the first answer that trims to `1`–`5`, mapped to generate, network, watchdog, web UI and exit. Every earlier answer was invalid. With no valid answer, none is selected |
| Wizard.ChooseProvider | index.cjs:76-81 | `2` gives anthropic, `3` gives google, and every other answer (`4` included) gives openai, each with its default base URL |
| Wizard.DefaultsMatchVerification | index.cjs:77-84 | for each provider the wizard writes, the server's verification URL under the default base URL is that URL followed by `/models` (google: `/models?key=` and the key) |
| Wizard.GenerateConfigFile | index.cjs:76-127 | the document is built for the chosen provider, the key, and the base URL answer, or the provider's default when the answer is empty. Its 2-space text is written as `WriteWithBackup` specifies |
| Wizard.DocumentSections | index.cjs:86-112 | the document has exactly the sections meta, gateway, auth and models, in that order and with distinct names |
| Wizard.DocumentGateway | index.cjs:88-93 | gateway port 18789, mode `local`, bind `loopback`, auth mode `token`. The token is `change-me-` followed by the random text from its eighth character on |
| Wizard.DocumentProfiles | index.cjs:94-98 | exactly one profile, `default`, holding the chosen provider and mode `api_key` |
| Wizard.DocumentProviderSlot | index.cjs:99-111 | exactly one provider slot, `default`, holding the base URL, the key, `openai-completions`, and the models gpt-4o then gpt-3.5-turbo |
| Wizard.DocumentModels | index.cjs:105-108 | the two models carry their ids and `reasoning: false` |
| Wizard.DocumentIsWellFormed | index.cjs:86-112 | for a known provider the document is a well-formed configuration document |
| Wizard.WriteConfig | index.cjs:114-127 | the in-place copy, mkdir and write leave the state, the caught backup warning and the escaping error that `WriteWithBackup` specifies |
| Wizard.WizardWritesConfig | index.cjs:123-127 | when nothing escapes, the config holds the text and the directory exists. No directory other than that one is added, and no path other than the config and the backup changes |
| Wizard.WizardWritesOnOrdinaryDisk | index.cjs:114-127 | nothing escapes the wizard's write whenever mkdir and write are not refused, the config path is not a directory, and no file stands at or above the config directory, whatever happens to the backup copy |
| Wizard.WizardBacksUpPreviousConfig | index.cjs:114-121 | a successful copy leaves the previous config in the backup. With no config, or one `existsSync` could not check, the backup is untouched and nothing is reported |
| Wizard.WizardSwallowsBackupFailure | index.cjs:114-127 | a refused backup copy is only reported. The config is still written, and no other file changes |
| Wizard.ServerAbortsWhereWizardWrites | index.cjs:114-127 | on the same refused backup copy the server answers 500 and keeps the old config, while the wizard overwrites it |

## Left out

- Terminal I/O (readline, colours, logging, `console.clear`) is left out. Answers to prompts are parameters.
- The network check is left out: it shells out to `curl` and reads proxy variables.
- The watchdog installer is left out: it writes a constant script and runs `chmod`.
- Spawning the web UI's child process and auto-opening the browser are left out. They are process control.
- HTTP plumbing is left out: CORS headers, OPTIONS, URL parsing, chunked body accumulation, routing, static file serving and the MIME lookup.
- `fetch` and `res.json()` are the `network` parameter. A failure of either is one `Threw` outcome.
- `JSON.parse` and `JSON.stringify` are the `parse` and `pretty` parameters. Their internals are not modelled.
- `Json` has no floating-point numbers: `Num` holds an integer.
- Error texts (`e.message`) are represented by the `FsError`, `BadJson` and `Transport` values, not by Node's strings.
- Server.HandleVerify takes the body already decoded into its three string fields. Missing or non-string fields are not modelled. Neither is the TypeError that `baseUrl.replace` throws when `baseUrl` is absent; that case is a 500.
- Server.UnknownProviderFails assumes that `fetch` rejects the empty URL, because `fetch` is not part of this model.
- Menu.Menu models the recursion on an invalid answer as a loop over a finite list of answers. When they run out it returns no action, where the script would keep prompting. The wait-and-return-to-menu after an action is left out.
- Disk.MkdirStep records only the directory it is asked for, not the intermediate directories that `recursive: true` also creates.
- Paths.Dirname covers paths without trailing separators or `..` segments. `path.join` normalisation is not modelled, so the home directory is assumed to be given without a trailing `/`.
- A write that fails midway (a partial file) and concurrent saves are left out. Each call is one atomic step.
- An error escaping `generateConfig` becomes an unhandled rejection in the script. The model returns it as `escaped` and stops there.
