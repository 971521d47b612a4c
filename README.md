# sapo-cli pre-install guard, modelled in Dafny

sapo-cli sits in front of `npm`, `pnpm`, `bun` and `yarn`. When an install command is
intercepted, each named package is first sent to a remote risk-scoring service. A
package rated dangerous is installed only when the user confirms. Before installing,
a behavioural sandbox can run the install under `strace` and collect evidence of what
the package does. The install can also be started with a runtime monitor preloaded
through `NODE_OPTIONS`; the monitor appends what it sees to a threat log.

This project models that core and proves properties of the model:

- `Text` holds the Rust `str` operations the code depends on: `trim`, `find`, `split`,
  `join`, `lines`, `contains`, `starts_with` and ASCII `to_lowercase`.
- `ConfigStore` models the `key=value` configuration file. `ConfigStore.ConfigFile` is
  a class whose `content` is the file: absent, or its text. It covers parsing,
  serialising, the default file, and the trust list stored under `trusted`.
- `ApiClient` models the request URLs and how a server reads their query back, the
  response records, and how the status of a Pro-module download is classified.
- `ScanCommand` models the per-package decision of `scan::run`: skip, trusted,
  fail-open, report with a confirmation gate, and the follow-up sandbox step.
- `TrustCommand` models `sapo trust add/remove/list` over a `ConfigFile`.
- `SandboxAnalysis` models the sandbox collector. It covers the strace-line fold, the
  quoted-string and IPv4 extractors, the directory walk, the five source-code
  detectors over `node_modules`, and collection and scoring.
- `Monitor` models the runtime monitor. `Monitor.MonitorFiles` is a class holding the
  monitor script and the threat log. It covers enable, disable, toggle, the status
  report, clearing the log, and the window of recent threats.
- `Sync` models `sapo sync`: the Pro status is written back into the plan, and the
  monitor script is refreshed.
- `Wrap` models the install interceptor. It covers install detection, package
  extraction, the scan loop that stops at the first refusal, the monitoring decision,
  the launch command with its environment, and the exit status.

Functions, lemmas and `datatype`s are used where the Rust code computes values.
`class`es with `modifies` clauses are used where it rewrites files: the configuration
file, the monitor script and the threat log. The loops are `method`s proved against
specification functions. `ParseTrace` equals `WithTrace`, `AnalyzeNodeModules` equals
`WithModules`, `WalkDir` equals `Walk`, `Wrap.Run` equals `Wrap.Outcome`, and
`ShowThreats` equals `Rows` of the window.

Where the design description and the code disagree, the model follows the code:

- The sandbox working directory is not always removed. Creating the directory or
  writing `package.json` exits `collect_behavior` early through `?`, so the cleanup at
  `src/sandbox/analyze.rs:159` does not run. When the directory was created but the
  manifest could not be written, the directory stays behind. The cleanup's own error
  is discarded with `.ok()`, so a removal that fails leaves it behind too
  (`CollectBehavior`, `dirLeftBehind`, `SandboxHost.dirRemoved`).
- `sapo monitor threats n` takes the last `n` raw lines of the log first, and only then
  skips lines that do not decode. When malformed lines sit inside that window, fewer
  than `min(n, valid records)` rows are shown (`Monitor.WindowBeforeDecoding`).
- `files_read` and `env_vars_accessed` are vectors, not sets. A path opened twice is
  recorded twice. Only the `process.env access` entry is deduplicated.
- The name used for the trust-list lookup is the text before the first `@`. For a
  scoped package such as `@scope/x` it is the empty string (`ScanCommand.ScopedNameIsEmpty`).
- The trust list keeps unique entries only through `add_trusted` and `remove_trusted`.
  A hand-edited list may hold duplicates, and `Trusted` keeps them.

## Model

| member | source | states |
|---|---|---|
| Text.Trim | src/config/store.rs:14 | `str::trim`: the result starts and ends with no whitespace. |
| Text.TrimChars | src/config/store.rs:14 | Trimming brings in no character the text lacked. |
| Text.TrimLower | src/commands/scan.rs:54 | Trimming and ASCII lower-casing commute. |
| Text.ToLower | src/commands/scan.rs:54 | Same length, every character lower-cased one for one. |
| Text.IndexOf | src/sandbox/analyze.rs:364-365 | `str::find` of a character: none exactly when it is absent; otherwise its first position. |
| Text.IndexOfAt | src/sandbox/analyze.rs:364-365 | A position holding the character with none before it is what `find` returns. |
| Text.Split | src/config/store.rs:91 | `str::split`: at least one piece, and no piece holds the separator. |
| Text.SplitJoin | src/config/store.rs:91 | Splitting a join of separator-free pieces gives back the pieces. |
| Text.SplitCons | src/config/store.rs:91 | A separator-free head followed by the separator splits into that head and the split of the rest. |
| Text.NonEmpty | src/config/store.rs:92 | Keeps exactly the non-empty pieces, taken from the input. |
| Text.Lines | src/config/store.rs:12 | `str::lines`: no line holds `\n`. |
| Text.LinesJoin | src/config/store.rs:12 | Reading the lines of a `\n`-join of plain lines gives back those lines. |
| Text.ContainsAt | src/sandbox/analyze.rs:200 | `str::contains` holds when the text occurs at some position. |
| Text.ContainsChar | src/sandbox/analyze.rs:288 | Text containing a pattern contains each of its characters. |
| ConfigStore.ParseLines | src/config/store.rs:12-16 | Definition: lines are read in order; a line with `=` sets its trimmed key to its trimmed value, later lines overwriting earlier ones; other lines are skipped. |
| ConfigStore.ParseConfig | src/config/store.rs:7-20 | Definition: a missing or unreadable file gives the empty map; otherwise the map its lines give. |
| ConfigStore.Serialize | src/config/store.rs:38-42 | Definition: one `key=value` line per key, in the given order, joined by `\n` with no trailing newline. |
| ConfigStore.ParseLine | src/config/store.rs:13-14 | A line gives an entry exactly when it holds `=`. |
| ConfigStore.ParseLinesKeys | src/config/store.rs:11-17 | A key is in the parsed map exactly when some line sets it. |
| ConfigStore.ParseLinesLastWins | src/config/store.rs:12-15 | When a key appears more than once, the last line that sets it decides its value. |
| ConfigStore.ParseConfigWellFormed | src/config/store.rs:7-20 | Every parsed key is trimmed and holds no `=` and no newline; every value is trimmed and holds no newline. |
| ConfigStore.SerializeLinesPlain | src/config/store.rs:38-42 | Each written `key=value` line of a well-formed map is non-empty, holds no newline and does not end in a carriage return. |
| ConfigStore.SerializeLinesParse | src/config/store.rs:38-42 | Parsing the written entry lines gives back exactly the entries of the keys written. |
| ConfigStore.RoundTrip | src/config/store.rs:33-45 | Serialising a well-formed map in any key order and parsing it back gives the same map. |
| ConfigStore.Enumerate | src/config/store.rs:38-40 | Gives some order of the map's keys, each key once; HashMap iteration order is not fixed. |
| ConfigStore.GetValue | src/config/store.rs:23-25 | The value exists exactly when the key is present, and is the stored value. |
| ConfigStore.GetValueOr | src/config/store.rs:28-30 | The stored value when present, else the default. |
| ConfigStore.ApiKey | src/config/store.rs:72-74 | A key exists exactly when `api_key` is present and non-empty. |
| ConfigStore.IsPro | src/config/store.rs:77-85 | Definition: the plan, `free` when missing, is `pro` or `enterprise`. |
| ConfigStore.IsProIff | src/config/store.rs:77-85 | Pro exactly when the plan is `pro` or `enterprise`; a missing plan counts as `free`. |
| ConfigStore.IsTrusted | src/config/store.rs:99-101 | Definition: the name is one of the entries of the trust list. |
| ConfigStore.Trusted | src/config/store.rs:88-97 | The `trusted` value split at `,`, keeping the non-empty pieces; empty when the key is absent. |
| ConfigStore.TrustedRoundTrip | src/config/store.rs:88-111 | Storing a comma-join of plain names and reading the list back gives the same names. |
| ConfigStore.AddName | src/config/store.rs:105-111 | The name is in the result; an absent name is appended; a present name changes nothing. |
| ConfigStore.AddNameDistinct | src/config/store.rs:105-111 | Adding keeps a duplicate-free list duplicate-free. |
| ConfigStore.RemoveName | src/config/store.rs:115 | The result holds exactly the other names. |
| ConfigStore.RemoveNameAbsent | src/config/store.rs:115 | Removing an absent name changes nothing. |
| ConfigStore.RemoveAfterAdd | src/config/store.rs:105-117 | Adding an untrusted name and then removing it restores the list. |
| ConfigStore.DefaultConfigParses | src/config/store.rs:48-55 | The default file parses to device id, empty key, `free` plan, default URL and an empty trust list. |
| ConfigStore.ConfigFile.constructor | src/config/store.rs:7-11 | The file starts with the given content, or absent. |
| ConfigStore.ConfigFile.GetConfig | src/config/store.rs:7-20 | The loop builds the map that `Config` specifies; an absent file gives the empty map. |
| ConfigStore.ConfigFile.Write | src/config/store.rs:38-44 | The file now holds the serialised map, which reads back as that map when well formed. |
| ConfigStore.ConfigFile.SetConfigValue | src/config/store.rs:33-45 | The file now reads back as the old map with that one key set. |
| ConfigStore.ConfigFile.CreateDefaultConfig | src/config/store.rs:48-55 | The file holds the five default lines. |
| ConfigStore.ConfigFile.AddTrusted | src/config/store.rs:105-111 | Nothing is written when the name is already trusted; otherwise the name is appended to the list. |
| ConfigStore.ConfigFile.RemoveTrusted | src/config/store.rs:114-117 | The trust list is rewritten without the name. |
| TrustCommand.Add | src/commands/trust.rs:5-12 | The notice is "already trusted" exactly when the name was trusted, and then nothing changes; otherwise the name joins the list. |
| TrustCommand.Remove | src/commands/trust.rs:14-21 | The notice is "removed" exactly when the name was trusted, and then the name leaves the list; otherwise nothing changes. |
| TrustCommand.List | src/commands/trust.rs:23-36 | The empty notice is shown exactly when the list is empty; otherwise it lists the stored names in order. |
| TrustCommand.AddThenRemove | src/commands/trust.rs:5-21 | Adding an untrusted plain name and then removing it leaves the trust list as it was. |
| ApiClient.FlagDetails | src/commands/scan.rs:144-150 | Every detail shown is carried by some flag, and every detail a flag carries is shown. |
| ApiClient.FlagDetailsOne | src/commands/scan.rs:146-148 | A flag with a detail shows exactly that detail; a flag without one shows nothing. |
| ApiClient.FlagDetailsConcat | src/commands/scan.rs:145-149 | The details of a run of flags are those of its first part followed by those of the rest, so they keep flag order, one per flag that has one. |
| ApiClient.KeyParam | src/api/client.rs:114-116 | Definition: empty exactly when no non-empty key is stored, otherwise the separator, `key=` and the key; after a query parameter, a server reads it back as one `key` parameter holding the stored key when the key holds no `&` (`ReadsWithKey`). |
| ApiClient.ReadsWithKey | src/api/client.rs:112-116 | A query of `name=value` followed by the key parameter is read by a server as that one parameter and then `key`, only when a key is stored. |
| ApiClient.BuildUrl | src/api/client.rs:109-119 | The URL starts with `<api_url>/<endpoint>?device=<id>`. Read back by a server, its parameters are `device` with that id, then `key` exactly when a key is stored. |
| ApiClient.ScanUrl | src/api/client.rs:124 | The scan URL holds at least two `?` marks. Read back, it has one `package` parameter whose value runs on through `?device=<id>`, then the key. |
| ApiClient.ScanUrlReads | src/api/client.rs:109-124 | For any URL, package, device and key without `&`: the scan URL's parameters are that one `package` parameter and then the key. |
| ApiClient.ScanUrlLosesDevice | src/api/client.rs:109-124 | The scan URL reaches the server with no `device` parameter at all. |
| ApiClient.ScanUrlMarks | src/api/client.rs:124 | The two `?` marks of the scan URL, for any URL, package, device and key. |
| ApiClient.ProStatusUrl | src/api/client.rs:137 | Read back, the `pro/status` URL has the `device` parameter and then the key exactly when one is stored. |
| ApiClient.ModuleUrl | src/api/client.rs:169 | Read back, the module URL has the `device` parameter and then the key, for a module name without `?`. |
| ApiClient.AnalyzeUrl | src/api/client.rs:150-155 | Read back, the analysis URL has no `device` parameter; its only parameter is `key`, present exactly when a key is stored. |
| ApiClient.AnalyzeUrlReads | src/api/client.rs:150-155 | For any base URL without `?`: the analysis URL has no parameter without a key, and only `key` with one. |
| ApiClient.ClassifyDownload | src/api/client.rs:167-189 | Succeeds exactly on a 2xx reply with a readable body. 403 means Pro is required and 404 means not found; other statuses fail with that status. |
| ScanCommand.IsFlagOrPath | src/commands/scan.rs:9-11 | Definition: the argument starts with `-`, `.` or `/`. |
| ScanCommand.Confirmed | src/commands/scan.rs:54 | Definition: the answer, trimmed and lower-cased, is `y`. |
| ScanCommand.Decide | src/commands/scan.rs:7-166 | Definition, in the order the code checks: a flag or path is skipped, a trusted name is skipped, an unreachable service proceeds, a dangerous level without confirmation cancels, and anything else is reported with its sandbox step. |
| ScanCommand.PackageName | src/commands/scan.rs:14 | The text before the first `@`, the whole argument when there is none. |
| ScanCommand.RiskOf | src/commands/scan.rs:28-33 | Each known level exactly for its own string; anything else is `Other`. |
| ScanCommand.SandboxVerdictOf | src/commands/scan.rs:120-141 | Dangerous and warning exactly for their strings; anything else, including a missing level, is clean. |
| ScanCommand.SandboxStepOf | src/commands/scan.rs:78-155 | Pro upsell exactly when the package was not scanned. A cached verdict exactly when scanned and cached. Otherwise the local sandbox on the given version or `latest`. |
| ScanCommand.FlagsSkipped | src/commands/scan.rs:9-11 | Flags and paths are never scanned. |
| ScanCommand.TrustedNotScanned | src/commands/scan.rs:14-21 | A trusted name proceeds, whatever the reply and answer would have been. |
| ScanCommand.AddedNameNotScanned | src/commands/scan.rs:17-21 | A name just added to the trust list is skipped. |
| ScanCommand.ScopedNameIsEmpty | src/commands/scan.rs:14 | A scoped package is looked up under the empty name. |
| ScanCommand.FailOpen | src/commands/scan.rs:160-166 | An unreachable service never stops the install. |
| ScanCommand.RefusalIff | src/commands/scan.rs:42-58 | The install is refused exactly when the level is dangerous and the answer is not `y`. |
| ScanCommand.OtherLevelsProceed | src/commands/scan.rs:33-62 | Any level other than dangerous proceeds without asking. |
| ScanCommand.SandboxBranch | src/commands/scan.rs:78-155 | A report carries the sandbox step of the trust-lookup name; a scanned, uncached package goes to the local sandbox. |
| ScanCommand.ExtrasDoNotGate | src/commands/scan.rs:66-158 | Only the risk level decides; the message, previous version, anomalies and sandbox fields never change the verdict. |
| ScanCommand.ConfirmedIff | src/commands/scan.rs:54 | The answer confirms exactly when, once trimmed, it is `y` or `Y`. |
| ScanCommand.ConfirmationExamples | src/commands/scan.rs:51-57 | `Y` followed by a newline confirms; the empty answer does not. |
| ScanCommand.DeclineExamples | src/commands/scan.rs:51-57 | Neither `yes` nor `n` confirms. |
| SandboxAnalysis.ExtractIpAddress | src/sandbox/analyze.rs:370-373 | Definition: the text of the first dotted quad the scanner finds, if any. |
| SandboxAnalysis.TraceStep | src/sandbox/analyze.rs:199-227 | Definition: one line appends its opened path, the sensitive read of that path and its connection, each when present. |
| SandboxAnalysis.WithTrace | src/sandbox/analyze.rs:196-228 | Definition: the log lines folded into the behaviour in order. |
| SandboxAnalysis.Walk | src/sandbox/analyze.rs:340-360 | Definition: a file yields nothing; an unreadable directory fails; a directory yields the source files of its entries, depth first, in listing order. |
| SandboxAnalysis.Record | src/sandbox/analyze.rs:303-331 | Definition: what each detector adds, chosen by its description. |
| SandboxAnalysis.ScanFiles | src/sandbox/analyze.rs:296-335 | Definition: every detector, in order, over each readable file, in walk order. |
| SandboxAnalysis.WithModules | src/sandbox/analyze.rs:280-337 | Definition: no change without `node_modules` or when its walk fails; otherwise the scan of the walked files. |
| SandboxAnalysis.PkgSpec | src/sandbox/analyze.rs:139-143 | Definition: the bare name for `latest`, otherwise `name@version`. |
| SandboxAnalysis.ExitCodeOf | src/sandbox/analyze.rs:188 | Definition: the child's exit code, and 1 when it has none or could not be started. |
| SandboxAnalysis.ExtractQuotedString | src/sandbox/analyze.rs:363-367 | A result is shorter than the line by at least the two quotes and holds no quote. |
| SandboxAnalysis.QuotedBetween | src/sandbox/analyze.rs:363-367 | The result is the text between the first and the second quote. |
| SandboxAnalysis.QuotedStringSpec | src/sandbox/analyze.rs:363-367 | A result exists exactly when the line has two quotes, and it is the text between the first two. |
| SandboxAnalysis.FindQuad | src/sandbox/analyze.rs:372 | A position found is where the scanner takes a whole dotted quad, with its end inside the line. |
| SandboxAnalysis.FindQuadFirst | src/sandbox/analyze.rs:372 | The position found is the leftmost start of a quad; finding none means no position starts one. |
| SandboxAnalysis.QuadSound | src/sandbox/analyze.rs:371 | What the scanner accepts is four digit groups joined by dots. |
| SandboxAnalysis.QuadComplete | src/sandbox/analyze.rs:371 | Every dotted quad starting at a position is accepted there, at its longest. |
| SandboxAnalysis.IpAddressSpec | src/sandbox/analyze.rs:370-373 | No address exactly when the line holds no dotted quad; otherwise the leftmost, longest one. |
| SandboxAnalysis.ParseTrace | src/sandbox/analyze.rs:196-228 | The fold over the strace log adds exactly the opened files, sensitive reads and connections that `WithTrace` specifies. |
| SandboxAnalysis.TraceLine | src/sandbox/analyze.rs:199-227 | One log line records its quoted path when it mentions `open`, a sensitive access when that path names `.ssh`, `.aws` or `.npmrc`, and a connection with no host and port 0 when it mentions `connect` and holds a dotted quad. |
| SandboxAnalysis.WithTraceFields | src/sandbox/analyze.rs:196-228 | The log appends its opened files, sensitive reads and connections, each in line order, and changes no other field. |
| SandboxAnalysis.TraceFiles | src/sandbox/analyze.rs:199-202 | The files read grow by the opened paths of the log, in order. |
| SandboxAnalysis.TraceSensitive | src/sandbox/analyze.rs:204-213 | The sensitive accesses grow by the sensitive opened paths of the log, in order. |
| SandboxAnalysis.TraceConnections | src/sandbox/analyze.rs:217-226 | The connections grow by the addresses of the `connect` lines, in order. |
| SandboxAnalysis.TraceKeeps | src/sandbox/analyze.rs:196-228 | The log leaves the written files, processes, environment reads and exit code unchanged. |
| SandboxAnalysis.OpenedFilesConcat | src/sandbox/analyze.rs:198-215 | Files are recorded line by line, in log order. |
| SandboxAnalysis.OpenedFilesFromLines | src/sandbox/analyze.rs:200-203 | Every recorded file is the quoted string of a log line that mentions `open`. |
| SandboxAnalysis.SensitiveOf | src/sandbox/analyze.rs:205-213 | Sensitive accesses are file reads of opened paths matching a sensitive pattern. |
| SandboxAnalysis.SensitiveFilesAreOpened | src/sandbox/analyze.rs:205-213 | The sensitive accesses are exactly the sensitive paths among the opened files, in order. |
| SandboxAnalysis.ConnectionsFromLines | src/sandbox/analyze.rs:218-226 | Every connection comes from a `connect` line and has an IP, no host and port 0. |
| SandboxAnalysis.OpenAndConnectIndependent | src/sandbox/analyze.rs:198-227 | One line can give both a file and a connection. |
| SandboxAnalysis.Extension | src/sandbox/analyze.rs:349-353 | An extension exists exactly when a dot follows the first character; it is the text after the last dot. |
| SandboxAnalysis.ExtensionExamples | src/sandbox/analyze.rs:349-353 | `index.js` is `js`, `a.min.mjs` is `mjs`, and `.js` and `README` have none. |
| SandboxAnalysis.WalkDir | src/sandbox/analyze.rs:340-360 | The recursive walk returns what `Walk` specifies. |
| SandboxAnalysis.WalkFailsIff | src/sandbox/analyze.rs:344-348 | The walk fails exactly when some directory in the tree cannot be read. |
| SandboxAnalysis.WalkFindsSources | src/sandbox/analyze.rs:340-360 | A successful walk yields exactly the `.js`/`.ts`/`.mjs`/`.cjs` files of the tree, in walk order. |
| SandboxAnalysis.FileEffect | src/sandbox/analyze.rs:299-332 | One file adds at most one entry per detector. The env entry is added only when not already recorded; the eval detector adds a sensitive access, not a process spawn. |
| SandboxAnalysis.ScanFilesCounts | src/sandbox/analyze.rs:296-336 | Across files, spawn entries grow by the number of matching files, and env access is recorded at most once. |
| SandboxAnalysis.EnvPatternNeedsBackslash | src/sandbox/analyze.rs:287-300 | The environment pattern is matched literally, so only content holding a backslash can match it. |
| SandboxAnalysis.LiteralPatterns | src/sandbox/analyze.rs:287-300 | The patterns match literally: `process\.env\.` does not match `process.env.HOME`. |
| SandboxAnalysis.LiteralPatternMatches | src/sandbox/analyze.rs:287-300 | The environment pattern matches only text that spells out its backslashes, such as `process\.env\.HOME`. |
| SandboxAnalysis.AnalyzeNodeModules | src/sandbox/analyze.rs:280-337 | The nested loops give exactly the evidence that `WithModules` specifies; an unreadable tree adds nothing. |
| SandboxAnalysis.PkgSpecName | src/sandbox/analyze.rs:139-143 | The install spec is the bare name for `latest`, otherwise `name@version`, and its name part is the package. |
| SandboxAnalysis.CollectBehavior | src/sandbox/analyze.rs:126-162 | Evidence exists exactly when the directory and the manifest were written, and is then what the host's log and tree give. The directory is left behind exactly when it was created and either the manifest write or the final removal failed. |
| SandboxAnalysis.ShownDetails | src/sandbox/analyze.rs:110-117 | At most five details are shown, and they are exactly the details of the first five flags: followed by the details of the remaining flags they give all the details, in order. With at most five flags, all details are shown. |
| SandboxAnalysis.RunLocalSandbox | src/sandbox/analyze.rs:45-123 | Nothing runs without the tools. Collection fails exactly on directory or manifest failure. The verdict comes from the server's reply to the collected request. |
| Monitor.MonitoringEnabled | src/commands/monitor.rs:62-66 | Definition: `runtime_monitoring` is stored as `true` or `1`. |
| Monitor.MonitoringEnabledIff | src/commands/monitor.rs:62-66 | Enabled exactly when `runtime_monitoring` is `true` or `1`. |
| Monitor.MonitorFiles.constructor | src/commands/monitor.rs:9-22 | The script and the log start as given. |
| Monitor.DownloadMonitorScript | src/commands/monitor.rs:25-59 | Succeeds exactly when the download, directory and write succeed, and then the script holds the body. Otherwise the script is unchanged. |
| Monitor.Enable | src/commands/monitor.rs:130-150 | Only Pro users get a download attempt. The flag becomes `true` exactly when the download succeeds; otherwise nothing changes. |
| Monitor.Disable | src/commands/monitor.rs:153-157 | The flag becomes `false`; the script stays. |
| Monitor.Toggle | src/commands/monitor.rs:160-169 | Enabled goes to disabled; otherwise it acts as `Enable`. |
| Monitor.FormatThreatType | src/commands/monitor.rs:255-265 | Definition: the six known codes map to their labels; any other code is shown as itself. |
| Monitor.RowOf | src/commands/monitor.rs:205-215 | Definition: `BLOCKED` when `blocked` is true, else `DETECTED`; then the package and the formatted type, each `unknown` when missing. |
| Monitor.FormatThreatTypeSpec | src/commands/monitor.rs:255-265 | The six known types get distinct labels; any other type is shown as itself. |
| Monitor.RowDefaults | src/commands/monitor.rs:205-215 | Missing fields show as `unknown`, and a missing `blocked` as `DETECTED`. |
| Monitor.WindowStart | src/commands/monitor.rs:201 | The window holds the last `min(n, lines)` lines. |
| Monitor.Rows | src/commands/monitor.rs:203-204 | Undecodable lines are dropped, so there are never more rows than lines. |
| Monitor.ShowThreats | src/commands/monitor.rs:172-239 | "No threats" exactly when the log is missing or has no lines; otherwise the rows of the window. |
| Monitor.RowsConcat | src/commands/monitor.rs:203-218 | Rows keep log order, line by line. |
| Monitor.WindowBound | src/commands/monitor.rs:201-204 | At most `n` rows, and exactly `min(n, lines)` when every line decodes. |
| Monitor.WindowBeforeDecoding | src/commands/monitor.rs:201-204 | A malformed line inside the window hides a valid record outside it. |
| Monitor.ClearLog | src/commands/monitor.rs:242-253 | A missing log counts as cleared; otherwise it is cleared exactly when removal succeeds. The script is untouched. |
| Monitor.Utf8Length | src/commands/monitor.rs:112 | The file size in bytes is between one and four times the character count. |
| Monitor.ShowStatus | src/commands/monitor.rs:74-127 | The upsell is shown exactly for free users. Otherwise it reports the script, the flag and, when the log exists, its size in KiB and its line count. |
| Sync.Run | src/commands/sync.rs:7-33 | An unreachable service changes nothing; otherwise the plan is written back. The script is refreshed exactly for Pro with monitoring enabled. |
| Sync.SyncKeepsFlag | src/commands/sync.rs:16-19 | For every reply, writing the synced plan never changes whether monitoring is enabled. |
| Sync.SyncedPlan | src/commands/sync.rs:13-25 | Definition: for a Pro answer, the plan the server names, or `pro` when it names none; otherwise `free`. |
| Sync.SyncedProStatus | src/commands/sync.rs:13-25 | After a sync, the stored plan is Pro exactly when the server says so and names a Pro plan, or names none. |
| Wrap.IsInstall | src/commands/wrap.rs:18-22 | Definition: `install`, `i` or `add` for npm, pnpm and bun; `add`, `install` or no command for yarn; never for another manager. |
| Wrap.IsInstallExamples | src/commands/wrap.rs:15-22 | Bare `yarn` installs and bare `npm` does not; `pnpm i` installs and `yarn i` does not. |
| Wrap.OtherManagersPassThrough | src/commands/wrap.rs:21 | Any other package manager never counts as an install. |
| Wrap.Packages | src/commands/wrap.rs:33-40 | The arguments that are not flags or paths. |
| Wrap.PackagesConcat | src/commands/wrap.rs:33-40 | Argument order is kept. |
| Wrap.ScanLockfile | src/commands/wrap.rs:99-116 | The lockfile scan always permits the install. |
| Wrap.ShouldMonitor | src/commands/wrap.rs:64-87 | Definition: not disabled by the environment, a Pro plan, monitoring enabled, and the script present. |
| Wrap.ShouldMonitorIff | src/commands/wrap.rs:64-87 | Monitor exactly when not disabled by the environment, the plan is Pro, monitoring is enabled in the config and the script exists. |
| Wrap.NodeOptionsQuotesScript | src/commands/wrap.rs:174 | `NODE_OPTIONS` names the script between quotes. |
| Wrap.PlainLaunch | src/commands/wrap.rs:132-153 | Definition: the executable found, with the arguments; else `sh -c "command <manager> \"$@\"" --` followed by the arguments. |
| Wrap.MonitoredLaunch | src/commands/wrap.rs:163-185 | Definition: the executable with the arguments, and `NODE_OPTIONS`, `SAPO_DEVICE_ID` and `SAPO_API_URL` set. |
| Wrap.ExitStatus | src/commands/wrap.rs:155-159 | Definition: the child's code, 1 when it has none, and 0 when it could not be started, since the wrapper then returns. |
| Wrap.LaunchFor | src/commands/wrap.rs:120-148 | The environment is set exactly when monitored and the manager was found. A missing manager falls back to `sh -c`, passing the arguments through. |
| Wrap.ExitStatusVsSandbox | src/commands/wrap.rs:157-159 | A normal exit keeps its code and a signal gives 1, as in the sandbox. A failed spawn gives 0 here and 1 there. |
| Wrap.FirstRefusal | src/commands/wrap.rs:48-53 | The first package that does not pass, with every earlier one passing; none exactly when all pass. |
| Wrap.FirstRefusalAt | src/commands/wrap.rs:48-53 | A refusal after passing packages is the first refusal. |
| Wrap.ScanPackages | src/commands/wrap.rs:48-53 | The loop scans up to and including the first refusal, and reports whether all passed. |
| Wrap.Outcome | src/commands/wrap.rs:8-61 | Definition: disabled or not an install runs the command unscanned; otherwise `InstallOutcome` with each package's scan verdict. |
| Wrap.InstallOutcome | src/commands/wrap.rs:32-60 | Definition: the packages up to and including the first refusal and exit status 0; with no refusal, every package and the launch with its monitoring decision. |
| Wrap.Run | src/commands/wrap.rs:8-61 | The interceptor produces exactly `Outcome`: pass-through, a scan that stops, or a launch. |
| Wrap.RunInstall | src/commands/wrap.rs:32-60 | An intercepted install produces exactly `InstallOutcome`: the packages scanned up to the first refusal, then a launch only when none refused. |
| Wrap.PassThrough | src/commands/wrap.rs:10-27 | Disabled, or not an install: nothing is scanned and the command runs. |
| Wrap.RefusalStopsInstall | src/commands/wrap.rs:48-53 | Packages are scanned in argument order. The install is stopped exactly when some package is refused; the refused package is the last one scanned, and the process exits with status 0. |
| Wrap.InstallStopsAtRefusal | src/commands/wrap.rs:42-54 | For any scan verdicts: the scanned packages are a prefix of the package arguments, nothing starts exactly when some package is refused, and then the refused one was scanned last and the exit status is 0. |
| Wrap.NoPackagesInstall | src/commands/wrap.rs:42-46 | An install with no named packages runs the manager. |
| Wrap.FailOpenInstall | src/commands/wrap.rs:48-53 | When the service is unreachable for every package, none is refused. |
| Wrap.MonitoredEnvironment | src/commands/wrap.rs:168-185 | A monitored launch sets `NODE_OPTIONS` to require the script, `SAPO_DEVICE_ID` to the device id, and `SAPO_API_URL` to the threat endpoint. |

## Left out

- HTTP transport, the 15-second timeout, TLS and JSON decoding are not modelled. Replies arrive as decoded values. A reply that fails to decode is an `Err`.
- The status reason phrase in download errors is not modelled. Errors are the `DownloadError` datatype, not formatted message strings.
- Child processes are not modelled: `timeout`, `strace`, `npm` and the package manager itself. What a run leaves behind is a `SandboxHost` or `ChildExit` parameter.
- The filesystem is not modelled. Directory trees and file contents are the `Node` datatype.
  - Lines that are not valid UTF-8 are not modelled.
  - Partly written files are not modelled.
  - A failed config write is treated like a successful one. The code ignores the error with `.ok()`.
- The `strace_log.to_str()?` early return for a non-UTF-8 temporary path is not modelled.
- The macOS and Windows collectors are not modelled. The Linux collector is the one modelled.
- Wrap.PlainLaunch: only the Unix `sh -c` fallback is modelled; the Windows fallback `cmd /c <manager>` is not.
- Terminal output and colours are not modelled. The confirmation answer is an input string, and what is printed is a result value.
- Generating a device id (`get_device_id`, `generate_device_id`) is not modelled: it uses randomness. The id is a parameter.
- HashMap iteration order is not modelled. `Enumerate` chooses some order of the keys, and every lemma holds for any order.
- `to_lowercase` is modelled on ASCII letters only.
- Concurrent writers to the config file and the threat log are not modelled.
- The commands `login`, `upgrade`, `update`, `uninstall`, `status` and `toggle`, and `main.rs` dispatch, are outside this core.
- `auto_sync_pro` is not modelled: its body does nothing.
- `is_sandbox_available` is not modelled: it probes the host for tools. Its answer is the `available` parameter.
- The JSON decoding of a threat record is not modelled. It is the `parse` parameter of `Rows` and `ShowThreats`.
- The per-record detail lines (`Path:`, `URL:`, `Command:`, `Env Var:`) are not modelled.
- The branch where `show_threats` fails to open an existing log is not modelled.
- The scan replies and confirmation answers used by `wrap` are functions of the package name. A package named twice gets the same reply and answer both times, where the code sends a fresh request and asks again.
- The sandbox timeout and the parts of an install that strace cannot see are not modelled.
- Any `NODE_OPTIONS` value already in the environment is not modelled. The monitored launch sets the variable.
- ConfigStore.ConfigFile.AddTrusted: the new list is stated exactly only when the old list and the name are plain (non-empty, no `,` and no whitespace anywhere, which excludes newlines). Otherwise only what is written to the file is stated.
- ConfigStore.ConfigFile.RemoveTrusted: the list read back is stated only for a plain old list. Otherwise only what is written to the file is stated.
- TrustCommand.Add: the effect on the trust list is stated only for plain names, as for `AddTrusted`.
- TrustCommand.Remove: the effect on the trust list is stated only for a plain list, as for `RemoveTrusted`.
- Sync.Run: the exact configuration after a sync is stated only when the plan string is well formed. Otherwise only the written file is stated.
- ConfigStore.ConfigFile.Write: the map read back is stated only for a well-formed map, since a key holding `=` or a value holding a newline does not read back as written.
