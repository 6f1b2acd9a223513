# Commvault exporter core, modelled in Dafny

This project models the core of a Prometheus exporter for the Commvault
backup system. The exporter answers `GET /probe?target=<name>` with the
metric families of one configured Commvault server. For that request it:

- builds a fresh collector;
- gives the collector an API client;
- fills fifteen gauge families from the backend's answers about VM pseudo
  clients and jobs;
- hands the families to the exposition encoder.

The model covers four parts of the source:

- **Configuration store** (`config_handler.dfy`, module `Config`): fixed
  defaults, a section-by-section merge with the configuration file,
  overrides from the environment, and the nested `get`.
- **API client** (`client.dfy`, module `ApiClient`, using `base64.dfy`): the
  three settings, `login` with the Base64 form of the UTF-8 bytes of the
  password (section 4 of RFC 4648), and the token cache of `get_auth_token`.
- **Collector** (`metrics.dfy`, `entries.dfy` and `collector.dfy`):
  - `add_target_label`;
  - what one backend entry contributes, with every fallback and every way
    an entry is skipped as malformed;
  - the class `CommvaultCollector`, whose gauge fields its methods update in
    place;
  - `collect`, with the order in which it yields the families.
- **Probe handler** (`probe.dfy`, module `Probe`): the status code and body
  that `do_GET` sends.

Parsed JSON and YAML values are the datatype `Values.Json`. Python's
truthiness, `dict.get` with a default, `str()`, `int()` and `str.lower()` are
written out in `values.dfy`.

Some things the source gets from outside are parameters of the model:

- the file and the environment;
- the backend's HTTP answers;
- the measured duration;
- the target lookup, which the source calls as `get_target_config` on a
  configuration store that has no such method (see "## Findings");
- the exposition encoder.

## Model

| member | source | states |
|---|---|---|
| Values.PyStrIsZero | src/commvault_exporter/collector/collector.py:165-167 | `str(code)` is "0" exactly when the status is the integer 0 or the string "0". |
| Values.PyStrIsOne | src/commvault_exporter/collector/collector.py:165-167 | `str(code)` is "1" exactly when the status is the integer 1 or the string "1". |
| Values.ParseIntOfDecimal | src/commvault_exporter/config_handler.py:52-57 | `int()` reads back the decimal text of every integer, negative ones included, so a numeric variable holding an integer stores that integer. |
| Values.AsciiLowerSpec | src/commvault_exporter/collector/collector.py:200-205 | Lower-casing keeps the length, leaves no upper-case letter, changes no other character and is idempotent. |
| Base64.Utf8RoundTrip | src/commvault_exporter/commvault_api/client.py:21 | The UTF-8 bytes of `password.encode()` decode back to the password's code points. |
| Base64.EncodeLength | src/commvault_exporter/commvault_api/client.py:21 | The Base64 text of n bytes has 4·⌈n/3⌉ characters. |
| Base64.EncodePadding | src/commvault_exporter/commvault_api/client.py:21 | Encoded text is alphabet symbols followed by 0, 2 or 1 '=' characters, for n mod 3 equal to 0, 1 or 2. |
| Base64.RoundTrip | src/commvault_exporter/commvault_api/client.py:21 | Decoding the Base64 text gives back exactly the bytes encoded. |
| Base64.EncodePassword | src/commvault_exporter/commvault_api/client.py:21 | The encoded password decodes to the UTF-8 bytes of the password and has 4·⌈n/3⌉ characters for n bytes. |
| Config.DefaultValues | src/commvault_exporter/config_handler.py:12-25 | The defaults give port 9657, log level "INFO", timeout 30, and empty strings for the URL, user name, password and token. |
| Config.ConfigHandler.constructor | src/commvault_exporter/config_handler.py:8-25 | A new store holds the defaults, and its two sections are dicts. |
| Config.LookupInEmpty | src/commvault_exporter/config_handler.py:59-63 | Once a key is missing, every later key gives `{}` too. |
| Config.MissingKeyGivesEmpty | src/commvault_exporter/config_handler.py:59-63 | A missing key anywhere along the path makes `get` answer `{}`. |
| Config.LookupSplit | src/commvault_exporter/config_handler.py:59-63 | Walking a path is walking a prefix, then the rest from there. |
| Config.ConfigHandler.Get | src/commvault_exporter/config_handler.py:59-63 | The loop answers the key-by-key lookup from the whole configuration. With no keys it answers the whole configuration. On a non-dict it raises AttributeError (None in the model). |
| Config.PairsAccepted | src/commvault_exporter/config_handler.py:38 | `dict.update` accepts a list exactly when every item is a pair: a two-item list with a string key, or a two-character string. |
| Config.PairsKeys | src/commvault_exporter/config_handler.py:38 | The keys `update` writes from a list of pairs are exactly the pairs' keys. |
| Config.PairsLastWins | src/commvault_exporter/config_handler.py:38 | A key written by several pairs takes the value of the last one. |
| Config.UpdateEntriesCases | src/commvault_exporter/config_handler.py:38 | `update` takes a dict's entries; the empty string and the empty list write nothing; a list writes its pairs when all items are pairs. A non-empty string, None, a bool or an int raises. |
| Config.MergeSemantics | src/commvault_exporter/config_handler.py:35-40 | An existing section keeps its keys and takes the keys `update` writes from the new value, with their values. A new section is added whole. An unmentioned section is untouched. |
| Config.MergeableIff | src/commvault_exporter/config_handler.py:35-40 | The merge raises exactly when a section shared with the file is not a dict, or its new value is nothing `dict.update` accepts. |
| Config.EmptySectionValueKeepsConfig | src/commvault_exporter/config_handler.py:27-40 | A file giving a section already held as a dict the empty string or the empty list leaves the configuration unchanged. |
| Config.MergeDoneStep | src/commvault_exporter/config_handler.py:36-40 | Merging one more section changes only that section. |
| Config.ConfigHandler.MergeConfigs | src/commvault_exporter/config_handler.py:35-40 | The loop succeeds exactly when every shared section is a dict and `update` accepts its new value, and the result is the merged configuration. On failure, only the sections already merged have changed. |
| Config.ConfigHandler.LoadConfig | src/commvault_exporter/config_handler.py:27-33 | A missing file keeps the configuration. A loaded document (`or {}`) is merged. An unreadable file raises. |
| Config.EmptyDocumentKeepsConfig | src/commvault_exporter/config_handler.py:30 | An empty or false-valued document merges nothing. |
| Config.ConfigHandler.OverrideFromEnv | src/commvault_exporter/config_handler.py:44-57 | One override block matches its specification step, and a string override never raises. |
| Config.ConfigHandler.ApplyEnvOverrides | src/commvault_exporter/config_handler.py:42-57 | The six blocks in order match the specification of the overrides; the first rejected `int()` stops the rest. |
| Config.OverridesFailIff | src/commvault_exporter/config_handler.py:52-57 | The overrides raise exactly when a numeric variable is set to text `int()` rejects. |
| Config.UnsetLeavesConfig | src/commvault_exporter/config_handler.py:42-57 | With no variable set and non-empty, the configuration is unchanged. |
| Config.OverrideResult | src/commvault_exporter/config_handler.py:42-57 | After successful overrides, each key holds the variable's value (an int for port and timeout) when the variable is set and non-empty, and its old value otherwise. |
| Config.OverrideUntouched | src/commvault_exporter/config_handler.py:42-57 | Keys that no override targets keep their values. |
| Config.EnvOverridesTable | src/commvault_exporter/config_handler.py:43-57 | The six overrides write six different keys of the two sections. Only the port and the timeout go through `int()`. |
| Config.MissingFileKeepsDefaults | src/commvault_exporter/config_handler.py:6-10 | Without a file, `__init__` gives the defaults with the overrides applied. With no variable set, that is exactly the defaults. |
| Config.NewConfigHandler | src/commvault_exporter/config_handler.py:6-10 | Construction succeeds exactly when the load and the overrides do, and yields their result. |
| Config.InitialAfterLoad | src/commvault_exporter/config_handler.py:9-10 | Once the file is read, `__init__` goes on with exactly the overrides. |
| ApiClient.SettingsOfIsLookup | src/commvault_exporter/commvault_api/client.py:10-12 | The three settings are what the store's `get('commvault', key)` answers. |
| ApiClient.CommvaultAPIClient.constructor | src/commvault_exporter/commvault_api/client.py:7-12 | A client over a store holds the store's three settings and no token. |
| ApiClient.CommvaultAPIClient.FromSettings | src/commvault_exporter/commvault_api/client.py:7-12 | A client over given settings holds them and no token. |
| ApiClient.SettingsFromTarget | src/commvault_exporter/collector/collector.py:126 | Reading a target's own dict gives its `api_url`, `username` and `password`, and a non-dict gives none. Credentials that are all present need all three keys. |
| ApiClient.AsWrittenIgnoresTargetFields | src/commvault_exporter/collector/collector.py:126 | Handing a plain dict to the client, as written, yields the literal key names as settings instead of the target's. |
| ApiClient.MissingSettingsFailFirst | src/commvault_exporter/commvault_api/client.py:16-21 | `login` raises ValueError, before any request, exactly when a setting is empty. Otherwise a request is built exactly when the password is a string. |
| ApiClient.LoginRequestContents | src/commvault_exporter/commvault_api/client.py:21-28 | The request goes to `<api_url>/Login` with the user name. Its password decodes from Base64 to the password's UTF-8 bytes and has the Base64 length. |
| ApiClient.LoginOutcomeOfResponse | src/commvault_exporter/commvault_api/client.py:31-38 | A transport failure is "Login failed". A JSON object gives its "token", or None when absent. Any other body raises. |
| ApiClient.HeldTokenReused | src/commvault_exporter/commvault_api/client.py:40-44 | A truthy token is returned without logging in, whatever the backend would answer. |
| ApiClient.TokenKeptAfterLogin | src/commvault_exporter/commvault_api/client.py:33-44 | After a login that stores a truthy token, later calls reuse it. After one that stores a falsy token, the next call logs in again. |
| ApiClient.CommvaultAPIClient.Login | src/commvault_exporter/commvault_api/client.py:14-38 | The method builds the specified request and gives the specified outcome. The token changes only on success. |
| ApiClient.CommvaultAPIClient.GetAuthToken | src/commvault_exporter/commvault_api/client.py:40-44 | It logs in exactly when the held token is falsy. The result is the token step. A failed login leaves the token unchanged. |
| Metrics.AddTargetLabel | src/commvault_exporter/collector/collector.py:21-25 | The result holds the target label, keeps the given names in order, and grows by one exactly when the label was absent. |
| Metrics.AddTargetLabelIdempotent | src/commvault_exporter/collector/collector.py:21-25 | Adding the target label twice equals adding it once. |
| Metrics.TargetLabelLast | src/commvault_exporter/collector/collector.py:21-25 | For labels without the target label, the target label comes last. |
| Metrics.NewGauge | src/commvault_exporter/collector/collector.py:21-25 | A declared family has no samples and the labels `add_target_label` gives. |
| Metrics.WithTargetHolds | src/commvault_exporter/collector/collector.py:133-135 | Adding one sample keeps the family's arity and tagging and appends exactly that sample, with the target's name last. |
| Metrics.AddRowsHolds | src/commvault_exporter/collector/collector.py:133-135 | Adding rows of the family's arity keeps its declaration and tagging. It adds exactly one sample per row. |
| Metrics.AddRowsAppend | src/commvault_exporter/collector/collector.py:133-135 | Adding two batches in turn equals adding their concatenation. |
| Entries.EntriesUnderMissing | src/commvault_exporter/collector/collector.py:154-158 | A response without data, or without the key, gives no entries to walk. |
| Entries.NormaliseJobType | src/commvault_exporter/collector/collector.py:200 | The job type keeps its length and has no space or upper-case letter left. Other characters are unchanged. |
| Entries.FloatOf | src/commvault_exporter/collector/collector.py:206-213 | `float()` raises OverflowError exactly for an int of magnitude at least 2^1024 - 2^970. Otherwise it converts exactly what `int()` converts, to the same value. |
| Entries.IntOf | src/commvault_exporter/collector/collector.py:209-214 | `int()` never overflows, and converts exactly the values `ToNumber` reads. |
| Entries.ConvertedCount | src/commvault_exporter/collector/collector.py:206-214 | The conversions before the count succeed, and the one at the count does not. |
| Entries.ConvertedCountUnique | src/commvault_exporter/collector/collector.py:206-214 | Any index with those two properties is the count. |
| Entries.JobLabelFallbacks | src/commvault_exporter/collector/collector.py:199-205 | A missing job id, job type or status falls back to "unknown". |
| Entries.JobClientFallbacks | src/commvault_exporter/collector/collector.py:201-204 | `clientEntity` falls back to `client` and then to an empty dict. The client and subclient names fall back to "unknown". |
| Entries.JobNumberFallbacks | src/commvault_exporter/collector/collector.py:206-214 | Missing numbers fall back to 0, and `alertColorLevel` to `severity`, then 0. |
| Entries.JobConversionsDecide | src/commvault_exporter/collector/collector.py:206-236 | Once the labels read, an entry is processed exactly when all nine conversions succeed. Otherwise the first failing one decides: an overflow ends the loop, and a rejection skips the entry. |
| Entries.ElapsedOverflowAborts | src/commvault_exporter/collector/collector.py:206 | An elapsed time of 2^1024 - 2^970 ends the loop. |
| Entries.SummaryWithoutFieldsParses | src/commvault_exporter/collector/collector.py:197-214 | A non-empty summary dict with none of the read keys is processed, not skipped. |
| Entries.JobRaises | src/commvault_exporter/collector/collector.py:199-214 | A non-string type or status, or a non-dict client or subclient, makes the entry malformed. A number that conversion rejects does too, unless an earlier field overflowed and ended the loop. |
| Entries.ClassifyStatus | src/commvault_exporter/collector/collector.py:216-219 | The status gauge is in 0..3. It is 1 exactly for "completed", 2 exactly for running states, 0 exactly for failed states, and 3 for anything else. |
| Entries.StatusExamples | src/commvault_exporter/collector/collector.py:205-219 | Examples of lower-casing before the lookup: "Completed" gives 1, "Completed w/ errors" 0, "RUNNING" 2, "Killed" 0, and "Committed" 3. |
| Entries.JobRow | src/commvault_exporter/collector/collector.py:221-233 | Each job sample has its family's arity and starts with the job id and the normalised type. |
| Entries.SingleJobRows | src/commvault_exporter/collector/collector.py:197-234 | A well-formed job adds one sample to each family and is counted. Any other entry adds nothing. |
| Entries.NoSummaryAddsNothing | src/commvault_exporter/collector/collector.py:197-198 | A job with no `jobSummary`, or an empty one, adds nothing. |
| Entries.JobRowsAppend | src/commvault_exporter/collector/collector.py:195-236 | Within the entries the loop finishes, entries are independent: a list's samples and count are those of its parts. |
| Entries.StopIndexSpec | src/commvault_exporter/collector/collector.py:195-238 | The walk finishes every element before its stop, and the element at the stop is one the walk stops on. |
| Entries.StopIndexStops | src/commvault_exporter/collector/collector.py:195-238 | A stop in the first part of a list is the stop of the whole list. |
| Entries.StopIndexGoesOn | src/commvault_exporter/collector/collector.py:195-238 | Without a stop in the first part, the stop is searched for in the second. |
| Entries.WalkedCountSpec | src/commvault_exporter/collector/collector.py:195-238 | The loop finishes every entry before the one where it ends, and ends only at an entry whose conversion overflows. |
| Entries.WalkedAppend | src/commvault_exporter/collector/collector.py:195-238 | Walking a list walks its first part, and goes on into the second part only when no entry of the first overflowed. |
| Entries.AbortEndsWalk | src/commvault_exporter/collector/collector.py:206-238 | An overflowing entry ends the walk: it and every entry after it contribute nothing. |
| Entries.JobsProcessedPrefix | src/commvault_exporter/collector/collector.py:234 | The count grows by one exactly for a well-formed entry. |
| Entries.JobRowsOfParsed | src/commvault_exporter/collector/collector.py:195-234 | Each job family holds one sample per processed job, in order. The k-th sample comes from the k-th processed job. |
| Entries.MalformedSiblingIgnored | src/commvault_exporter/collector/collector.py:195-236 | A malformed entry, or one without a summary, among others removes exactly its own samples from what the loop collects. |
| Entries.VmStatusValueSpec | src/commvault_exporter/collector/collector.py:165-167 | The VM status is 1 exactly when the code is "0" or "1" or the string lower-cases to "configured", and 0 otherwise. It raises only when the string decides and is not text. |
| Entries.VmStatusFallbacks | src/commvault_exporter/collector/collector.py:160-166 | With dict (or missing) client, instance and status information: the entity falls back to the client. The code falls back from `statusInfo.status` to the entry's `status`, then "unknown". The string falls back to the code, and the names to "unknown". The entry is read exactly when the entity is a dict and the status decides without lower-casing a non-string. The status is then 1 exactly when the code is "0" or "1" or the string is "configured". |
| Entries.VmHeaderRaises | src/commvault_exporter/collector/collector.py:160-164 | An entry that is not a dict, or whose client, instance or status information is not one, is skipped. |
| Entries.ActivityRow | src/commvault_exporter/collector/collector.py:171-176 | An activity sample's value is 0 or 1, equals 1 exactly when `enableActivityType` is truthy, and its "enabled" label is the value as text. |
| Entries.LeadingObjCount | src/commvault_exporter/collector/collector.py:171-176 | The activity loop processes exactly the leading dict options and raises at the first non-dict. |
| Entries.ActivityRows | src/commvault_exporter/collector/collector.py:171-176 | An activity sample is added per option, in order. |
| Entries.VmEntrySpec | src/commvault_exporter/collector/collector.py:158-179 | An unreadable entry adds nothing. A readable one adds exactly one status sample valued 0 or 1. It adds one activity sample per option and is counted when all its options are dicts. |
| Entries.VmEntriesAppend | src/commvault_exporter/collector/collector.py:158-179 | VM entries are independent: a list's samples and count are those of its parts. |
| Entries.VmEntriesArity | src/commvault_exporter/collector/collector.py:168-176 | Every VM status sample has five labels, and every activity sample four. |
| Collector.JobLabels | src/commvault_exporter/collector/collector.py:70-119 | Each job family's labels have its metric's arity and do not include the target label. |
| Collector.SystemInfoRows | src/commvault_exporter/collector/collector.py:138-143 | System information adds one sample of value 1 with two labels exactly when there is a client and the configuration is a dict. |
| Collector.SystemInfoFallbacks | src/commvault_exporter/collector/collector.py:141-142 | Without `version` and `commserve_name`, the labels are "unknown" and the target's name. Without a client, nothing is added. |
| Collector.SchemaArities | src/commvault_exporter/collector/collector.py:50-69 | The five fixed families start empty, with 0, 0, 2, 5 and 4 labels before the target label. |
| Collector.DeclaredWithTargetLabel | src/commvault_exporter/collector/collector.py:50-69 | Every fixed family equals `add_target_label` applied to its declared labels. |
| Collector.JobsDeclaredWithTargetLabel | src/commvault_exporter/collector/collector.py:70-119 | Every job family equals `add_target_label` applied to its labels, with the metric's arity. |
| Collector.JobGauges.InOrder | src/commvault_exporter/collector/collector.py:290-299 | The ten job gauges are listed in the order `collect` yields them. |
| Collector.InitialJobGaugesSpec | src/commvault_exporter/collector/collector.py:70-119 | Each declared job gauge is its metric's declared family. |
| Collector.InitialJobGaugesHold | src/commvault_exporter/collector/collector.py:70-119 | The declared job gauges are empty and tagged, with their metrics' arities. |
| Collector.WithJobOf | src/commvault_exporter/collector/collector.py:221-233 | Each job gauge receives exactly the sample of its own metric for the parsed job. |
| Collector.AddJobRowsOf | src/commvault_exporter/collector/collector.py:195-233 | After the entries, each job gauge holds its own metric's rows. |
| Collector.AddJobRowsStep | src/commvault_exporter/collector/collector.py:195-236 | A well-formed entry adds a sample to each gauge. Any other entry adds nothing. |
| Collector.AddJobRowsHolds | src/commvault_exporter/collector/collector.py:221-233 | Adding job samples keeps every job gauge tagged with the target. |
| Collector.ScrapedFrom | src/commvault_exporter/collector/collector.py:279-299 | Families built as `collect` builds them, from the declarations, are the scrape's families in yield order. |
| Collector.ScrapedTagged | src/commvault_exporter/collector/collector.py:285-299 | A scrape yields fifteen families, each with its declared labels in yield order. Every sample ends with the target's name. |
| Collector.NewCollector | src/commvault_exporter/collector/collector.py:42-47 | The collector raises a ValueError (null) exactly for a falsy configuration. Otherwise it has no client and the declared, empty families. |
| Collector.CommvaultCollector.constructor | src/commvault_exporter/collector/collector.py:33-119 | A new collector holds the name and configuration, no client, and every family as declared. |
| Collector.CommvaultCollector.Families | src/commvault_exporter/collector/collector.py:285-299 | The fifteen families are listed in yield order, with the job gauges last. |
| Collector.CommvaultCollector.FamiliesTagged | src/commvault_exporter/collector/collector.py:133-135 | In a valid collector, every sample of every family ends with the target's name. |
| Collector.CommvaultCollector.InitializeClient | src/commvault_exporter/collector/collector.py:121-131 | An existing client is kept. Otherwise a client is built from the target's dict (a non-dict raises) and has no token. This is the corrected reading, see "## Findings". |
| Collector.CommvaultCollector.CollectSystemInfo | src/commvault_exporter/collector/collector.py:138-146 | The system-information family gains exactly the system-information rows and stays tagged. |
| Collector.CommvaultCollector.CollectVmPseudoClients | src/commvault_exporter/collector/collector.py:148-182 | The VM families gain exactly the entries' status and activity samples. The count is the number of entries processed in full. Tagging is kept. |
| Collector.CommvaultCollector.CollectVmEntry | src/commvault_exporter/collector/collector.py:159-179 | One entry adds its status and activity samples and tells whether it was counted. |
| Collector.CommvaultCollector.CollectActivity | src/commvault_exporter/collector/collector.py:171-176 | The activity loop stops at the first non-dict option and adds one sample per option before it. |
| Collector.CommvaultCollector.CollectJobMetrics | src/commvault_exporter/collector/collector.py:184-239 | Every job gauge gains exactly the samples of the listed entries the loop finishes, and tagging is kept. The count is the number of processed jobs among them. |
| Collector.CommvaultCollector.CollectJobs | src/commvault_exporter/collector/collector.py:195-238 | The loop adds exactly the samples of the entries before the first overflow, and counts the processed ones. It reports an abort exactly when an entry overflowed. |
| Collector.CommvaultCollector.Collect | src/commvault_exporter/collector/collector.py:241-299 | Without a client, it adds 0 to success and duration and yields those two. With a client, it yields all fifteen families carrying the collections, the duration and a success of 1. A freshly built collector yields the scrape's families. |
| Collector.CommvaultCollector.ScrapeAvailable | src/commvault_exporter/collector/collector.py:254-299 | Each collection runs, then the duration and a success of 1 are added, and the fifteen families are yielded. |
| Collector.CommvaultCollector.ScrapeUnavailable | src/commvault_exporter/collector/collector.py:246-252 | Without a client, success and duration each gain a 0 sample, and the two are yielded in that order. |
| Probe.ResponseCodes | src/commvault_exporter/collector/collector.py:316-375 | `do_GET` answers 200, 400, 404 or 500, and only a 200 carries an exposition document. |
| Probe.ResponseCases | src/commvault_exporter/collector/collector.py:316-375 | A wrong path gives 404 and a missing target gives 400. An unknown target gives 404. A client that cannot be built, or a failing encoder, gives 500. Otherwise the answer is 200. Each code has its own body. |
| Probe.FirstTargetDecides | src/commvault_exporter/collector/collector.py:326-337 | Only the first `target` value matters. |
| Probe.EarlyResponsesIgnoreEncoder | src/commvault_exporter/collector/collector.py:319-348 | Answers given before collecting do not depend on the backend or the encoder. |
| Probe.HandleProbe | src/commvault_exporter/collector/collector.py:316-375 | The handler follows the response specification. It encodes nothing unless the request collects. Otherwise it encodes the families of a fresh scrape of the first target. |
| Probe.ScrapeTarget | src/commvault_exporter/collector/collector.py:353-359 | Collection happens exactly when the configuration is a non-empty dict, and then gives the scrape's families. |
| Probe.AsWrittenAnswersNoTarget | src/commvault_exporter/collector/collector.py:340 | As written, a request that names a target gets no response. Every other request gets the intended handler's response, whatever the lookup. |
| Probe.AsWrittenProbeExample | src/commvault_exporter/collector/collector.py:340 | A probe of a configured target gets no response as written, and a 200 from the intended handler. |
| Probe.ClientCollector | src/commvault_exporter/collector/collector.py:354-355 | The collector and its client are built exactly when the configuration is a non-empty dict, with every family as declared. |

## Left out

- Logging is left out everywhere, and so are the counts the collections only log.
- The HTTP server, `main.py` and the handler's `__init__` are left out. The request's path and its `parse_qs` query are inputs.
- `get_target_config` is not defined in `config_handler.py`. `Probe.HandleProbe` takes the lookup as a parameter (see "## Findings"). `start_exporter` also calls the undefined `get_all_targets` and `get_exporter_port`; it is left out with the server.
- `generate_latest` is a parameter, and so is the byte encoding of its output. The handler's registry is left out; the one `collect` call it makes is modelled.
- The exception message that follows "Failed to probe target" in the 500 body is left out.
- `api_client.get` is not defined in `client.py`. The two backend answers are inputs, with Null for "no data". As written, the call raises AttributeError, the collector's outer handler catches it, and no VM or job samples are added.
- The thread pool in `collect` is modelled as the three collections run one after the other. Each collection catches its own errors, so the success sample in the model is always 1.
- `time.time()` is left out. The measured duration is an input.
- Floating-point values are left out. Numbers are the model's integers.
  - Entries.FloatOf: `float()` of a fractional value or text such as "1.5" is rejected in the model, where `float()` accepts it. Such a job is skipped in the model. An int is passed on exactly, not rounded to a double, and text of a huge integer, which `float()` turns into infinity, converts to that integer.
  - `GaugeMetricFamily` values are integers.
- Values.ParseInt: only ASCII whitespace and digits are read. Underscore separators and non-ASCII digits, which Python's `int()` accepts, are not.
- Values.PyStr: `str()` of a non-empty list or dict is a placeholder that keeps only the brackets. Only the results for None, booleans, integers, strings and empty containers are exact.
- Values.AsciiLower: `str.lower()` is modelled for ASCII letters only.
- Reading and parsing the YAML file, and reading the environment, are left out. `Config.ConfigFile` and a map of variables are inputs.
- Config.ConfigHandler.MergeConfigs: the order of the sections in the merge is not fixed. This matters only for the partial merge before an exception, which `__init__` never exposes because it raises.
- Config.UpdateEntries: a pair whose key is not a string (an int, a bool or None key) is treated as raising, because the model's dict keys are strings. A two-key dict used as a pair is treated as raising, because the model's dicts have no key order.
- Config.ConfigHandler.constructor: the configuration path is not kept, because the file is an input.
- ApiClient.CommvaultAPIClient.Login: the request's `timeout` setting is left out. The HTTP exchange is the `PostOutcome` input.
- Metrics.AddTargetLabel: the source appends to the caller's list in place. The model returns a new list; no caller reuses the list.
- Families are values, so aliasing between them is not modelled.

## Findings

| source | as written | input that shows it | evidently intended | confidence | as-written member | corrected member |
|---|---|---|---|---|---|---|
| src/commvault_exporter/collector/collector.py:126 with src/commvault_exporter/commvault_api/client.py:10-12 | The collector passes the target's plain dict to the client. `dict.get('commvault', 'api_url')` then gives the literal "api_url", and likewise for the user name and password. | a target `{"api_url": "https://backup.example", "username": "admin", "password": "secret"}` yields user name "username" and the login URL "api_url/Login" | the client reads the target's own `api_url`, `username` and `password` | not executed | ApiClient.SettingsAsWritten (shown by ApiClient.AsWrittenIgnoresTargetFields) | ApiClient.SettingsFromTarget, used by Collector.CommvaultCollector.InitializeClient |
| src/commvault_exporter/collector/collector.py:340 with src/commvault_exporter/config_handler.py:59-63 | `do_GET` calls `self.config.get_target_config(name)`, which `ConfigHandler` does not define. The AttributeError is raised before the `try` at line 353, so no response is written. | `GET /probe?target=prod`, with `prod` configured | the handler looks up the named target's configuration and answers 200, 404 or 500 | not executed | Probe.ProbeResponseAsWritten (shown by Probe.AsWrittenAnswersNoTarget and Probe.AsWrittenProbeExample) | Probe.ProbeResponse with the lookup as a parameter, used by Probe.HandleProbe (its property is Probe.ResponseCases) |
