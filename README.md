# gintool core, modelled in Dafny

gintool is a small layer over the gin web framework for Go. This project
models its four pieces of decision logic and proves properties about them.

- **Recovery middleware** (`gintool.go`). `RecoveryWithWriter` classifies a recovered panic:
  - A client disconnect gets status 504. A disconnect is a `*net.OpError` wrapping an `*os.SyscallError` whose lowercased text contains "broken pipe" or "connection reset by peer".
  - Every other panic gets 500.
  - The middleware aborts the response with that status.
  - For a non-disconnect it also:
    - masks `Authorization` lines in the request dump;
    - logs the request;
    - calls the error-dispatch callback once.
  - `ginRecovery` renders the page `errorName(status)` when the status has an entry in the error map.
  - `Start` registers one template per error-map entry. It installs a NoRoute handler exactly when 404 is mapped.
- **Configuration** (`utils.go`, `config.go`).
  - `extract` walks a decoded YAML tree along a key path. It fails in four distinct ways.
  - `parseFile` builds a `Config` from the "gin" subtree, field group by field group. It pairs the TLS certificate and key, converts the static lists and fills the 404/500 error map.
  - `Config.Get` looks a path up under "other".
- **Session store** (`session.go`). There is one bag of named values per goroutine. The bag is created on demand and read and written by name. `WithSession` wraps a function so that a bag always exists for it. The `UseSession` middleware stores the configuration under "_config_".
- **plushgin renderer** (`plushgin/*.go`).
  - Templates load through a bounded LRU cache, with a hit/miss/debug rule.
  - Helpers are registered in a lazily allocated table and merged over the request data.
  - `partial` loads "_" + name through the same cache.
  - The content type is set only when it is absent.

Modules, one per source file:
- `Utils` (utils.go), `Conf` (config.go), `Session` (session.go), `GinTool` (gintool.go).
- `PlushCache` (plushgin/cache.go).
- `PlushGin` (plushgin/render.go, helpers.go, context.go).

Support modules:
- `Common`: Option, Result and a set lemma.
- `Text`: the Go string functions used: `strings.Split`, `Join`, `Contains`, `ToLower` and `%d`.
- `Host`: the file system as a snapshot. It stands in for `os.Stat`, `ioutil.ReadFile` and `path.Join`.

Where the code changes state step by step, the model does too:
- `Extract`, `ConvertMappings`, `ParseTree`, `RedactInPlace` (over an `array`), `RegisterErrorPages` and `NewContext` are methods with loops. Each is proved equal to a reference function, and the properties are proved about that function.
- The session table, the template cache, the renderer and the response writer are classes whose methods state their whole new state, each as a function of the old state and the inputs.

Three things are parameters:
- The YAML decoder, in `Conf.ParseFile`.
- The plush template engine, in `PlushGin.Plush2Render.Render`.
- gin's HTML rendering, in `GinTool.ErrorPage` and `GinTool.NoRouteResponse`.

Debug mode (`gin.IsDebugging()` / `gin.Mode() == "debug"`) is a boolean parameter, and the goroutine identity is an explicit `UnitId`.

### Behaviour of the code worth knowing

- **Disconnect logging.** On a disconnect, `RecoveryWithWriter` returns right after the abort and writes no log record at all (gintool.go:411-415).
- **Number of log records.** Debug mode writes three records: the INFO "errors when visit" line and two ERROR lines (the redacted request, and the panic with its stack). Release mode writes two (gintool.go:426-433).
- **Unmapped route.** With 404 unmapped, an unmatched route gets gin's own body "404 page not found" (gintool_test.go:216-218).
- **Mode.** `parseFile` passes "mode" to `gin.SetMode` and never stores it in `Config.mode` (config.go:87-91). The model returns it beside the result as `ginMode`, and `Config.mode` stays "". `gin.SetMode` accepts "", "debug", "release" and "test" and panics on anything else. The mode it sets is process-wide, so it stays set when a later setting makes `parseFile` fail.
- **Older gintool.go.** The gintool.go shown is older than gintool_test.go and session.go. It calls `ginRecovery(ge.errors)` and `UseSession()`. The model follows each function's own body: `ParseTree` for the parsing, and `GinRecovery` with the one-argument callback.
- **Fresh goroutine.** `WithSession` does not start a new goroutine. It sets up goroutine-local storage on the caller's goroutine and runs `f` there (session.go:67-72).

## Model

| member | source | states |
|---|---|---|
| Host.IsFile | utils.go:49-58 | `isFile` succeeds exactly for a regular file; any other existing path (a directory, a device, a pipe) is "not a file"; a path `os.Stat` cannot find is "not found" |
| Host.IsDir | config.go:121-131 | the templates setting is accepted exactly when it names a directory; any other existing path is "not a directory", a missing one "not found"; `isDir` is not part of this model, so this is its assumed meaning |
| Host.ReadFile | config.go:51-54 | reading succeeds exactly for a readable regular file and yields its contents; a device or pipe is "not a file" |
| Text.Contains | gintool.go:403 | `strings.Contains(s, sub)` holds iff `sub` occurs in `s` at some index |
| Text.JoinSplit | gintool.go:418-425 | joining the pieces of `strings.Split(s, sep)` with `sep` gives back `s` |
| Text.SplitPiecesFree | gintool.go:418-420 | no piece of a split contains the separator |
| Text.DecimalRoundTrip | utils.go:37-39 | the `%d` form of an int reads back as that int |
| Text.DecimalInjective | utils.go:37-39 | two ints have the same `%d` form iff they are equal |
| Utils.Extract | utils.go:12-35 | the loop equals the reference walk `Lookup`: nil input fails "can't extract nil", a non-map input fails "is not a map", an empty path on a map gives nil, a one-key path gives the value or "not found" |
| Utils.LookupStep | utils.go:20-28 | one key below a mapping the path reaches is found iff that mapping holds it, and the result is the stored value |
| Utils.LookupThroughScalar | utils.go:29-32 | a key below a non-map value fails with "[name] is not a map" naming the last key found |
| Utils.LookupFailurePersists | utils.go:20-33 | a failing path fails the same way however it is extended (missing key or non-map at any level) |
| Utils.ErrorName | utils.go:37-39 | `errorName(code)` is "__E_" followed by text that reads back as `code` |
| Utils.ErrorNameInjective | utils.go:37-39 | distinct codes give distinct template names, and conversely |
| Conf.InitConfig | config.go:36-44 | the defaults: empty errors/statics/staticFs maps, empty strings, nil `other` |
| Conf.PairTls | config.go:114-120 | after pairing, certificate and key are both set or both empty; a lone one is cleared; the same rule is gintool.go:143-149 |
| Conf.MappingTablePrefixFailure | config.go:141-146 | once the loop has failed on a prefix of the list, the rest of the list is never looked at |
| Conf.MappingTableParsedIff | config.go:141-148 | a static list converts iff every element is a map with string "map" and target values |
| Conf.MappingTableFirstBad | config.go:141-148 | the first bad element decides the failure: a non-map is the "wrong type ... mapping" error, a map missing a string value panics |
| Conf.MappingTableKeys | config.go:140-149 | the table's keys are exactly the "map" values of the elements |
| Conf.MappingTableLastWins | config.go:147 | a key maps to the target of the last element carrying it (later duplicates overwrite) |
| Conf.ConvertMappings | config.go:140-149 | the `for _, s := range ss` loop computes `MappingTable` |
| Conf.ReadString | config.go:67-71 | an absent key leaves nothing, a string key yields it, any other value panics |
| Conf.ReadPath | config.go:92-102 | a path setting is ignored unless a non-empty string; then it must pass `isFile`/`isDir` or the error is returned |
| Conf.ReadMappings | config.go:132-169 | "static"/"staticfile": absent leaves the default, a non-list is "wrong type statics"/"wrong type staticfile", and a list ends exactly as its `MappingTable` conversion (the first bad element's error or panic, or the table) |
| Conf.ReadScalars | config.go:67-91 | address, other, log and errorlog override the fields only when present; a non-string, or a mode `gin.SetMode` rejects, panics; the mode value is returned |
| Conf.ReadPaths | config.go:92-131 | the first failing stat check (certificate, then key, then templates) is the error returned; otherwise the result is `WithPaths` (pairing applied) |
| Conf.ReadTables | config.go:132-180 | the outcome is `TablesOutcome`: the error or panic of "static" first, then of "staticfile", then a panic for a non-string error page; otherwise statics, staticFs and error pages are set only when present, and only keys 404 and 500 of the error map are written |
| Conf.StaticNotListFails | config.go:132-139 | a "static" value that is not a list ends parsing with the "wrong type statics" error |
| Conf.StaticBadElement | config.go:140-148 | in a "static" list, the first element that is not an entry decides: a non-map is the "wrong type statics mapping" error, a map without string "map"/"path" panics |
| Conf.UnknownModePanics | config.go:87-91 | a mode other than "", "debug", "release" and "test" makes parsing panic and applies no mode |
| Conf.ModeSurvivesPathFailure | config.go:87-102 | a known mode stays applied when a later certificate check makes parsing fail |
| Conf.ParseTree | config.go:61-181 | the outcome is `TreeOutcome` of the tree: the extract error for a missing "gin" key, a panic for a bad plain setting or an unknown mode, the first path error, then the outcome of the tables; parsing succeeds iff every setting is well-formed, with `ConfigOf` as the result; the mode handed to `gin.SetMode` is returned whether or not a later setting fails |
| Conf.ParseFile | config.go:46-182 | a path that is not a regular file, an unreadable file and undecodable YAML each fail with their error and set no mode; a decoded file ends as `TreeOutcome` of its tree, with the mode `ModeApplied` gives |
| Conf.Get | config.go:185-188 | `Get(keys...)` is `extract(other, keys...)` with the error turned into nil |
| Conf.GetHelloWorld | gintool_test.go:87 | with `other` = {hello: world}, `Get("hello")` is "world" |
| Session.Find | session.go:41-44 | a Go map read: the stored value, or nil for a name never set |
| Session.Created | session.go:28-38 | `NewSession` keeps an existing bag and otherwise stores an empty one; other units are untouched |
| Session.Assign | session.go:47-50 | `SessionSet` adds the name to the unit's bag and touches no other unit |
| Session.CreatedIdempotent | session.go:28-38 | creating a session twice is the same as once |
| Session.FreshBagIsEmpty | session.go:32-34 | in a fresh session every name reads as nil |
| Session.GetAfterSet | session.go:41-50 | `SessionGet(k)` after `SessionSet(k, v)` is `v` |
| Session.SetFrame | session.go:47-50 | a set changes no other name of the unit and no other unit's bag |
| Session.TraceAt | session.go:67-72 | each session call made by `f` sees the bag left by the calls before it |
| Session.FinalUntouched | session.go:47-50 | a name that no call writes keeps its value |
| Session.FinalLastWrite | session.go:47-50 | a name holds the value of the last call that wrote it |
| Session.SessionStore.GetSession | session.go:20-25 | nil exactly when the unit has no session, else its bag |
| Session.SessionStore.NewSession | session.go:28-38 | returns the existing bag unchanged, else stores and returns an empty one |
| Session.SessionStore.SessionGet | session.go:41-44 | requires a session (no nil check); a never-set name yields nil |
| Session.SessionStore.SessionSet | session.go:47-51 | requires a session; the new table is `Assign` of the old one, so the name reads back as the value |
| Session.SessionStore.WithSession | session.go:67-72 | a bag exists before `f` runs, and every session call `f` makes runs on it; the result is `Final`/`Trace` of the calls |
| Session.SessionStore.SessionConfig | session.go:75-82 | the configuration stored under "_config_", or nil when the value there is not one |
| Session.SessionStore.UseSession | session.go:56-64 | the configuration is stored before the chain runs; unless the chain overwrites "_config_", `SessionConfig` returns it afterwards and every read of "_config_" during the chain sees it |
| GinTool.BrokenPipe | gintool.go:400-409 | the disconnect test holds iff the panic is an OpError around a SyscallError whose lowercased text contains "broken pipe" or "connection reset by peer" |
| GinTool.StatusFor | gintool.go:397-409 | the status is 504 exactly for a disconnect and 500 for every other panic |
| GinTool.BrokenPipeUpperCase | gintool.go:403 | "write: Broken Pipe" is recognised (the text is lowercased first) |
| GinTool.OtherPanicsAreInternal | gintool.go:397-409 | an OpError around a non-syscall error, and any non-OpError panic, get 500 |
| GinTool.AuthorizationLineForm | gintool.go:420-421 | the test the code makes, `strings.Split(line, ":")[0] == "Authorization"`, holds iff the line is "Authorization" or starts with "Authorization:" |
| GinTool.RedactLine | gintool.go:420-423 | an Authorization line becomes "Authorization: *"; any other line is kept byte for byte |
| GinTool.RedactLineCases | gintool.go:420-423 | `RedactLine` is the rewrite the code makes: the first piece of the split followed by ": *" when that piece is "Authorization", the line unchanged otherwise |
| GinTool.RedactLines | gintool.go:419-424 | redaction keeps the number of lines and rewrites each line on its own |
| GinTool.AuthorizationHeaderMasked | gintool.go:420-423 | "Authorization:" followed by any value, colons included, passes the split test and is masked |
| GinTool.MaskedIsAuthorization | gintool.go:422 | the mask passes the split test again and masks to itself |
| GinTool.RedactIdempotent | gintool.go:419-424 | redacting twice is the same as once |
| GinTool.RedactWithoutAuthorization | gintool.go:419-424 | with no Authorization line, redaction changes nothing |
| GinTool.RedactedLinesMasked | gintool.go:418-424 | each line of the split dump is either kept (not Authorization) or replaced by the mask |
| GinTool.RedactInPlace | gintool.go:419-424 | the in-place loop leaves the array equal to `RedactLines` of its old contents |
| GinTool.RedactHeaders | gintool.go:417-425 | the dump split at "\r\n", redacted, and joined with "\n" |
| GinTool.BearerTokenMasked | gintool.go:420-423 | "Authorization: Bearer XYZ" is logged as "Authorization: *", while "Host: example.com" fails the split test and is kept |
| GinTool.Recovery | gintool.go:392-440 | the deferred handler produces exactly `RecoveryEvents`: nothing when nothing was recovered, otherwise abort, logs and dispatch in order |
| GinTool.DisconnectOnlyAborts | gintool.go:411-415 | a disconnect aborts with 504 and returns: no log record and no callback |
| GinTool.OtherPanicDispatchesOnce | gintool.go:411-435 | any other panic aborts first and calls `f` exactly once, last, with the same status |
| GinTool.RecoveryLogs | gintool.go:426-433 | debug mode logs the visit, the redacted request and the panic; release mode logs the visit and one summary line |
| GinTool.ErrorPage | gintool.go:382-390 | a page is rendered iff the status is a key of the error map, and it is `errorName(status)` with the error map as data |
| GinTool.GinRecovery | gintool.go:382-390 | the response is aborted with the classified status; the body is the rendered page iff not a disconnect and the status is mapped, else empty |
| GinTool.EmptyErrorMapGivesBare500 | gintool_test.go:223-243 | with an empty error map a panicking handler yields 500 and an empty body |
| GinTool.MappedPageRendered | gintool.go:384-388 | with 500 mapped, a panic renders `errorName(500)` with the error map |
| GinTool.RegisterErrorPages | gintool.go:328-336 | one template per error entry named `errorName(status)` with the entry's file; a NoRoute handler iff 404 is mapped |
| GinTool.NoRouteResponse | gintool.go:332-336 | an unmatched route renders `errorName(404)` with nil data when 404 is mapped, else gin's "404 page not found" |
| PlushCache.LruGet | plushgin/cache.go:25-32 | `Get` never alters the stored contents and returns the content iff the name is stored |
| PlushCache.EmptyValid | plushgin/cache.go:17-23 | a new cache with a positive size is valid |
| PlushCache.LruGetValid | plushgin/cache.go:25-32 | `Get` keeps the cache valid |
| PlushCache.LruAddValid | plushgin/cache.go:17-18 | `Add` keeps the cache valid, so the entry count never exceeds `max` |
| PlushCache.EvictValid | plushgin/cache.go:34-36 | adding a new name to a full cache evicts one entry and stays within `max` |
| PlushCache.AddThenGet | plushgin/cache.go:25-36 | after `Add(k, v)`, `Get(k)` returns `v` |
| PlushCache.AddReplaces | plushgin/cache.go:34-36 | `Add` of a stored name replaces its content, nothing merged and nothing evicted |
| PlushCache.AddFrame | plushgin/cache.go:34-36 | other entries survive `Add` unchanged unless they are the least recently used one evicted for a new name |
| PlushCache.AbsentStaysAbsent | plushgin/cache.go:25-31 | a name never added stays absent through other adds and gets |
| PlushCache.TemplateCache.constructor | plushgin/cache.go:17-23 | `newTemplateCache(max)` starts empty with the given size |
| PlushCache.TemplateCache.Get | plushgin/cache.go:25-32 | returns the stored bytes or nil and leaves the contents unchanged |
| PlushCache.TemplateCache.Add | plushgin/cache.go:34-36 | the new state is `LruAdd` of the old one, and the name holds the content |
| PlushGin.NewContext | plushgin/context.go:14-20 | the loop computes `MergedContext` of the data and the helpers |
| PlushGin.MergedKeys | plushgin/context.go:15-18 | the context holds exactly the data keys and the helper names |
| PlushGin.HelperWins | plushgin/context.go:16-18 | every helper name maps to its helper, even on a collision with data |
| PlushGin.DataKept | plushgin/context.go:15 | data keys that are not helper names keep their values |
| PlushGin.NoHelpersIsData | plushgin/context.go:15-16 | with no helpers the context is exactly the data |
| PlushGin.WithContentType | plushgin/render.go:104-109 | Content-Type is set to the option only when absent or empty; other headers are untouched |
| PlushGin.ContentTypeSetOnce | plushgin/render.go:106 | once set, a second `WriteContentType` changes nothing |
| PlushGin.Plush2Render.New | plushgin/render.go:39-47 | a fresh empty cache of `MaxCacheEntries` and the default helper "partialFeeder" |
| PlushGin.Plush2Render.Derived | plushgin/render.go:62-67 | the per-request renderer shares the parent's options and the same cache object, has its own name and context, and no helper table |
| PlushGin.Plush2Render.AddHelper | plushgin/helpers.go:20-25 | the table is allocated on first use and `fn` is bound to `f`, overwriting it; other names unchanged |
| PlushGin.Plush2Render.InitDefaultHelpers | plushgin/helpers.go:16-18 | registers `partial` under "partialFeeder" |
| PlushGin.Plush2Render.GetCache | plushgin/render.go:89-101 | a hit outside debug mode reads nothing and keeps the contents; otherwise `TemplateDir/name` is read and stored; a failed read returns the error and changes no contents; the new cache state (contents and recency) is `CacheAfterLoad` |
| PlushGin.Plush2Render.GetCacheTwice | plushgin/render.go:90-91 | outside debug mode, a template loaded once is served from the cache the second time without reading |
| PlushGin.Plush2Render.Partial | plushgin/helpers.go:8-14 | loads "_" + n through `getCache`, returning its text, or "" and the error on failure; the cache ends as `CacheAfterLoad` gives for "_" + n |
| PlushGin.Plush2Render.Instance | plushgin/render.go:60-68 | shares options and cache, sets the name, merges the data with the helpers; non-gin.H data panics |
| PlushGin.Plush2Render.WriteContentType | plushgin/render.go:104-109 | the writer's header becomes `WithContentType` of the old one; nothing is written |
| PlushGin.Plush2Render.Render | plushgin/render.go:71-87 | a load failure and a plush failure each panic with nothing written; a successful load and plush run ends in `Rendered`, with the content type set and the text written; the cache ends as `CacheAfterLoad` gives |
| PlushGin.Default | plushgin/render.go:50-56 | TemplateDir "templates", the HTML content type and 128 cache entries |

## Left out

- Networking: `Start`'s listening, `ShutDown`, `http.Server`, TLS serving and the static-route registration are out. They are socket I/O. The error-page and NoRoute part of `Start` is modelled.
- Logging: log-file opening, `io.MultiWriter`, zerolog levels and writers, and log message formats are out (I/O). Log records appear only as `GinTool.Event` values carrying their content. The stack trace (`errors.Wrap`, `stack.Stack()`) is not modelled.
- Concurrency: goroutine-local storage (`gls.WithGls`, `gls.GoID`) and real concurrency are out. The unit is an explicit parameter. The storage that `WithGls` sets up and tears down around `f` comes from a library that is not part of this model. The model keeps the bag after `WithSession`.
- `Session.SessionStore.UseSession`: does not model the debug log line. The chain after it is modelled only through the session calls it makes.
- The plush template language is a function parameter. A `partial` call made while plush renders (which would touch the cache) is therefore not modelled.
- Library LRU order: the wrapper does not fix hashicorp/golang-lru's recency order. The order used here (least recently used first, refreshed by `Get` and `Add`) is an assumption about that library.
- `PlushCache.TemplateCache.Get`, `PlushCache.TemplateCache.Add`: require `max > 0`. `lru.New` fails for a non-positive size and leaves a nil cache. The first `Get` would then dereference nil, which the model does not represent.
- YAML decoding: `yaml.Unmarshal` is a parameter. Mapping keys are modelled as strings. A YAML key that decodes as a number cannot be found by `extract`'s string lookups, and the model cannot represent such a key.
- Unicode: `strings.ToLower` is modelled for ASCII letters only. Bytes and strings are both `string`; UTF-8 decoding is not modelled.
- `isDir` is not part of this model (its definition is missing); `Host.IsDir` takes it to accept exactly directories.
- `gin.SetMode` is not part of this model. `Conf.KnownMode` states the rule taken for it: "", "debug", "release" and "test" are accepted and anything else panics.
- `Host.ReadFile`: reading a device or named pipe (which may block or stream) is modelled as failing with "not a file".
- `path.Join`: modelled as joining with "/" without `path.Clean`'s lexical normalisation.
- The error text of `*net.OpError` is a field of the panic value (`shown`). Its formatting is not modelled.
- `w.Write`: its error result is not modelled; writing always succeeds.
- gin's `AbortWithError` is modelled as setting the status. Response headers that were already written, which would keep an earlier status, are out.
- gin's `c.HTML` and the multitemplate renderer are a function parameter. A render failure inside the recovery callback is out.
- `NewGin` (gintool.go:67-200) is not modelled; only `parseFile` is. `NewGin` parses the file with its own code, which differs from `parseFile`:
  - it switches gin to release mode to build the engine and then to debug mode before parsing (gintool.go:72-74);
  - its address defaults to "localhost:8080" (gintool.go:78), not "";
  - it reads neither "other" nor "templates";
  - it never initialises `staticFs`, so that map stays nil when "staticfile" is absent (gintool.go:76-81).
- `AddTemplates` is covered by `RegisterErrorPages`, as a map from template name to file.
- `HandleSession` and example/example.go: a wrapper around `WithSession`, and a demo program with signal handling.
