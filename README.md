# cbft node bootstrap and router composition, modelled in Dafny

This project models the startup core of the `cbft` command. That core is the `main` function and `MainStart` in `cmd/cbft/main.go`, and the router and asset helpers in `rest.go`. It covers:

- the order of the startup stages and the exit each one takes;
- the data-directory guard;
- the check of the `-server` argument and how its failures are classified;
- the tag list and the address announced to the operator;
- the index-name registry callbacks;
- the two-step embedded-asset lookup;
- the route table that `InitStaticRouter` and `NewRESTRouter` build.

Files and modules:

- `wrappers.dfy` (`Wrappers`): Option and Result.
- `text.dfy` (`Text`): Go's `strings.HasPrefix`, `strings.Split` and `strings.Join` on a one-character separator, with their round-trip lemmas.
- `datadir.dfy` (`DataDir`): the data-directory decision table, and the same guard run against a reduced file system.
- `assets.dfy` (`Assets`): `myAsset` and `myAssetDir`, plus a reference definition "ordered providers, first hit wins" that both are proved equal to.
- `routes.dfy` (`Routes`): a `Router` class whose bindings form an append-only sequence, plus `InitStaticRouter` and `NewRESTRouter`.
- `registry.dfy` (`Registry`): the `MainHandlers` callbacks acting on a shared name→index registry.
- `server.dfy` (`Server`): `MainStart`. Its server checks are a pure function, and its error texts are proved distinct.
- `startup.dfy` (`Startup`): `main`, split into `Prelude` (everything before `MainStart`), `Launch` (from `MainStart` on) and `RunMain`, plus the tag and display-address rules.

How collaborators are modelled:

- Every collaborator the core calls but does not define is an oracle. That covers `os.Stat`, `os.Mkdir`, `cbgt.NewMsgRing`, `cmd.MainCfg`, `cmd.MainUUID`, the cbauth handler and its credentials, `couchbase.ConnectWithAuthCreds`, `mgr.Start`, the REST library, `cbft.NewNsStatusHandler` and `http.ListenAndServe`.
- Each oracle's answer is a field of `Startup.MainEnv` or `Server.StartEnv`. An `Option<string>` holds the error; `None` stands for Go's `nil`.
- `DEFAULT_DATA_DIR` comes from `flags.go`, which is not part of this model. It is passed in as `defaultDataDir`.

Behaviours of the code worth stating plainly:

- The route table does not reject a path bound twice; no code checks for duplicates. `Routes.StaticExactPathsDistinct` proves that the three paths `InitStaticRouter` binds itself (rest.go:29-34) are distinct; what the REST library's UI group binds is not modelled.
- When both asset sets fail, the caller gets the fallback's (value, error) pair verbatim; no 404 is produced here.
- Tags are an ordered list, not a set. Empty pieces and repeated tags are kept, so `"a,,a"` gives `["a", "", "a"]`.
- The error of `NewRESTRouter` is discarded. `MainStart`'s contract does not mention `env.restRouter`, so its result does not depend on it.

## Model

| member | source | states |
|---|---|---|
| Text.HasPrefix | cmd/cbft/main.go:158 | `strings.HasPrefix`: true exactly when the prefix is no longer than the string and agrees with it character by character; then the string is the prefix followed by the rest |
| Text.Split | cmd/cbft/main.go:132 | `strings.Split`: at least one piece, and the single empty piece exactly for the empty string |
| Text.Join | cmd/cbft/main.go:130-133 | the inverse used for the tag round trip: separator-free pieces are joined with exactly one separator between neighbours, and no pieces join to the empty string |
| Text.JoinSplit | cmd/cbft/main.go:130-133 | joining the comma-split pieces with `,` gives back the flag |
| Text.SplitCount | cmd/cbft/main.go:130-133 | the split has exactly one more piece than the flag has commas |
| Text.SplitPiecesFree | cmd/cbft/main.go:130-133 | no piece of the split contains the separator |
| Text.SplitJoin | cmd/cbft/main.go:130-133 | splitting the join of non-empty, separator-free pieces gives the pieces back |
| Startup.ParseTags | cmd/cbft/main.go:130-133 | the tag list is empty exactly when the flag is empty; otherwise re-joining gives the flag, the count is commas + 1, and no tag contains a comma |
| Startup.TagsRoundTrip | cmd/cbft/main.go:130-133 | every non-empty list of comma-free tags with a non-empty join is what its join parses back to |
| Startup.DisplayAddress | cmd/cbft/main.go:154-160 | `":port"` is shown as `"localhost:port"`; `"0.0.0.0:port"` becomes `"localhost"` + `":port"`; anything else is shown unchanged; the result never starts with `:` or `0.0.0.0:`; an empty bind address is excluded, because `u[0]` panics on it |
| Startup.DisplayKeepsPort | cmd/cbft/main.go:154-160 | both `":"+port` and `"0.0.0.0:"+port` display as `"localhost:"+port` |
| Startup.DisplayIdempotent | cmd/cbft/main.go:154-160 | rewriting an already rewritten address changes nothing |
| DataDir.Decide | cmd/cbft/main.go:79-105 | the whole decision table: an existing directory is used as is; an existing non-directory is refused; missing and default means create with mode 0700; missing and not default means "does not exist"; any other stat error means "cannot access" |
| DataDir.Guard | cmd/cbft/main.go:79-105 | it continues without creating exactly for an existing directory, and continues after creating exactly when the default directory is missing and the create succeeds; a failed create is fatal with the create's error; every other fatal error is the decision table's |
| DataDir.GuardOn | cmd/cbft/main.go:79-105 | on a file system, only a successful create changes it, adding the data directory as a 0700 directory |
| DataDir.GuardIdempotent | cmd/cbft/main.go:79-105 | after a successful guard, the data directory exists as a directory, and a second guard continues with nothing created |
| DataDir.NonDefaultNeverCreated | cmd/cbft/main.go:90-94 | a non-default directory is never created; if it is missing, the guard is fatal with "does not exist" |
| DataDir.OnlyDataDirChanges | cmd/cbft/main.go:79-105 | the guard leaves every other path of the file system unchanged |
| Server.ValidateServer | cmd/cbft/main.go:194-228 | empty server: "server URL required" with no call made; otherwise the auth handler is built first; a failing auth handler returns "Error in parsing server url" with its cause after that one call; failing credentials return "Error in getting auth" with their cause after the two auth calls; the probe happens exactly when the server is not `"."` and both auth steps succeed, and it uses the obtained credentials; success exactly when all steps pass; on a probe failure, "not a URL" exactly without an `http://`/`https://` prefix and "could not connect" exactly with one |
| Server.LocalOnlySkipsProbe | cmd/cbft/main.go:207 | server `"."` never probes, and its outcome does not depend on what connecting would answer |
| Server.ProbeFailureClassified | cmd/cbft/main.go:208-227 | a failed probe yields "could not connect" (with the cause) for an http(s) server, and "not a URL" otherwise |
| Server.Quote | cmd/cbft/main.go:212-226 | `%q` wraps the server in double quotes |
| Server.Message | cmd/cbft/main.go:194-227 | every error text MainStart writes itself starts with `error: `; a manager-start or ns-status error is passed through as the collaborator's text |
| Server.Opening | cmd/cbft/main.go:195-221 | the fixed wording of a message starts with `error: ` exactly for the errors MainStart words itself, and is empty for passed-through errors |
| Server.Details | cmd/cbft/main.go:199-226 | the auth errors carry the collaborator's error verbatim; the two probe errors continue with the quoted server |
| Server.UrlMessagesDistinct | cmd/cbft/main.go:210-226 | the "not a URL" text never equals a "could not connect" text, for any servers and cause (a case of OwnMessagesDistinct) |
| Server.OwnMessagesDistinct | cmd/cbft/main.go:194-227 | the five errors MainStart words itself have pairwise different texts across kinds |
| Server.MainStart | cmd/cbft/main.go:190-250 | a validation failure returns that error, no router, and only the validation calls; a manager-start failure returns its error after NewManager and Start; otherwise the REST router is built, `/api/nsstats` is bound, then the ns-status handler is built; its failure is the returned error; on success the router is the static routes, then the REST routes, then `/api/nsstats`, then `/api/nsstatus`, with a nil error; the REST router's error never reaches the result |
| Registry.Registered | cmd/cbft/main.go:254-259 | a bleve partition adds name→index; any other implementation leaves the registry unchanged; other names keep their entries |
| Registry.Unregistered | cmd/cbft/main.go:261-263 | the name is removed unconditionally; every other entry is kept |
| Registry.MainHandlers.OnRegisterPIndex | cmd/cbft/main.go:254-259 | the shared registry becomes `Registered` of its old value |
| Registry.MainHandlers.OnUnregisterPIndex | cmd/cbft/main.go:261-263 | the shared registry becomes `Unregistered` of its old value |
| Registry.RegisterIdempotent | cmd/cbft/main.go:254-259 | delivering the same registration twice has the effect of once |
| Registry.UnregisterIdempotent | cmd/cbft/main.go:261-263 | delivering the same unregistration twice has the effect of once |
| Registry.UnregisterUndoesRegister | cmd/cbft/main.go:254-263 | registering under a fresh name, then unregistering, restores the registry |
| Registry.RegisterThenLookup | cmd/cbft/main.go:254-263 | a registered bleve partition's name resolves to its index, and is gone after unregistering by that name |
| Assets.MyAssetDir | rest.go:52-59 | the node's AssetDir reply when it has no error; otherwise the REST library's reply verbatim |
| Assets.MyAsset | rest.go:61-68 | the node's Asset reply when it has no error; otherwise the REST library's reply verbatim |
| Assets.FirstHit | rest.go:52-68 | the reference lookup's reply is some provider's reply |
| Assets.FirstHitSucceeds | rest.go:52-68 | the reference lookup succeeds exactly when some provider succeeds |
| Assets.FirstHitIsFirst | rest.go:52-68 | the reference lookup returns the reply of the first provider that succeeds |
| Assets.FirstHitAllMiss | rest.go:52-68 | when all providers fail, the last provider's reply is returned |
| Assets.MyAssetDirIsFirstHit | rest.go:52-59 | myAssetDir equals the reference lookup over [node's AssetDir, REST AssetDir] |
| Assets.MyAssetIsFirstHit | rest.go:61-68 | myAsset equals the reference lookup over [node's Asset, REST Asset] |
| Assets.LookupOrderIsFirstHit | rest.go:52-68 | LookupOrder, the order the mounted REST group records, is the provider order of both lookups: each equals the reference lookup over LookupOrder's providers |
| Assets.MyAssetIgnoresFallbackOnHit | rest.go:61-65 | on a primary hit, the result is the primary's bytes, whatever the fallback holds |
| Assets.MyAssetBothMiss | rest.go:66-67 | the lookup fails only when both sets fail, and then with the fallback's error |
| Routes.Router.SetStrictSlash | rest.go:27 | sets the strict-slash flag and keeps every binding |
| Routes.Router.Handle | rest.go:29-34 | appends one exact-path binding; earlier bindings and strict-slash stay as they were |
| Routes.Router.HandlePrefix | rest.go:46-47 | appends one prefix binding; earlier bindings stay as they were |
| Routes.Router.MountGroup | rest.go:36-44 | appends the group a REST-library helper adds; earlier bindings stay as they were |
| Routes.StaticRoutes | rest.go:29-47 | five bindings: the mounted UI group is the fourth, the stripping prefix route the fifth and only prefix binding, and every exact binding is a 302 redirect |
| Routes.InitStaticRouter | rest.go:23-50 | a fresh strict-slash router whose bindings are exactly the static routes, in order |
| Routes.StaticRedirectsFirst | rest.go:29-34 | the first three bindings are `/`, `/index.html` and `/static/partials/index/list.html`, each a 302 redirect; every exact binding redirects with 302 into `/staticx/` |
| Routes.UiAllowList | rest.go:36-44 | the allow-list handed on is exactly `/indexes`, `/nodes`, `/monitor`, `/manage`, `/logs`, `/debug` in that order, with a 302 redirect to `/staticx/index.html` |
| Routes.StaticxLast | rest.go:46-47 | the `/staticx/` prefix route, which strips `/staticx/` before the embedded file server, is the last static binding and the only prefix binding |
| Routes.StaticExactPathsDistinct | rest.go:29-34 | the three paths InitStaticRouter binds itself are pairwise distinct; what the REST library's UI group binds is not modelled |
| Routes.StripPath | rest.go:46-47 | StripPrefix passes a request on exactly when the path has the prefix, and then prefix + passed name = path; an empty prefix passes every path on unchanged |
| Routes.StaticxAssetName | rest.go:46-47 | a request for `/staticx/<name>` reaches the embedded file server as `<name>` |
| Routes.NewRESTRouter | rest.go:73-79 | the static routes come first, then the REST routes with the asset sets tried in the order node, then REST library; the REST library's error is returned as is |
| Startup.Prelude | cmd/cbft/main.go:46-128 | help exits 2 and version exits 0, both before any stage; the stages run in the order ring, data dir, cfg, uuid; each failure halts at its own stage with its own error (bind conflict vs cfg unavailable). Mkdir is called, with mode 0700, exactly when the default directory is missing. Startup goes on exactly when every stage passes |
| Startup.Launch | cmd/cbft/main.go:130-170 | MainStart receives the parsed tags; a MainStart failure halts at Start with MainStart's own error (validation, manager start or ns status); `register == "unknown"` exits 0 exactly after a successful MainStart; an empty bind address panics; otherwise it listens and either halts with the listen error or serves at the displayed address |
| Startup.RunMain | cmd/cbft/main.go:46-170 | exit 2 exactly for help; the stages entered are always a prefix of ring, data dir, cfg, uuid, MainStart, listen; a halt happens at the last stage entered; a failure before MainStart halts, and the ring, data-dir, cfg and uuid stages each halt with their own error, exactly as in Prelude; the manager receives the parsed tags; a MainStart failure halts with its error, whether a validation error, the manager-start error or the ns-status error; `register == "unknown"` exits 0 exactly after a successful MainStart and never listens; an empty bind address panics; otherwise it listens, and it serves with the displayed address unless listening fails |

## Left out

- `MainWelcome` (main.go:172-188), the log lines, `GOMAXPROCS`, `rand.Seed` and the `expvar` map: these are logging and process state with no decision in them.
- `dumpOnSignal` and `dumpOnSignalForPlatform`: a signal-driven goroutine writing profiles. This is concurrency and I/O.
- `cbgt.NewMsgRing` and its ring semantics: its code is not part of this model. Only its error branch is modelled, as the `MsgRing` stage.
- Flag parsing, and `os.Stat`/`os.Mkdir` themselves: they are I/O. Their answers are oracles (`StatResult`, `mkdir`). The reduced file system in `DataDir` has no permission errors.
- `cmd.MainCfg`, `cmd.MainUUID`, the cbauth handler, `couchbase.ConnectWithAuthCreds`, `cbgt.NewManager`/`Start`, `cbft.NewNsStatsHandler`/`NewNsStatusHandler` and `http.ListenAndServe`: these are network or library code outside this model. Each is an oracle, or a recorded `Call`.
- The cfg handle, the manager object and the message ring passed to `MainStart`/`NewRESTRouter`: they are opaque handles and are not carried through the model.
- `rest.InitStaticRouter` and `rest.InitRESTRouter` internals: they are an outside library. Each one's contribution is one opaque `Mount` binding on the same router. The route metadata map that `NewRESTRouter` returns is not modelled.
- Routes.NewRESTRouter: assumes the REST library returns the router it was handed. If it returned nil alongside an error, `router.Handle` at main.go:242 would panic; that case is not modelled.
- gorilla/mux matching (`StrictSlash`, prefix matching, which route wins) and `http.FileServer`: these are library semantics. Only the strict-slash flag and the binding order are kept.
- `bleveHttp.RegisterIndexName`/`UnregisterIndexByName`: modelled as map assignment and removal. The bleve library is outside this model, and its locking is not modelled.
- Server.Quote: Go's `%q` escaping of special characters is not modelled; the server is only wrapped in double quotes.
- `http.Handle("/", router)` (main.go:151): installing the router on Go's default mux is not modelled separately; it has no failure path.
- Startup.RunMain: `log.Fatal` is modelled as a `Halted` outcome, not as a specific exit code.

