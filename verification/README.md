# AXMQ plugin SDK — a Dafny model

This project models the core of the AXMQ plugin SDK, the contract between the
AXMQ MQTT broker and plugins that are loaded at run time. It covers:

- **Plugin metadata** (`pluginapi/meta.go`). `Validate` checks the name, then the
  presence of the contract version, then an exact match with the host's
  `SDKVersion`. `GetHookTimeout` clamps a hook timeout into (0, 30 s] and uses
  100 ms when none is set.
- **The capability contract** (`pluginapi/api.go`, with the records of
  `context.go` and the errors of `errors.go`). The seven-method `Plugin`
  interface becomes the datatype `Api.Plugin<S>`: a record of the seven
  operations over a state type `S` that the plugin chooses. Six of them return
  the next state; `Info` only reads it. `BasePlugin` becomes `Api.WithBase`. Its decision hooks allow
  everything; its notification hooks and `Close` do nothing.
- **The local runner** (`runner/main.go`):
  - `loadPlugin` (`Loader.LoadPlugin`);
  - the script mode (`Script.RunScript`), specified by `Script.Replay`;
  - the interactive mode (`Interactive.RunInteractive`), specified by `Interactive.Interact`;
  - the lifecycle in `main` (`Session.RunSession`). It returns the exit code,
    the sequence of calls made into the plugin and what the chosen mode
    (`Session.RunMode`) produced.
- **The reference auth plugin** (`examples/auth_plugin/main.go`). As the runner
  drives it, it is the record `AuthExample.Hooks` over its user table. As the Go
  object, it is the class `AuthExample.AuthPlugin`, whose `Init` rewrites the
  `users` field in place.

Modelling choices:

- The host's `SDKVersion` constant is not defined in any file of this model, so
  `Meta.SDKVersion` is an abstract constant. Statements that depend on it being
  non-empty say so.
- `time.Duration` is a signed 64-bit count of nanoseconds (`Meta.Duration`).
  QoS is a `uint8` newtype.
- A decision hook returns `(allow, err)` and the value it leaves in
  `ThreatScore`, the only writable field of its context. A notification hook
  returns only the plugin's next state, so it cannot change its context.
- The model uses the `[]byte` fields `Password` and `Payload` only as strings.
  Their byte length and their base64 form in JSON do not appear in it. The
  config blob is a `seq<byte>`.
- Go errors are `Option<Errors.PluginError>`. `Errors.Message` gives the text of
  `err.Error()`, which the script's substring check reads.

Behaviour the code has or lacks:

- A plugin is closed only on a normal return from script or interactive mode.
  A load or `Init` failure leaves through `os.Exit(1)` (runner/main.go:39-43
  and 64-67), which skips the `Close` deferred at runner/main.go:44.
- No code rejects a second plugin with the same name. `ErrPluginAlreadyExist`
  (pluginapi/errors.go:21) is declared but never returned.
- A hook timeout above the maximum is clamped to the maximum
  (pluginapi/meta.go:30-32), not replaced by the default.
- No code enforces a hook timeout. `GetHookTimeout` is never called.

## Model

| member | source | states |
|---|---|---|
| `Meta.GetHookTimeout` | pluginapi/meta.go:26-34 | result always in (0, MaxHookTimeout]; 100 ms default when the timeout is <= 0; MaxHookTimeout when above it (clamped, never rejected); otherwise unchanged |
| `Meta.GetHookTimeoutIdempotent` | pluginapi/meta.go:26-34 | feeding the effective timeout back in yields the same timeout |
| `Meta.Validate` | pluginapi/meta.go:37-48 | nil iff name non-empty and version non-empty and equal to the host's; empty name gives ErrInvalidPluginName whatever the other fields; then ErrMissingSDKVersion; then ErrSDKVersionMismatch on exact string inequality |
| `Meta.ValidateReadsOnlyNameAndVersion` | pluginapi/meta.go:37-48 | Version, GoVersion, BuildTime and HookTimeout never affect the result |
| `Meta.ValidateErrors` | pluginapi/meta.go:37-48 | validation returns nil or one of its three sentinel errors, never another error |
| `Api.HookKindOf` | runner/main.go:284-306 | exactly the names "auth", "subscribe", "publish" and "disconnect" select the four hooks |
| `Api.WithBase` | pluginapi/api.go:54-60 | BasePlugin: OnAuth/OnSubscribe allow with nil error, leave state and ThreatScore untouched; OnPublish/OnDisconnect change nothing; Close returns nil; Info and Init must come from the plugin |
| `Loader.LoadPlugin` | runner/main.go:80-105 | fixed failure order: wrapped open error, then ErrSymbolNotFound, then ErrInvalidPluginType, then the validation error unchanged; a plugin (the factory's instance) is returned iff all four steps pass |
| `Loader.LoadedIsCompatible` | runner/main.go:98-104 | a loaded plugin's metadata has a non-empty name and exactly the host contract version |
| `Loader.LoadErrors` | runner/main.go:80-105 | a load error is the open wrapper, one of the two lookup errors, or one of the three metadata errors |
| `Strings.Contains` | runner/main.go:313 | `strings.Contains`: a prefix is always contained, and nothing longer than the string is |
| `Strings.ContainsIffOccurs` | runner/main.go:313 | the substring test used for expected errors holds iff the substring occurs at some offset |
| `Errors.Message` | pluginapi/errors.go:10-21 | the declared errors have non-empty texts; the open wrapper of runner/main.go:83 reads "failed to open plugin: " followed by exactly its cause's text; a plugin's own error reads as its message |
| `Errors.SentinelMessagesDistinct` | pluginapi/errors.go:10-21 | no two declared errors have the same text |
| `Script.CasePasses` | runner/main.go:309-315 | no expectation always passes; an allow expectation that differs from the result fails; an error expectation fails on a nil error or on a message shorter than the expected text |
| `Script.CasePassesIffOccurs` | runner/main.go:309-315 | a case passes iff the allow expectation is unset or equal, and the expected error text, when given, occurs at some offset of a non-nil error's message |
| `Script.RunCase` | runner/main.go:281-315 | unknown hook: skipped, state unchanged; otherwise the named hook runs on the case's decoded context (the zero context when decoding failed), the reported allow, error and next state are that hook's, and the case passes iff the allow expectation is unset or equal and the error expectation is empty or contained in a non-nil error's message; publish/disconnect report allow=true and nil error |
| `Script.UndecodedInputUsesZeroContext` | runner/main.go:284-302 | a case whose input fails to decode still calls its hook, on the zero-valued context of that hook |
| `Script.NotificationCasePasses` | runner/main.go:293-315 | a publish or disconnect case passes iff it expects neither allow=false nor an error |
| `Script.Replay` | runner/main.go:278-324 | one report per case, each case run on the state the previous one left |
| `Script.TallyCoversRecognised` | runner/main.go:275-326 | passed + failed equals the number of cases with a recognised hook |
| `Script.SkippedIffUnknownHook` | runner/main.go:303-305 | case i is reported as skipped iff its hook name is not one of the four |
| `Script.ReplayAppend` | runner/main.go:278 | running a + b is running a and then b from the state a left (strict sequential order) |
| `Script.ReplayInOrder` | runner/main.go:278-306 | case i is judged against the plugin state left by exactly the cases before it |
| `Script.ReplayCallsNamedHooks` | runner/main.go:278-306 | the replay calls exactly the hook each recognised case names, once each, in script order |
| `Script.ExecuteCase` | runner/main.go:281-315 | the imperative case body (switch, hook call, pass check) computes what RunCase specifies |
| `Script.RunScript` | runner/main.go:262-327 | an unreadable or unparsable script runs no case and changes nothing; otherwise the reports, counters and final state are those of Replay, and passed + failed counts every recognised case |
| `Interactive.AuthCommand` | runner/main.go:160-171 | a context is built iff at least 4 arguments are given, from the first four, with ThreatScore 0 |
| `Interactive.SubscribeCommand` | runner/main.go:180-194 | a context is built iff at least 4 arguments are given; QoS is the scan of the fourth argument; IP is left empty |
| `Interactive.PublishCommand` | runner/main.go:203-224 | a context is built iff at least 5 arguments are given; retain is true iff a sixth argument is exactly "true" or "1" |
| `Interactive.DisconnectCommand` | runner/main.go:230-245 | a context is built iff at least 2 arguments are given; the reason is the third argument or "graceful" |
| `Interactive.HandleAuth` | runner/main.go:160-178 | with fewer than 4 arguments the hook is not called and the state is unchanged; otherwise the printed allow is the hook's own, whatever error accompanies it |
| `Interactive.HandleSubscribe` | runner/main.go:180-201 | with fewer than 4 arguments the hook is not called; otherwise the hook's allow and error are reported unchanged |
| `Interactive.HandlePublish` | runner/main.go:203-228 | with fewer than 5 arguments the hook is not called; otherwise OnPublish runs on the built context |
| `Interactive.HandleDisconnect` | runner/main.go:230-249 | with fewer than 2 arguments the hook is not called; otherwise OnDisconnect runs on the built context |
| `Interactive.Dispatch` | runner/main.go:126-142 | each of auth, subscribe, publish and disconnect goes to its handler, which checks the argument count and calls that hook; exit/quit end the loop; help and unknown commands touch no plugin state |
| `Interactive.Interact` | runner/main.go:107-144 | at most one output per line; nothing is shown after the goodbye |
| `Interactive.NothingRunsAfterExit` | runner/main.go:137-139 | once an exit or quit line has been read, later lines have no effect |
| `Interactive.RunInteractive` | runner/main.go:107-144 | the loop's outputs and final plugin state are those of Interact |
| `Session.NormalRunTrace` | runner/main.go:44-77 | after a successful Init the calls are the hooks and then one Close, which is the last call |
| `Session.RunMode` | runner/main.go:70-77 | with a script path the script runs (nothing when it cannot be read or parsed) and reports Replay's results with their passed and failed counts; without one the interactive loop runs and yields Interact's outputs; the final state is Replay's (script) or Interact's (interactive); a parsed script calls exactly the hooks its cases name |
| `Session.RunSession` | runner/main.go:30-78 | exit 0 iff the plugin loads and Init succeeds; Init is called once and only on a loaded plugin; Close is called exactly once, last, on a normal return, and never after a load or Init failure; every hook call follows Init; a mode runs iff exit is 0, the script when a script path is given (reporting Replay's results and their passed and failed counts) and the interactive loop otherwise, on the state Init returned; the call trace is Info, Info, Init, the mode's hooks, Close |
| `AuthExample.Describe` | examples/auth_plugin/main.go:41-50 | Info reports "auth_plugin" and the host contract version, so validation succeeds whenever the host version is non-empty; its hook timeout is the 100 ms default |
| `AuthExample.InitUsers` | examples/auth_plugin/main.go:53-70 | the seed accounts are written over the old table unless the config decodes to a non-empty users map, which replaces the table wholesale |
| `AuthExample.InitFromNewPlugin` | examples/auth_plugin/main.go:34-70 | from NewPlugin's empty table, Init leaves exactly admin->"secret" and guest->"guest123" unless the config replaces them |
| `AuthExample.Authenticate` | examples/auth_plugin/main.go:73-91 | allow iff the user is known and the password matches; never an error; ThreatScore 30 for an unknown user, 50 for a wrong password, unchanged on success |
| `AuthExample.AuthorizeSubscribe` | examples/auth_plugin/main.go:94-101 | deny iff the topic starts with "$SYS" and the user is not "admin"; never an error; ThreatScore untouched |
| `AuthExample.Hooks` | examples/auth_plugin/main.go:41-120 | Info is Describe, OnAuth is Authenticate and OnSubscribe is AuthorizeSubscribe; Init always returns nil; OnPublish, OnDisconnect and Close leave the user table unchanged, and Close returns nil |
| `AuthExample.Artifact` | examples/auth_plugin/main.go:34-50 | the built module yields a factory whose instance has an empty table and reports "auth_plugin" with the host contract version |
| `AuthExample.ArtifactLoads` | examples/auth_plugin/main.go:34-50 | the loader accepts the reference plugin iff the host contract version is non-empty, giving its empty-table instance |
| `AuthExample.CredentialScript` | runner/main.go:278-324 | against any table holding the user, a correct login expecting allow and a wrong password expecting deny both pass, and an unknown-hook case is skipped: 2 passed, 0 failed |
| `AuthExample.AuthPlugin.Info` | examples/auth_plugin/main.go:41-50 | name "auth_plugin", version "1.0.0", the host contract version, the build environment's Go version and time, and the 100 ms default timeout |
| `AuthExample.AuthPlugin.constructor` | examples/auth_plugin/main.go:34-38 | NewPlugin yields an empty user table |
| `AuthExample.AuthPlugin.Init` | examples/auth_plugin/main.go:53-70 | the in-place update leaves the table InitUsers specifies and returns nil |
| `AuthExample.AuthPlugin.OnAuth` | examples/auth_plugin/main.go:73-91 | the decision, the error and the ThreatScore written to the caller's context are those of Authenticate |
| `AuthExample.AuthPlugin.OnSubscribe` | examples/auth_plugin/main.go:94-101 | the decision is that of AuthorizeSubscribe, with a nil error |
| `AuthExample.AuthPlugin.OnPublish` | examples/auth_plugin/main.go:104-108 | only logs: the user table is unchanged |
| `AuthExample.AuthPlugin.OnDisconnect` | examples/auth_plugin/main.go:111-114 | only logs: the user table is unchanged |
| `AuthExample.AuthPlugin.Close` | examples/auth_plugin/main.go:117-120 | returns nil |

## Left out

- Dynamic loading: `plugin.Open`, `Lookup("NewPlugin")` and the type assertion are the Go runtime's. Their outcome is the input `Loader.OpenOutcome` (open error, no symbol, wrong type, or the factory's plugin and instance).
- I/O and command-line plumbing. Flag parsing, `os.ReadFile` and printing are not modelled. Reading stdin and splitting lines (`TrimSpace`, `Fields`) are not modelled either: each input line arrives as its list of fields. Printed text is reduced to the `Interactive.Output` and `Script.CaseResult` values.
- Library decoding:
  - The JSON decoding of a script arrives as a read failure, a parse failure, or the decoded cases. Each case's `input` is decoded as each context shape, with None where decoding fails; the partial fill Go's decoder performs on a type error is not modelled.
  - The auth plugin's config decoding is the parameter `UsersDecoder`.
  - `fmt.Sscanf("%d")` into a QoS is the parameter `scanQoS`.
- The wall clock and `runtime.Version()` that the auth plugin's `Info` reads are the fixed parameter `BuildEnv`.
- Printing inside hooks, the `printHelp` text, and the warning printed when the config file cannot be read.
- Hook timeouts are not enforced and there is no concurrency: the code contains neither.
- The rejection of duplicate plugin names, and the errors `ErrGoVersionMismatch`, `ErrPluginNotFound`, `ErrMetaNotFound` and `ErrPluginInitFailed`. They are declared in `pluginapi/errors.go` and never returned, so they appear only as constructors of `Errors.PluginError`.
- The logger example plugin (file logging under a mutex) and the build tool (wraps `go build`). Neither is part of this model.
- `Info` is modelled as free of side effects: it reads the plugin state and cannot change it, although a Go method with a pointer receiver could. The runner calls it twice on the same instance (runner/main.go:99 and 47).
- Pointer aliasing of contexts. A hook could, through the pointer, write any field of its context. The model lets decision hooks write only `ThreatScore` and gives notification hooks no way to write at all, as the contract states.
- Byte strings. Go `string` and `[]byte` values hold arbitrary bytes, while the model's strings are sequences of Unicode characters. A password or payload that is not valid UTF-8 (such as the byte 0xFF decoded from a base64 JSON field) cannot be represented. On valid UTF-8 text, equality, the `$SYS` prefix test and `strings.Contains` give the same answers in both.
