/**
 * The runner's `main`: load, show the metadata, initialise, run the script or
 * the interactive loop, and close the plugin through the deferred `Close`.
 * The result is the process exit code and the sequence of calls made into the
 * plugin. A load or initialisation failure leaves through `os.Exit(1)`, which
 * skips the deferred `Close`.
 */
module Session {
  import opened Wrappers
  import opened Contexts
  import opened Api
  import opened Loader
  import Script
  import Interactive

  /** A call the runner makes into the plugin. */
  datatype Call = InfoCall | InitCall | HookCall(kind: HookKind) | CloseCall

  /** The three command-line flags. */
  datatype Cli = Cli(pluginPath: string, scriptPath: string, configPath: string)

  /**
   * What the outside world supplies: the runtime's outcome for opening the
   * plugin, the bytes `os.ReadFile` returned for the config path, the script
   * file, the lines read from standard input, and the `%d` scanner.
   */
  datatype World<!S> = World(
    open: OpenOutcome<S>,
    configFile: seq<byte>,
    script: Script.ScriptFile,
    stdin: seq<seq<string>>,
    scanQoS: string -> uint8)

  /** The blob handed to `Init`: nil without a config flag. */
  function ConfigBlob<S>(cli: Cli, w: World<S>): seq<byte> {
    if cli.configPath != "" then w.configFile else []
  }

  predicate Loads<S>(cli: Cli, w: World<S>) {
    cli.pluginPath != "" && LoadPlugin(w.open).Success?
  }

  /** Init, called on the freshly loaded instance, returns no error. */
  predicate InitSucceeds<S>(cli: Cli, w: World<S>)
    requires Loads(cli, w)
  {
    var l := LoadPlugin(w.open).value;
    l.plugin.init(l.state, ConfigBlob(cli, w)).err == None
  }

  function HookCalls(hooks: seq<HookKind>): (calls: seq<Call>)
    ensures |calls| == |hooks|
    ensures forall i :: 0 <= i < |calls| ==> calls[i] == HookCall(hooks[i])
  {
    seq(|hooks|, i requires 0 <= i < |hooks| => HookCall(hooks[i]))
  }

  /** Every hook call is preceded by an Init call. */
  predicate HooksAfterInit(calls: seq<Call>) {
    forall i :: 0 <= i < |calls| && calls[i].HookCall? ==> InitCall in calls[..i]
  }

  /** The shape of a normal run: start-up calls ending in Init, the hook calls, then Close. */
  lemma NormalRunTrace(prefix: seq<Call>, hooks: seq<HookKind>)
    requires prefix != [] && prefix[|prefix| - 1] == InitCall
    requires multiset(prefix)[InitCall] == 1 && CloseCall !in prefix
    requires forall c :: c in prefix ==> !c.HookCall?
    ensures var calls := prefix + HookCalls(hooks) + [CloseCall];
      && multiset(calls)[InitCall] == 1
      && multiset(calls)[CloseCall] == 1
      && calls[|calls| - 1] == CloseCall
      && HooksAfterInit(calls)
  {
    var hookCalls := HookCalls(hooks);
    var calls := prefix + hookCalls + [CloseCall];
    assert InitCall !in hookCalls && CloseCall !in hookCalls;
    assert multiset(calls) == multiset(prefix) + multiset(hookCalls) + multiset([CloseCall]);
    forall i | 0 <= i < |calls| && calls[i].HookCall?
      ensures InitCall in calls[..i]
    {
      assert calls[..i][|prefix| - 1] == InitCall;
    }
  }

  /** The calls of a run that gets past Init: Info for validation, Info for display, Init, the hooks, Close. */
  function NormalTrace(hooks: seq<HookKind>): seq<Call> {
    [InfoCall, InfoCall, InitCall] + HookCalls(hooks) + [CloseCall]
  }

  /** What the mode `main` chose produced; NotRun when `main` stopped before choosing one. */
  datatype ModeRun =
    | NotRun
    | ScriptRun(summary: Option<Script.Summary>)
    | InteractiveRun(outputs: seq<Interactive.Output>)

  /** The hooks a mode's reports show were called, in order. */
  function ModeHooks(m: ModeRun): seq<HookKind> {
    match m
    case NotRun => []
    case ScriptRun(summary) => if summary.Some? then Script.ScriptHooks(summary.value.results) else []
    case InteractiveRun(outputs) => Interactive.CommandHooks(outputs)
  }

  /** The plugin state `Init` leaves on the freshly loaded instance. */
  function InitState<S>(cli: Cli, w: World<S>): S
    requires Loads(cli, w)
  {
    var l := LoadPlugin(w.open).value;
    l.plugin.init(l.state, ConfigBlob(cli, w)).state
  }

  /**
   * The mode step of `main`, on the plugin `Init` has set up: the script when
   * a script path is given, the interactive loop otherwise.
   */
  method RunMode<S>(cli: Cli, w: World<S>, p: Plugin<S>, s0: S) returns (mode: ModeRun, s: S)
    ensures cli.scriptPath != "" ==> mode.ScriptRun? && (mode.summary.Some? <==> w.script.Parsed?)
    ensures cli.scriptPath != "" && !w.script.Parsed? ==> s == s0
    ensures cli.scriptPath != "" && w.script.Parsed? ==>
      var r := Script.Replay(p, s0, w.script.cases);
      mode.summary == Some(Script.Summary(r.results, Script.Passed(r.results), Script.Failed(r.results))) && s == r.state
    ensures cli.scriptPath == "" ==>
      var t := Interactive.Interact(p, w.scanQoS, s0, w.stdin);
      mode == InteractiveRun(t.outputs) && s == t.state
    ensures cli.scriptPath != "" && w.script.Parsed? ==>
      ModeHooks(mode) == Script.NamedHooks(w.script.cases)
  {
    if cli.scriptPath != "" {
      var summary;
      summary, s := Script.RunScript(p, s0, w.script);
      mode := ScriptRun(summary);
      if w.script.Parsed? {
        Script.ReplayCallsNamedHooks(p, s0, w.script.cases);
      }
    } else {
      var outputs;
      outputs, s := Interactive.RunInteractive(p, w.scanQoS, s0, w.stdin);
      mode := InteractiveRun(outputs);
    }
  }

  method RunSession<S>(cli: Cli, w: World<S>) returns (exitCode: int, calls: seq<Call>, mode: ModeRun)
    ensures exitCode == 0 || exitCode == 1
    ensures exitCode == 0 <==> Loads(cli, w) && InitSucceeds(cli, w)
    // the plugin is never touched without a plugin path
    ensures cli.pluginPath == "" ==> calls == []
    // Init runs once, and only on a plugin that loaded and validated
    ensures multiset(calls)[InitCall] == if Loads(cli, w) then 1 else 0
    // Close runs exactly once on a normal return, as the very last call, and never after a failure
    ensures multiset(calls)[CloseCall] == if exitCode == 0 then 1 else 0
    ensures exitCode == 0 ==> calls[|calls| - 1] == CloseCall
    // every hook call comes after a successful Init
    ensures HooksAfterInit(calls)
    ensures exitCode != 0 ==> forall c :: c in calls ==> c in {InfoCall, InitCall}
    // a mode runs only after a successful Init, and on the state Init returned
    ensures mode == NotRun <==> exitCode != 0
    ensures exitCode == 0 && cli.scriptPath != "" ==>
      mode.ScriptRun? && (mode.summary.Some? <==> w.script.Parsed?)
    ensures exitCode == 0 && cli.scriptPath != "" && w.script.Parsed? ==>
      var l := LoadPlugin(w.open).value;
      var r := Script.Replay(l.plugin, InitState(cli, w), w.script.cases);
      mode.summary == Some(Script.Summary(r.results, Script.Passed(r.results), Script.Failed(r.results)))
    ensures exitCode == 0 && cli.scriptPath == "" ==>
      var l := LoadPlugin(w.open).value;
      mode == InteractiveRun(Interactive.Interact(l.plugin, w.scanQoS, InitState(cli, w), w.stdin).outputs)
    // the trace: Info twice (validation, then display), Init, the mode's hooks, Close
    ensures exitCode == 0 ==> calls == NormalTrace(ModeHooks(mode))
    ensures exitCode == 0 && cli.scriptPath != "" && w.script.Parsed? ==>
      calls == NormalTrace(Script.NamedHooks(w.script.cases))
  {
    if cli.pluginPath == "" {
      return 1, [], NotRun;
    }
    var loaded := LoadPlugin(w.open);
    if loaded.Failure? {
      // loadPlugin asked the instance for its Info only if the factory ran
      calls := if w.open.Factory? then [InfoCall] else [];
      return 1, calls, NotRun;
    }
    var p, s := loaded.value.plugin, loaded.value.state;
    // main prints plug.Info(), then calls Init
    var config: seq<byte> := [];
    if cli.configPath != "" {
      config := w.configFile;
    }
    var init := p.init(s, config);
    if init.err.Some? {
      return 1, [InfoCall, InfoCall, InitCall], NotRun;
    }
    s := init.state;
    mode, s := RunMode(cli, w, p, s);
    var hooks := ModeHooks(mode);
    var closed := p.close(s);  // deferred; its error is not looked at
    calls := NormalTrace(hooks);
    exitCode := 0;
    NormalRunTrace([InfoCall, InfoCall, InitCall], hooks);
  }
}
