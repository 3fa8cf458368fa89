/**
 * The runner's interactive mode: each input line names a command and its
 * positional arguments; the four hook commands build the matching context
 * and call the hook. Reading stdin and splitting a line into fields
 * (`TrimSpace` + `Fields`) are outside the model: each line arrives as its
 * list of fields, a blank line as the empty list. `fmt.Sscanf(arg, "%d", &qos)`
 * is the parameter `scanQoS`.
 */
module Interactive {
  import opened Wrappers
  import opened Errors
  import opened Contexts
  import opened Api

  /** What the runner shows for one command. */
  datatype Output =
    | HelpShown
    | Usage(command: string)
    | AuthResult(allow: bool, err: Option<PluginError>)
    | SubscribeResult(allow: bool, err: Option<PluginError>)
    | PublishCalled
    | DisconnectCalled
    | UnknownCommand(command: string)
    | Bye

  // The context builders of handleAuth / handleSubscribe / handlePublish / handleDisconnect.
  // None is the usage message: too few arguments, and the hook is not called.

  function AuthCommand(args: seq<string>): (r: Option<AuthContext>)
    ensures r == None <==> |args| < 4
    ensures r.Some? ==> r.value == AuthContext(args[0], args[1], args[2], args[3], 0)
  {
    if |args| < 4 then None
    else Some(AuthContext(clientID := args[0], username := args[1], password := args[2], ip := args[3], threatScore := 0))
  }

  function SubscribeCommand(args: seq<string>, scanQoS: string -> uint8): (r: Option<SubscribeContext>)
    ensures r == None <==> |args| < 4
    ensures r.Some? ==> r.value == SubscribeContext(args[0], args[1], args[2], scanQoS(args[3]), "", 0)
  {
    if |args| < 4 then None
    else
      var qos := scanQoS(args[3]);
      Some(SubscribeContext(clientID := args[0], username := args[1], topic := args[2], qos := qos, ip := "", threatScore := 0))
  }

  /** The retain flag: only a sixth argument of exactly "true" or "1" sets it. */
  function PublishCommand(args: seq<string>, scanQoS: string -> uint8): (r: Option<PublishContext>)
    ensures r == None <==> |args| < 5
    ensures r.Some? ==> r.value.clientID == args[0] && r.value.username == args[1] && r.value.topic == args[2]
    ensures r.Some? ==> r.value.payload == args[3] && r.value.qos == scanQoS(args[4])
    ensures r.Some? ==> (r.value.retain <==> |args| > 5 && (args[5] == "true" || args[5] == "1"))
  {
    if |args| < 5 then None
    else
      var qos := scanQoS(args[4]);
      var retain := |args| > 5 && (args[5] == "true" || args[5] == "1");
      Some(PublishContext(clientID := args[0], username := args[1], topic := args[2], payload := args[3], qos := qos, retain := retain))
  }

  /** The reason defaults to "graceful" when no third argument is given. */
  function DisconnectCommand(args: seq<string>): (r: Option<DisconnectContext>)
    ensures r == None <==> |args| < 2
    ensures r.Some? ==> r.value.clientID == args[0] && r.value.username == args[1]
    ensures r.Some? ==> r.value.reason == if |args| > 2 then args[2] else "graceful"
  {
    if |args| < 2 then None
    else
      var reason := if |args| > 2 then args[2] else "graceful";
      Some(DisconnectContext(clientID := args[0], username := args[1], reason := reason))
  }

  datatype Handled<!S> = Handled(state: S, output: Output)

  /** handleAuth: the printed allow is the hook's own, whatever error accompanies it. */
  function HandleAuth<S>(p: Plugin<S>, s: S, args: seq<string>): (r: Handled<S>)
    ensures |args| < 4 ==> r == Handled(s, Usage("auth"))
    ensures |args| >= 4 ==>
      var d := p.onAuth(s, AuthCommand(args).value);
      r == Handled(d.state, AuthResult(d.allow, d.err))
  {
    match AuthCommand(args)
    case None => Handled(s, Usage("auth"))
    case Some(ctx) =>
      var d := p.onAuth(s, ctx);
      Handled(d.state, AuthResult(d.allow, d.err))
  }

  function HandleSubscribe<S>(p: Plugin<S>, scanQoS: string -> uint8, s: S, args: seq<string>): (r: Handled<S>)
    ensures |args| < 4 ==> r == Handled(s, Usage("subscribe"))
    ensures |args| >= 4 ==>
      var d := p.onSubscribe(s, SubscribeCommand(args, scanQoS).value);
      r == Handled(d.state, SubscribeResult(d.allow, d.err))
  {
    match SubscribeCommand(args, scanQoS)
    case None => Handled(s, Usage("subscribe"))
    case Some(ctx) =>
      var d := p.onSubscribe(s, ctx);
      Handled(d.state, SubscribeResult(d.allow, d.err))
  }

  function HandlePublish<S>(p: Plugin<S>, scanQoS: string -> uint8, s: S, args: seq<string>): (r: Handled<S>)
    ensures |args| < 5 ==> r == Handled(s, Usage("publish"))
    ensures |args| >= 5 ==> r == Handled(p.onPublish(s, PublishCommand(args, scanQoS).value), PublishCalled)
  {
    match PublishCommand(args, scanQoS)
    case None => Handled(s, Usage("publish"))
    case Some(ctx) => Handled(p.onPublish(s, ctx), PublishCalled)
  }

  function HandleDisconnect<S>(p: Plugin<S>, s: S, args: seq<string>): (r: Handled<S>)
    ensures |args| < 2 ==> r == Handled(s, Usage("disconnect"))
    ensures |args| >= 2 ==> r == Handled(p.onDisconnect(s, DisconnectCommand(args).value), DisconnectCalled)
  {
    match DisconnectCommand(args)
    case None => Handled(s, Usage("disconnect"))
    case Some(ctx) => Handled(p.onDisconnect(s, ctx), DisconnectCalled)
  }

  /** The command switch for one non-blank line. */
  function Dispatch<S>(p: Plugin<S>, scanQoS: string -> uint8, s: S, cmd: string, args: seq<string>): (r: Handled<S>)
    ensures r.output == Bye <==> cmd == "exit" || cmd == "quit"
    ensures r.output == HelpShown <==> cmd == "help"
    ensures r.output == UnknownCommand(cmd) <==> HookKindOf(cmd) == None && cmd !in {"help", "exit", "quit"}
    ensures r.output in {HelpShown, Bye, UnknownCommand(cmd)} ==> r.state == s
    // each hook command goes to its handler, which checks the arguments and calls the hook
    ensures cmd == "auth" ==> r == HandleAuth(p, s, args)
    ensures cmd == "subscribe" ==> r == HandleSubscribe(p, scanQoS, s, args)
    ensures cmd == "publish" ==> r == HandlePublish(p, scanQoS, s, args)
    ensures cmd == "disconnect" ==> r == HandleDisconnect(p, s, args)
  {
    if cmd == "help" then Handled(s, HelpShown)
    else if cmd == "auth" then HandleAuth(p, s, args)
    else if cmd == "subscribe" then HandleSubscribe(p, scanQoS, s, args)
    else if cmd == "publish" then HandlePublish(p, scanQoS, s, args)
    else if cmd == "disconnect" then HandleDisconnect(p, s, args)
    else if cmd == "exit" || cmd == "quit" then Handled(s, Bye)
    else Handled(s, UnknownCommand(cmd))
  }

  datatype Transcript<!S> = Transcript(outputs: seq<Output>, state: S)

  /** The whole session: blank lines are ignored, and exit or quit ends it. */
  function Interact<S>(p: Plugin<S>, scanQoS: string -> uint8, s: S, lines: seq<seq<string>>): (t: Transcript<S>)
    ensures |t.outputs| <= |lines|
    ensures forall k :: 0 <= k < |t.outputs| - 1 ==> t.outputs[k] != Bye
    decreases |lines|
  {
    if lines == [] then Transcript([], s)
    else if lines[0] == [] then Interact(p, scanQoS, s, lines[1..])
    else
      var h := Dispatch(p, scanQoS, s, lines[0][0], lines[0][1..]);
      if h.output == Bye then Transcript([Bye], s)
      else
        var rest := Interact(p, scanQoS, h.state, lines[1..]);
        Transcript([h.output] + rest.outputs, rest.state)
  }

  predicate IsExit(parts: seq<string>) {
    parts != [] && (parts[0] == "exit" || parts[0] == "quit")
  }

  /** Once an exit line has been read, nothing after it is looked at. */
  lemma {:induction false} NothingRunsAfterExit<S>(p: Plugin<S>, scanQoS: string -> uint8, s: S,
                                                   a: seq<seq<string>>, b: seq<seq<string>>, i: nat)
    requires i < |a| && IsExit(a[i])
    ensures Interact(p, scanQoS, s, a + b) == Interact(p, scanQoS, s, a)
    decreases i
  {
    assert (a + b)[0] == a[0] && (a + b)[1..] == a[1..] + b;
    if a[0] != [] {
      var h := Dispatch(p, scanQoS, s, a[0][0], a[0][1..]);
      if h.output != Bye {
        NothingRunsAfterExit(p, scanQoS, h.state, a[1..], b, i - 1);
      }
    } else {
      NothingRunsAfterExit(p, scanQoS, s, a[1..], b, i - 1);
    }
  }

  /** The hooks the transcript shows were called, in order. */
  function CommandHooks(outputs: seq<Output>): (hooks: seq<HookKind>)
    ensures |hooks| <= |outputs|
  {
    if outputs == [] then []
    else
      var here := match outputs[0]
        case AuthResult(_, _) => [AuthHook]
        case SubscribeResult(_, _) => [SubscribeHook]
        case PublishCalled => [PublishHook]
        case DisconnectCalled => [DisconnectHook]
        case _ => [];
      here + CommandHooks(outputs[1..])
  }

  /** `runInteractive`: read lines until exit, quit or the end of input. */
  method RunInteractive<S>(p: Plugin<S>, scanQoS: string -> uint8, s0: S, lines: seq<seq<string>>)
    returns (outputs: seq<Output>, s: S)
    ensures Transcript(outputs, s) == Interact(p, scanQoS, s0, lines)
  {
    ghost var whole := Interact(p, scanQoS, s0, lines);
    outputs, s := [], s0;
    var i := 0;
    while i < |lines|
      invariant 0 <= i <= |lines|
      invariant whole.outputs == outputs + Interact(p, scanQoS, s, lines[i..]).outputs
      invariant whole.state == Interact(p, scanQoS, s, lines[i..]).state
    {
      var parts := lines[i];
      assert lines[i..][0] == parts && lines[i..][1..] == lines[i + 1..];
      if parts == [] {
        i := i + 1;
        continue;
      }
      var h := Dispatch(p, scanQoS, s, parts[0], parts[1..]);
      if h.output == Bye {
        outputs := outputs + [Bye];
        return;
      }
      ghost var rest := Interact(p, scanQoS, h.state, lines[i + 1..]);
      assert outputs + ([h.output] + rest.outputs) == (outputs + [h.output]) + rest.outputs;
      outputs, s := outputs + [h.output], h.state;
      i := i + 1;
    }
    assert lines[|lines|..] == [];
    assert whole.outputs == outputs + [] == outputs;
  }
}
