/**
 * The runner's script mode: replay an ordered list of test cases against a
 * plugin and count the cases that meet their expectation. Reading and JSON
 * decoding of the script are outside the model: a script arrives either as a
 * read or parse failure or as its list of cases, and each case carries its
 * `input` already decoded as each of the four context shapes.
 */
module Script {
  import opened Wrappers
  import opened Errors
  import opened Contexts
  import opened Strings
  import opened Api

  /** `expect`: an optional allow value and an error substring ("" means no expectation). */
  datatype Expect = Expect(allow: Option<bool>, error: string)

  /** The case's `input` decoded as each context shape; None where decoding failed. */
  datatype CaseInput = CaseInput(
    auth: Option<AuthContext>,
    subscribe: Option<SubscribeContext>,
    publish: Option<PublishContext>,
    disconnect: Option<DisconnectContext>)

  datatype TestCase = TestCase(name: string, hook: string, input: CaseInput, expected: Expect)

  datatype ScriptFile = Unreadable | Unparsable | Parsed(cases: seq<TestCase>)

  /** What the runner reports for one case: SKIP, or the hook's result and PASS/FAIL. */
  datatype CaseResult =
    | Skipped(hook: string)
    | Ran(kind: HookKind, allow: bool, err: Option<PluginError>, pass: bool)

  /** The pass rule: the allow expectation, if any, matches, and the error expectation, if any, is in the message. */
  predicate CasePasses(e: Expect, result: bool, err: Option<PluginError>): (ok: bool)
    ensures e.allow == None && e.error == "" ==> ok
    ensures e.allow == Some(!result) ==> !ok
    ensures e.error != "" && err == None ==> !ok
    ensures e.error != "" && err.Some? && |Message(err.value)| < |e.error| ==> !ok
  {
    && (e.allow == None || e.allow == Some(result))
    && (e.error == "" || (err.Some? && Contains(Message(err.value), e.error)))
  }

  /** The pass rule with the substring test spelled out: the expected error text sits in the message at some offset. */
  lemma CasePassesIffOccurs(e: Expect, result: bool, err: Option<PluginError>)
    ensures CasePasses(e, result, err) <==>
      && (e.allow.Some? ==> e.allow.value == result)
      && (e.error != "" ==> err.Some? && exists i: nat :: OccursAt(Message(err.value), e.error, i))
  {
    if err.Some? {
      ContainsIffOccurs(Message(err.value), e.error);
    }
  }

  datatype CaseRun<!S> = CaseRun(state: S, result: CaseResult)

  /** One case: dispatch on the hook name, call the hook on the decoded (or zero) context, judge. */
  function RunCase<S>(p: Plugin<S>, s: S, tc: TestCase): (r: CaseRun<S>)
    ensures r.result.Skipped? <==> HookKindOf(tc.hook) == None
    ensures r.result.Skipped? ==> r.state == s && r.result.hook == tc.hook
    ensures r.result.Ran? ==> HookKindOf(tc.hook) == Some(r.result.kind)
    ensures r.result.Ran? ==> r.result.pass == CasePasses(tc.expected, r.result.allow, r.result.err)
    ensures r.result.Ran? && r.result.kind in {PublishHook, DisconnectHook} ==> r.result.allow && r.result.err == None
    // the named hook runs on the decoded context, or on the zero context when decoding failed,
    // and its decision and the state it leaves are what the case reports
    ensures HookKindOf(tc.hook) == Some(AuthHook) ==>
      var d := p.onAuth(s, tc.input.auth.GetOr(ZeroAuth));
      r.state == d.state && r.result.allow == d.allow && r.result.err == d.err
    ensures HookKindOf(tc.hook) == Some(SubscribeHook) ==>
      var d := p.onSubscribe(s, tc.input.subscribe.GetOr(ZeroSubscribe));
      r.state == d.state && r.result.allow == d.allow && r.result.err == d.err
    ensures HookKindOf(tc.hook) == Some(PublishHook) ==> r.state == p.onPublish(s, tc.input.publish.GetOr(ZeroPublish))
    ensures HookKindOf(tc.hook) == Some(DisconnectHook) ==>
      r.state == p.onDisconnect(s, tc.input.disconnect.GetOr(ZeroDisconnect))
  {
    match HookKindOf(tc.hook)
    case None => CaseRun(s, Skipped(tc.hook))
    case Some(AuthHook) =>
      var d := p.onAuth(s, tc.input.auth.GetOr(ZeroAuth));
      CaseRun(d.state, Ran(AuthHook, d.allow, d.err, CasePasses(tc.expected, d.allow, d.err)))
    case Some(SubscribeHook) =>
      var d := p.onSubscribe(s, tc.input.subscribe.GetOr(ZeroSubscribe));
      CaseRun(d.state, Ran(SubscribeHook, d.allow, d.err, CasePasses(tc.expected, d.allow, d.err)))
    case Some(PublishHook) =>
      var s' := p.onPublish(s, tc.input.publish.GetOr(ZeroPublish));
      CaseRun(s', Ran(PublishHook, true, None, CasePasses(tc.expected, true, None)))
    case Some(DisconnectHook) =>
      var s' := p.onDisconnect(s, tc.input.disconnect.GetOr(ZeroDisconnect));
      CaseRun(s', Ran(DisconnectHook, true, None, CasePasses(tc.expected, true, None)))
  }

  /** A case whose input did not decode still calls its hook, on the zero-valued context. */
  lemma UndecodedInputUsesZeroContext<S>(p: Plugin<S>, s: S, tc: TestCase)
    ensures tc.hook == "auth" && tc.input.auth == None ==>
      var d := p.onAuth(s, ZeroAuth);
      RunCase(p, s, tc) == CaseRun(d.state, Ran(AuthHook, d.allow, d.err, CasePasses(tc.expected, d.allow, d.err)))
    ensures tc.hook == "subscribe" && tc.input.subscribe == None ==>
      var d := p.onSubscribe(s, ZeroSubscribe);
      RunCase(p, s, tc) == CaseRun(d.state, Ran(SubscribeHook, d.allow, d.err, CasePasses(tc.expected, d.allow, d.err)))
    ensures tc.hook == "publish" && tc.input.publish == None ==>
      RunCase(p, s, tc).state == p.onPublish(s, ZeroPublish)
    ensures tc.hook == "disconnect" && tc.input.disconnect == None ==>
      RunCase(p, s, tc).state == p.onDisconnect(s, ZeroDisconnect)
  {
  }

  /** A notification case passes exactly when it expects neither a rejection nor an error. */
  lemma NotificationCasePasses<S>(p: Plugin<S>, s: S, tc: TestCase)
    requires tc.hook == "publish" || tc.hook == "disconnect"
    ensures RunCase(p, s, tc).result.Ran?
    ensures RunCase(p, s, tc).result.pass <==> tc.expected.allow != Some(false) && tc.expected.error == ""
  {
    match tc.expected.allow
    case None =>
    case Some(b) =>
      if b { assert tc.expected.allow == Some(true); } else { assert tc.expected.allow == Some(false); }
  }

  datatype Replayed<!S> = Replayed(results: seq<CaseResult>, state: S)

  /** All cases, strictly in order, each against the plugin state the previous one left. */
  function Replay<S>(p: Plugin<S>, s: S, cases: seq<TestCase>): (r: Replayed<S>)
    ensures |r.results| == |cases|
    decreases |cases|
  {
    if cases == [] then Replayed([], s)
    else
      var first := RunCase(p, s, cases[0]);
      var rest := Replay(p, first.state, cases[1..]);
      Replayed([first.result] + rest.results, rest.state)
  }

  function Passed(results: seq<CaseResult>): nat {
    if results == [] then 0
    else (if results[0].Ran? && results[0].pass then 1 else 0) + Passed(results[1..])
  }

  function Failed(results: seq<CaseResult>): nat {
    if results == [] then 0
    else (if results[0].Ran? && !results[0].pass then 1 else 0) + Failed(results[1..])
  }

  /** The number of cases naming one of the four hooks. */
  function Recognised(cases: seq<TestCase>): nat {
    if cases == [] then 0
    else (if HookKindOf(cases[0].hook).Some? then 1 else 0) + Recognised(cases[1..])
  }

  lemma {:induction false} CountsAppend(a: seq<CaseResult>, b: seq<CaseResult>)
    ensures Passed(a + b) == Passed(a) + Passed(b)
    ensures Failed(a + b) == Failed(a) + Failed(b)
  {
    if a == [] {
      assert a + b == b;
    } else {
      assert (a + b)[1..] == a[1..] + b;
      CountsAppend(a[1..], b);
    }
  }

  /** Every case with a known hook is counted exactly once, as passed or as failed; skips are not counted. */
  lemma {:induction false} TallyCoversRecognised<S>(p: Plugin<S>, s: S, cases: seq<TestCase>)
    ensures Passed(Replay(p, s, cases).results) + Failed(Replay(p, s, cases).results) == Recognised(cases)
    decreases |cases|
  {
    if cases != [] {
      var first := RunCase(p, s, cases[0]);
      var rest := Replay(p, first.state, cases[1..]);
      TallyCoversRecognised(p, first.state, cases[1..]);
      CountsAppend([first.result], rest.results);
    }
  }

  /** The i-th report is SKIP exactly when the i-th case names an unknown hook. */
  lemma {:induction false} SkippedIffUnknownHook<S>(p: Plugin<S>, s: S, cases: seq<TestCase>, i: nat)
    requires i < |cases|
    ensures Replay(p, s, cases).results[i].Skipped? <==> HookKindOf(cases[i].hook) == None
    decreases i
  {
    if i > 0 {
      SkippedIffUnknownHook(p, RunCase(p, s, cases[0]).state, cases[1..], i - 1);
    }
  }

  /** Replaying a + b is replaying a, then replaying b from the state a left. */
  lemma {:induction false} ReplayAppend<S>(p: Plugin<S>, s: S, a: seq<TestCase>, b: seq<TestCase>)
    ensures var ra := Replay(p, s, a);
            var rb := Replay(p, ra.state, b);
            Replay(p, s, a + b) == Replayed(ra.results + rb.results, rb.state)
    decreases |a|
  {
    if a == [] {
      assert a + b == b;
    } else {
      assert (a + b)[0] == a[0];
      assert (a + b)[1..] == a[1..] + b;
      ReplayAppend(p, RunCase(p, s, a[0]).state, a[1..], b);
    }
  }

  /** Case i is judged against exactly the state the cases before it left behind. */
  lemma ReplayInOrder<S>(p: Plugin<S>, s: S, cases: seq<TestCase>, i: nat)
    requires i < |cases|
    ensures Replay(p, s, cases).results[i] == RunCase(p, Replay(p, s, cases[..i]).state, cases[i]).result
  {
    assert cases == cases[..i] + cases[i..];
    ReplayAppend(p, s, cases[..i], cases[i..]);
  }

  /** One step of the replay: running case i moves its result from the pending suffix to the done prefix. */
  lemma ReplayAdvance<S>(p: Plugin<S>, whole: Replayed<S>, done: seq<CaseResult>, s: S,
                         cases: seq<TestCase>, i: nat, next: CaseRun<S>)
    requires i < |cases|
    requires whole.results == done + Replay(p, s, cases[i..]).results
    requires whole.state == Replay(p, s, cases[i..]).state
    requires next == RunCase(p, s, cases[i])
    ensures whole.results == (done + [next.result]) + Replay(p, next.state, cases[i + 1..]).results
    ensures whole.state == Replay(p, next.state, cases[i + 1..]).state
  {
    assert cases[i..][0] == cases[i] && cases[i..][1..] == cases[i + 1..];
    var rest := Replay(p, next.state, cases[i + 1..]);
    assert done + ([next.result] + rest.results) == (done + [next.result]) + rest.results;
  }

  /** The hooks the reports show were called, in order (skipped cases call none). */
  function ScriptHooks(results: seq<CaseResult>): (hooks: seq<HookKind>)
    ensures |hooks| <= |results|
  {
    if results == [] then []
    else (if results[0].Ran? then [results[0].kind] else []) + ScriptHooks(results[1..])
  }

  /** The hooks the cases name, in order, leaving out unknown names. */
  function NamedHooks(cases: seq<TestCase>): seq<HookKind> {
    if cases == [] then []
    else (if HookKindOf(cases[0].hook).Some? then [HookKindOf(cases[0].hook).value] else []) + NamedHooks(cases[1..])
  }

  /** The replay calls exactly the hook each recognised case names, once, in script order. */
  lemma {:induction false} ReplayCallsNamedHooks<S>(p: Plugin<S>, s: S, cases: seq<TestCase>)
    ensures ScriptHooks(Replay(p, s, cases).results) == NamedHooks(cases)
    decreases |cases|
  {
    if cases != [] {
      var first := RunCase(p, s, cases[0]);
      var rest := Replay(p, first.state, cases[1..]);
      ReplayCallsNamedHooks(p, first.state, cases[1..]);
      assert ([first.result] + rest.results)[1..] == rest.results;
    }
  }

  /** The body of the loop for a case with a known hook: call it, then judge its result. */
  method ExecuteCase<S>(p: Plugin<S>, s0: S, tc: TestCase) returns (s: S, res: CaseResult)
    requires HookKindOf(tc.hook).Some?
    ensures CaseRun(s, res) == RunCase(p, s0, tc)
  {
    var kind := HookKindOf(tc.hook).value;
    s := s0;
    var result: bool;
    var resultErr: Option<PluginError> := None;
    match kind {
      case AuthHook =>
        var d := p.onAuth(s, tc.input.auth.GetOr(ZeroAuth));
        s, result, resultErr := d.state, d.allow, d.err;
      case SubscribeHook =>
        var d := p.onSubscribe(s, tc.input.subscribe.GetOr(ZeroSubscribe));
        s, result, resultErr := d.state, d.allow, d.err;
      case PublishHook =>
        s := p.onPublish(s, tc.input.publish.GetOr(ZeroPublish));
        result := true;
      case DisconnectHook =>
        s := p.onDisconnect(s, tc.input.disconnect.GetOr(ZeroDisconnect));
        result := true;
    }
    var ok := true;
    if tc.expected.allow.Some? && result != tc.expected.allow.value {
      ok := false;
    }
    if tc.expected.error != "" && (resultErr.None? || !Contains(Message(resultErr.value), tc.expected.error)) {
      ok := false;
    }
    res := Ran(kind, result, resultErr, ok);
  }

  datatype Summary = Summary(results: seq<CaseResult>, passed: nat, failed: nat)

  /** `runScript`: nothing runs when the script cannot be read or parsed. */
  method RunScript<S>(p: Plugin<S>, s0: S, file: ScriptFile) returns (summary: Option<Summary>, s: S)
    ensures !file.Parsed? ==> summary == None && s == s0
    ensures file.Parsed? ==>
      var r := Replay(p, s0, file.cases);
      summary == Some(Summary(r.results, Passed(r.results), Failed(r.results))) && s == r.state
    ensures summary.Some? ==> summary.value.passed + summary.value.failed == Recognised(file.cases)
  {
    if !file.Parsed? {
      return None, s0;
    }
    var cases := file.cases;
    ghost var whole := Replay(p, s0, cases);
    var passed, failed := 0, 0;
    var results: seq<CaseResult> := [];
    s := s0;
    for i := 0 to |cases|
      invariant whole.results == results + Replay(p, s, cases[i..]).results
      invariant whole.state == Replay(p, s, cases[i..]).state
      invariant passed == Passed(results) && failed == Failed(results)
    {
      var tc := cases[i];
      if HookKindOf(tc.hook) == None {
        ReplayAdvance(p, whole, results, s, cases, i, CaseRun(s, Skipped(tc.hook)));
        CountsAppend(results, [Skipped(tc.hook)]);
        results := results + [Skipped(tc.hook)];
        continue;
      }
      var s', res := ExecuteCase(p, s, tc);
      if res.pass {
        passed := passed + 1;
      } else {
        failed := failed + 1;
      }
      ReplayAdvance(p, whole, results, s, cases, i, CaseRun(s', res));
      CountsAppend(results, [res]);
      results, s := results + [res], s';
    }
    assert cases[|cases|..] == [];
    assert Replay(p, s, cases[|cases|..]) == Replayed([], s);
    assert whole.results == results + [] == results;
    assert whole.state == s;
    TallyCoversRecognised(p, s0, cases);
    summary := Some(Summary(results, passed, failed));
  }
}
