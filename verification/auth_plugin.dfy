/**
 * The reference authentication plugin: a username -> password table, fixed
 * threat-score penalties on rejection, and a `$SYS` rule for subscriptions.
 *
 * The runner drives it through `Hooks`, its record of operations over the
 * user table. The class `AuthPlugin` is the same plugin as the Go object,
 * whose `Init` updates the table in place; its methods are specified by the
 * functions the record is built from.
 */
module AuthExample {
  import opened Wrappers
  import opened Errors
  import opened Contexts
  import opened Meta
  import opened Api
  import opened Loader
  import opened Script

  type Users = map<string, string>

  /**
   * `json.Unmarshal` of the config blob into `{"users": {...}}`: the decoded
   * table (empty when the field is absent), or None when decoding fails.
   */
  type UsersDecoder = seq<byte> -> Option<Users>

  /** The values `Info` takes from the Go runtime and the clock. */
  datatype BuildEnv = BuildEnv(goVersion: string, buildTime: string)

  /** The table `NewPlugin` starts with. */
  const NoUsers: Users := map[]

  /** The two accounts `Init` always installs first. */
  const SeedUsers: Users := map["admin" := "secret", "guest" := "guest123"]

  const UnknownUserScore := 30
  const WrongPasswordScore := 50

  /** `Info`: name "auth_plugin", the host's own contract version, and no timeout of its own. */
  function Describe(env: BuildEnv): (m: PluginMeta)
    ensures m.name == "auth_plugin" && m.sdkVersion == SDKVersion
    ensures GetHookTimeout(m) == DefaultHookTimeout
    ensures Validate(m) == if SDKVersion == "" then Some(MissingSDKVersion) else None
  {
    PluginMeta(
      name := "auth_plugin",
      version := "1.0.0",
      sdkVersion := SDKVersion,
      goVersion := env.goVersion,
      buildTime := env.buildTime,
      hookTimeout := 0)
  }

  /** The config replaces the table when it is non-empty and decodes to a non-empty `users` map. */
  predicate Replaces(config: seq<byte>, decode: UsersDecoder) {
    |config| > 0 && decode(config).Some? && |decode(config).value| > 0
  }

  /** The table after `Init`: the configured one, or the old one with the two seed accounts written over it. */
  function InitUsers(users: Users, config: seq<byte>, decode: UsersDecoder): (u: Users)
    ensures Replaces(config, decode) ==> u == decode(config).value
    ensures !Replaces(config, decode) ==> u == users + SeedUsers
    ensures |u| > 0
  {
    var seeded := users["admin" := "secret"]["guest" := "guest123"];
    assert "admin" in seeded;
    if Replaces(config, decode) then decode(config).value else seeded
  }

  /** On a fresh instance, Init leaves exactly the seed accounts unless the config replaces them. */
  lemma InitFromNewPlugin(config: seq<byte>, decode: UsersDecoder)
    ensures InitUsers(NoUsers, config, decode) == if Replaces(config, decode) then decode(config).value else SeedUsers
  {
  }

  /** `OnAuth`: allow exactly a known user with the matching password; penalise the two rejections. */
  function Authenticate(users: Users, ctx: AuthContext): (d: Decision<Users>)
    ensures d.state == users && d.err == None
    ensures d.allow <==> ctx.username in users && users[ctx.username] == ctx.password
    ensures ctx.username !in users ==> d.threatScore == UnknownUserScore
    ensures ctx.username in users && users[ctx.username] != ctx.password ==> d.threatScore == WrongPasswordScore
    ensures d.allow ==> d.threatScore == ctx.threatScore
  {
    if ctx.username !in users then Decision(users, false, None, 30)
    else if ctx.password != users[ctx.username] then Decision(users, false, None, 50)
    else Decision(users, true, None, ctx.threatScore)
  }

  /** `OnSubscribe`: only "admin" may subscribe to a topic that starts with "$SYS". */
  function AuthorizeSubscribe(users: Users, ctx: SubscribeContext): (d: Decision<Users>)
    ensures !d.allow <==> "$SYS" <= ctx.topic && ctx.username != "admin"
    ensures d.state == users && d.err == None && d.threatScore == ctx.threatScore
  {
    if "$SYS" <= ctx.topic && ctx.username != "admin" then Decision(users, false, None, ctx.threatScore)
    else Decision(users, true, None, ctx.threatScore)
  }

  /** The plugin as the runner sees it. Publish and disconnect only log, and Close only logs. */
  function Hooks(decode: UsersDecoder, env: BuildEnv): (p: Plugin<Users>)
    ensures forall u :: p.info(u) == Describe(env)
    ensures forall u, c :: p.init(u, c) == Completion(InitUsers(u, c, decode), None)
    ensures forall u, ctx :: p.onAuth(u, ctx) == Authenticate(u, ctx)
    ensures forall u, ctx :: p.onSubscribe(u, ctx) == AuthorizeSubscribe(u, ctx)
    ensures forall u :: p.close(u) == Completion(u, None)
    ensures forall u, ctx :: p.onPublish(u, ctx) == u
    ensures forall u, ctx :: p.onDisconnect(u, ctx) == u
  {
    Plugin(
      info := (u: Users) => Describe(env),
      init := (u: Users, config: seq<byte>) => Completion(InitUsers(u, config, decode), None),
      close := (u: Users) => Completion(u, None),
      onAuth := Authenticate,
      onSubscribe := AuthorizeSubscribe,
      onPublish := (u: Users, ctx: PublishContext) => u,
      onDisconnect := (u: Users, ctx: DisconnectContext) => u)
  }

  /** What the runtime yields for the built module: `NewPlugin` gives an empty table. */
  function Artifact(decode: UsersDecoder, env: BuildEnv): (o: OpenOutcome<Users>)
    ensures o.Factory? && o.instance == NoUsers
    ensures InstanceMeta(o).name == "auth_plugin" && InstanceMeta(o).sdkVersion == SDKVersion
  {
    Factory(Hooks(decode, env), NoUsers)
  }

  /** The loader accepts the reference plugin whenever the host has a contract version at all. */
  lemma ArtifactLoads(decode: UsersDecoder, env: BuildEnv)
    ensures LoadPlugin(Artifact(decode, env)).Success? <==> SDKVersion != ""
    ensures SDKVersion != "" ==> LoadPlugin(Artifact(decode, env)).value == Loaded(Hooks(decode, env), NoUsers)
  {
  }

  /** An auth test case expecting the given decision and no particular error. */
  function AuthCase(name: string, username: string, password: string, allow: bool): TestCase {
    TestCase(name, "auth",
             CaseInput(Some(AuthContext("client", username, password, "", 0)), None, None, None),
             Expect(Some(allow), ""))
  }

  /**
   * A script with a correct login, a wrong password and a case for an unknown
   * hook reports two passes, no failure, and a skip.
   */
  lemma CredentialScript(decode: UsersDecoder, env: BuildEnv, users: Users,
                         user: string, good: string, bad: string, other: TestCase)
    requires user in users && users[user] == good && bad != good
    requires HookKindOf(other.hook) == None
    ensures var r := Replay(Hooks(decode, env), users,
                            [AuthCase("ok", user, good, true), AuthCase("bad", user, bad, false), other]).results;
            Passed(r) == 2 && Failed(r) == 0 && r[2].Skipped?
  {
    var p := Hooks(decode, env);
    var cases := [AuthCase("ok", user, good, true), AuthCase("bad", user, bad, false), other];
    var c0 := RunCase(p, users, cases[0]);
    var c1 := RunCase(p, users, cases[1]);
    assert c0 == CaseRun(users, Ran(AuthHook, true, None, true));
    assert c1 == CaseRun(users, Ran(AuthHook, false, None, true));
    assert cases[1..] == [cases[1], other] && cases[1..][1..] == [other];
    var last := Replay(p, users, [other]).results;
    assert last == [Skipped(other.hook)];
    var r := Replay(p, users, cases).results;
    assert Replay(p, users, cases[1..]).results == [c1.result] + last;
    assert r == [c0.result] + ([c1.result] + last);
    assert last[1..] == [];
    assert Passed(last) == Passed([]) == 0;
    assert Failed(last) == Failed([]) == 0;
    assert Passed([c1.result] + last) == 1 && Failed([c1.result] + last) == 0;
  }

  /** The Go object: the user table is a field that `Init` rewrites in place. */
  class AuthPlugin {
    var users: Users
    const decode: UsersDecoder
    const env: BuildEnv

    /** `NewPlugin`. */
    constructor (decode: UsersDecoder, env: BuildEnv)
      ensures users == NoUsers && this.decode == decode && this.env == env
    {
      users := map[];
      this.decode := decode;
      this.env := env;
    }

    function Info(): (m: PluginMeta)
      ensures m.name == "auth_plugin" && m.version == "1.0.0" && m.sdkVersion == SDKVersion
      ensures m.goVersion == env.goVersion && m.buildTime == env.buildTime
      ensures GetHookTimeout(m) == DefaultHookTimeout
    {
      Describe(env)
    }

    method Init(config: seq<byte>) returns (err: Option<PluginError>)
      modifies this
      ensures err == None
      ensures users == InitUsers(old(users), config, decode)
    {
      users := users["admin" := "secret"];
      users := users["guest" := "guest123"];
      if |config| > 0 {
        var cfg := decode(config);
        if cfg.Some? && |cfg.value| > 0 {
          users := cfg.value;
        }
      }
      return None;
    }

    /** Writes the penalty into the caller's context, returned here as `ctx'`. */
    method OnAuth(ctx: AuthContext) returns (ctx': AuthContext, allow: bool, err: Option<PluginError>)
      ensures var d := Authenticate(users, ctx);
              ctx' == AfterAuth(ctx, d) && allow == d.allow && err == d.err
    {
      ctx' := ctx;
      if ctx.username !in users {
        ctx' := ctx'.(threatScore := UnknownUserScore);
        return ctx', false, None;
      }
      var expectedPass := users[ctx.username];
      if ctx.password != expectedPass {
        ctx' := ctx'.(threatScore := WrongPasswordScore);
        return ctx', false, None;
      }
      return ctx', true, None;
    }

    method OnSubscribe(ctx: SubscribeContext) returns (allow: bool, err: Option<PluginError>)
      ensures allow == AuthorizeSubscribe(users, ctx).allow && err == None
    {
      if "$SYS" <= ctx.topic && ctx.username != "admin" {
        return false, None;
      }
      return true, None;
    }

    /** Only logs: the user table is left as it was. */
    method OnPublish(ctx: PublishContext)
      ensures users == old(users)
    {
    }

    /** Only logs: the user table is left as it was. */
    method OnDisconnect(ctx: DisconnectContext)
      ensures users == old(users)
    {
    }

    method Close() returns (err: Option<PluginError>)
      ensures err == None
    {
      return None;
    }
  }
}
