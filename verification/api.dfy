/**
 * The capability contract every plugin satisfies. A plugin is modelled as the
 * record of its seven operations over a state type `S` that the plugin chooses.
 * Six of them take the current state and return the next one; `info` only
 * reads it.
 *
 * - Decision hooks (`onAuth`, `onSubscribe`) return the allow decision, an
 *   optional error and the value the hook leaves in `ThreatScore`, the one
 *   writable field of their context.
 * - Notification hooks (`onPublish`, `onDisconnect`) return only the next state,
 *   so they cannot alter their context or any outcome.
 */
module Api {
  import opened Wrappers
  import opened Errors
  import opened Contexts
  import opened Meta

  /** What a decision hook returns: `(allow bool, err error)` and the context's new ThreatScore. */
  datatype Decision<S> = Decision(state: S, allow: bool, err: Option<PluginError>, threatScore: int)

  /** What `Init` and `Close` return: an optional error. */
  datatype Completion<S> = Completion(state: S, err: Option<PluginError>)

  datatype Plugin<!S> = Plugin(
    info: S -> PluginMeta,
    init: (S, seq<byte>) -> Completion<S>,
    close: S -> Completion<S>,
    onAuth: (S, AuthContext) -> Decision<S>,
    onSubscribe: (S, SubscribeContext) -> Decision<S>,
    onPublish: (S, PublishContext) -> S,
    onDisconnect: (S, DisconnectContext) -> S)

  /** The four event hooks, by the names the runner uses for them. */
  datatype HookKind = AuthHook | SubscribeHook | PublishHook | DisconnectHook

  function HookKindOf(name: string): (k: Option<HookKind>)
    ensures k == Some(AuthHook) <==> name == "auth"
    ensures k == Some(SubscribeHook) <==> name == "subscribe"
    ensures k == Some(PublishHook) <==> name == "publish"
    ensures k == Some(DisconnectHook) <==> name == "disconnect"
  {
    if name == "auth" then Some(AuthHook)
    else if name == "subscribe" then Some(SubscribeHook)
    else if name == "publish" then Some(PublishHook)
    else if name == "disconnect" then Some(DisconnectHook)
    else None
  }

  /** The context after a decision hook has run: only ThreatScore can differ. */
  function AfterAuth<S>(ctx: AuthContext, d: Decision<S>): AuthContext {
    ctx.(threatScore := d.threatScore)
  }

  function AfterSubscribe<S>(ctx: SubscribeContext, d: Decision<S>): SubscribeContext {
    ctx.(threatScore := d.threatScore)
  }

  // BasePlugin's defaults.

  function BaseOnAuth<S>(s: S, ctx: AuthContext): Decision<S> {
    Decision(s, true, None, ctx.threatScore)
  }

  function BaseOnSubscribe<S>(s: S, ctx: SubscribeContext): Decision<S> {
    Decision(s, true, None, ctx.threatScore)
  }

  function BaseOnPublish<S>(s: S, ctx: PublishContext): S {
    s
  }

  function BaseOnDisconnect<S>(s: S, ctx: DisconnectContext): S {
    s
  }

  function BaseClose<S>(s: S): Completion<S> {
    Completion(s, None)
  }

  /**
   * A plugin that embeds BasePlugin and overrides nothing. BasePlugin has no
   * `Info` and no `Init`, so the embedding plugin must supply both.
   */
  function WithBase<S(!new)>(info: S -> PluginMeta, init: (S, seq<byte>) -> Completion<S>): (p: Plugin<S>)
    ensures p.info == info && p.init == init
    ensures forall s, ctx :: p.onAuth(s, ctx).allow && p.onAuth(s, ctx).err == None
    ensures forall s, ctx :: p.onAuth(s, ctx).state == s && AfterAuth(ctx, p.onAuth(s, ctx)) == ctx
    ensures forall s, ctx :: p.onSubscribe(s, ctx).allow && p.onSubscribe(s, ctx).err == None
    ensures forall s, ctx :: p.onSubscribe(s, ctx).state == s && AfterSubscribe(ctx, p.onSubscribe(s, ctx)) == ctx
    ensures forall s, ctx :: p.onPublish(s, ctx) == s
    ensures forall s, ctx :: p.onDisconnect(s, ctx) == s
    ensures forall s :: p.close(s) == Completion(s, None)
  {
    Plugin(info, init, BaseClose, BaseOnAuth, BaseOnSubscribe, BaseOnPublish, BaseOnDisconnect)
  }
}
