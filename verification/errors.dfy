/** The sentinel errors of the plugin SDK, and the errors a plugin may return itself. */
module Errors {

  datatype PluginError =
    // metadata validation
    | InvalidPluginName
    | MissingSDKVersion
    | SDKVersionMismatch
    | GoVersionMismatch
    // loading
    | PluginNotFound
    | MetaNotFound
    | SymbolNotFound
    | InvalidPluginType
    | PluginInitFailed
    | PluginAlreadyExist
    // the runner's wrapping of a failed module open ("failed to open plugin: %w")
    | OpenFailed(cause: string)
    // any error value created by plugin code
    | Custom(message: string)

  /** The text `err.Error()` yields. */
  function Message(e: PluginError): (r: string)
    ensures IsSentinel(e) ==> r != ""
    // `%w` keeps the cause's text after the wrapping prefix
    ensures e.OpenFailed? ==> "failed to open plugin: " <= r && r[|"failed to open plugin: "|..] == e.cause
    ensures e.Custom? ==> r == e.message
  {
    match e
    case InvalidPluginName => "plugin name is empty"
    case MissingSDKVersion => "sdk version is missing"
    case SDKVersionMismatch => "sdk version mismatch between plugin and host"
    case GoVersionMismatch => "go version mismatch between plugin and host"
    case PluginNotFound => "plugin file not found"
    case MetaNotFound => "plugin meta file not found"
    case SymbolNotFound => "plugin does not export 'NewPlugin' symbol"
    case InvalidPluginType => "plugin symbol is not of type func() Plugin"
    case PluginInitFailed => "plugin initialization failed"
    case PluginAlreadyExist => "plugin with same name already loaded"
    case OpenFailed(cause) => "failed to open plugin: " + cause
    case Custom(message) => message
  }

  /** One of the ten errors the SDK declares. */
  predicate IsSentinel(e: PluginError) {
    !e.OpenFailed? && !e.Custom?
  }

  /** No two of the declared errors read the same. */
  lemma SentinelMessagesDistinct(a: PluginError, b: PluginError)
    requires IsSentinel(a) && IsSentinel(b) && a != b
    ensures Message(a) != Message(b)
  {
  }
}
