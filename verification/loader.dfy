/**
 * The runner's `loadPlugin`: open the module, look up `NewPlugin`, check its
 * signature, build the instance and validate its metadata. Opening and symbol
 * lookup belong to the Go runtime, so their outcome is given as an input.
 */
module Loader {
  import opened Wrappers
  import opened Errors
  import opened Meta
  import opened Api

  /** What the runtime's open / lookup / type assertion produced for a path. */
  datatype OpenOutcome<!S> =
    | OpenError(cause: string)     // plugin.Open failed
    | NoSymbol                     // Lookup("NewPlugin") failed
    | WrongType                    // the symbol is not `func() Plugin`
    | Factory(plugin: Plugin<S>, instance: S)   // what calling NewPlugin() yields

  datatype Loaded<!S> = Loaded(plugin: Plugin<S>, state: S)

  /** The metadata the freshly built instance reports through `Info`. */
  function InstanceMeta<S>(o: OpenOutcome<S>): PluginMeta
    requires o.Factory?
  {
    o.plugin.info(o.instance)
  }

  /** The four steps, each of which can stop the load with its own error. */
  function LoadPlugin<S>(o: OpenOutcome<S>): (r: Result<Loaded<S>, PluginError>)
    ensures o.OpenError? ==> r == Failure(OpenFailed(o.cause))
    ensures o.NoSymbol? ==> r == Failure(SymbolNotFound)
    ensures o.WrongType? ==> r == Failure(InvalidPluginType)
    ensures o.Factory? && Validate(InstanceMeta(o)).Some? ==> r == Failure(Validate(InstanceMeta(o)).value)
    ensures r.Success? <==> o.Factory? && Validate(InstanceMeta(o)) == None
    ensures r.Success? ==> r.value == Loaded(o.plugin, o.instance)
  {
    match o
    case OpenError(cause) => Failure(OpenFailed(cause))
    case NoSymbol => Failure(SymbolNotFound)
    case WrongType => Failure(InvalidPluginType)
    case Factory(plugin, instance) =>
      var err := Validate(plugin.info(instance));
      if err.Some? then Failure(err.value) else Success(Loaded(plugin, instance))
  }

  /** A loaded plugin always reports a non-empty name and exactly the host's contract version. */
  lemma LoadedIsCompatible<S>(o: OpenOutcome<S>)
    requires LoadPlugin(o).Success?
    ensures InstanceMeta(o).name != ""
    ensures InstanceMeta(o).sdkVersion == SDKVersion
  {
  }

  /** A load error is the open wrapper, one of the two lookup errors, or a metadata error. */
  lemma LoadErrors<S>(o: OpenOutcome<S>)
    requires LoadPlugin(o).Failure?
    ensures var e := LoadPlugin(o).error;
      e.OpenFailed? || e in {SymbolNotFound, InvalidPluginType, InvalidPluginName, MissingSDKVersion, SDKVersionMismatch}
  {
  }
}
