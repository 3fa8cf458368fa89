/** Plugin metadata: the compatibility check and the effective hook timeout. */
module Meta {
  import opened Wrappers
  import opened Errors

  /** Go's `time.Duration`: a signed 64-bit count of nanoseconds. */
  newtype Duration = x: int | -0x8000_0000_0000_0000 <= x < 0x8000_0000_0000_0000

  const Millisecond: Duration := 1_000_000
  const Second: Duration := 1_000_000_000

  const DefaultHookTimeout: Duration := 100 * Millisecond
  const MaxHookTimeout: Duration := 30 * Second

  /**
   * The contract version the host requires. Its value is fixed by the host
   * build and is not part of this model, so it is left abstract.
   */
  const SDKVersion: string

  datatype PluginMeta = PluginMeta(
    name: string,
    version: string,
    sdkVersion: string,
    goVersion: string,
    buildTime: string,
    hookTimeout: Duration)

  /** The timeout the host should apply to a hook: clamped into (0, MaxHookTimeout]. */
  function GetHookTimeout(m: PluginMeta): (d: Duration)
    ensures 0 < d <= MaxHookTimeout
    ensures m.hookTimeout <= 0 ==> d == DefaultHookTimeout
    ensures m.hookTimeout > MaxHookTimeout ==> d == MaxHookTimeout
    ensures 0 < m.hookTimeout <= MaxHookTimeout ==> d == m.hookTimeout
  {
    if m.hookTimeout <= 0 then DefaultHookTimeout
    else if m.hookTimeout > MaxHookTimeout then MaxHookTimeout
    else m.hookTimeout
  }

  /** Clamping twice is clamping once: an effective timeout is its own effective timeout. */
  lemma GetHookTimeoutIdempotent(m: PluginMeta)
    ensures GetHookTimeout(m.(hookTimeout := GetHookTimeout(m))) == GetHookTimeout(m)
  {
  }

  /** The compatibility check, in its fixed order: name, presence of the version, exact match. */
  function Validate(m: PluginMeta): (r: Option<PluginError>)
    ensures r == None <==> m.name != "" && m.sdkVersion != "" && m.sdkVersion == SDKVersion
    ensures m.name == "" ==> r == Some(InvalidPluginName)
    ensures m.name != "" && m.sdkVersion == "" ==> r == Some(MissingSDKVersion)
    ensures m.name != "" && m.sdkVersion != "" && m.sdkVersion != SDKVersion ==> r == Some(SDKVersionMismatch)
  {
    if m.name == "" then Some(InvalidPluginName)
    else if m.sdkVersion == "" then Some(MissingSDKVersion)
    else if m.sdkVersion != SDKVersion then Some(SDKVersionMismatch)
    else None
  }

  /** Only the name and the contract version decide validation; the other four fields never do. */
  lemma ValidateReadsOnlyNameAndVersion(m: PluginMeta, m': PluginMeta)
    requires m.name == m'.name && m.sdkVersion == m'.sdkVersion
    ensures Validate(m) == Validate(m')
  {
  }

  /** Validation only ever reports one of the three metadata errors. */
  lemma ValidateErrors(m: PluginMeta)
    ensures Validate(m) in {None, Some(InvalidPluginName), Some(MissingSDKVersion), Some(SDKVersionMismatch)}
  {
  }
}
