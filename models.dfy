/** Value types shared by the engine's services: the state-machine records,
  * asset descriptors, script inputs and outputs, and the configured defaults. */
module Models {
  import opened Wrappers

  /** A C# string reference; None is null. */
  type NullableString = Option<string>

  /** string.IsNullOrEmpty */
  predicate IsNullOrEmpty(s: NullableString)
  {
    s.None? || s.value == ""
  }

  /** The string a C# concatenation or StringBuilder uses for the reference: null reads as "". */
  function OrEmpty(s: NullableString): string
  {
    if s.Some? then s.value else ""
  }

  newtype byte = b: int | 0 <= b < 256

  /** A System.Guid, as its 128-bit value. */
  type Guid = g: int | 0 <= g < 0x1_0000_0000_0000_0000_0000_0000_0000_0000

  /** Guid.Empty */
  const EmptyGuid: Guid := 0

  newtype int32 = x: int | -0x8000_0000 <= x < 0x8000_0000

  newtype uint32 = x: int | 0 <= x < 0x1_0000_0000

  /** Time as a count of 100-nanosecond ticks, the unit of DateTime and TimeSpan. */
  type Ticks = int

  const TicksPerMillisecond: int := 10_000

  /** Values of Constants/Defaults.cs. */
  const DefaultLocale: string := "default"
  const EngineDirectorySeparator: char := '/'
  const DefaultAssetsDir: string := "assets"
  const AssetsDataDir: string := "data"
  const DefaultVarValueSpanClass: string := "var-value"
  const DefaultInitialStateKey: string := "common.state.initial"
  const DefaultFinalStateKey: string := "common.state.final"
  const DefaultUserNameVarKey: string := "common.userName"
  const DefaultUserNameVarNameAssetKey: string := "common.vars.userName"

  /** The character class [a-zA-Z0-9\.\-_] shared by the var-placeholder and user-name patterns. */
  predicate IsKeyChar(c: char)
  {
    ('a' <= c <= 'z') || ('A' <= c <= 'Z') || ('0' <= c <= '9') || c == '.' || c == '-' || c == '_'
  }

  datatype Transition = Transition(
    key: string,
    textAssetKey: NullableString,
    nextStateKey: string,
    isEnabled: bool := true,
    isVisible: bool := true)

  /** A state as stored in a state asset; the transition list is null when the JSON omits it. */
  datatype State = State(
    key: string,
    textAssetKey: NullableString,
    imageAssetKey: NullableString,
    onEnterScriptAssetKey: NullableString,
    onLeaveScriptAssetKey: NullableString,
    onTransitionScriptAssetKey: NullableString,
    transitions: Option<seq<Transition>>)

  datatype OnTransitionOutput = OnTransitionOutput(nextStateKeyOverride: NullableString)

  /** The input objects handed to the three state hooks. */
  datatype ScriptInput =
    | OnStateEnterInput(state: State)
    | OnStateLeaveInput(state: State)
    | OnTransitionInput(state: State, transition: Transition)

  /** AssetType; a C# enum may hold a value outside its named members. */
  datatype AssetType = TextAsset | ImageAsset | StateAsset | ScriptAsset | UndefinedAssetType(code: int)

  /** AssetDataEncoding, open in the same way. */
  datatype AssetDataEncoding = StringEncoding | Base64Encoding | UndefinedEncoding(code: int)

  datatype AssetDescriptor = AssetDescriptor(
    key: string,
    assetType: AssetType,
    assetPath: NullableString,
    mediaType: NullableString,
    sourceUrl: NullableString)

  /** The configured text encoding (StringEncoder), seen only through its two conversions. */
  datatype StringCodec = StringCodec(toText: seq<byte> -> string, fromText: string -> seq<byte>)

  /** The identity of a service type that scripts may ask a provider for. */
  type TypeName = string

  /** An exception raised inside script code, kept as its type and message. */
  datatype Fault = Fault(typeName: string, message: string)
}
