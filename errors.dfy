/** Every exception the core throws, one constructor per exception class
  * (and per framework exception the core lets through). */
module Errors {
  import opened Models

  datatype InvalidOperationReason =
    | NoCurrentState       // StateMachineManager.ApplyTransition before any state is set
    | MoreThanOneMatch     // Enumerable.SingleOrDefault over duplicate keys

  datatype Error =
    // StateMachineExceptions.cs
    | StateNotFound(stateKey: string, cause: Error)
    | BadState(stateKey: string)
    | TransitionNotFound(transitionKey: string)
    // HellScriptExceptions.cs
    | UnexpectedScriptType
    | RuntimeScript(fault: Fault)
    | ServiceAccessDenied(service: TypeName)
    // AssetExceptions.cs
    | AssetDescriptorNotFound(assetKey: string)
    | InvalidAssetType(assetKey: string, expected: AssetType, actual: AssetType)
    | AssetNotFound(assetKey: string, path: NullableString, locale: string)
    // VarsExceptions.cs
    | VarNotFound(varKey: string)
    | VarAlreadyExists(varKey: string)
    // framework exceptions the core throws or lets through
    | InvalidOperation(reason: InvalidOperationReason)
    | Argument(param: string)
    | ArgumentNull(param: string)
    | ArgumentOutOfRange(param: string)
    | NullReference
    | InvalidCast
    | NotSupported
    | ObjectDisposed
    | ScriptCompilation(diagnostics: string)
    | JsonSerialization
    | Base64Format
  {
    /** The AssetException family, which the state-machine data service translates. */
    predicate IsAssetException()
    {
      AssetDescriptorNotFound? || InvalidAssetType? || AssetNotFound?
    }
  }
}
