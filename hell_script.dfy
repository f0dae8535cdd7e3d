/** HellScript and HellScriptContext: a compiled script with the context type it runs
  * against, and the context object a run hands to it. The three generic context
  * classes become the three cases of ContextType; the input and output values are the
  * state-machine hook inputs and the OnTransition output. */
module HellScripts {
  import opened Wrappers
  import opened Models
  import opened Errors
  import opened Sessions
  import opened ScriptServices

  /** The compiled Roslyn script, kept opaque: the code and the globals type it was
    * compiled for. */
  datatype CompiledScript = CompiledScript(code: string, globals: ContextType)

  /** THellScriptContext: HellScriptContext, HellScriptContext<TInput> or
    * HellScriptContext<TInput, TOutput>. */
  datatype ContextType =
    | PlainContext
    | InputContext(inputType: TypeName)
    | InputOutputContext(inputType: TypeName, outputType: TypeName)

  /** HellScript<THellScriptContext>; ContextType is the type argument it was made with. */
  datatype HellScript = HellScript(name: string, script: CompiledScript, contextType: ContextType)

  /** The ILogger<HellScriptContext> a context is given. */
  datatype ScriptLogger = ScriptLogger

  /** The HellScript constructor: the name is checked first (null or empty is an
    * ArgumentException), then the script (null is an ArgumentNullException). */
  function NewHellScript(name: NullableString, script: Option<CompiledScript>, contextType: ContextType)
    : (r: Result<HellScript, Error>)
    ensures r.Success? <==> !IsNullOrEmpty(name) && script.Some?
    ensures IsNullOrEmpty(name) ==> r == Failure(Argument("name"))
    ensures !IsNullOrEmpty(name) && script.None? ==> r == Failure(ArgumentNull("script"))
    ensures r.Success? ==>
      r.value.name == name.value && r.value.script == script.value && r.value.contextType == contextType
  {
    if IsNullOrEmpty(name) then Failure(Argument("name"))
    else if script.None? then Failure(ArgumentNull("script"))
    else Success(HellScript(name.value, script.value, contextType))
  }

  /** The checks of the three context constructors, in order: the script name (null or
    * empty is an ArgumentException), the logger (null is an ArgumentNullException), and
    * for the input-carrying shapes the input (null is an ArgumentNullException). */
  function ContextCheck(scriptName: NullableString, logger: Option<ScriptLogger>, contextType: ContextType,
                        input: Option<ScriptInput>): (r: Outcome<Error>)
    ensures r.Pass? <==> !IsNullOrEmpty(scriptName) && logger.Some? && (contextType.PlainContext? || input.Some?)
    ensures IsNullOrEmpty(scriptName) ==> r == Fail(Argument("scriptName"))
    ensures !IsNullOrEmpty(scriptName) && logger.None? ==> r == Fail(ArgumentNull("logger"))
    ensures !IsNullOrEmpty(scriptName) && logger.Some? && !contextType.PlainContext? && input.None? ==>
      r == Fail(ArgumentNull("input"))
  {
    if IsNullOrEmpty(scriptName) then Fail(Argument("scriptName"))
    else if logger.None? then Fail(ArgumentNull("logger"))
    else if !contextType.PlainContext? && input.None? then Fail(ArgumentNull("input"))
    else Pass
  }

  /** The input a context of the given shape carries: none for the plain shape. */
  function ContextInput(contextType: ContextType, input: Option<ScriptInput>): (r: Option<ScriptInput>)
    ensures contextType.PlainContext? ==> r.None?
    ensures !contextType.PlainContext? ==> r == input
  {
    if contextType.PlainContext? then None else input
  }

  class HellScriptContext {
    const scriptName: string
    const logger: ScriptLogger
    const session: Session
    const utilServiceProvider: SdkUtilServiceProvider
    const contextType: ContextType
    /** Input of HellScriptContext<TInput> and <TInput, TOutput>; None for the plain shape. */
    const input: Option<ScriptInput>
    /** Output of HellScriptContext<TInput, TOutput>: unset until the script assigns it. */
    var output: Option<OnTransitionOutput>

    constructor(scriptName: string, logger: ScriptLogger, session: Session,
                utilServiceProvider: SdkUtilServiceProvider, contextType: ContextType, input: Option<ScriptInput>)
      requires ContextCheck(Some(scriptName), Some(logger), contextType, input).Pass?
      ensures this.scriptName == scriptName && this.logger == logger
      ensures this.session == session && this.utilServiceProvider == utilServiceProvider
      ensures this.contextType == contextType && this.input == ContextInput(contextType, input)
      ensures output.None?
    {
      this.scriptName := scriptName;
      this.logger := logger;
      this.session := session;
      this.utilServiceProvider := utilServiceProvider;
      this.contextType := contextType;
      this.input := ContextInput(contextType, input);
      output := None;
    }
  }

  /** `new HellScriptContext...(...)` with its argument checks: the checks' error, or a
    * fresh context holding the arguments unchanged. */
  method NewContext(scriptName: NullableString, logger: Option<ScriptLogger>, session: Session,
                    utilServiceProvider: SdkUtilServiceProvider, contextType: ContextType, input: Option<ScriptInput>)
    returns (r: Result<HellScriptContext, Error>)
    ensures ContextCheck(scriptName, logger, contextType, input).Fail? ==>
      r == Failure(ContextCheck(scriptName, logger, contextType, input).error)
    ensures ContextCheck(scriptName, logger, contextType, input).Pass? ==>
      && r.Success? && fresh(r.value)
      && r.value.scriptName == scriptName.value && r.value.logger == logger.value
      && r.value.session == session && r.value.utilServiceProvider == utilServiceProvider
      && r.value.contextType == contextType && r.value.input == ContextInput(contextType, input)
      && r.value.output.None?
  {
    var check := ContextCheck(scriptName, logger, contextType, input);
    if check.Fail? {
      return Failure(check.error);
    }
    var context := new HellScriptContext(scriptName.value, logger.value, session, utilServiceProvider, contextType, input);
    return Success(context);
  }
}
