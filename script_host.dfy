/** ScriptHost: creates HellScripts from code and runs them for a session. Compilation
  * and execution belong to the scripting library and are parameters of the host:
  * `compile` maps code and context type to an opaque script, and `execute` maps a
  * script and the context it sees to the fault it raised (if any) and the Output the
  * context holds when it finishes. */
module Scripting {
  import opened Wrappers
  import opened Models
  import opened Errors
  import opened Sessions
  import opened ScriptServices
  import opened HellScripts

  /** What a script sees of its context. */
  datatype ScriptRun = ScriptRun(scriptName: string, sessionId: Guid, input: Option<ScriptInput>)

  /** The ScriptState a run ends in: the captured exception and the context's Output. */
  datatype Execution = Execution(fault: Option<Fault>, output: Option<OnTransitionOutput>)

  type Executor = (CompiledScript, ScriptRun) -> Execution

  /** The view of the context that RunScript builds for `script` in `sessionId`. */
  function RunView(script: HellScript, sessionId: Guid, expected: ContextType, input: Option<ScriptInput>): ScriptRun
  {
    ScriptRun(script.name, sessionId, ContextInput(expected, input))
  }

  /** The result of RunScript for a script of context type `expected`: the context's
    * argument checks, then the context-type check, then the run, whose fault becomes a
    * RuntimeScriptException; the input-and-output shape returns the context's Output. */
  function RunOutcome(script: HellScript, expected: ContextType, sessionId: Guid, input: Option<ScriptInput>,
                      execute: Executor): (r: Result<Option<OnTransitionOutput>, Error>)
    ensures ContextCheck(Some(script.name), Some(ScriptLogger), expected, input).Pass? && script.contextType != expected ==>
      r == Failure(UnexpectedScriptType)
    ensures r.Success? ==>
      script.contextType == expected && execute(script.script, RunView(script, sessionId, expected, input)).fault.None?
    ensures r.Success? && r.value.Some? ==>
      expected.InputOutputContext? && r.value == execute(script.script, RunView(script, sessionId, expected, input)).output
  {
    match ContextCheck(Some(script.name), Some(ScriptLogger), expected, input)
    case Fail(e) => Failure(e)
    case Pass =>
      if script.contextType != expected then Failure(UnexpectedScriptType)
      else
        var run := execute(script.script, RunView(script, sessionId, expected, input));
        if run.fault.Some? then Failure(RuntimeScript(run.fault.value))
        else Success(if expected.InputOutputContext? then run.output else None)
  }

  /** A script of another context type is refused with UnexpectedScriptType before it
    * runs: what the executor would do makes no difference. A null input is refused
    * first, as the context is built before the check. */
  lemma WrongContextTypeNeverRuns(script: HellScript, expected: ContextType, sessionId: Guid,
                                  input: Option<ScriptInput>, execute: Executor, other: Executor)
    requires script.name != "" && script.contextType != expected
    ensures RunOutcome(script, expected, sessionId, input, execute) == RunOutcome(script, expected, sessionId, input, other)
    ensures expected.PlainContext? || input.Some? ==>
      RunOutcome(script, expected, sessionId, input, execute) == Failure(UnexpectedScriptType)
    ensures !expected.PlainContext? && input.None? ==>
      RunOutcome(script, expected, sessionId, input, execute) == Failure(ArgumentNull("input"))
  {
  }

  /** A run that raises a fault fails with RuntimeScriptException wrapping that fault;
    * one that does not succeeds, with the context's Output for the input-and-output
    * shape and no value for the others. */
  lemma RunResultOfMatchingScript(script: HellScript, expected: ContextType, sessionId: Guid,
                                  input: Option<ScriptInput>, execute: Executor)
    requires script.name != "" && script.contextType == expected
    requires expected.PlainContext? || input.Some?
    ensures var run := execute(script.script, RunView(script, sessionId, expected, input));
      && (run.fault.Some? ==> RunOutcome(script, expected, sessionId, input, execute) == Failure(RuntimeScript(run.fault.value)))
      && (run.fault.None? && expected.InputOutputContext? ==>
            RunOutcome(script, expected, sessionId, input, execute) == Success(run.output))
      && (run.fault.None? && !expected.InputOutputContext? ==>
            RunOutcome(script, expected, sessionId, input, execute) == Success(None))
  {
  }

  /** The script sees its own name, the requested session and, for the input-carrying
    * shapes, the input unchanged. */
  lemma RunViewCarriesNameSessionInput(script: HellScript, sessionId: Guid, expected: ContextType, input: Option<ScriptInput>)
    ensures RunView(script, sessionId, expected, input).scriptName == script.name
    ensures RunView(script, sessionId, expected, input).sessionId == sessionId
    ensures !expected.PlainContext? ==> RunView(script, sessionId, expected, input).input == input
    ensures expected.PlainContext? ==> RunView(script, sessionId, expected, input).input.None?
  {
  }

  class ScriptHost {
    const sessionManager: SessionManager
    /** CSharpScript.Create for the given globals type. */
    const compile: (string, ContextType) -> CompiledScript
    /** Script<object>.RunAsync with every exception captured. */
    const execute: Executor
    /** The root service provider's lookup, which each new scope starts from. */
    const rootServices: TypeName -> Option<ServiceRef>
    /** The types carrying SdkUtilServiceAttribute. */
    const sdkUtilTypes: set<TypeName>
    /** Every provider a run has made, in order. */
    ghost var providers: seq<SdkUtilServiceProvider>

    constructor(sessionManager: SessionManager, compile: (string, ContextType) -> CompiledScript, execute: Executor,
                rootServices: TypeName -> Option<ServiceRef>, sdkUtilTypes: set<TypeName>)
      ensures this.sessionManager == sessionManager && this.compile == compile && this.execute == execute
      ensures this.rootServices == rootServices && this.sdkUtilTypes == sdkUtilTypes
      ensures providers == []
    {
      this.sessionManager := sessionManager;
      this.compile := compile;
      this.execute := execute;
      this.rootServices := rootServices;
      this.sdkUtilTypes := sdkUtilTypes;
      providers := [];
    }

    /** CreateScript, every overload: the script compiled for the context type, under the
      * given name; a null or empty name is refused by the HellScript constructor. */
    function CreateScript(name: NullableString, code: string, contextType: ContextType): (r: Result<HellScript, Error>)
      ensures r.Success? <==> !IsNullOrEmpty(name)
      ensures IsNullOrEmpty(name) ==> r == Failure(Argument("name"))
      ensures r.Success? ==>
        && r.value.name == name.value && r.value.contextType == contextType
        && r.value.script == compile(code, contextType)
    {
      NewHellScript(name, Some(compile(code, contextType)), contextType)
    }

    /** MakeSdkUtilServiceProvider: a provider over a fresh scope of the root services. */
    method MakeSdkUtilServiceProvider() returns (provider: SdkUtilServiceProvider)
      ensures fresh(provider) && fresh(provider.scope)
      ensures provider.scope.resolve == rootServices && !provider.scope.disposed
      ensures provider.marked == sdkUtilTypes
    {
      var scope := new DiScope(rootServices);
      provider := new SdkUtilServiceProvider(scope, sdkUtilTypes);
    }

    /** RunScript, every overload, `expected` being the overload's context type: a new
      * provider, the session (which stamps it), the context, the private RunScript,
      * and the provider disposed on every way out. */
    method RunScript(script: HellScript, expected: ContextType, sessionId: Guid, now: Ticks, input: Option<ScriptInput>)
      returns (r: Result<Option<OnTransitionOutput>, Error>)
      requires script.name != ""
      requires sessionManager.Valid()
      modifies this, sessionManager
      ensures r == RunOutcome(script, expected, sessionId, input, execute)
      ensures |providers| == |old(providers)| + 1 && providers[..|old(providers)|] == old(providers)
      ensures var provider := providers[|old(providers)|];
        fresh(provider) && fresh(provider.scope) && provider.scope.disposed && provider.marked == sdkUtilTypes
      ensures sessionId in sessionManager.sessions
      ensures sessionManager.sessions
           == Touch(old(sessionManager.sessions), sessionId, sessionManager.sessions[sessionId].scope, now)
      ensures sessionManager.Valid()
    {
      var provider := MakeSdkUtilServiceProvider();
      providers := providers + [provider];
      var session := sessionManager.GetSession(sessionId, now);
      r := RunWithProvider(script, expected, session, provider, input);
    }

    /** The part of RunScript after the session lookup: the context, the private
      * RunScript, and the provider disposed on every way out. */
    method RunWithProvider(script: HellScript, expected: ContextType, session: Session,
                           provider: SdkUtilServiceProvider, input: Option<ScriptInput>)
      returns (r: Result<Option<OnTransitionOutput>, Error>)
      requires script.name != ""
      modifies provider.scope
      ensures r == RunOutcome(script, expected, session.id, input, execute)
      ensures provider.scope.disposed
    {
      var made := NewContext(Some(script.name), Some(ScriptLogger), session, provider, expected, input);
      if made.Failure? {
        provider.Dispose();
        return Failure(made.error);
      }
      var context := made.value;
      var outcome := RunInContext(script, context);
      provider.Dispose();
      if outcome.Fail? {
        return Failure(outcome.error);
      }
      r := Success(if expected.InputOutputContext? then context.output else None);
    }

    /** The private RunScript<THellScriptContext>: the context-type check, then the run,
      * whose Output is left in the context and whose fault is wrapped. */
    method RunInContext(script: HellScript, context: HellScriptContext) returns (outcome: Outcome<Error>)
      modifies context
      ensures script.contextType != context.contextType ==>
        outcome == Fail(UnexpectedScriptType) && context.output == old(context.output)
      ensures script.contextType == context.contextType ==>
        var run := execute(script.script, ScriptRun(context.scriptName, context.session.id, context.input));
        && context.output == run.output
        && (run.fault.Some? ==> outcome == Fail(RuntimeScript(run.fault.value)))
        && (run.fault.None? ==> outcome == Pass)
    {
      if script.contextType != context.contextType {
        return Fail(UnexpectedScriptType);
      }
      var run := execute(script.script, ScriptRun(context.scriptName, context.session.id, context.input));
      context.output := run.output;
      if run.fault.Some? {
        return Fail(RuntimeScript(run.fault.value));
      }
      return Pass;
    }
  }
}
