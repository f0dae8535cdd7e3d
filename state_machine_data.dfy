/** StateMachineManagerDataService: loads states from state assets and runs the three
  * state hooks (OnEnter, OnLeave, OnTransition) as scripts named by their asset keys.
  * Its collaborators are values here: the asset reads (asset lookup plus JSON
  * deserialisation) are functions of key and locale, and a hook script is created and
  * run as ScriptHost does it, with the host's compiler and executor. */
module StateMachineData {
  import opened Wrappers
  import opened Models
  import opened Errors
  import opened HellScripts
  import opened Scripting

  /** The context types of the three hook scripts (Services/StateMachine/Scripts). */
  const EnterContext: ContextType := InputContext("OnStateEnterInput")
  const LeaveContext: ContextType := InputContext("OnStateLeaveInput")
  const TransitionContext: ContextType := InputOutputContext("OnTransitionInput", "OnTransitionOutput")

  /** What reading a state asset and deserialising its data gives: a state (None for a
    * JSON `null`), the exception the asset read threw, or a JSON exception. */
  datatype StateRead =
    | ParsedState(state: Option<State>)
    | AssetReadFailed(error: Error)
    | JsonReaderFailed
    | JsonSerializationFailed

  /** One session scope's data service: the scope's session id and locale, the state and
    * script asset reads for a key and a locale, and the script host's compiler and
    * executor. */
  datatype DataService = DataService(
    sessionId: Guid,
    locale: string,
    readState: (string, string) -> StateRead,
    readScript: (string, string) -> Result<string, Error>,
    compile: (string, ContextType) -> CompiledScript,
    execute: Executor)

  /** A hook script run: the script (named by its asset key), its context type, the
    * session it runs in and its input. */
  datatype HookRun = HookRun(scriptKey: string, contextType: ContextType, sessionId: Guid, input: ScriptInput)

  /** LoadState: the state read for `key` in the scope's locale, with an AssetException
    * reported as StateNotFound (wrapping it) and a JsonReaderException as BadState; any
    * other exception passes through. */
  function LoadState(ds: DataService, key: string): (r: Result<Option<State>, Error>)
    ensures r.Success? <==> ds.readState(key, ds.locale).ParsedState?
    ensures r.Success? ==> r.value == ds.readState(key, ds.locale).state
    ensures ds.readState(key, ds.locale).AssetReadFailed? ==>
      var e := ds.readState(key, ds.locale).error;
      r == Failure(if e.IsAssetException() then StateNotFound(key, e) else e)
    ensures ds.readState(key, ds.locale).JsonReaderFailed? ==> r == Failure(BadState(key))
    ensures ds.readState(key, ds.locale).JsonSerializationFailed? ==> r == Failure(JsonSerialization)
  {
    match ds.readState(key, ds.locale)
    case ParsedState(state) => Success(state)
    case AssetReadFailed(e) => if e.IsAssetException() then Failure(StateNotFound(key, e)) else Failure(e)
    case JsonReaderFailed => Failure(BadState(key))
    case JsonSerializationFailed => Failure(JsonSerialization)
  }

  /** The hook run for a script asset key, if any: none for a null or empty key. */
  function Hook(ds: DataService, scriptKey: NullableString, contextType: ContextType, input: ScriptInput): Option<HookRun>
  {
    if IsNullOrEmpty(scriptKey) then None else Some(HookRun(scriptKey.value, contextType, ds.sessionId, input))
  }

  function EnterHook(ds: DataService, state: State): Option<HookRun>
  {
    Hook(ds, state.onEnterScriptAssetKey, EnterContext, OnStateEnterInput(state))
  }

  function LeaveHook(ds: DataService, state: State): Option<HookRun>
  {
    Hook(ds, state.onLeaveScriptAssetKey, LeaveContext, OnStateLeaveInput(state))
  }

  function TransitionHook(ds: DataService, state: State, transition: Transition): Option<HookRun>
  {
    Hook(ds, state.onTransitionScriptAssetKey, TransitionContext, OnTransitionInput(state, transition))
  }

  /** ScriptHost.CreateScript then ScriptHost.RunScript of a hook, given the script code. */
  function RunHook(ds: DataService, hook: HookRun, code: string): Result<Option<OnTransitionOutput>, Error>
  {
    match NewHellScript(Some(hook.scriptKey), Some(ds.compile(code, hook.contextType)), hook.contextType)
    case Failure(e) => Failure(e)
    case Success(script) => RunOutcome(script, hook.contextType, hook.sessionId, Some(hook.input), ds.execute)
  }

  /** A hook, if there is one: its script asset read in the scope's locale, then the run. */
  function RunOptionalHook(ds: DataService, hook: Option<HookRun>): Result<Option<OnTransitionOutput>, Error>
  {
    match hook
    case None => Success(None)
    case Some(h) =>
      match ds.readScript(h.scriptKey, ds.locale)
      case Failure(e) => Failure(e)
      case Success(code) => RunHook(ds, h, code)
  }

  function Discard(r: Result<Option<OnTransitionOutput>, Error>): Outcome<Error>
  {
    if r.Failure? then Fail(r.error) else Pass
  }

  /** RunOnEnterStateScript: nothing for a null or empty OnEnter key; otherwise the
    * script asset of that key read in the scope's locale, then run under that name, in
    * the scope's session, with the state as input. */
  function RunOnEnterStateScript(ds: DataService, state: State): (r: Outcome<Error>)
    ensures IsNullOrEmpty(state.onEnterScriptAssetKey) ==> r == Pass
    ensures !IsNullOrEmpty(state.onEnterScriptAssetKey) ==>
      var key := state.onEnterScriptAssetKey.value;
      && (ds.readScript(key, ds.locale).Failure? ==> r == Fail(ds.readScript(key, ds.locale).error))
      && (ds.readScript(key, ds.locale).Success? ==>
            r == Discard(RunHook(ds, HookRun(key, EnterContext, ds.sessionId, OnStateEnterInput(state)),
                                 ds.readScript(key, ds.locale).value)))
  {
    Discard(RunOptionalHook(ds, EnterHook(ds, state)))
  }

  /** RunOnLeaveStateScript: as RunOnEnterStateScript, with the OnLeave key. */
  function RunOnLeaveStateScript(ds: DataService, state: State): (r: Outcome<Error>)
    ensures IsNullOrEmpty(state.onLeaveScriptAssetKey) ==> r == Pass
    ensures !IsNullOrEmpty(state.onLeaveScriptAssetKey) ==>
      var key := state.onLeaveScriptAssetKey.value;
      && (ds.readScript(key, ds.locale).Failure? ==> r == Fail(ds.readScript(key, ds.locale).error))
      && (ds.readScript(key, ds.locale).Success? ==>
            r == Discard(RunHook(ds, HookRun(key, LeaveContext, ds.sessionId, OnStateLeaveInput(state)),
                                 ds.readScript(key, ds.locale).value)))
  {
    Discard(RunOptionalHook(ds, LeaveHook(ds, state)))
  }

  /** RunOnTransitionScript: no output for a null or empty OnTransition key; otherwise
    * the Output of the script of that key, run with the state and the transition. */
  function RunOnTransitionScript(ds: DataService, state: State, transition: Transition)
    : (r: Result<Option<OnTransitionOutput>, Error>)
    ensures IsNullOrEmpty(state.onTransitionScriptAssetKey) ==> r == Success(None)
    ensures !IsNullOrEmpty(state.onTransitionScriptAssetKey) ==>
      var key := state.onTransitionScriptAssetKey.value;
      && (ds.readScript(key, ds.locale).Failure? ==> r == Failure(ds.readScript(key, ds.locale).error))
      && (ds.readScript(key, ds.locale).Success? ==>
            r == RunHook(ds, HookRun(key, TransitionContext, ds.sessionId, OnTransitionInput(state, transition)),
                         ds.readScript(key, ds.locale).value))
  {
    RunOptionalHook(ds, TransitionHook(ds, state, transition))
  }

  /** Each hook runs only when its asset key is set; it is then named by that key, runs
    * under the scope's own session id and receives the state (and, for OnTransition,
    * the transition). */
  lemma HooksNamedByAssetKey(ds: DataService, state: State, transition: Transition)
    ensures EnterHook(ds, state).None? <==> IsNullOrEmpty(state.onEnterScriptAssetKey)
    ensures LeaveHook(ds, state).None? <==> IsNullOrEmpty(state.onLeaveScriptAssetKey)
    ensures TransitionHook(ds, state, transition).None? <==> IsNullOrEmpty(state.onTransitionScriptAssetKey)
    ensures EnterHook(ds, state).Some? ==>
      EnterHook(ds, state).value == HookRun(state.onEnterScriptAssetKey.value, EnterContext, ds.sessionId, OnStateEnterInput(state))
    ensures LeaveHook(ds, state).Some? ==>
      LeaveHook(ds, state).value == HookRun(state.onLeaveScriptAssetKey.value, LeaveContext, ds.sessionId, OnStateLeaveInput(state))
    ensures TransitionHook(ds, state, transition).Some? ==>
      TransitionHook(ds, state, transition).value
      == HookRun(state.onTransitionScriptAssetKey.value, TransitionContext, ds.sessionId, OnTransitionInput(state, transition))
  {
  }

  /** With a null or empty asset key the hook is a no-op: nothing is read or run, and
    * OnTransition returns no output. */
  lemma EmptyKeyHooksDoNothing(ds: DataService, state: State, transition: Transition)
    ensures IsNullOrEmpty(state.onEnterScriptAssetKey) ==> RunOnEnterStateScript(ds, state) == Pass
    ensures IsNullOrEmpty(state.onLeaveScriptAssetKey) ==> RunOnLeaveStateScript(ds, state) == Pass
    ensures IsNullOrEmpty(state.onTransitionScriptAssetKey) ==> RunOnTransitionScript(ds, state, transition) == Success(None)
  {
  }

  /** A hook script is created with the context type it is then run with, so a run
    * never fails the context-type check or the context's argument checks: once its
    * code is read, it fails only with the script's own fault, and OnTransition yields
    * the Output the script left. */
  lemma {:induction false} HookRunsItsScript(ds: DataService, hook: HookRun, code: string)
    requires hook.scriptKey != ""
    ensures var run := ds.execute(ds.compile(code, hook.contextType),
                                  ScriptRun(hook.scriptKey, hook.sessionId, ContextInput(hook.contextType, Some(hook.input))));
      && (run.fault.Some? ==> RunHook(ds, hook, code) == Failure(RuntimeScript(run.fault.value)))
      && (run.fault.None? ==>
            RunHook(ds, hook, code) == Success(if hook.contextType.InputOutputContext? then run.output else None))
  {
    var script := HellScript(hook.scriptKey, ds.compile(code, hook.contextType), hook.contextType);
    assert NewHellScript(Some(hook.scriptKey), Some(ds.compile(code, hook.contextType)), hook.contextType) == Success(script);
    RunResultOfMatchingScript(script, hook.contextType, hook.sessionId, Some(hook.input), ds.execute);
  }
}
