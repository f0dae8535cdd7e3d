/** StateMachineManager: the current state of one session's game and the operations
  * that move it. Every call the manager makes to its data service, and the moment it
  * replaces the current state, is recorded in a ghost trace, so that the order of the
  * effects can be stated. */
module StateMachine {
  import opened Wrappers
  import opened Models
  import opened Errors
  import opened StateMachineData

  datatype StateMachineOptions = StateMachineOptions(
    initialStateKey: string := DefaultInitialStateKey,
    finalStateKey: string := DefaultFinalStateKey)

  /** `options.Value ?? StateMachineOptions.Default` */
  function EffectiveOptions(options: Option<StateMachineOptions>): (r: StateMachineOptions)
    ensures options.None? ==> r.initialStateKey == DefaultInitialStateKey && r.finalStateKey == DefaultFinalStateKey
    ensures options.Some? ==> r == options.value
  {
    options.UnwrapOr(StateMachineOptions())
  }

  /** An effect of the manager: a data-service call, or the replacement of the state. */
  datatype Call =
    | LoadStateCall(key: string)
    | OnTransitionCall(state: State, transition: Transition)
    | OnLeaveCall(state: State)
    | OnEnterCall(state: State)
    | Swap(newState: Option<State>)

  /** What an operation ends with: its outcome, the current state and its effects. */
  datatype Step = Step(outcome: Outcome<Error>, current: Option<State>, calls: seq<Call>)

  /** The number of transitions with the given key. */
  function MatchCount(transitions: seq<Transition>, key: string): nat
  {
    if transitions == [] then 0
    else (if transitions[0].key == key then 1 else 0) + MatchCount(transitions[1..], key)
  }

  /** `Transitions.SingleOrDefault(t => t.Key == key)` and the null check after it: a
    * null list is an ArgumentNullException, a second match an InvalidOperationException,
    * and no match TransitionNotFound. */
  function FindTransition(transitions: Option<seq<Transition>>, key: string): (r: Result<Transition, Error>)
    ensures transitions.None? ==> r == Failure(ArgumentNull("source"))
    ensures r.Success? ==> r.value in transitions.value && r.value.key == key
    ensures transitions.Some? && r.Failure? ==>
      r.error == TransitionNotFound(key) || r.error == InvalidOperation(MoreThanOneMatch)
  {
    match transitions
    case None => Failure(ArgumentNull("source"))
    case Some(ts) =>
      SingleOrDefaultMeaning(ts, key);
      match SingleOrDefault(ts, key)
      case Failure(e) => Failure(e)
      case Success(None) => Failure(TransitionNotFound(key))
      case Success(Some(t)) => Success(t)
  }

  function SingleOrDefault(ts: seq<Transition>, key: string): Result<Option<Transition>, Error>
  {
    if ts == [] then Success(None)
    else
      match SingleOrDefault(ts[1..], key)
      case Failure(e) => Failure(e)
      case Success(rest) =>
        if ts[0].key != key then Success(rest)
        else if rest.Some? then Failure(InvalidOperation(MoreThanOneMatch))
        else Success(Some(ts[0]))
  }

  /** SingleOrDefault finds the one match, refuses two or more, and returns the default
    * for none. */
  lemma {:induction false} SingleOrDefaultMeaning(ts: seq<Transition>, key: string)
    ensures SingleOrDefault(ts, key).Success? <==> MatchCount(ts, key) <= 1
    ensures SingleOrDefault(ts, key).Failure? ==> SingleOrDefault(ts, key).error == InvalidOperation(MoreThanOneMatch)
    ensures SingleOrDefault(ts, key) == Success(None) <==> MatchCount(ts, key) == 0
    ensures SingleOrDefault(ts, key).Success? && SingleOrDefault(ts, key).value.Some? ==>
      SingleOrDefault(ts, key).value.value in ts && SingleOrDefault(ts, key).value.value.key == key
  {
    if ts != [] {
      SingleOrDefaultMeaning(ts[1..], key);
    }
  }

  /** The transition ApplyTransition follows: the only one with the key. Duplicates are
    * refused rather than resolved by taking the first. */
  lemma FindTransitionMeaning(transitions: Option<seq<Transition>>, key: string)
    ensures transitions.None? ==> FindTransition(transitions, key) == Failure(ArgumentNull("source"))
    ensures transitions.Some? ==>
      && (FindTransition(transitions, key).Success? <==> MatchCount(transitions.value, key) == 1)
      && (MatchCount(transitions.value, key) == 0 ==> FindTransition(transitions, key) == Failure(TransitionNotFound(key)))
      && (MatchCount(transitions.value, key) >= 2 ==>
            FindTransition(transitions, key) == Failure(InvalidOperation(MoreThanOneMatch)))
    ensures FindTransition(transitions, key).Success? ==>
      FindTransition(transitions, key).value in transitions.value && FindTransition(transitions, key).value.key == key
  {
    if transitions.Some? {
      SingleOrDefaultMeaning(transitions.value, key);
    }
  }

  /** `output?.NextStateKeyOverride ?? transition.NextStateKey` */
  function NextStateKey(output: Option<OnTransitionOutput>, transition: Transition): (r: string)
    ensures output.Some? && output.value.nextStateKeyOverride.Some? ==> r == output.value.nextStateKeyOverride.value
    ensures output.None? || output.value.nextStateKeyOverride.None? ==> r == transition.nextStateKey
  {
    if output.Some? && output.value.nextStateKeyOverride.Some? then output.value.nextStateKeyOverride.value
    else transition.nextStateKey
  }

  /** Whether SetCurrentStateInternal stops at a failing OnLeave of the current state. */
  predicate LeaveFails(ds: DataService, current: Option<State>, leave: bool)
  {
    leave && current.Some? && RunOnLeaveStateScript(ds, current.value).Fail?
  }

  /** SetCurrentStateInternal: leave the current state if asked and there is one, replace
    * it, and enter the new state if it is not null. A failing OnLeave keeps the current
    * state and runs nothing more; otherwise the state is replaced, and a failing OnEnter
    * does not undo that. */
  function EnterStep(ds: DataService, current: Option<State>, state: Option<State>, leave: bool): (r: Step)
    ensures LeaveFails(ds, current, leave) ==>
      r == Step(RunOnLeaveStateScript(ds, current.value), current, [OnLeaveCall(current.value)])
    ensures !LeaveFails(ds, current, leave) ==> r.current == state && Swap(state) in r.calls
    ensures !LeaveFails(ds, current, leave) && state.Some? ==>
      r.outcome == RunOnEnterStateScript(ds, state.value) && r.calls[|r.calls| - 1] == OnEnterCall(state.value)
    ensures !LeaveFails(ds, current, leave) && state.None? ==> r.outcome == Pass
  {
    var leaving := leave && current.Some?;
    var left := if leaving then RunOnLeaveStateScript(ds, current.value) else Pass;
    var leaveCalls := if leaving then [OnLeaveCall(current.value)] else [];
    if left.Fail? then Step(left, current, leaveCalls)
    else
      var entered := if state.Some? then RunOnEnterStateScript(ds, state.value) else Pass;
      var enterCalls := if state.Some? then [OnEnterCall(state.value)] else [];
      Step(entered, state, leaveCalls + [Swap(state)] + enterCalls)
  }

  /** SetCurrentState: load the state, then EnterStep. */
  function SetStateStep(ds: DataService, current: Option<State>, key: string, leave: bool): (r: Step)
    ensures |r.calls| > 0 && r.calls[0] == LoadStateCall(key)
    ensures LoadState(ds, key).Failure? ==>
      r == Step(Fail(LoadState(ds, key).error), current, [LoadStateCall(key)])
    ensures LoadState(ds, key).Success? && !LeaveFails(ds, current, leave) ==> r.current == LoadState(ds, key).value
    ensures LoadState(ds, key).Success? && LeaveFails(ds, current, leave) ==> r.current == current
  {
    match LoadState(ds, key)
    case Failure(e) => Step(Fail(e), current, [LoadStateCall(key)])
    case Success(state) =>
      var entered := EnterStep(ds, current, state, leave);
      Step(entered.outcome, entered.current, [LoadStateCall(key)] + entered.calls)
  }

  /** ApplyTransition: the current state's one transition with the key, its OnTransition
    * hook, then SetCurrentState of the next key, leaving the current state. */
  function TransitionStep(ds: DataService, current: Option<State>, key: string): (r: Step)
    ensures current.None? ==> r == Step(Fail(InvalidOperation(NoCurrentState)), current, [])
    ensures r.calls != [] ==>
      && current.Some? && FindTransition(current.value.transitions, key).Success?
      && r.calls[0] == OnTransitionCall(current.value, FindTransition(current.value.transitions, key).value)
    ensures r.current != current ==> |r.calls| >= 2 && r.calls[1].LoadStateCall?
  {
    if current.None? then Step(Fail(InvalidOperation(NoCurrentState)), current, [])
    else
      match FindTransition(current.value.transitions, key)
      case Failure(e) => Step(Fail(e), current, [])
      case Success(transition) =>
        var call := OnTransitionCall(current.value, transition);
        match RunOnTransitionScript(ds, current.value, transition)
        case Failure(e) => Step(Fail(e), current, [call])
        case Success(output) =>
          var next := SetStateStep(ds, current, NextStateKey(output, transition), true);
          Step(next.outcome, next.current, [call] + next.calls)
  }

  function CountLeaves(calls: seq<Call>): nat
  {
    if calls == [] then 0 else (if calls[0].OnLeaveCall? then 1 else 0) + CountLeaves(calls[1..])
  }

  lemma CountLeavesAppend(a: seq<Call>, b: seq<Call>)
    ensures CountLeaves(a + b) == CountLeaves(a) + CountLeaves(b)
  {
    if a == [] {
      assert a + b == b;
    } else {
      assert (a + b)[1..] == a[1..] + b;
      CountLeavesAppend(a[1..], b);
    }
  }

  /** Without a current state, or without exactly one transition with the key,
    * ApplyTransition fails before any hook runs and keeps the state. */
  lemma TransitionLookupFailureRunsNothing(ds: DataService, current: Option<State>, key: string)
    requires current.None? || FindTransition(current.value.transitions, key).Failure?
    ensures TransitionStep(ds, current, key).calls == []
    ensures TransitionStep(ds, current, key).current == current
    ensures current.None? ==> TransitionStep(ds, current, key).outcome == Fail(InvalidOperation(NoCurrentState))
    ensures current.Some? ==>
      TransitionStep(ds, current, key).outcome == Fail(FindTransition(current.value.transitions, key).error)
  {
  }

  /** The effects of a transition that gets as far as loading a next state, in order:
    * OnTransition of the old state, LoadState of the effective next key, OnLeave of the
    * old state, the swap, then OnEnter of the new state. */
  lemma {:induction false} TransitionEffectOrder(ds: DataService, current: State, key: string, transition: Transition,
                                                 output: Option<OnTransitionOutput>, next: State)
    requires FindTransition(current.transitions, key) == Success(transition)
    requires RunOnTransitionScript(ds, current, transition) == Success(output)
    requires LoadState(ds, NextStateKey(output, transition)) == Success(Some(next))
    requires RunOnLeaveStateScript(ds, current) == Pass
    ensures TransitionStep(ds, Some(current), key) == Step(
      RunOnEnterStateScript(ds, next),
      Some(next),
      [OnTransitionCall(current, transition), LoadStateCall(NextStateKey(output, transition)),
       OnLeaveCall(current), Swap(Some(next)), OnEnterCall(next)])
  {
    var entered := EnterStep(ds, Some(current), Some(next), true);
    assert entered.calls == [OnLeaveCall(current), Swap(Some(next)), OnEnterCall(next)];
  }

  /** SetCurrentState without leaving never runs OnLeave; with leaving it runs OnLeave
    * at most once, and never when there is no current state. */
  lemma {:induction false} LeaveRunsAtMostOnce(ds: DataService, current: Option<State>, key: string, leave: bool)
    ensures CountLeaves(SetStateStep(ds, current, key, leave).calls) <= 1
    ensures !leave || current.None? ==> CountLeaves(SetStateStep(ds, current, key, leave).calls) == 0
    ensures leave && current.Some? && LoadState(ds, key).Success? ==>
      CountLeaves(SetStateStep(ds, current, key, leave).calls) == 1
  {
    match LoadState(ds, key)
    case Failure(_) =>
      assert CountLeaves([LoadStateCall(key)]) == 0;
    case Success(state) =>
      var leaving := leave && current.Some?;
      var leaveCalls: seq<Call> := if leaving then [OnLeaveCall(current.value)] else [];
      var enterCalls: seq<Call> := if state.Some? then [OnEnterCall(state.value)] else [];
      assert CountLeaves([LoadStateCall(key)]) == 0;
      assert CountLeaves(leaveCalls) == if leaving then 1 else 0 by {
        if leaving { assert CountLeaves(leaveCalls) == 1 + CountLeaves([]); }
      }
      assert CountLeaves([Swap(state)] + enterCalls) == 0 by {
        assert ([Swap(state)] + enterCalls)[1..] == enterCalls;
        if state.Some? { assert CountLeaves(enterCalls) == 0 + CountLeaves([]); }
      }
      CountLeavesAppend(leaveCalls, [Swap(state)] + enterCalls);
      assert leaveCalls + [Swap(state)] + enterCalls == leaveCalls + ([Swap(state)] + enterCalls);
      CountLeavesAppend([LoadStateCall(key)], EnterStep(ds, current, state, leave).calls);
  }

  /** A failing load keeps the current state and runs no hook; a failing OnLeave keeps
    * it too; a failing OnEnter does not undo the swap already made. */
  lemma FailuresAndTheCurrentState(ds: DataService, current: Option<State>, key: string, leave: bool)
    ensures LoadState(ds, key).Failure? ==>
      SetStateStep(ds, current, key, leave) == Step(Fail(LoadState(ds, key).error), current, [LoadStateCall(key)])
    ensures LoadState(ds, key).Success? && leave && current.Some? && RunOnLeaveStateScript(ds, current.value).Fail? ==>
      SetStateStep(ds, current, key, leave).current == current
    ensures (&& LoadState(ds, key).Success? && LoadState(ds, key).value.Some?
             && !(leave && current.Some? && RunOnLeaveStateScript(ds, current.value).Fail?)) ==>
      SetStateStep(ds, current, key, leave).current == LoadState(ds, key).value
      && SetStateStep(ds, current, key, leave).outcome == RunOnEnterStateScript(ds, LoadState(ds, key).value.value)
  {
  }

  class StateMachineManager {
    const options: StateMachineOptions
    const dataService: DataService
    var currentState: Option<State>
    /** The effects made so far, oldest first. */
    ghost var trace: seq<Call>

    constructor(options: Option<StateMachineOptions>, dataService: DataService)
      ensures this.options == EffectiveOptions(options) && this.dataService == dataService
      ensures currentState.None? && trace == []
    {
      this.options := EffectiveOptions(options);
      this.dataService := dataService;
      currentState := None;
      trace := [];
    }

    method SetCurrentState(key: string, leaveCurrentState: bool) returns (r: Outcome<Error>)
      modifies this
      ensures var step := SetStateStep(dataService, old(currentState), key, leaveCurrentState);
        r == step.outcome && currentState == step.current && trace == old(trace) + step.calls
    {
      trace := trace + [LoadStateCall(key)];
      var loaded := LoadState(dataService, key);
      if loaded.Failure? {
        return Fail(loaded.error);
      }
      r := SetCurrentStateInternal(loaded.value, leaveCurrentState);
    }

    /** SetInitialState: the initial state, without leaving the current one. */
    method SetInitialState() returns (r: Outcome<Error>)
      modifies this
      ensures var step := SetStateStep(dataService, old(currentState), options.initialStateKey, false);
        r == step.outcome && currentState == step.current && trace == old(trace) + step.calls
    {
      r := SetCurrentState(options.initialStateKey, false);
    }

    /** SetFinalState: the final state, leaving the current one. */
    method SetFinalState() returns (r: Outcome<Error>)
      modifies this
      ensures var step := SetStateStep(dataService, old(currentState), options.finalStateKey, true);
        r == step.outcome && currentState == step.current && trace == old(trace) + step.calls
    {
      r := SetCurrentState(options.finalStateKey, true);
    }

    method ApplyTransition(key: string) returns (r: Outcome<Error>)
      modifies this
      ensures var step := TransitionStep(dataService, old(currentState), key);
        r == step.outcome && currentState == step.current && trace == old(trace) + step.calls
    {
      if currentState.None? {
        return Fail(InvalidOperation(NoCurrentState));
      }
      var state := currentState.value;
      var found := FindTransition(state.transitions, key);
      if found.Failure? {
        return Fail(found.error);
      }
      var transition := found.value;
      trace := trace + [OnTransitionCall(state, transition)];
      var output := RunOnTransitionScript(dataService, state, transition);
      if output.Failure? {
        return Fail(output.error);
      }
      ghost var afterHook := trace;
      r := SetCurrentState(NextStateKey(output.value, transition), true);
      assert trace == old(trace) + [OnTransitionCall(state, transition)] + (trace[|afterHook|..]);
    }

    /** GetCurrentState: the current state (null before any is set); changes nothing. */
    method GetCurrentState() returns (r: Option<State>)
      ensures r == currentState
    {
      return currentState;
    }

    method SetCurrentStateInternal(state: Option<State>, leaveCurrentState: bool) returns (r: Outcome<Error>)
      modifies this
      ensures var step := EnterStep(dataService, old(currentState), state, leaveCurrentState);
        r == step.outcome && currentState == step.current && trace == old(trace) + step.calls
    {
      if leaveCurrentState && currentState.Some? {
        trace := trace + [OnLeaveCall(currentState.value)];
        var left := RunOnLeaveStateScript(dataService, currentState.value);
        if left.Fail? {
          return left;
        }
      }
      currentState := state;
      trace := trace + [Swap(state)];
      if currentState.Some? {
        trace := trace + [OnEnterCall(currentState.value)];
        r := RunOnEnterStateScript(dataService, currentState.value);
      } else {
        r := Pass;
      }
    }
  }
}
