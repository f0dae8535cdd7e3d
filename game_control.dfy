/** GameControlService: the game operations a client calls with its session id, i.e.
  * starting, leaving, moving through, saving and loading a game. A save file is the
  * base64 form of the JSON text of a SaveGame record; the JSON text itself is left
  * abstract as a pair of functions. */
module GameControl {
  import opened Wrappers
  import opened Models
  import opened Errors
  import opened Vars
  import opened VarsManagement
  import opened StateMachine
  import Sessions
  import opened SaveGames
  import Base64 = Base64Encoder

  // ---------------------------------------------------------------- user names

  /** What `^[a-zA-Z0-9\.\-_]+$` accepts under .NET: `$` matches at the very end and also
    * just before a final line feed, so one trailing '\n' passes the check. */
  predicate UserNameMatchesAsWritten(u: string)
  {
    || (|u| >= 1 && forall i :: 0 <= i < |u| ==> IsKeyChar(u[i]))
    || (|u| >= 2 && u[|u| - 1] == '\n' && forall i :: 0 <= i < |u| - 1 ==> IsKeyChar(u[i]))
  }

  /** The intended user names: one or more characters of the class, and nothing else. */
  predicate ValidUserName(u: string)
  {
    |u| >= 1 && forall i :: 0 <= i < |u| ==> IsKeyChar(u[i])
  }

  /** A user name with a trailing line feed passes the pattern as written. */
  lemma TrailingLineFeedAccepted()
    ensures UserNameMatchesAsWritten("player\n") && !ValidUserName("player\n")
  {
    assert "player\n"[6] == '\n' && !IsKeyChar('\n');
  }

  /** The pattern as written accepts exactly the valid names and the valid names followed
    * by one line feed; no valid name holds a line feed. */
  lemma AsWrittenAcceptsOneExtraLineFeed(u: string)
    ensures UserNameMatchesAsWritten(u) <==>
      ValidUserName(u) || (|u| >= 1 && u[|u| - 1] == '\n' && ValidUserName(u[..|u| - 1]))
    ensures ValidUserName(u) ==> '\n' !in u
  {
    if |u| >= 1 && u[|u| - 1] == '\n' {
      assert forall i :: 0 <= i < |u| - 1 ==> u[..|u| - 1][i] == u[i];
    }
  }

  /** StartGame's check: matching a null name is an ArgumentNullException from the regex
    * engine, and a name the pattern refuses is an ArgumentException. The intended pattern
    * is used. */
  function CheckUserName(userName: NullableString): (r: Outcome<Error>)
    ensures r.Pass? <==> userName.Some? && ValidUserName(userName.value)
    ensures userName.None? ==> r == Fail(ArgumentNull("input"))
    ensures userName.Some? && !ValidUserName(userName.value) ==> r == Fail(Argument("userName"))
  {
    if userName.None? then Fail(ArgumentNull("input"))
    else if !ValidUserName(userName.value) then Fail(Argument("userName"))
    else Pass
  }

  // ---------------------------------------------------------------- save files

  /** SaveGame, the record a save file holds; JSON can leave any of its members null. */
  datatype SaveGameData = SaveGameData(
    userName: NullableString,
    currentStateKey: NullableString,
    varsInfo: Option<seq<VarInfo>>)

  /** JSON text of a SaveGame record: SerializeObject, and DeserializeObject, which
    * gives null for a text holding no object and fails on malformed text. */
  datatype SaveGameJson = SaveGameJson(
    serialize: SaveGameData -> string,
    deserialize: string -> Result<Option<SaveGameData>, Error>)

  /** What LoadGame reads out of a save file before it touches the session. */
  datatype LoadedGame = LoadedGame(userName: NullableString, currentStateKey: NullableString, vars: seq<Var>)

  /** The record SaveGame writes for these vars and this current state. */
  function SaveRecord(userName: NullableString, current: State, vars: seq<Var>, options: VarsManagerOptions): SaveGameData
  {
    SaveGameData(userName, Some(current.key), Some(VarInfos(VarsManagement.Without(vars, options.userNameVarKey))))
  }

  /** SaveGame after the session lookup: the user name (which fails if the user-name var
    * is missing or not a string var), the current state's key (null without a current
    * state), the var infos of every var but the user-name one, then JSON and base64. */
  function SaveOutcome(codec: StringCodec, json: SaveGameJson, vars: seq<Var>, options: VarsManagerOptions,
                       current: Option<State>): (r: Result<string, Error>)
    ensures UserName(vars, options).Failure? ==> r == Failure(UserName(vars, options).error)
    ensures UserName(vars, options).Success? && current.None? ==> r == Failure(NullReference)
    ensures r.Success? ==>
      UserName(vars, options).Success? && current.Some?
      && Base64.Decode(r.value) == Success(codec.fromText(json.serialize(
           SaveRecord(UserName(vars, options).value, current.value, vars, options))))
  {
    var userName :- UserName(vars, options);
    if current.None? then Failure(NullReference)
    else Success(Base64.EncodeString(codec, json.serialize(SaveRecord(userName, current.value, vars, options))))
  }

  /** LoadGame up to the session lookup: base64, JSON, then a var per var info. A null
    * record or a null var-info list is a NullReferenceException. */
  function ParseSave(codec: StringCodec, json: SaveGameJson, fileData: string): (r: Result<LoadedGame, Error>)
    ensures Base64.DecodeAsString(codec, fileData).Failure? ==> r == Failure(Base64.DecodeAsString(codec, fileData).error)
    ensures r.Success? ==>
      && Base64.DecodeAsString(codec, fileData).Success?
      && var save := json.deserialize(Base64.DecodeAsString(codec, fileData).value);
      && save.Success? && save.value.Some? && save.value.value.varsInfo.Some?
      && r.value.userName == save.value.value.userName
      && r.value.currentStateKey == save.value.value.currentStateKey
      && MakeVars(save.value.value.varsInfo.value) == Success(r.value.vars)
  {
    var text :- Base64.DecodeAsString(codec, fileData);
    var save :- json.deserialize(text);
    if save.None? || save.value.varsInfo.None? then Failure(NullReference)
    else
      var vars :- MakeVars(save.value.varsInfo.value);
      Success(LoadedGame(save.value.userName, save.value.currentStateKey, vars))
  }

  /** A save file is loaded back to what was saved: the user name, the current state's key
    * and every var but the user-name one, in order and up to set indexes, provided the
    * JSON and the text encoding each give back what they were handed. */
  lemma SaveThenLoad(codec: StringCodec, json: SaveGameJson, vars: seq<Var>, options: VarsManagerOptions,
                     current: Option<State>)
    requires forall d :: json.deserialize(json.serialize(d)) == Success(Some(d))
    requires forall t :: codec.toText(codec.fromText(t)) == t
    requires SaveOutcome(codec, json, vars, options, current).Success?
    ensures ParseSave(codec, json, SaveOutcome(codec, json, vars, options, current).value)
      == Success(LoadedGame(UserName(vars, options).value, Some(current.value.key),
                            ReloadedAll(VarsManagement.Without(vars, options.userNameVarKey))))
  {
    var record := SaveRecord(UserName(vars, options).value, current.value, vars, options);
    Base64.StringRoundTrip(codec, json.serialize(record));
    VarInfosRoundTrip(VarsManagement.Without(vars, options.userNameVarKey));
  }

  /** A file that does not decode, does not parse, or holds no var-info list never
    * reaches the session. */
  lemma ParseFailures(codec: StringCodec, json: SaveGameJson, fileData: string)
    ensures Base64.Decode(fileData).Failure? ==> ParseSave(codec, json, fileData) == Failure(Base64Format)
    ensures (&& Base64.Decode(fileData).Success?
             && json.deserialize(codec.toText(Base64.Decode(fileData).value)) == Success(None)) ==>
      ParseSave(codec, json, fileData) == Failure(NullReference)
  {
  }

  /** The game of one session: its VarsManager and its StateMachineManager, the scoped
    * services the session façade hands out. */
  class GameSession {
    const varsManager: VarsManager
    const stateMachine: StateMachineManager

    constructor(varsManager: VarsManager, stateMachine: StateMachineManager)
      ensures this.varsManager == varsManager && this.stateMachine == stateMachine
    {
      this.varsManager := varsManager;
      this.stateMachine := stateMachine;
    }
  }

  class GameControlService {
    const sessionManager: Sessions.SessionManager
    /** The text encoding of the base64 encoder. */
    const codec: StringCodec
    const json: SaveGameJson

    constructor(sessionManager: Sessions.SessionManager, codec: StringCodec, json: SaveGameJson)
      ensures this.sessionManager == sessionManager && this.codec == codec && this.json == json
    {
      this.sessionManager := sessionManager;
      this.codec := codec;
      this.json := json;
    }

    /** The session lookup every operation starts with: it stamps (or creates) the entry. */
    twostate predicate Accessed(sessionId: Guid, now: Ticks)
      reads sessionManager
    {
      && sessionId in sessionManager.sessions
      && sessionManager.sessions == Sessions.Touch(old(sessionManager.sessions), sessionId, sessionManager.sessions[sessionId].scope, now)
    }

    method GetCurrentGameState(sessionId: Guid, now: Ticks, game: GameSession) returns (r: Option<State>)
      requires sessionManager.Valid()
      modifies sessionManager
      ensures r == game.stateMachine.currentState
      ensures Accessed(sessionId, now) && sessionManager.Valid()
    {
      var _ := sessionManager.GetSession(sessionId, now);
      r := game.stateMachine.GetCurrentState();
    }

    /** StartGame: refuse a bad user name before anything else; otherwise reset the vars to
      * the user-name var alone and enter the initial state without leaving the current one. */
    method StartGame(sessionId: Guid, userName: NullableString, now: Ticks, game: GameSession) returns (r: Outcome<Error>)
      requires sessionManager.Valid()
      modifies sessionManager, game.varsManager, game.stateMachine
      ensures CheckUserName(userName).Fail? ==>
        && r == CheckUserName(userName)
        && unchanged(sessionManager, game.varsManager, game.stateMachine)
      ensures CheckUserName(userName).Pass? ==>
        && Accessed(sessionId, now)
        && game.varsManager.vars == [UserNameVar(game.varsManager.options, userName)]
        && game.varsManager.Valid()
        && var step := SetStateStep(game.stateMachine.dataService, old(game.stateMachine.currentState),
                                    game.stateMachine.options.initialStateKey, false);
           r == step.outcome && game.stateMachine.currentState == step.current
           && game.stateMachine.trace == old(game.stateMachine.trace) + step.calls
      ensures sessionManager.Valid()
    {
      var checked := CheckUserName(userName);
      if checked.Fail? {
        return checked;
      }
      var _ := sessionManager.GetSession(sessionId, now);
      game.varsManager.Init(userName, None);
      r := game.stateMachine.SetInitialState();
    }

    /** ExitGame: enter the final state, leaving the current one. */
    method ExitGame(sessionId: Guid, now: Ticks, game: GameSession) returns (r: Outcome<Error>)
      requires sessionManager.Valid()
      modifies sessionManager, game.stateMachine
      ensures Accessed(sessionId, now) && sessionManager.Valid()
      ensures var step := SetStateStep(game.stateMachine.dataService, old(game.stateMachine.currentState),
                                       game.stateMachine.options.finalStateKey, true);
        r == step.outcome && game.stateMachine.currentState == step.current
        && game.stateMachine.trace == old(game.stateMachine.trace) + step.calls
    {
      var _ := sessionManager.GetSession(sessionId, now);
      r := game.stateMachine.SetFinalState();
    }

    /** Transition: follow the current state's transition with the key. */
    method Transition(sessionId: Guid, key: string, now: Ticks, game: GameSession) returns (r: Outcome<Error>)
      requires sessionManager.Valid()
      modifies sessionManager, game.stateMachine
      ensures Accessed(sessionId, now) && sessionManager.Valid()
      ensures var step := TransitionStep(game.stateMachine.dataService, old(game.stateMachine.currentState), key);
        r == step.outcome && game.stateMachine.currentState == step.current
        && game.stateMachine.trace == old(game.stateMachine.trace) + step.calls
    {
      var _ := sessionManager.GetSession(sessionId, now);
      r := game.stateMachine.ApplyTransition(key);
    }

    /** SaveGame: the save file of the session's game; the game itself is not changed. */
    method SaveGame(sessionId: Guid, now: Ticks, game: GameSession) returns (r: Result<string, Error>)
      requires sessionManager.Valid() && game.varsManager.Valid()
      modifies sessionManager
      ensures Accessed(sessionId, now) && sessionManager.Valid()
      ensures r == SaveOutcome(codec, json, game.varsManager.vars, game.varsManager.options, game.stateMachine.currentState)
    {
      var _ := sessionManager.GetSession(sessionId, now);
      var userName := game.varsManager.GetUserName();
      if userName.Failure? {
        return Failure(userName.error);
      }
      var current := game.stateMachine.GetCurrentState();
      if current.None? {
        return Failure(NullReference);
      }
      var vars := game.varsManager.GetAllVars(false);
      var varsInfo := CollectVarInfos(vars);
      var saveGame := SaveGameData(userName.value, Some(current.value.key), Some(varsInfo));
      var text := json.serialize(saveGame);
      return Success(Base64.EncodeString(codec, text));
    }

    /** LoadGame: read the whole file first, so that a bad file changes nothing; then
      * reset the vars to the saved ones after the user-name var and set the saved state
      * without leaving the current one. A null state key fails after the vars are reset. */
    method LoadGame(sessionId: Guid, fileData: string, now: Ticks, game: GameSession) returns (r: Outcome<Error>)
      requires sessionManager.Valid()
      modifies sessionManager, game.varsManager, game.stateMachine
      ensures ParseSave(codec, json, fileData).Failure? ==>
        && r == Fail(ParseSave(codec, json, fileData).error)
        && unchanged(sessionManager, game.varsManager, game.stateMachine)
      ensures ParseSave(codec, json, fileData).Success? ==>
        var loaded := ParseSave(codec, json, fileData).value;
        && Accessed(sessionId, now)
        && game.varsManager.vars == [UserNameVar(game.varsManager.options, loaded.userName)] + loaded.vars
        && game.varsManager.Valid()
        && (loaded.currentStateKey.None? ==>
              r == Fail(ArgumentNull("key")) && unchanged(game.stateMachine))
        && (loaded.currentStateKey.Some? ==>
              var step := SetStateStep(game.stateMachine.dataService, old(game.stateMachine.currentState),
                                       loaded.currentStateKey.value, false);
              r == step.outcome && game.stateMachine.currentState == step.current
              && game.stateMachine.trace == old(game.stateMachine.trace) + step.calls)
      ensures sessionManager.Valid()
    {
      var text := Base64.DecodeAsString(codec, fileData);
      if text.Failure? {
        return Fail(text.error);
      }
      var save := json.deserialize(text.value);
      if save.Failure? {
        return Fail(save.error);
      }
      if save.value.None? || save.value.value.varsInfo.None? {
        return Fail(NullReference);
      }
      var saveGame := save.value.value;
      var vars := CollectVars(saveGame.varsInfo.value);
      if vars.Failure? {
        return Fail(vars.error);
      }
      var _ := sessionManager.GetSession(sessionId, now);
      game.varsManager.Init(saveGame.userName, Some(vars.value));
      if saveGame.currentStateKey.None? {
        return Fail(ArgumentNull("key"));
      }
      r := game.stateMachine.SetCurrentState(saveGame.currentStateKey.value, false);
    }
  }

  /** SaveGame's loop: one var info per var, in order. */
  method CollectVarInfos(vars: seq<Var>) returns (infos: seq<VarInfo>)
    ensures infos == VarInfos(vars)
  {
    infos := [];
    for i := 0 to |vars|
      invariant |infos| == i
      invariant forall j :: 0 <= j < i ==> infos[j] == MakeVarInfo(vars[j])
    {
      infos := infos + [MakeVarInfo(vars[i])];
    }
  }

  /** LoadGame's loop: one var per var info, in order, stopping at the first failure. */
  method CollectVars(infos: seq<VarInfo>) returns (r: Result<seq<Var>, Error>)
    ensures r == MakeVars(infos)
  {
    MakeVarsMeaning(infos);
    var vars: seq<Var> := [];
    for i := 0 to |infos|
      invariant |vars| == i
      invariant forall j :: 0 <= j < i ==> MakeVar(infos[j]) == Success(vars[j])
    {
      var v := MakeVar(infos[i]);
      if v.Failure? {
        return Failure(v.error);
      }
      vars := vars + [v.value];
    }
    assert MakeVars(infos).value == vars;
    return Success(vars);
  }
}
