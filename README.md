# HellEngine session runtime, modelled in Dafny

HellEngine is a web-hosted engine for text adventure games. Each browser session
owns a service scope on the server. The scope holds the session's locale, its game
variables, its asset access and a state machine. The state machine moves through
states loaded from JSON state assets. Entering, leaving or taking a transition out
of a state can run a C# script hook. A player starts a game under a user name, moves
through transitions, and saves and loads the game as a base64 text file.

This project models that runtime core. One module corresponds to each source
component:

| module | file | models |
|---|---|---|
| `Wrappers`, `Models`, `Errors` | wrappers.dfy, models.dfy, errors.dfy | Option/Result/Outcome; states, transitions, descriptors and constants; one error constructor per exception |
| `StringExtensions` | string_extensions.dfy | `AddPath`, `NormalizeDirectorySeparators` |
| `Configuration` | config_path_builder.dfy | `ConfigPathBuilder` |
| `Base64Encoder` | base64_encoder.dfy | base64 as in section 4 of RFC 4648, and the text overloads |
| `Vars`, `VarsManagement` | vars.dfy, vars_manager.dfy | the var records and `VarsManager` with its key index |
| `TextAssets` | text_asset_data_processor.dfy | the `{var=KEY}` placeholder rewrite |
| `SessionIds`, `Locale`, `Sessions` | session_id_provider.dfy, locale_manager.dfy, session_manager.dfy | the session registry and its expiry sweep |
| `ScriptServices`, `HellScripts`, `Scripting` | sdk_service_providers.dfy, hell_script.dfy, script_host.dfy | the SDK service gates, scripts and contexts, and the script host |
| `StateMachineData`, `StateMachine` | state_machine_data.dfy, state_machine.dfy | the hook dispatch and `StateMachineManager` |
| `Assets`, `AssetDescriptors`, `AssetsManagement` | asset.dfy, asset_descriptors_cache.dfy, assets_manager.dfy | asset lookup, type check, encodings and locale fallback |
| `SaveGames`, `GameControl` | save_game.dfy, game_control.dfy | save-file var records and `GameControlService` |

Each C# exception is a value of `Errors.Error`. A member that throws in C# returns a
`Result` or an `Outcome` here, and the error branches keep the source's order of
checks. State that the source updates in place lives in classes: `VarsManager`,
`SessionManager`, `StateMachineManager`, `AssetsManager`, `ConfigPathBuilder`,
`LocaleManager`, `SessionIdProvider`, `Asset`, `HellScriptContext` and the service
providers. Each such method is proved against a specification function of the old
state. The properties the source promises are lemmas about those functions.

The clock is the `now` parameter, in ticks. The file system is a `FileSystem` value:
an existence predicate plus a byte reader. A script compiler and executor are function
values. JSON is a pair of serialise and deserialise functions. Text encoding is a
`StringCodec`, a pair of functions between bytes and text.

## Model

| member | source | states |
|---|---|---|
| StringExtensions.AddPath | src/HellEngine.Utils/Extensions/StringExtensions.cs:9-18 | a null or empty path gives the value alone; otherwise the path, then one '/', then the value (null reads as empty) |
| StringExtensions.NormalizeDirectorySeparators | src/HellEngine.Utils/Extensions/StringExtensions.cs:20-23 | the same length; every '/' becomes the native separator; every other character is kept |
| StringExtensions.NormalizeConcat | src/HellEngine.Utils/Extensions/StringExtensions.cs:20-23 | normalising distributes over concatenation |
| StringExtensions.NormalizeIdempotent | src/HellEngine.Utils/Extensions/StringExtensions.cs:20-23 | normalising twice is normalising once |
| StringExtensions.AddPathTwice | src/HellEngine.Utils/Extensions/StringExtensions.cs:9-18 | two joins under a non-empty root put exactly one '/' between segments |
| StringExtensions.AddPathExamples | src/HellEngine.Utils/Extensions/StringExtensions.cs:11-17 | an empty root adds no separator; "root" and "path" give "root/path" |
| StringExtensions.NormalizeExample | src/HellEngine.Utils/Extensions/StringExtensions.cs:22 | "root/dir1/dir2" normalises to "root\dir1\dir2" under a backslash separator |
| Configuration.Appended | src/HellEngine.Utils/Configuration/ConfigPathBuilder.cs:16-29 | a null or empty segment changes nothing; otherwise the buffer grows by the segment, with ':' before it only if the buffer was not empty |
| Configuration.NonEmptySegmentsMeaning | src/HellEngine.Utils/Configuration/ConfigPathBuilder.cs:18-21 | the segments Add keeps are all non-empty, and every non-empty segment is kept |
| Configuration.JoinSnoc | src/HellEngine.Utils/Configuration/ConfigPathBuilder.cs:23-27 | joining one more part appends ':' and the part |
| Configuration.AppendedIsJoin | src/HellEngine.Utils/Configuration/ConfigPathBuilder.cs:16-29 | one Add extends the ':'-join of the parts by the segment, if the segment is not empty |
| Configuration.BuiltPathIsJoin | src/HellEngine.Utils/Configuration/ConfigPathBuilder.cs:11-34 | after any sequence of Add calls, the buffer is the ':'-join of the base and the non-empty segments: no empty component and no leading or doubled separator |
| Configuration.ConfigPathBuilder.constructor | src/HellEngine.Utils/Configuration/ConfigPathBuilder.cs:11-14 | a null base starts an empty buffer; any other base is kept as given |
| Configuration.ConfigPathBuilder.Add | src/HellEngine.Utils/Configuration/ConfigPathBuilder.cs:16-29 | updates the buffer in place as Appended says and returns the same builder |
| Configuration.ConfigPathBuilder.Build | src/HellEngine.Utils/Configuration/ConfigPathBuilder.cs:31-34 | returns the buffer without changing it |
| Base64Encoder.Encode | src/HellEngine.Core/Services/Encoding/Base64Encoder.cs:42-45 | the output has 4·⌈n/3⌉ characters |
| Base64Encoder.EncodedLength | src/HellEngine.Core/Services/Encoding/Base64Encoder.cs:42-45 | an encoding is a whole number of 4-character groups, at least one for non-empty data |
| Base64Encoder.Decode | src/HellEngine.Core/Services/Encoding/Base64Encoder.cs:52-55 | input whose length is not a multiple of 4 is a format error, and every failure is a format error |
| Base64Encoder.RoundTrip | src/HellEngine.Core/Services/Encoding/Base64Encoder.cs:42-55 | decoding an encoding gives back the bytes |
| Base64Encoder.EncodeInjective | src/HellEngine.Core/Services/Encoding/Base64Encoder.cs:42-45 | different byte strings have different encodings |
| Base64Encoder.BlockRoundTrip | src/HellEngine.Core/Services/Encoding/Base64Encoder.cs:42-55 | a 4-character group decodes to the 3 bytes it encodes |
| Base64Encoder.EncodeString | src/HellEngine.Core/Services/Encoding/Base64Encoder.cs:47-50 | decoding the result gives the text's bytes under the codec |
| Base64Encoder.DecodeAsString | src/HellEngine.Core/Services/Encoding/Base64Encoder.cs:57-60 | succeeds exactly when the base64 decodes, and is then the codec's text of those bytes |
| Base64Encoder.StringRoundTrip | src/HellEngine.Core/Services/Encoding/Base64Encoder.cs:47-60 | decoding an encoded text gives the text after the codec's own round trip |
| Base64Encoder.ExampleBlocks | src/HellEngine.Core/Services/Encoding/Base64Encoder.cs:44 | "foo", "bar" and "q1/" encode to "Zm9v", "YmFy" and "cTEv" |
| Base64Encoder.EncoderExampleOne | src/HellEngine.Core/Services/Encoding/Base64Encoder.cs:42-55 | 66 6F 6F 62 61 72 31 encodes to "Zm9vYmFyMQ==" and decodes back |
| Base64Encoder.EncoderExampleTwo | src/HellEngine.Core/Services/Encoding/Base64Encoder.cs:42-55 | 71 31 2F 5D encodes to "cTEvXQ==" and decodes back |
| Vars.DisplayStringMeaning | src/HellEngine.Core/Models/Vars/Vars.cs:41-68 | an int shows decimal text that parses back to the value; a bool shows "True" or "False"; a string shows itself; a var without a value shows "null" |
| Vars.DecimalTextParses | src/HellEngine.Core/Models/Vars/Vars.cs:41 | the decimal text of every integer parses back to it |
| Vars.DisplayString | src/HellEngine.Core/Models/Vars/Vars.cs:41-68 | "null" for any var without a value; a bool shows "True" or "False"; a string shows itself (the int case is DisplayStringMeaning) |
| VarsManagement.Find | src/HellEngine.Core/Services/Vars/VarsManager.cs:107-115 | succeeds exactly when some var has the key, and gives a var with that key; otherwise VarNotFound |
| VarsManagement.LastIndexIsLast | src/HellEngine.Core/Services/Vars/VarsManager.cs:133-140 | the rebuilt index holds exactly the keys present, each at its last var, and agrees with Find |
| VarsManagement.Without | src/HellEngine.Core/Services/Vars/VarsManager.cs:122-131 | keeps exactly the vars whose key is not the user-name key |
| VarsManagement.FirstPosition | src/HellEngine.Core/Services/Vars/VarsManager.cs:92 | the position of the first var with the key |
| VarsManagement.RemoveFirst | src/HellEngine.Core/Services/Vars/VarsManager.cs:85-94 | the list after `vars.Remove(FirstOrDefault(key))`: one var shorter, every var before the first match kept in place and every var after it moved down by one |
| VarsManagement.RemoveFirstRemovesOne | src/HellEngine.Core/Services/Vars/VarsManager.cs:85-94 | removal takes out exactly one var, the first with the key, and keeps the others |
| VarsManagement.RemoveFirstKeepsDuplicate | src/HellEngine.Core/Services/Vars/VarsManager.cs:85-94 | after removal the key is still present exactly when it had two vars |
| VarsManagement.FindAs | src/HellEngine.Core/Services/Vars/VarsManager.cs:117-120 | the var found, if it has the requested type; InvalidCast otherwise; VarNotFound for a missing key |
| VarsManagement.UserNameAfterInit | src/HellEngine.Core/Services/Vars/VarsManager.cs:54-72 | after Init(u, vs), GetUserName gives u unless vs itself has a var under the user-name key, which then wins |
| VarsManagement.VarsManager.constructor | src/HellEngine.Core/Services/Vars/VarsManager.cs:46-52 | null options give the defaults; the list starts empty |
| VarsManagement.VarsManager.Lookup | src/HellEngine.Core/Services/Vars/VarsManager.cs:107-115 | the lookup through the index agrees with Find |
| VarsManagement.VarsManager.RebuildIndex | src/HellEngine.Core/Services/Vars/VarsManager.cs:133-140 | the loop leaves the index equal to LastIndex of the list |
| VarsManagement.VarsManager.Init | src/HellEngine.Core/Services/Vars/VarsManager.cs:54-66 | the list is the user-name var followed by the given vars (none for null), and the index is rebuilt |
| VarsManagement.VarsManager.GetUserName | src/HellEngine.Core/Services/Vars/VarsManager.cs:68-72 | the value of the user-name var, which must be a string var |
| VarsManagement.VarsManager.AddVar | src/HellEngine.Core/Services/Vars/VarsManager.cs:74-83 | an existing key is VarAlreadyExists and changes nothing; otherwise the var is appended |
| VarsManagement.VarsManager.RemoveVar | src/HellEngine.Core/Services/Vars/VarsManager.cs:85-94 | a missing key is VarNotFound and changes nothing; otherwise the first var with the key is removed |
| VarsManagement.VarsManager.ClearVars | src/HellEngine.Core/Services/Vars/VarsManager.cs:96-100 | the list becomes empty and the index stays consistent |
| VarsManagement.VarsManager.ContainsVar | src/HellEngine.Core/Services/Vars/VarsManager.cs:102-105 | true exactly when some var has the key |
| VarsManagement.VarsManager.GetVar | src/HellEngine.Core/Services/Vars/VarsManager.cs:107-115 | the last var with the key, or VarNotFound |
| VarsManagement.VarsManager.GetVarAs | src/HellEngine.Core/Services/Vars/VarsManager.cs:117-120 | GetVar with the type check of the cast |
| VarsManagement.VarsManager.GetAllVars | src/HellEngine.Core/Services/Vars/VarsManager.cs:122-131 | all vars in list order, or all but the user-name var |
| TextAssets.PlaceholderShape | src/HellEngine.Core/Services/Assets/TextAssetDataProcessor.cs:24 | a placeholder is exactly "{var=" + a non-empty key of key characters + "}" |
| TextAssets.PlaceholderRecognised | src/HellEngine.Core/Services/Assets/TextAssetDataProcessor.cs:24 | conversely, wherever the text holds "{var=" + a non-empty key of key characters + "}", that placeholder is recognised there, key and length included |
| TextAssets.MatchesArePlaceholders | src/HellEngine.Core/Services/Assets/TextAssetDataProcessor.cs:41 | every match found is a placeholder |
| TextAssets.MatchesUnfold | src/HellEngine.Core/Services/Assets/TextAssetDataProcessor.cs:41 | the matches are the first one followed by the matches from its end on |
| TextAssets.FirstMatchIsNextPlaceholder | src/HellEngine.Core/Services/Assets/TextAssetDataProcessor.cs:41 | the first match is the first placeholder at or after the start position; no placeholder starts before it |
| TextAssets.MatchesInOrder | src/HellEngine.Core/Services/Assets/TextAssetDataProcessor.cs:41-50 | matches run left to right and never overlap |
| TextAssets.VarValue | src/HellEngine.Core/Services/Assets/TextAssetDataProcessor.cs:58-68 | the display string of the var, or "VAR NOT FOUND KEY" for a missing var |
| TextAssets.ReplacementIsSpan | src/HellEngine.Core/Services/Assets/TextAssetDataProcessor.cs:49 | a placeholder becomes the span element of the configured class around the var's value |
| TextAssets.RewriteReplaces | src/HellEngine.Core/Services/Assets/TextAssetDataProcessor.cs:47-50 | a placeholder is replaced and the rewrite resumes after it |
| TextAssets.RewriteCopies | src/HellEngine.Core/Services/Assets/TextAssetDataProcessor.cs:48 | text that does not start a placeholder is copied |
| TextAssets.RewriteToNextMatch | src/HellEngine.Core/Services/Assets/TextAssetDataProcessor.cs:48-50 | the text before the next match is copied verbatim, then the match is replaced |
| TextAssets.NoPlaceholderUnchanged | src/HellEngine.Core/Services/Assets/TextAssetDataProcessor.cs:41-53 | text with no placeholder is returned unchanged |
| TextAssets.MissingVarShownAsNotFound | src/HellEngine.Core/Services/Assets/TextAssetDataProcessor.cs:64-67 | a placeholder for a missing var shows the not-found text in the span |
| TextAssets.GetVarValue | src/HellEngine.Core/Services/Assets/TextAssetDataProcessor.cs:58-68 | the method agrees with VarValue |
| TextAssets.LoopStep | src/HellEngine.Core/Services/Assets/TextAssetDataProcessor.cs:45-50 | one turn of the loop copies the text up to the match and appends its replacement, keeping "built so far + rewrite of the rest = result" |
| TextAssets.SplicedAtEnd | src/HellEngine.Core/Services/Assets/TextAssetDataProcessor.cs:52 | after the last match the rest of the text is copied unchanged and completes the result |
| TextAssets.SpliceVarValues | src/HellEngine.Core/Services/Assets/TextAssetDataProcessor.cs:41-53 | the StringBuilder loop computes the rewrite of the whole text |
| TextAssets.ProcessData | src/HellEngine.Core/Services/Assets/TextAssetDataProcessor.cs:36-56 | the result is the encoded rewrite of the decoded data, with every placeholder replaced by its span |
| SessionIds.SessionIdProvider.constructor | src/HellEngine.Core/Services/Sessions/SessionIdProvider.cs:19 | a new provider holds the empty Guid |
| SessionIds.SessionIdProvider.SetSessionId | src/HellEngine.Core/Services/Sessions/SessionIdProvider.cs:21-24 | the new id replaces the old one |
| SessionIds.SessionIdProvider.GetSessionId | src/HellEngine.Core/Services/Sessions/SessionIdProvider.cs:26-29 | returns the id held and changes nothing |
| Locale.StartingLocale | src/HellEngine.Core/Services/Locale/LocaleManager.cs:35-38 | null options start at "default"; otherwise at the configured starting locale |
| Locale.LocaleManager.constructor | src/HellEngine.Core/Services/Locale/LocaleManager.cs:31-39 | the locale starts as StartingLocale says |
| Locale.LocaleManager.GetLocale | src/HellEngine.Core/Services/Locale/LocaleManager.cs:41-44 | returns the locale and changes nothing |
| Locale.LocaleManager.SetLocale | src/HellEngine.Core/Services/Locale/LocaleManager.cs:46-49 | the locale becomes the given one |
| Sessions.Sweep | src/HellEngine.Core/Services/Sessions/SessionManager.cs:81-99 | the sessions left by a sweep are among the old ones |
| Sessions.TouchChangesOneEntry | src/HellEngine.Core/Services/Sessions/SessionManager.cs:67-79 | an access adds the id if it is missing, keeps a known id's scope, stamps the entry with now, and changes no other entry |
| Sessions.SweepKeepsLive | src/HellEngine.Core/Services/Sessions/SessionManager.cs:29-97 | the sweep keeps, unchanged, exactly the sessions idle for less than ten minutes |
| Sessions.SweepIdempotent | src/HellEngine.Core/Services/Sessions/SessionManager.cs:81-99 | a second sweep at the same time removes nothing more |
| Sessions.TouchedSurvivesSweep | src/HellEngine.Core/Services/Sessions/SessionManager.cs:29-91 | a session accessed at t survives any sweep before t + 10 min |
| Sessions.SessionManager.constructor | src/HellEngine.Core/Services/Sessions/SessionManager.cs:33-34 | the registry starts empty |
| Sessions.SessionManager.CreateSession | src/HellEngine.Core/Services/Sessions/SessionManager.cs:101-113 | adds a fresh scope whose session-id provider holds the id |
| Sessions.SessionManager.GetServiceScope | src/HellEngine.Core/Services/Sessions/SessionManager.cs:67-79 | a known id keeps its scope and an unknown id gets a fresh one; the entry is stamped with now |
| Sessions.SessionManager.GetSession | src/HellEngine.Core/Services/Sessions/SessionManager.cs:49-60 | the session has the requested id and the scope's locale manager; the entry is stamped |
| Sessions.SessionManager.PingSession | src/HellEngine.Core/Services/Sessions/SessionManager.cs:62-65 | only stamps, or creates, the entry |
| Sessions.SessionManager.RemoveSession | src/HellEngine.Core/Services/Sessions/SessionManager.cs:115-119 | the entry is removed and its scope disposed |
| Sessions.SessionManager.CollectExpired | src/HellEngine.Core/Services/Sessions/SessionManager.cs:85-95 | the loop collects exactly the expired ids, each once |
| Sessions.SessionManager.CheckSessionsLifetime | src/HellEngine.Core/Services/Sessions/SessionManager.cs:81-99 | the registry becomes the sweep of the old one, and every removed scope is disposed |
| ScriptServices.DiScope.Dispose | src/HellEngine.Core/Services/Scripting/SdkUtilServiceProvider.cs:24-27 | the scope is disposed |
| ScriptServices.AccessCheck | src/HellEngine.Core/Services/Scripting/SdkServiceProvider.cs:44-55 | passes exactly in unsafe mode or for a marked type; otherwise ServiceAccessDenied for that type |
| ScriptServices.Resolve | src/HellEngine.Core/Services/Scripting/SdkServiceProvider.cs:32-42 | a denied type is ServiceAccessDenied; an allowed one is the scope's own lookup, or ObjectDisposed after disposal |
| ScriptServices.UnsafeModeNeverDenies | src/HellEngine.Core/Services/Scripting/SdkServiceProvider.cs:46-49 | in unsafe mode every type goes straight to the scope |
| ScriptServices.DeniedExactlyWhenUnmarked | src/HellEngine.Core/Services/Scripting/SdkUtilServiceProvider.cs:41-47 | without unsafe mode, an unmarked type is always denied |
| ScriptServices.SdkUtilServiceProvider.GetService | src/HellEngine.Core/Services/Scripting/SdkUtilServiceProvider.cs:29-47 | both overloads: the check against the SDK-util types, then the scope's lookup |
| ScriptServices.SdkUtilServiceProvider.Dispose | src/HellEngine.Core/Services/Scripting/SdkUtilServiceProvider.cs:24-27 | disposes the wrapped scope |
| ScriptServices.SdkServiceProvider.GetService | src/HellEngine.Core/Services/Scripting/SdkServiceProvider.cs:32-55 | both overloads: the check with unsafe mode, then the scope's lookup |
| ScriptServices.SdkServiceProvider.Dispose | src/HellEngine.Core/Services/Scripting/SdkServiceProvider.cs:27-30 | disposes the wrapped scope |
| HellScripts.NewHellScript | src/HellEngine.Core/Services/Scripting/HellScript.cs:11-21 | succeeds exactly with a non-empty name and a script; otherwise Argument("name") first, then ArgumentNull("script"); the script keeps its name, code and context type |
| HellScripts.ContextCheck | src/HellEngine.Core/Services/Scripting/HellScriptContext.cs:22-47 | passes exactly with a non-empty name, a logger and, for the input shapes, an input; the errors come in that order |
| HellScripts.ContextInput | src/HellEngine.Core/Services/Scripting/HellScriptContext.cs:37-47 | the plain context has no input; the others store the given input unchanged |
| HellScripts.HellScriptContext.constructor | src/HellEngine.Core/Services/Scripting/HellScriptContext.cs:16-64 | stores the name, logger, session, provider and input as given; Output starts unset |
| HellScripts.NewContext | src/HellEngine.Core/Services/Scripting/HellScriptContext.cs:16-64 | the context check's error, or a fresh context |
| Scripting.WrongContextTypeNeverRuns | src/HellEngine.Core/Services/Scripting/ScriptHost.cs:247-250 | a script of the wrong context type fails with UnexpectedScriptType whatever the executor does, unless a null input is refused first |
| Scripting.RunResultOfMatchingScript | src/HellEngine.Core/Services/Scripting/ScriptHost.cs:226-256 | a matching script's fault becomes RuntimeScript of it; otherwise the result is the Output for input-and-output scripts and nothing for the others |
| Scripting.RunViewCarriesNameSessionInput | src/HellEngine.Core/Services/Scripting/ScriptHost.cs:188-211 | the script sees its own name, the session asked for, and its input |
| Scripting.RunOutcome | src/HellEngine.Core/Services/Scripting/ScriptHost.cs:225-257 | a script whose context type differs is refused with UnexpectedScriptType once the context is built; a success means the types matched and the run raised no fault; only the input-and-output shape returns a value, and that value is the Output the run left |
| Scripting.ScriptHost.constructor | src/HellEngine.Core/Services/Scripting/ScriptHost.cs:73-87 | no provider has been made yet |
| Scripting.ScriptHost.CreateScript | src/HellEngine.Core/Services/Scripting/ScriptHost.cs:89-147 | succeeds exactly for a non-empty name, and keeps the name, the context type and the compiled code |
| Scripting.ScriptHost.MakeSdkUtilServiceProvider | src/HellEngine.Core/Services/Scripting/ScriptHost.cs:236-239 | a fresh provider over a fresh, undisposed scope of the root services |
| Scripting.ScriptHost.RunScript | src/HellEngine.Core/Services/Scripting/ScriptHost.cs:180-234 | the result is RunOutcome; exactly one fresh provider is made and it is disposed on every path; the session is touched |
| Scripting.ScriptHost.RunWithProvider | src/HellEngine.Core/Services/Scripting/ScriptHost.cs:187-233 | inside the `using` block: the script runs in a context over the provider and the session, the result is RunOutcome, and the provider's scope is disposed on every path |
| Scripting.ScriptHost.RunInContext | src/HellEngine.Core/Services/Scripting/ScriptHost.cs:241-257 | the type check, then the run storing its Output in the context, then fault wrapping |
| StateMachineData.LoadState | src/HellEngine.Core/Services/StateMachine/StateMachineManagerDataService.cs:51-70 | the parsed state; an asset exception becomes StateNotFound wrapping it, a reader exception becomes BadState, and any other error passes through |
| StateMachineData.RunOnEnterStateScript | src/HellEngine.Core/Services/StateMachine/StateMachineManagerDataService.cs:72-94 | a null or empty OnEnter key does nothing; otherwise a failing script read propagates, and the script of that key runs under that name, in the scope's session, with the state as input |
| StateMachineData.RunOnLeaveStateScript | src/HellEngine.Core/Services/StateMachine/StateMachineManagerDataService.cs:96-118 | the same for the OnLeave key and an OnStateLeaveInput |
| StateMachineData.RunOnTransitionScript | src/HellEngine.Core/Services/StateMachine/StateMachineManagerDataService.cs:120-144 | no output for a null or empty OnTransition key; otherwise the read failure, or the result of the script of that key run with the state and the transition, Output included |
| StateMachineData.HooksNamedByAssetKey | src/HellEngine.Core/Services/StateMachine/StateMachineManagerDataService.cs:76-142 | a hook runs only for a set asset key; it is named by that key, runs under the scope's session id, and receives the state (and the transition) |
| StateMachineData.EmptyKeyHooksDoNothing | src/HellEngine.Core/Services/StateMachine/StateMachineManagerDataService.cs:76-129 | with a null or empty key, OnEnter and OnLeave do nothing and OnTransition returns null |
| StateMachineData.HookRunsItsScript | src/HellEngine.Core/Services/StateMachine/StateMachineManagerDataService.cs:82-143 | a hook script is created with the context type it runs with, so it fails only with its own fault, and OnTransition returns the script's Output |
| StateMachine.EffectiveOptions | src/HellEngine.Core/Services/StateMachine/StateMachineManager.cs:43 | null options give the default initial and final keys |
| StateMachine.SingleOrDefaultMeaning | src/HellEngine.Core/Services/StateMachine/StateMachineManager.cs:77 | succeeds exactly with at most one match; two or more give InvalidOperation; none gives no transition; a found one is in the list and has the key |
| StateMachine.FindTransitionMeaning | src/HellEngine.Core/Services/StateMachine/StateMachineManager.cs:77-81 | succeeds exactly with one matching transition; none is TransitionNotFound; duplicates are refused, never resolved to the first |
| StateMachine.FindTransition | src/HellEngine.Core/Services/StateMachine/StateMachineManager.cs:77-81 | a null list is ArgumentNull("source"); a found transition is in the list and has the key; any other failure is TransitionNotFound or the InvalidOperation of a second match |
| StateMachine.NextStateKey | src/HellEngine.Core/Services/StateMachine/StateMachineManager.cs:87 | the output's override when it has one, otherwise the transition's next key |
| StateMachine.EnterStep | src/HellEngine.Core/Services/StateMachine/StateMachineManager.cs:96-114 | a failing OnLeave keeps the current state and runs nothing more; otherwise the state is replaced, OnEnter of a non-null new state runs last and gives the outcome, and its failure does not undo the swap |
| StateMachine.SetStateStep | src/HellEngine.Core/Services/StateMachine/StateMachineManager.cs:48-55 | LoadState comes first; a failing load keeps the current state and runs no hook; after a load the new state is current unless OnLeave failed |
| StateMachine.TransitionStep | src/HellEngine.Core/Services/StateMachine/StateMachineManager.cs:68-89 | without a current state, InvalidOperation and no effect; any effect means a unique transition was found, with OnTransition of it first; the state changes only after LoadState of the next key |
| StateMachine.CountLeavesAppend | src/HellEngine.Core/Services/StateMachine/StateMachineManager.cs:101-106 | OnLeave calls of two effect lists add up |
| StateMachine.TransitionLookupFailureRunsNothing | src/HellEngine.Core/Services/StateMachine/StateMachineManager.cs:72-81 | without a current state, or without exactly one match, no hook runs and the state is kept |
| StateMachine.TransitionEffectOrder | src/HellEngine.Core/Services/StateMachine/StateMachineManager.cs:53-112 | the effects come in order: OnTransition of the old state, LoadState of the next key, OnLeave of the old state, the swap, OnEnter of the new state |
| StateMachine.LeaveRunsAtMostOnce | src/HellEngine.Core/Services/StateMachine/StateMachineManager.cs:101-106 | without leaving, OnLeave never runs; with leaving, it runs once after a successful load, and never without a current state |
| StateMachine.FailuresAndTheCurrentState | src/HellEngine.Core/Services/StateMachine/StateMachineManager.cs:53-112 | a failing load or OnLeave keeps the current state; a failing OnEnter does not undo the swap |
| StateMachine.StateMachineManager.constructor | src/HellEngine.Core/Services/StateMachine/StateMachineManager.cs:36-46 | no current state and no effects |
| StateMachine.StateMachineManager.SetCurrentState | src/HellEngine.Core/Services/StateMachine/StateMachineManager.cs:48-55 | the outcome, state and effects of SetStateStep |
| StateMachine.StateMachineManager.SetInitialState | src/HellEngine.Core/Services/StateMachine/StateMachineManager.cs:57-61 | SetCurrentState of the initial key without leaving |
| StateMachine.StateMachineManager.SetFinalState | src/HellEngine.Core/Services/StateMachine/StateMachineManager.cs:63-66 | SetCurrentState of the final key, leaving the current state |
| StateMachine.StateMachineManager.ApplyTransition | src/HellEngine.Core/Services/StateMachine/StateMachineManager.cs:68-89 | the outcome, state and effects of TransitionStep |
| StateMachine.StateMachineManager.GetCurrentState | src/HellEngine.Core/Services/StateMachine/StateMachineManager.cs:91-94 | the current state, null before any is set, without changing anything |
| StateMachine.StateMachineManager.SetCurrentStateInternal | src/HellEngine.Core/Services/StateMachine/StateMachineManager.cs:96-114 | the outcome, state and effects of EnterStep |
| Assets.AssetLocale | src/HellEngine.Core/Models/Assets/Asset.cs:15-17 | never empty; a null or empty locale becomes "default", any other is kept |
| Assets.AssetLocaleIdempotent | src/HellEngine.Core/Models/Assets/Asset.cs:7-17 | normalising twice changes nothing; the result is "default" exactly when the locale was null, empty or "default" |
| Assets.DefaultLocaleOfBuiltAsset | src/HellEngine.Core/Models/Assets/Asset.cs:7-17 | an asset built for a locale is in the default locale exactly when that locale was null, empty or "default" |
| Assets.Asset.constructor | src/HellEngine.Core/Models/Assets/Asset.cs:12-18 | keeps the descriptor, normalises the locale, and leaves the data unset |
| Assets.Asset.IsDefaultLocale | src/HellEngine.Core/Models/Assets/Asset.cs:7 | true exactly for the "default" locale, which the asset locale normalisation maps to itself |
| Assets.Asset.SetData | src/HellEngine.Core/Models/Assets/Asset.cs:20-24 | sets both the encoding and the data |
| AssetDescriptors.LookupDescriptor | src/HellEngine.Core/Services/Assets/AssetDescriptorsCache.cs:46-54 | a known key gives the stored descriptor; an unknown key is AssetDescriptorNotFound; before Init the lookup fails |
| AssetDescriptors.AssetDescriptorsCache.constructor | src/HellEngine.Core/Services/Assets/AssetDescriptorsCache.cs:27 | no descriptors before Init |
| AssetDescriptors.AssetDescriptorsCache.Init | src/HellEngine.Core/Services/Assets/AssetDescriptorsCache.cs:39-44 | the loaded map replaces the old one |
| AssetDescriptors.AssetDescriptorsCache.GetAssetDescriptor | src/HellEngine.Core/Services/Assets/AssetDescriptorsCache.cs:46-54 | agrees with LookupDescriptor and does not change the map |
| AssetsManagement.DefaultAssetDataEncoding | src/HellEngine.Core/Services/Assets/AssetsManager.cs:280-291 | text and image are base64; state and script are string; any other type is NotSupported |
| AssetsManagement.ValidateAssetType | src/HellEngine.Core/Services/Assets/AssetsManager.cs:248-257 | passes exactly for the expected type; otherwise InvalidAssetType with the key, the expected type and the actual type |
| AssetsManagement.DataPathShape | src/HellEngine.Core/Services/Assets/AssetManagerDataService.cs:63-67 | the localized path is root/data/locale/assetPath, normalised |
| AssetsManagement.GetAssetLocalizedPath | src/HellEngine.Core/Services/Assets/AssetManagerDataService.cs:61-87 | a chosen path always exists; a failure is AssetNotFound with the key, the asset path and the requested locale (the choice itself is LocalizedPathChoice) |
| AssetsManagement.LocalizedPathChoice | src/HellEngine.Core/Services/Assets/AssetManagerDataService.cs:61-87 | the localized file if it exists, else the default-locale file if that exists, else AssetNotFound with the key, the path and the locale; a chosen path always exists |
| AssetsManagement.WrongTypeReadsNoFile | src/HellEngine.Core/Services/Assets/AssetsManager.cs:228-257 | an asset of the wrong type is refused before any file is looked at |
| AssetsManagement.LoadAssetData | src/HellEngine.Core/Services/Assets/AssetsManager.cs:259-278 | loaded data is in the forced encoding, else in the type's default one, and comes from a file the locale rule found |
| AssetsManagement.LoadedDataMeaning | src/HellEngine.Core/Services/Assets/AssetsManager.cs:259-278 | the forced encoding wins over the type's default; string data is the file's bytes as text; base64 data decodes back to those bytes |
| AssetsManagement.AssetsManager.constructor | src/HellEngine.Core/Services/Assets/AssetsManager.cs:83-97 | null options give the defaults; the locale starts as the starting locale |
| AssetsManagement.AssetsManager.Init | src/HellEngine.Core/Services/Assets/AssetsManager.cs:99-104 | the loaded descriptors replace the old ones and the locale is kept |
| AssetsManagement.AssetsManager.GetLocale | src/HellEngine.Core/Services/Assets/AssetsManager.cs:106-109 | returns the locale and changes nothing |
| AssetsManagement.AssetsManager.SetLocale | src/HellEngine.Core/Services/Assets/AssetsManager.cs:111-114 | sets the locale and keeps the descriptors |
| AssetsManagement.AssetsManager.GetAssetDescriptor | src/HellEngine.Core/Services/Assets/AssetsManager.cs:116-124 | agrees with LookupDescriptor |
| AssetsManagement.AssetsManager.GetAssetOf | src/HellEngine.Core/Services/Assets/AssetsManager.cs:222-232 | the type check, then a fresh asset with the descriptor, the current locale, and the loaded data with its encoding |
| AssetsManagement.AssetsManager.GetAsset | src/HellEngine.Core/Services/Assets/AssetsManager.cs:234-246 | the descriptor lookup's error, or GetAssetOf of the descriptor |
| SaveGames.MakeVarInfo | src/HellEngine.Core/Services/GameControl/GameControlService.cs:103-153 | tags each var with its own type and keeps its keys; int and string vars carry a parameter list, a bool var none |
| SaveGames.WrapInt32 | src/HellEngine.Core/Services/GameControl/GameControlService.cs:182-184 | the cast keeps a value in the 32-bit range and otherwise keeps it modulo 2^32 |
| SaveGames.BoolVarDoesNotReload | src/HellEngine.Core/Services/GameControl/GameControlService.cs:129-175 | MakeVar as written refuses the var info MakeVarInfo writes for a bool var |
| SaveGames.MakeVarAgreesWithWritten | src/HellEngine.Core/Services/GameControl/GameControlService.cs:173-206 | the corrected MakeVar agrees with the code wherever a parameter list is present |
| SaveGames.VarInfoRoundTrip | src/HellEngine.Core/Services/GameControl/GameControlService.cs:103-206 | MakeVar undoes MakeVarInfo for every var, up to the set index |
| SaveGames.UnknownTypesRefused | src/HellEngine.Core/Services/GameControl/GameControlService.cs:203-204 | an unknown type tag is an ArgumentException |
| SaveGames.MakeVarAsWritten | src/HellEngine.Core/Services/GameControl/GameControlService.cs:173-206 | a null parameter list is ArgumentNull("source") for every type; a built var has the subtype its tag names, the info's keys and set index 0 |
| SaveGames.MakeVar | src/HellEngine.Core/Services/GameControl/GameControlService.cs:173-206 | the corrected MakeVar: a built var has the subtype its tag names, the info's keys and set index 0; the double tag is NotSupported and an unknown tag ArgumentException |
| SaveGames.VarInfos | src/HellEngine.Core/Services/GameControl/GameControlService.cs:84-90 | one var info per var, in order |
| SaveGames.MakeVars | src/HellEngine.Core/Services/GameControl/GameControlService.cs:162-166 | a successful load has one var per var info, each of the subtype its tag names and with its keys |
| SaveGames.MakeVarsMeaning | src/HellEngine.Core/Services/GameControl/GameControlService.cs:162-166 | succeeds exactly when every var info converts, giving the vars in order; otherwise the first failure |
| SaveGames.ReloadedAll | src/HellEngine.Core/Services/GameControl/GameControlService.cs:162-166 | each var with its set index reset, in order |
| SaveGames.VarInfosRoundTrip | src/HellEngine.Core/Services/GameControl/GameControlService.cs:84-166 | every var list SaveGame writes loads back in order, up to set indexes |
| GameControl.TrailingLineFeedAccepted | src/HellEngine.Core/Services/GameControl/GameControlService.cs:36 | the pattern as written accepts "player\n", which is not a valid name |
| GameControl.AsWrittenAcceptsOneExtraLineFeed | src/HellEngine.Core/Services/GameControl/GameControlService.cs:36 | the pattern accepts exactly the valid names, and the valid names followed by one line feed; no valid name holds a line feed |
| GameControl.CheckUserName | src/HellEngine.Core/Services/GameControl/GameControlService.cs:56-59 | passes exactly for a valid name; null is ArgumentNull("input") and a bad name is Argument("userName") |
| GameControl.SaveOutcome | src/HellEngine.Core/Services/GameControl/GameControlService.cs:82-100 | the user-name error, or NullReference without a current state; otherwise base64 that decodes to the JSON of the record |
| GameControl.SaveThenLoad | src/HellEngine.Core/Services/GameControl/GameControlService.cs:78-166 | a saved game loads back to its user name, state key and non-user-name vars, given JSON and text round trips |
| GameControl.ParseFailures | src/HellEngine.Core/Services/GameControl/GameControlService.cs:157-163 | bad base64 is a format error; a null record is NullReference |
| GameControl.ParseSave | src/HellEngine.Core/Services/GameControl/GameControlService.cs:155-166 | a base64 failure propagates; a parsed game holds the record's user name and state key and exactly the vars its var infos convert to |
| GameControl.GameSession.constructor | src/HellEngine.Core/Models/Session.cs:13 | pairs the session's vars manager and state machine |
| GameControl.GameControlService.constructor | src/HellEngine.Core/Services/GameControl/GameControlService.cs:38-46 | keeps the session manager, the encoder's codec and the JSON functions |
| GameControl.GameControlService.GetCurrentGameState | src/HellEngine.Core/Services/GameControl/GameControlService.cs:48-52 | touches the session and returns the current state |
| GameControl.GameControlService.StartGame | src/HellEngine.Core/Services/GameControl/GameControlService.cs:54-64 | a bad name fails before the session is touched and changes nothing; otherwise the vars become the user-name var alone and the initial state is entered without leaving |
| GameControl.GameControlService.ExitGame | src/HellEngine.Core/Services/GameControl/GameControlService.cs:66-70 | touches the session and sets the final state, leaving the current one |
| GameControl.GameControlService.Transition | src/HellEngine.Core/Services/GameControl/GameControlService.cs:72-76 | touches the session and applies the transition |
| GameControl.GameControlService.SaveGame | src/HellEngine.Core/Services/GameControl/GameControlService.cs:78-101 | touches the session and returns SaveOutcome of the game, without changing the game |
| GameControl.GameControlService.LoadGame | src/HellEngine.Core/Services/GameControl/GameControlService.cs:155-171 | a bad file changes nothing; otherwise the vars become the user-name var followed by the loaded ones, and the saved state is set without leaving |
| GameControl.CollectVarInfos | src/HellEngine.Core/Services/GameControl/GameControlService.cs:84-90 | the loop computes VarInfos |
| GameControl.CollectVars | src/HellEngine.Core/Services/GameControl/GameControlService.cs:162-166 | the loop computes MakeVars, stopping at the first failure |

## Left out

- Roslyn compilation and execution (`CSharpScript.Create`, `MakeScriptOptions`, `RunAsync`). A compiled script is an opaque value, and the executor is a function that returns a fault or the Output the script left. Compilation errors are not modelled.
- What a script does to the session while it runs (vars, locale) is outside the model.
- Dependency injection and attribute reflection. A scope is a `DiScope` object with a lookup function. "Marked with SdkServiceAttribute or SdkUtilServiceAttribute" is membership in a given set of type names.
- The generic context-type check of `RunScript<T>` compares the script's type parameter with the context's. Here both are `ContextType` values and the check is an equality. With C# generics the check can only fail through casts, while here it is reachable.
- Locks, the lifetime-check timer and `DateTime.Now`. Time is the `now` parameter, in ticks.
- File I/O (`LoadDescriptorsAsync`, `ReadAssetBytesAsync`, `AssetDescriptorsCacheDataService`). The descriptors map is the argument of `Init`, and the file system is an existence predicate plus a byte reader.
- JSON (Newtonsoft). State parsing is the `StateRead` outcome of the state reader, and save files use a pair of serialise and deserialise functions.
- Json.NET's conversion of date-like strings in a var value is not modelled: a JSON string value is always a string.
- The text encoding (`StringEncoder`) is an abstract pair of functions between bytes and text.
- Base64Encoder.Decode: whitespace inside the input, which .NET skips, is not modelled; such input is a format error here.
- `DoubleVar`, double values and double parameters. A save file with the double tag is refused with NotSupported.
- SaveGames.MakeVarInfo: the parameter lists hold null. The int limits and the string maximum length belong to var members that this revision of the var records does not declare.
- SaveGames.MakeVar: the source calls var constructors with arguments from another revision of the var records. Here it builds the var with set index 0 from the key, the name asset key and the value, after the same casts of the parameters.
- SaveGames.VarInfoRoundTrip: the set index is not saved, so a var comes back with set index 0.
- Sorting vars by `SetIndex`: the list is returned in insertion order, as the code does.
- The session façade: `Session` here holds the id and the locale manager. `GetSession` also fills in the scope's assets manager, which this `Session` leaves out. The vars manager and the state machine that `GameControlService` takes from the session are neither filled in by `GetSession` nor (for the state machine) declared on `Session` in this revision; they are passed to `GameControlService` as a `GameSession`, which holds only those two.
- A hook run inside the state-machine data service is a function of the data service. It does not create a provider or touch the session registry, which `Scripting.ScriptHost.RunScript` models separately.
- Null state keys, null transition keys and null transition lists inside a key lookup are not modelled, except for a null transition list (ArgumentNull("source")) and a null saved state key (ArgumentNull("key") after the vars are reset).
- GameControl.GameControlService.StartGame: checks the user name with the corrected pattern (`GameControl.CheckUserName`), so "player\n", which the source accepts, is refused here; see the first row of "## Findings".
- GameControl.GameControlService.LoadGame: builds the vars with the corrected `SaveGames.MakeVar`, so a save holding a bool var loads here, where the source throws ArgumentNullException; see the second row of "## Findings". `CollectVars`, `ParseSave` and `SaveThenLoad` use the same corrected definition.
- GameControl.GameControlService.LoadGame: a null element of `VarsInfo` (a NullReferenceException at `varInfo.Parameters`) and a var info whose key is null cannot be written in the model, since `VarInfo.key` is a `string` and the var-info list holds no nulls. The source lets a null key through MakeVar; `VarsManager.Init` then has already replaced the list when the index rebuild throws ArgumentNullException, leaving the session with the new vars, a stale index and its old state. That partial update is not modelled.
- StateMachineData.LoadState, StateMachineData.RunOnEnterStateScript, StateMachineData.RunOnLeaveStateScript and StateMachineData.RunOnTransitionScript: the source passes `localeManager.GetLocale()` as the second argument of `GetStateAsset` and `GetScriptAsset`, whose parameter there is an `AssetDataEncoding?` (another revision of the assets manager). The model reads the asset under the scope's locale (`DataService.locale`). The assets manager shown here would instead use its own locale field and the type's default encoding.
- Vars.DisplayString: the decimal text of an int is the invariant-culture form (ASCII '-' and digits); `Int32.ToString()` follows the current culture.
- VarsManagement.VarsManager.GetAllVars: returns a snapshot of the list; the source returns a lazy `Where` over the live list, which later mutations would show through.
- Logging, cancellation tokens, `ManagedThreadId`, `HelloWorlder` and the dummy SDK models.
- The default value of the asset's `DataEncoding` before `SetData` is modelled as unset rather than as the first enum member.

## Findings

| source | as written | input that shows it | evidently intended | confidence | as-written member | corrected member |
|---|---|---|---|---|---|---|
| src/HellEngine.Core/Services/GameControl/GameControlService.cs:36 | the user-name pattern ends in `$`, which in .NET also matches before a final line feed | "player\n" passes the check and becomes the user name | only letters, digits, '.', '-' and '_' (anchor `\z`) | high; not executed | GameControl.TrailingLineFeedAccepted | GameControl.CheckUserName |
| src/HellEngine.Core/Services/GameControl/GameControlService.cs:129-175 | MakeVarInfo leaves `Parameters` null for a bool var, and MakeVar calls `Parameters.ToList()` for every var | a save that holds a bool var fails to load with ArgumentNullException | a missing parameter list reads as empty, since a bool var has no parameters | high; not executed | SaveGames.BoolVarDoesNotReload | SaveGames.VarInfoRoundTrip |
