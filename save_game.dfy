/** The save-file form of the game variables: each var becomes a VarInfo (a type tag,
  * its keys and its value as a JSON value) and a VarInfo becomes a var again on load.
  * JSON itself is left abstract; a JSON value is what Json.NET hands back in an
  * `object` slot (null, a 64-bit integer, a boolean or a string). */
module SaveGames {
  import opened Wrappers
  import opened Models
  import opened Errors
  import opened Vars

  datatype JsonValue = JsonNull | JsonInteger(i: int) | JsonBool(b: bool) | JsonString(s: string)

  /** VarInfo.Type: the VarType enum (IntVar, DoubleVar, BoolVar, StringVar), which a
    * save file may also fill with any other number. */
  datatype VarInfoType = IntVarInfo | DoubleVarInfo | BoolVarInfo | StringVarInfo | UnknownVarInfo(code: int)

  /** VarInfo; Parameters is null when MakeVarInfo does not set it. */
  datatype VarInfo = VarInfo(
    varType: VarInfoType,
    key: string,
    nameAssetKey: string,
    value: JsonValue,
    parameters: Option<seq<JsonValue>>)

  /** MakeVarInfo: the var's type tag, keys and value. An int var carries its two limits
    * and a string var its maximum length as parameters (those var members are not part
    * of this model and are written as null); a bool var carries no parameter list. */
  function MakeVarInfo(v: Var): (r: VarInfo)
    ensures r.key == v.key && r.nameAssetKey == v.nameAssetKey
    ensures v.IntVar? ==> r.varType == IntVarInfo && r.parameters == Some([JsonNull, JsonNull])
    ensures v.BoolVar? ==> r.varType == BoolVarInfo && r.parameters.None?
    ensures v.StringVar? ==> r.varType == StringVarInfo && r.parameters == Some([JsonNull])
  {
    match v
    case IntVar(key, nameAssetKey, _, value) =>
      VarInfo(IntVarInfo, key, nameAssetKey, if value.Some? then JsonInteger(value.value as int) else JsonNull,
              Some([JsonNull, JsonNull]))
    case BoolVar(key, nameAssetKey, _, value) =>
      VarInfo(BoolVarInfo, key, nameAssetKey, if value.Some? then JsonBool(value.value) else JsonNull, None)
    case StringVar(key, nameAssetKey, _, value) =>
      VarInfo(StringVarInfo, key, nameAssetKey, if value.Some? then JsonString(value.value) else JsonNull,
              Some([JsonNull]))
  }

  /** The unchecked conversion of a 64-bit integer to a 32-bit one: the low 32 bits,
    * read as two's complement. */
  function WrapInt32(i: int): (r: int32)
    ensures -0x8000_0000 <= i < 0x8000_0000 ==> r as int == i
    ensures (r as int - i) % 0x1_0000_0000 == 0
  {
    var m := i % 0x1_0000_0000;
    (if m >= 0x8000_0000 then m - 0x1_0000_0000 else m) as int32
  }

  /** `(int?)(long?)value`: null stays null; a boxed 64-bit integer is narrowed; anything
    * else is an invalid cast. */
  function AsInt(value: JsonValue): Result<Option<int32>, Error>
  {
    match value
    case JsonNull => Success(None)
    case JsonInteger(i) =>
      if -0x8000_0000_0000_0000 <= i < 0x8000_0000_0000_0000 then Success(Some(WrapInt32(i))) else Failure(InvalidCast)
    case _ => Failure(InvalidCast)
  }

  /** `(bool?)value` */
  function AsBool(value: JsonValue): Result<Option<bool>, Error>
  {
    match value
    case JsonNull => Success(None)
    case JsonBool(b) => Success(Some(b))
    case _ => Failure(InvalidCast)
  }

  /** `(string)value` */
  function AsString(value: JsonValue): Result<NullableString, Error>
  {
    match value
    case JsonNull => Success(None)
    case JsonString(s) => Success(Some(s))
    case _ => Failure(InvalidCast)
  }

  /** `parameters[index]` */
  function Parameter(parameters: seq<JsonValue>, index: nat): Result<JsonValue, Error>
  {
    if index < |parameters| then Success(parameters[index]) else Failure(ArgumentOutOfRange("index"))
  }

  /** A var built from a VarInfo: the subtype its tag names, its two keys, and the
    * default set index. */
  predicate Made(info: VarInfo, v: Var)
  {
    && v.key == info.key && v.nameAssetKey == info.nameAssetKey && v.setIndex == 0
    && (v.IntVar? <==> info.varType.IntVarInfo?)
    && (v.BoolVar? <==> info.varType.BoolVarInfo?)
    && (v.StringVar? <==> info.varType.StringVarInfo?)
  }

  /** The switch of MakeVar over an already materialised parameter list: the arguments
    * are converted left to right, and the var is built with the default set index. */
  function MakeVarFrom(info: VarInfo, parameters: seq<JsonValue>): Result<Var, Error>
  {
    match info.varType
    case IntVarInfo =>
      var value :- AsInt(info.value);
      var minValue :- Parameter(parameters, 0);
      var _ :- AsInt(minValue);
      var maxValue :- Parameter(parameters, 1);
      var _ :- AsInt(maxValue);
      Success(IntVar(info.key, info.nameAssetKey, 0, value))
    case DoubleVarInfo => Failure(NotSupported)
    case BoolVarInfo =>
      var value :- AsBool(info.value);
      Success(BoolVar(info.key, info.nameAssetKey, 0, value))
    case StringVarInfo =>
      var value :- AsString(info.value);
      var maxLength :- Parameter(parameters, 0);
      var _ :- AsInt(maxLength);
      Success(StringVar(info.key, info.nameAssetKey, 0, value))
    case UnknownVarInfo(_) => Failure(Argument("varInfo"))
  }

  /** MakeVar as written: `varInfo.Parameters.ToList()` comes first, for every type, so a
    * null parameter list is an ArgumentNullException. */
  function MakeVarAsWritten(info: VarInfo): (r: Result<Var, Error>)
    ensures info.parameters.None? ==> r == Failure(ArgumentNull("source"))
    ensures r.Success? ==> info.parameters.Some? && Made(info, r.value)
  {
    if info.parameters.None? then Failure(ArgumentNull("source"))
    else MakeVarFrom(info, info.parameters.value)
  }

  /** A bool var saved by MakeVarInfo cannot be loaded by MakeVar as written. */
  lemma BoolVarDoesNotReload()
    ensures MakeVarAsWritten(MakeVarInfo(BoolVar("flag", "vars.flag", 0, Some(true)))) == Failure(ArgumentNull("source"))
  {
  }

  /** MakeVar as intended: a missing parameter list reads as an empty one, which is all
    * a bool var needs. */
  function MakeVar(info: VarInfo): (r: Result<Var, Error>)
    ensures r.Success? ==> Made(info, r.value)
    ensures info.varType.DoubleVarInfo? ==> r == Failure(NotSupported)
    ensures info.varType.UnknownVarInfo? ==> r == Failure(Argument("varInfo"))
  {
    MakeVarFrom(info, info.parameters.UnwrapOr([]))
  }

  /** The two agree wherever the parameter list is present. */
  lemma MakeVarAgreesWithWritten(info: VarInfo)
    requires info.parameters.Some?
    ensures MakeVar(info) == MakeVarAsWritten(info)
  {
  }

  /** What a save and a load keep of a var: everything but the set index, which the save
    * file does not hold. */
  function Reloaded(v: Var): Var
  {
    v.(setIndex := 0)
  }

  /** MakeVar undoes MakeVarInfo for every var, up to the set index; MakeVar refuses the
    * type tags it has no case for. */
  lemma VarInfoRoundTrip(v: Var)
    ensures MakeVar(MakeVarInfo(v)) == Success(Reloaded(v))
  {
    if v.IntVar? && v.intValue.Some? {
      assert AsInt(JsonInteger(v.intValue.value as int)) == Success(Some(v.intValue.value));
    }
  }

  lemma UnknownTypesRefused(info: VarInfo)
    ensures info.varType.UnknownVarInfo? ==> MakeVar(info) == Failure(Argument("varInfo"))
    ensures info.varType.UnknownVarInfo? && info.parameters.Some? ==> MakeVarAsWritten(info) == Failure(Argument("varInfo"))
  {
  }

  /** The VarInfos SaveGame writes, one per var, in order. */
  function VarInfos(vars: seq<Var>): (r: seq<VarInfo>)
    ensures |r| == |vars|
    ensures forall i :: 0 <= i < |vars| ==> r[i] == MakeVarInfo(vars[i])
  {
    if vars == [] then [] else [MakeVarInfo(vars[0])] + VarInfos(vars[1..])
  }

  /** The vars LoadGame builds, in order; the first failing VarInfo fails the load. */
  function MakeVars(infos: seq<VarInfo>): (r: Result<seq<Var>, Error>)
    ensures r.Success? ==> |r.value| == |infos| && forall i :: 0 <= i < |infos| ==> Made(infos[i], r.value[i])
  {
    if infos == [] then Success([])
    else
      var v :- MakeVar(infos[0]);
      var rest :- MakeVars(infos[1..]);
      Success([v] + rest)
  }

  /** MakeVars succeeds exactly when every VarInfo converts, and then holds the converted
    * vars in order; otherwise it reports the first failure. */
  lemma {:induction false} MakeVarsMeaning(infos: seq<VarInfo>)
    ensures MakeVars(infos).Success? <==> forall i :: 0 <= i < |infos| ==> MakeVar(infos[i]).Success?
    ensures MakeVars(infos).Success? ==>
      |MakeVars(infos).value| == |infos|
      && forall i :: 0 <= i < |infos| ==> MakeVar(infos[i]) == Success(MakeVars(infos).value[i])
    ensures MakeVars(infos).Failure? ==>
      exists k :: 0 <= k < |infos| && MakeVar(infos[k]) == Failure(MakeVars(infos).error)
                  && forall j :: 0 <= j < k ==> MakeVar(infos[j]).Success?
  {
    if infos != [] {
      MakeVarsMeaning(infos[1..]);
      assert forall i :: 1 <= i < |infos| ==> infos[i] == infos[1..][i - 1];
      if MakeVar(infos[0]).Success? && MakeVars(infos[1..]).Failure? {
        var k :| 0 <= k < |infos[1..]| && MakeVar(infos[1..][k]) == Failure(MakeVars(infos[1..]).error)
                 && forall j :: 0 <= j < k ==> MakeVar(infos[1..][j]).Success?;
        assert MakeVar(infos[k + 1]) == Failure(MakeVars(infos).error);
        assert forall j :: 0 <= j < k + 1 ==> MakeVar(infos[j]).Success?;
      }
    }
  }

  function ReloadedAll(vars: seq<Var>): (r: seq<Var>)
    ensures |r| == |vars|
    ensures forall i :: 0 <= i < |vars| ==> r[i] == Reloaded(vars[i])
  {
    if vars == [] then [] else [Reloaded(vars[0])] + ReloadedAll(vars[1..])
  }

  /** Every list of vars SaveGame writes is loaded back, in order, up to set indexes. */
  lemma {:induction false} VarInfosRoundTrip(vars: seq<Var>)
    ensures MakeVars(VarInfos(vars)) == Success(ReloadedAll(vars))
  {
    if vars != [] {
      VarInfoRoundTrip(vars[0]);
      assert VarInfos(vars)[1..] == VarInfos(vars[1..]);
      VarInfosRoundTrip(vars[1..]);
    }
  }
}
