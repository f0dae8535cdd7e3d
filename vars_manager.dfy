/** VarsManager: the per-session list of game variables, with a key index that
  * is rebuilt after every change and always points at the LAST var of a key. */
module VarsManagement {
  import opened Wrappers
  import opened Models
  import opened Errors
  import opened Vars

  datatype VarsManagerOptions = VarsManagerOptions(
    userNameVarKey: string := DefaultUserNameVarKey,
    userNameVarNameAssetKey: string := DefaultUserNameVarNameAssetKey)

  predicate HasKey(vars: seq<Var>, key: string)
  {
    exists i :: 0 <= i < |vars| && vars[i].key == key
  }

  /** The index RebuildIndex computes: each key maps to the position of its last var. */
  function LastIndex(vars: seq<Var>): map<string, nat>
    decreases |vars|
  {
    if vars == [] then map[]
    else LastIndex(vars[..|vars| - 1])[vars[|vars| - 1].key := |vars| - 1]
  }

  /** Reference lookup: the last var with the key, or VarNotFound. */
  function Find(vars: seq<Var>, key: string): (r: Result<Var, Error>)
    ensures r.Success? <==> HasKey(vars, key)
    ensures r.Success? ==> r.value.key == key && r.value in vars
    ensures r.Failure? ==> r.error == VarNotFound(key)
    decreases |vars|
  {
    if vars == [] then Failure(VarNotFound(key))
    else if vars[|vars| - 1].key == key then Success(vars[|vars| - 1])
    else
      var r := Find(vars[..|vars| - 1], key);
      assert HasKey(vars, key) ==> HasKey(vars[..|vars| - 1], key);
      r
  }

  /** The index holds exactly the keys present, each at a var with that key, and
    * no later var has the same key. */
  lemma {:induction false} LastIndexIsLast(vars: seq<Var>, key: string)
    ensures key in LastIndex(vars) <==> HasKey(vars, key)
    ensures key in LastIndex(vars) ==>
      var p := LastIndex(vars)[key];
      p < |vars| && vars[p].key == key && Find(vars, key) == Success(vars[p])
      && forall j :: p < j < |vars| ==> vars[j].key != key
    decreases |vars|
  {
    if vars != [] {
      var init := vars[..|vars| - 1];
      LastIndexIsLast(init, key);
      assert HasKey(vars, key) ==> HasKey(init, key) || vars[|vars| - 1].key == key;
      assert HasKey(init, key) ==> HasKey(vars, key);
    }
  }

  /** The vars with the key removed, in order (GetAllVars(false)). */
  function Without(vars: seq<Var>, key: string): (r: seq<Var>)
    ensures forall v :: v in r <==> v in vars && v.key != key
    ensures |r| <= |vars|
  {
    if vars == [] then []
    else (if vars[0].key == key then [] else [vars[0]]) + Without(vars[1..], key)
  }

  /** The position of the first var with the key (List.Find). */
  function FirstPosition(vars: seq<Var>, key: string): (p: nat)
    requires HasKey(vars, key)
    ensures p < |vars| && vars[p].key == key
    ensures forall j :: 0 <= j < p ==> vars[j].key != key
  {
    if vars[0].key == key then 0
    else
      assert HasKey(vars[1..], key) by {
        var i :| 0 <= i < |vars| && vars[i].key == key;
        assert vars[1..][i - 1].key == key;
      }
      1 + FirstPosition(vars[1..], key)
  }

  /** The list after RemoveVar(key): the first var with the key taken out. */
  function RemoveFirst(vars: seq<Var>, key: string): (r: seq<Var>)
    requires HasKey(vars, key)
    ensures |r| == |vars| - 1
    ensures forall j :: 0 <= j < |r| ==> r[j] == vars[if j < FirstPosition(vars, key) then j else j + 1]
  {
    var p := FirstPosition(vars, key);
    vars[..p] + vars[p + 1..]
  }

  /** Removing takes out exactly one var, the first with the key, and keeps the
    * others in order. */
  lemma RemoveFirstRemovesOne(vars: seq<Var>, key: string)
    requires HasKey(vars, key)
    ensures |RemoveFirst(vars, key)| == |vars| - 1
    ensures multiset(RemoveFirst(vars, key)) + multiset{vars[FirstPosition(vars, key)]} == multiset(vars)
  {
    RemoveAt(vars, FirstPosition(vars, key));
  }

  lemma RemoveAt<T>(s: seq<T>, p: nat)
    requires p < |s|
    ensures |s[..p] + s[p + 1..]| == |s| - 1
    ensures multiset(s[..p] + s[p + 1..]) + multiset{s[p]} == multiset(s)
  {
    assert s == s[..p] + [s[p]] + s[p + 1..];
  }

  /** After removal the key is still present exactly when it had a second var. */
  lemma RemoveFirstKeepsDuplicate(vars: seq<Var>, key: string)
    requires HasKey(vars, key)
    ensures HasKey(RemoveFirst(vars, key), key)
        <==> exists i, j :: 0 <= i < j < |vars| && vars[i].key == key && vars[j].key == key
  {
    var p := FirstPosition(vars, key);
    var r := RemoveFirst(vars, key);
    if HasKey(r, key) {
      RemainingKeyWasDuplicate(vars, key, p, r);
    } else if exists i, j :: 0 <= i < j < |vars| && vars[i].key == key && vars[j].key == key {
      DuplicateRemains(vars, key, p, r);
    }
  }

  lemma DuplicateRemains(vars: seq<Var>, key: string, p: nat, r: seq<Var>)
    requires p < |vars| && vars[p].key == key && forall j :: 0 <= j < p ==> vars[j].key != key
    requires r == vars[..p] + vars[p + 1..]
    requires exists i, j :: 0 <= i < j < |vars| && vars[i].key == key && vars[j].key == key
    ensures HasKey(r, key)
  {
    var i, j :| 0 <= i < j < |vars| && vars[i].key == key && vars[j].key == key;
    assert r[j - 1] == vars[j];
  }

  lemma RemainingKeyWasDuplicate(vars: seq<Var>, key: string, p: nat, r: seq<Var>)
    requires p < |vars| && vars[p].key == key && forall j :: 0 <= j < p ==> vars[j].key != key
    requires r == vars[..p] + vars[p + 1..]
    requires HasKey(r, key)
    ensures exists i, j :: 0 <= i < j < |vars| && vars[i].key == key && vars[j].key == key
  {
    var k :| 0 <= k < |r| && r[k].key == key;
    assert r[k] == vars[k + 1];
  }

  /** The var Init puts first: the user name, under the configured keys. */
  function UserNameVar(options: VarsManagerOptions, userName: NullableString): Var
  {
    StringVar(options.userNameVarKey, options.userNameVarNameAssetKey, 0, userName)
  }

  /** GetVar<TVar>: the var, cast to the requested type. */
  function FindAs(vars: seq<Var>, key: string, t: VarType): (r: Result<Var, Error>)
    ensures r.Success? ==> r.value.Type() == t && r == Find(vars, key)
    ensures Find(vars, key).Failure? ==> r == Find(vars, key)
    ensures Find(vars, key).Success? && Find(vars, key).value.Type() != t ==> r == Failure(InvalidCast)
  {
    var v :- Find(vars, key);
    if v.Type() == t then Success(v) else Failure(InvalidCast)
  }

  /** GetUserName: the value of the user-name var, which must be a StringVar. */
  function UserName(vars: seq<Var>, options: VarsManagerOptions): Result<NullableString, Error>
  {
    var v :- FindAs(vars, options.userNameVarKey, StringVarType);
    Success(v.stringValue)
  }

  /** After Init(userName, initial), GetUserName returns userName, unless the initial
    * list itself carries a var under the user-name key (the last var of a key wins). */
  lemma {:induction false} UserNameAfterInit(options: VarsManagerOptions, userName: NullableString, initial: seq<Var>)
    ensures !HasKey(initial, options.userNameVarKey) ==>
      UserName([UserNameVar(options, userName)] + initial, options) == Success(userName)
    ensures HasKey(initial, options.userNameVarKey) ==>
      Find([UserNameVar(options, userName)] + initial, options.userNameVarKey) == Find(initial, options.userNameVarKey)
    decreases |initial|
  {
    var key := options.userNameVarKey;
    var all := [UserNameVar(options, userName)] + initial;
    if initial != [] {
      var last := initial[|initial| - 1];
      assert all[..|all| - 1] == [UserNameVar(options, userName)] + initial[..|initial| - 1];
      UserNameAfterInit(options, userName, initial[..|initial| - 1]);
      if last.key != key {
        assert HasKey(initial, key) ==> HasKey(initial[..|initial| - 1], key);
      }
    }
  }

  class VarsManager {
    const options: VarsManagerOptions
    var vars: seq<Var>
    var index: map<string, nat>

    ghost predicate Valid()
      reads this
    {
      index == LastIndex(vars)
    }

    /** A null options value falls back to the defaults. */
    constructor(options: Option<VarsManagerOptions>)
      ensures this.options == options.UnwrapOr(VarsManagerOptions())
      ensures vars == [] && Valid()
    {
      this.options := options.UnwrapOr(VarsManagerOptions());
      vars := [];
      index := map[];
    }

    /** GetVar's lookup through the index; it agrees with the reference lookup. */
    function Lookup(key: string): (r: Result<Var, Error>)
      reads this
      requires Valid()
      ensures r == Find(vars, key)
    {
      LastIndexIsLast(vars, key);
      if key in index then Success(vars[index[key]]) else Failure(VarNotFound(key))
    }

    method RebuildIndex()
      modifies this`index
      ensures Valid()
    {
      index := map[];
      for i := 0 to |vars|
        invariant index == LastIndex(vars[..i])
      {
        assert vars[..i + 1][..i] == vars[..i];
        index := index[vars[i].key := i];
      }
      assert vars[..|vars|] == vars;
    }

    /** Init(userName, initial): the user-name var first, then the given vars (none for null). */
    method Init(userName: NullableString, initial: Option<seq<Var>>)
      modifies this
      ensures vars == [UserNameVar(options, userName)] + initial.UnwrapOr([])
      ensures Valid()
    {
      vars := [UserNameVar(options, userName)];
      if initial.Some? {
        vars := vars + initial.value;
      }
      RebuildIndex();
    }

    method GetUserName() returns (r: Result<NullableString, Error>)
      requires Valid()
      ensures r == UserName(vars, options)
    {
      var v := GetVarAs(options.userNameVarKey, StringVarType);
      if v.Failure? {
        return Failure(v.error);
      }
      return Success(v.value.stringValue);
    }

    /** AddVar refuses a key that is already present and otherwise appends. */
    method AddVar(v: Var) returns (r: Outcome<Error>)
      requires Valid()
      modifies this
      ensures Valid()
      ensures HasKey(old(vars), v.key) ==> r == Fail(VarAlreadyExists(v.key)) && vars == old(vars)
      ensures !HasKey(old(vars), v.key) ==> r == Pass && vars == old(vars) + [v]
    {
      var present := ContainsVar(v.key);
      if present {
        return Fail(VarAlreadyExists(v.key));
      }
      vars := vars + [v];
      RebuildIndex();
      return Pass;
    }

    /** RemoveVar fails for an absent key and otherwise removes the first var with it. */
    method RemoveVar(key: string) returns (r: Outcome<Error>)
      requires Valid()
      modifies this
      ensures Valid()
      ensures !HasKey(old(vars), key) ==> r == Fail(VarNotFound(key)) && vars == old(vars)
      ensures HasKey(old(vars), key) ==> r == Pass && vars == RemoveFirst(old(vars), key)
    {
      var present := ContainsVar(key);
      if !present {
        return Fail(VarNotFound(key));
      }
      vars := RemoveFirst(vars, key);
      RebuildIndex();
      return Pass;
    }

    method ClearVars()
      modifies this
      ensures vars == [] && Valid()
    {
      vars := [];
      RebuildIndex();
    }

    method ContainsVar(key: string) returns (r: bool)
      requires Valid()
      ensures r <==> HasKey(vars, key)
    {
      LastIndexIsLast(vars, key);
      return key in index;
    }

    method GetVar(key: string) returns (r: Result<Var, Error>)
      requires Valid()
      ensures r == Find(vars, key)
    {
      var present := ContainsVar(key);
      if !present {
        return Failure(VarNotFound(key));
      }
      LastIndexIsLast(vars, key);
      return Success(vars[index[key]]);
    }

    method GetVarAs(key: string, t: VarType) returns (r: Result<Var, Error>)
      requires Valid()
      ensures r == FindAs(vars, key, t)
    {
      r := GetVar(key);
      if r.Success? && r.value.Type() != t {
        r := Failure(InvalidCast);
      }
    }

    /** GetAllVars: every var in list order, or all but the user-name var. */
    method GetAllVars(includeUserName: bool := true) returns (r: seq<Var>)
      ensures includeUserName ==> r == vars
      ensures !includeUserName ==> r == Without(vars, options.userNameVarKey)
    {
      if includeUserName {
        return vars;
      }
      return Without(vars, options.userNameVarKey);
    }
  }
}
