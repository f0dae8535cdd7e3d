/** Game variables: typed values with a key, a name asset key and a set index,
  * and the display text each kind renders into a text asset. */
module Vars {
  import opened Wrappers
  import opened Models

  /** The text shown for a variable without a value (AbstractVar.Null). */
  const NullText: string := "null"

  /** The concrete var classes, in the order of the save-file discriminator. */
  datatype VarType = IntVarType | DoubleVarType | BoolVarType | StringVarType

  /** A variable; the constructors take the set index and the value as optional
    * arguments, as the C# constructors do, and store every argument unchanged. */
  datatype Var =
    | IntVar(key: string, nameAssetKey: string, setIndex: uint32 := 0, intValue: Option<int32> := None)
    | BoolVar(key: string, nameAssetKey: string, setIndex: uint32 := 0, boolValue: Option<bool> := None)
    | StringVar(key: string, nameAssetKey: string, setIndex: uint32 := 0, stringValue: NullableString := None)
  {
    function Type(): VarType
    {
      match this
      case IntVar(_, _, _, _) => IntVarType
      case BoolVar(_, _, _, _) => BoolVarType
      case StringVar(_, _, _, _) => StringVarType
    }
  }

  function DigitChar(d: int): (c: char)
    requires 0 <= d < 10
    ensures IsDigit(c)
  {
    ('0' as int + d) as char
  }

  predicate IsDigit(c: char)
  {
    '0' <= c <= '9'
  }

  predicate AllDigits(s: string)
  {
    forall i :: 0 <= i < |s| ==> IsDigit(s[i])
  }

  /** The decimal digits of n, without leading zeros. */
  function NatDigits(n: nat): (r: string)
    ensures |r| >= 1 && AllDigits(r)
    ensures |r| > 1 ==> r[0] != '0'
    decreases n
  {
    if n < 10 then [DigitChar(n)] else NatDigits(n / 10) + [DigitChar(n % 10)]
  }

  /** Int32.ToString(): an optional minus sign, then the digits. */
  function DecimalText(i: int): string
  {
    if i < 0 then "-" + NatDigits(-i) else NatDigits(i)
  }

  /** The value of a non-empty run of decimal digits. */
  function DigitsValue(s: string): nat
    requires |s| >= 1 && AllDigits(s)
    decreases |s|
  {
    var last := s[|s| - 1] as int - '0' as int;
    if |s| == 1 then last else DigitsValue(s[..|s| - 1]) * 10 + last
  }

  /** Reference reading of decimal text: an optional minus sign and at least one digit. */
  function ParseDecimal(s: string): Option<int>
  {
    if |s| >= 2 && s[0] == '-' && AllDigits(s[1..]) then Some(-(DigitsValue(s[1..]) as int))
    else if |s| >= 1 && AllDigits(s) then Some(DigitsValue(s))
    else None
  }

  lemma {:induction false} DigitsValueOfNatDigits(n: nat)
    ensures DigitsValue(NatDigits(n)) == n
    decreases n
  {
    if n >= 10 {
      var r := NatDigits(n);
      assert r[..|r| - 1] == NatDigits(n / 10);
      DigitsValueOfNatDigits(n / 10);
    }
  }

  /** The decimal text of an integer reads back as that integer. */
  lemma DecimalTextParses(i: int)
    ensures ParseDecimal(DecimalText(i)) == Some(i)
  {
    var r := DecimalText(i);
    if i < 0 {
      var digits := NatDigits(-i);
      assert r == "-" + digits;
      assert r[1..] == digits;
      DigitsValueOfNatDigits(-i);
    } else {
      assert IsDigit(r[0]);
      DigitsValueOfNatDigits(i);
    }
  }

  /** DisplayString: the value's text, or "null" when there is no value. */
  function DisplayString(v: Var): (r: string)
    ensures (v.IntVar? && v.intValue.None?) || (v.BoolVar? && v.boolValue.None?) || (v.StringVar? && v.stringValue.None?)
            ==> r == NullText
    ensures v.BoolVar? && v.boolValue.Some? ==> r == (if v.boolValue.value then "True" else "False")
    ensures v.StringVar? && v.stringValue.Some? ==> r == v.stringValue.value
  {
    match v
    case IntVar(_, _, _, value) => if value.Some? then DecimalText(value.value as int) else NullText
    case BoolVar(_, _, _, value) => if value.Some? then (if value.value then "True" else "False") else NullText
    case StringVar(_, _, _, value) => if value.Some? then value.value else NullText
  }

  /** An int shows decimal text that parses back to the value, a bool "True" or
    * "False", a string itself, and a var without a value "null". */
  lemma DisplayStringMeaning(v: Var)
    ensures v.IntVar? && v.intValue.Some? ==> ParseDecimal(DisplayString(v)) == Some(v.intValue.value as int)
    ensures v.BoolVar? && v.boolValue.Some? ==> DisplayString(v) == (if v.boolValue.value then "True" else "False")
    ensures v.StringVar? && v.stringValue.Some? ==> DisplayString(v) == v.stringValue.value
    ensures ((v.IntVar? && v.intValue.None?) || (v.BoolVar? && v.boolValue.None?)
             || (v.StringVar? && v.stringValue.None?)) ==> DisplayString(v) == NullText
  {
    if v.IntVar? && v.intValue.Some? {
      DecimalTextParses(v.intValue.value as int);
    }
  }
}
