/** TextAssetDataProcessor: rewrites every "{var=KEY}" placeholder in a text asset
  * into an HTML span holding the display text of the variable KEY. */
module TextAssets {
  import opened Wrappers
  import opened Models
  import opened Errors
  import opened Vars
  import opened VarsManagement

  datatype AssetsOptions = AssetsOptions(
    assetsDir: string := DefaultAssetsDir,
    varValueSpanClass: string := DefaultVarValueSpanClass)

  const PlaceholderOpening: string := "{var="
  const PlaceholderClosing: char := '}'

  /** One match of the placeholder pattern: where it starts, how long it is, and the key. */
  datatype VarMatch = VarMatch(index: nat, length: nat, key: string)

  /** The regex engine reading a match that starts at `start`, the characters before
    * `j` already read: the five characters of "{var=", then key characters for as long
    * as there are any, then '}' after a non-empty key. The greedy run is the only one
    * that can be closed, because '}' is not a key character, so backtracking would
    * find nothing else. */
  function ScanPlaceholder(s: string, start: nat, j: nat): (r: Option<VarMatch>)
    requires start <= j <= |s|
    ensures r.Some? ==> r.value.index == start && 6 < r.value.length && j < start + r.value.length <= |s|
    decreases |s| - j
  {
    if j == |s| then None
    else if j < start + |PlaceholderOpening| then
      if s[j] == PlaceholderOpening[j - start] then ScanPlaceholder(s, start, j + 1) else None
    else if IsKeyChar(s[j]) then ScanPlaceholder(s, start, j + 1)
    else if start + |PlaceholderOpening| < j && s[j] == PlaceholderClosing then
      Some(VarMatch(start, j + 1 - start, s[start + |PlaceholderOpening|..j]))
    else None
  }

  /** The placeholder match starting exactly at i, if any. */
  function PlaceholderAt(s: string, i: nat): (r: Option<VarMatch>)
    requires i <= |s|
    ensures r.Some? ==> r.value.index == i && 6 < r.value.length && i + r.value.length <= |s|
  {
    ScanPlaceholder(s, i, i)
  }

  /** What the scan read from j on: the rest of "{var=", key characters, and the '}'
    * right after the key. */
  lemma {:induction false} ScanShape(s: string, start: nat, j: nat)
    requires start <= j <= |s| && ScanPlaceholder(s, start, j).Some?
    ensures var m := ScanPlaceholder(s, start, j).value;
      var close := start + m.length - 1;
      && j <= close && s[close] == PlaceholderClosing
      && m.key == s[start + |PlaceholderOpening|..close]
      && (forall k :: j <= k < start + |PlaceholderOpening| ==> s[k] == PlaceholderOpening[k - start])
      && (forall k :: j <= k < close && start + |PlaceholderOpening| <= k ==> IsKeyChar(s[k]))
    decreases |s| - j
  {
    if j < start + |PlaceholderOpening| || IsKeyChar(s[j]) {
      ScanShape(s, start, j + 1);
    }
  }

  /** A match is exactly "{var=", a non-empty key of key characters, and "}". */
  lemma PlaceholderShape(s: string, i: nat)
    requires i <= |s| && PlaceholderAt(s, i).Some?
    ensures var m := PlaceholderAt(s, i).value;
      && m.length == |m.key| + 6 && |m.key| > 0
      && s[i..i + m.length] == PlaceholderOpening + m.key + [PlaceholderClosing]
      && forall j :: 0 <= j < |m.key| ==> IsKeyChar(m.key[j])
  {
    var m := PlaceholderAt(s, i).value;
    ScanShape(s, i, i);
    forall k | 0 <= k < 5
      ensures s[i..i + 5][k] == PlaceholderOpening[k]
    {
    }
    SliceThree(s, i, i + 5, i + m.length - 1, i + m.length);
  }

  /** A slice ending in one element splits into two slices and that element. */
  lemma SliceThree<T>(s: seq<T>, a: nat, b: nat, c: nat, d: nat)
    requires a <= b <= c < d == c + 1 <= |s|
    ensures s[a..d] == s[a..b] + s[b..c] + [s[c]]
  {
    assert s[a..d] == s[a..c] + s[c..d];
    assert s[a..c] == s[a..b] + s[b..c];
  }

  /** Conversely, wherever the text holds "{var=", a non-empty key of key characters
    * and "}", the scan from j on finds that placeholder. */
  lemma {:induction false} ScanFinds(s: string, start: nat, j: nat, key: string)
    requires key != [] && forall k :: 0 <= k < |key| ==> IsKeyChar(key[k])
    requires start <= j <= start + |key| + 5 && start + |key| + 6 <= |s|
    requires forall k :: start <= k < start + 5 ==> s[k] == PlaceholderOpening[k - start]
    requires forall k :: start + 5 <= k < start + 5 + |key| ==> s[k] == key[k - start - 5]
    requires s[start + 5 + |key|] == PlaceholderClosing
    ensures ScanPlaceholder(s, start, j) == Some(VarMatch(start, |key| + 6, key))
    decreases |s| - j
  {
    if j < start + 5 {
      ScanFinds(s, start, j + 1, key);
    } else if j < start + 5 + |key| {
      assert IsKeyChar(key[j - start - 5]);
      ScanFinds(s, start, j + 1, key);
    } else {
      assert s[start + 5..j] == key;
    }
  }

  /** Wherever the text holds "{var=", a non-empty key of key characters and "}",
    * PlaceholderAt finds exactly that placeholder. */
  lemma PlaceholderRecognised(s: string, i: nat, key: string)
    requires key != [] && forall k :: 0 <= k < |key| ==> IsKeyChar(key[k])
    requires i + |key| + 6 <= |s|
    requires s[i..i + |key| + 6] == PlaceholderOpening + key + [PlaceholderClosing]
    ensures PlaceholderAt(s, i) == Some(VarMatch(i, |key| + 6, key))
  {
    var text := PlaceholderOpening + key + [PlaceholderClosing];
    forall k | i <= k < i + |key| + 6
      ensures s[k] == text[k - i]
    {
      assert s[i..i + |key| + 6][k - i] == s[k];
    }
    ScanFinds(s, i, i, key);
  }

  /** Regex.Matches from position `from`: try each position in turn, and resume
    * after the end of each match. */
  function Matches(s: string, from: nat): seq<VarMatch>
    requires from <= |s|
    decreases |s| - from
  {
    if from == |s| then []
    else match PlaceholderAt(s, from)
      case Some(m) => [m] + Matches(s, from + m.length)
      case None => Matches(s, from + 1)
  }

  /** Every match is a placeholder inside the text at or after `from`. */
  lemma {:induction false} MatchesArePlaceholders(s: string, from: nat)
    requires from <= |s|
    ensures forall m <- Matches(s, from) ::
      from <= m.index && m.index + m.length <= |s| && PlaceholderAt(s, m.index) == Some(m)
    decreases |s| - from
  {
    if from < |s| {
      var p := PlaceholderAt(s, from);
      if p.Some? {
        MatchesArePlaceholders(s, from + p.value.length);
        PlaceholdersCons(s, from, p.value, Matches(s, from + p.value.length));
      } else {
        MatchesArePlaceholders(s, from + 1);
      }
    }
  }

  /** A placeholder followed by placeholders that start after its end. */
  lemma PlaceholdersCons(s: string, from: nat, m: VarMatch, rest: seq<VarMatch>)
    requires from <= |s| && PlaceholderAt(s, from) == Some(m)
    requires forall x <- rest ::
      from + m.length <= x.index && x.index + x.length <= |s| && PlaceholderAt(s, x.index) == Some(x)
    ensures forall x <- [m] + rest ::
      from <= x.index && x.index + x.length <= |s| && PlaceholderAt(s, x.index) == Some(x)
  {
  }

  /** Matches listed in order of position, none overlapping the next. */
  predicate InOrder(r: seq<VarMatch>)
  {
    forall i, j :: 0 <= i < j < |r| ==> r[i].index + r[i].length <= r[j].index
  }

  lemma ConsInOrder(m: VarMatch, rest: seq<VarMatch>)
    requires InOrder(rest)
    requires forall x <- rest :: m.index + m.length <= x.index
    ensures InOrder([m] + rest)
  {
    var r := [m] + rest;
    forall i, j | 0 <= i < j < |r|
      ensures r[i].index + r[i].length <= r[j].index
    {
      assert r[j] == rest[j - 1] && rest[j - 1] in rest;
      if i > 0 {
        assert r[i] == rest[i - 1];
      }
    }
  }

  /** The matches are in order and do not overlap. */
  lemma {:induction false} MatchesInOrder(s: string, from: nat)
    requires from <= |s|
    ensures InOrder(Matches(s, from))
    decreases |s| - from
  {
    if from < |s| {
      var p := PlaceholderAt(s, from);
      if p.Some? {
        var next := from + p.value.length;
        MatchesInOrder(s, next);
        MatchesArePlaceholders(s, next);
        ConsInOrder(p.value, Matches(s, next));
        assert Matches(s, from) == [p.value] + Matches(s, next);
      } else {
        MatchesInOrder(s, from + 1);
        assert Matches(s, from) == Matches(s, from + 1);
      }
    }
  }

  /** The span that replaces a placeholder. */
  function Span(spanClass: string, value: string): string
  {
    "<span class=\"" + spanClass + "\">" + value + "</span>"
  }

  /** GetVarValue: the var's display text, or "VAR NOT FOUND key" when there is no such var. */
  function VarValue(vars: seq<Var>, key: string): (r: string)
    ensures HasKey(vars, key) ==> r == DisplayString(Find(vars, key).value)
    ensures !HasKey(vars, key) ==> r == "VAR NOT FOUND " + key
  {
    match Find(vars, key)
    case Success(v) => DisplayString(v)
    case Failure(_) => "VAR NOT FOUND " + key
  }

  /** What ProcessData puts in place of the placeholder for each key. */
  function Replacement(spanClass: string, vars: seq<Var>): string -> string
  {
    key => Span(spanClass, VarValue(vars, key))
  }

  lemma ReplacementIsSpan(spanClass: string, vars: seq<Var>, key: string)
    ensures Replacement(spanClass, vars)(key) == Span(spanClass, VarValue(vars, key))
  {
  }

  /** The text that stands in for the placeholder of `key`. */
  function ReplaceKey(replace: string -> string, key: string): string
  {
    replace(key)
  }

  /** Reference definition of the processed text from `from` on, one position at a
    * time: a placeholder becomes replace(key), any other character is kept.
    * ProcessData uses replace := Replacement(spanClass, vars). */
  function Rewrite(s: string, from: nat, replace: string -> string): string
    requires from <= |s|
    decreases |s| - from
  {
    if from == |s| then ""
    else match PlaceholderAt(s, from)
      case Some(m) => ReplaceKey(replace, m.key) + Rewrite(s, from + m.length, replace)
      case None => [s[from]] + Rewrite(s, from + 1, replace)
  }

  /** Where a placeholder starts, it is replaced. */
  lemma RewriteReplaces(s: string, from: nat, replace: string -> string)
    requires from <= |s| && PlaceholderAt(s, from).Some?
    ensures var m := PlaceholderAt(s, from).value;
      Rewrite(s, from, replace) == ReplaceKey(replace, m.key) + Rewrite(s, from + m.length, replace)
  {
  }

  /** With no match left from `from` on, the rest of the text is copied unchanged. */
  lemma {:induction false} RewriteWithoutMatch(s: string, from: nat, replace: string -> string)
    requires from <= |s|
    requires Matches(s, from) == []
    ensures Rewrite(s, from, replace) == s[from..]
    decreases |s| - from
  {
    if from < |s| {
      assert PlaceholderAt(s, from).None?;
      RewriteWithoutMatch(s, from + 1, replace);
      assert s[from..] == [s[from]] + s[from + 1..];
    }
  }

  /** The matches from `from` on are the first placeholder at or after `from`,
    * then the matches from its end on. */
  lemma {:induction false} MatchesUnfold(s: string, from: nat)
    requires from <= |s| && Matches(s, from) != []
    ensures var m := Matches(s, from)[0];
      && from <= m.index && m.index + m.length <= |s|
      && Matches(s, from) == [m] + Matches(s, m.index + m.length)
    decreases |s| - from
  {
    if PlaceholderAt(s, from).None? {
      assert Matches(s, from) == Matches(s, from + 1);
      MatchesUnfold(s, from + 1);
    }
  }

  /** The first match from `from` on is the first placeholder there. */
  lemma {:induction false} FirstMatchIsNextPlaceholder(s: string, from: nat)
    requires from <= |s| && Matches(s, from) != []
    ensures var m := Matches(s, from)[0];
      && from <= m.index && m.index <= |s|
      && PlaceholderAt(s, m.index) == Some(m)
      && forall i :: from <= i < m.index ==> PlaceholderAt(s, i).None?
    decreases |s| - from
  {
    if PlaceholderAt(s, from).None? {
      assert Matches(s, from) == Matches(s, from + 1);
      FirstMatchIsNextPlaceholder(s, from + 1);
    }
  }

  /** Where no placeholder starts, the character is copied. */
  lemma RewriteCopies(s: string, from: nat, replace: string -> string)
    requires from < |s| && PlaceholderAt(s, from).None?
    ensures Rewrite(s, from, replace) == [s[from]] + Rewrite(s, from + 1, replace)
  {
  }

  /** A non-empty slice is its first element followed by the rest. */
  lemma SliceCons<T>(s: seq<T>, i: nat, j: nat)
    requires i < j <= |s|
    ensures s[i..j] == [s[i]] + s[i + 1..j]
  {
  }

  /** Copying one more character in front of a copied slice, a replacement and the
    * rest of the text. */
  lemma PrependCopied(s: string, from: nat, upto: nat, replaced: string, after: string, rest: string, whole: string)
    requires from < upto <= |s|
    requires rest == s[from + 1..upto] + replaced + after
    requires whole == [s[from]] + rest
    ensures whole == s[from..upto] + replaced + after
  {
    SliceCons(s, from, upto);
    ConcatAssoc([s[from]], s[from + 1..upto], replaced);
    ConcatAssoc([s[from]], s[from + 1..upto] + replaced, after);
  }

  /** The text between `from` and the next placeholder is copied, then the
    * placeholder is replaced. */
  lemma {:induction false} RewriteToNextMatch(s: string, from: nat, replace: string -> string, m: VarMatch)
    requires from <= m.index && m.index + m.length <= |s|
    requires PlaceholderAt(s, m.index) == Some(m)
    requires forall i :: from <= i < m.index ==> PlaceholderAt(s, i).None?
    ensures Rewrite(s, from, replace)
      == s[from..m.index] + ReplaceKey(replace, m.key) + Rewrite(s, m.index + m.length, replace)
    decreases m.index - from
  {
    if from < m.index {
      RewriteToNextMatch(s, from + 1, replace, m);
      CopyStep(s, from, replace, m);
    } else {
      RewriteAtMatch(s, replace, m);
    }
  }

  /** One character before the next placeholder is copied in front of the rest. */
  lemma CopyStep(s: string, from: nat, replace: string -> string, m: VarMatch)
    requires from < m.index && m.index + m.length <= |s|
    requires PlaceholderAt(s, from).None?
    requires Rewrite(s, from + 1, replace)
      == s[from + 1..m.index] + ReplaceKey(replace, m.key) + Rewrite(s, m.index + m.length, replace)
    ensures Rewrite(s, from, replace)
      == s[from..m.index] + ReplaceKey(replace, m.key) + Rewrite(s, m.index + m.length, replace)
  {
    RewriteCopies(s, from, replace);
    PrependCopied(s, from, m.index, ReplaceKey(replace, m.key), Rewrite(s, m.index + m.length, replace),
                  Rewrite(s, from + 1, replace), Rewrite(s, from, replace));
  }

  /** At the match itself nothing is copied before the replacement. */
  lemma RewriteAtMatch(s: string, replace: string -> string, m: VarMatch)
    requires m.index + m.length <= |s|
    requires PlaceholderAt(s, m.index) == Some(m)
    ensures Rewrite(s, m.index, replace)
      == s[m.index..m.index] + ReplaceKey(replace, m.key) + Rewrite(s, m.index + m.length, replace)
  {
    RewriteReplaces(s, m.index, replace);
    EmptySlicePrefix(s, m.index, ReplaceKey(replace, m.key), Rewrite(s, m.index + m.length, replace));
  }

  /** An empty slice in front changes nothing. */
  lemma EmptySlicePrefix<T>(s: seq<T>, i: nat, x: seq<T>, y: seq<T>)
    requires i <= |s|
    ensures s[i..i] + x + y == x + y
  {
    assert s[i..i] == [];
  }

  /** One turn of the loop of SpliceVarValues keeps `sb + Rewrite(rest) == target`, once
    * `value` is what the first match is replaced with. */
  lemma ProcessStep(s: string, from: nat, replace: string -> string, sb: string, target: string, value: string)
    requires from <= |s| && Matches(s, from) != []
    requires sb + Rewrite(s, from, replace) == target
    requires value == ReplaceKey(replace, Matches(s, from)[0].key)
    ensures var m := Matches(s, from)[0];
      && from <= m.index && m.index + m.length <= |s|
      && Matches(s, from)[1..] == Matches(s, m.index + m.length)
      && (sb + s[from..m.index] + value) + Rewrite(s, m.index + m.length, replace) == target
  {
    var m := Matches(s, from)[0];
    MatchesUnfold(s, from);
    ConsTail(m, Matches(s, m.index + m.length), Matches(s, from));
    FirstMatchIsNextPlaceholder(s, from);
    RewriteToNextMatch(s, from, replace, m);
    Regroup(sb, s[from..m.index], value, Rewrite(s, m.index + m.length, replace), Rewrite(s, from, replace), target);
  }

  /** The head and the tail of a sequence built as [x] + rest. */
  lemma ConsTail<T>(x: T, rest: seq<T>, whole: seq<T>)
    requires whole == [x] + rest
    ensures whole[0] == x && whole[1..] == rest
  {
  }

  /** Appending a prefix to a three-part sequence, grouped to the left. */
  lemma Regroup<T>(sb: seq<T>, a: seq<T>, v: seq<T>, r: seq<T>, whole: seq<T>, target: seq<T>)
    requires whole == a + v + r && sb + whole == target
    ensures (sb + a + v) + r == target
  {
    ConcatAssoc(sb, a + v, r);
    ConcatAssoc(sb, a, v);
  }

  /** Text without any placeholder comes out unchanged. */
  lemma {:induction false} NoPlaceholderUnchanged(s: string, from: nat, replace: string -> string)
    requires from <= |s|
    requires forall i :: from <= i < |s| ==> PlaceholderAt(s, i).None?
    ensures Rewrite(s, from, replace) == s[from..]
    decreases |s| - from
  {
    if from < |s| {
      NoPlaceholderUnchanged(s, from + 1, replace);
      assert s[from..] == [s[from]] + s[from + 1..];
    }
  }

  /** A placeholder whose var is missing still becomes a span, naming the key. */
  lemma MissingVarShownAsNotFound(s: string, from: nat, spanClass: string, vars: seq<Var>)
    requires from <= |s|
    requires PlaceholderAt(s, from).Some? && !HasKey(vars, PlaceholderAt(s, from).value.key)
    ensures var m := PlaceholderAt(s, from).value;
      Rewrite(s, from, Replacement(spanClass, vars))
      == Span(spanClass, "VAR NOT FOUND " + m.key) + Rewrite(s, from + m.length, Replacement(spanClass, vars))
  {
    var m := PlaceholderAt(s, from).value;
    RewriteReplaces(s, from, Replacement(spanClass, vars));
    ReplacementIsSpan(spanClass, vars, m.key);
  }

  method GetVarValue(varsManager: VarsManager, key: string) returns (r: string)
    requires varsManager.Valid()
    ensures r == VarValue(varsManager.vars, key)
  {
    var v := varsManager.GetVar(key);
    if v.Failure? {
      return "VAR NOT FOUND " + key;
    }
    return DisplayString(v.value);
  }

  /** The loop of ProcessData: copy the text between the matches, and put the span
    * of each match's var in its place. `replace` is the replacement ProcessData
    * specifies; the loop relies on it only at the keys of the matches. */
  method SpliceVarValues(spanClass: string, varsManager: VarsManager, stringData: string,
                         matches: seq<VarMatch>, ghost replace: string -> string)
    returns (replaced: string)
    requires varsManager.Valid()
    requires matches == Matches(stringData, 0)
    requires forall j :: 0 <= j < |matches| ==>
      ReplaceKey(replace, matches[j].key) == Span(spanClass, VarValue(varsManager.vars, matches[j].key))
    ensures replaced == Rewrite(stringData, 0, replace)
  {
    var sb := "";
    var startIndex: nat := 0;
    ghost var target := Rewrite(stringData, 0, replace);
    for i := 0 to |matches|
      invariant Spliced(stringData, replace, matches, i, startIndex, sb, target)
    {
      var m := matches[i];
      var varValue := GetVarValue(varsManager, m.key);
      assert ReplaceKey(replace, m.key) == Span(spanClass, varValue);
      LoopStep(stringData, replace, matches, i, startIndex, sb, target, Span(spanClass, varValue));
      sb := sb + stringData[startIndex..m.index];
      sb := sb + Span(spanClass, varValue);
      startIndex := m.index + m.length;
    }
    SplicedAtEnd(stringData, replace, matches, startIndex, sb, target);
    sb := sb + stringData[startIndex..];
    return sb;
  }

  /** The first element of a suffix that is known to equal b. */
  lemma SliceHead<T>(a: seq<T>, i: nat, b: seq<T>)
    requires i < |a| && a[i..] == b
    ensures b != [] && a[i] == b[0]
  {
    assert a[i..][0] == a[i];
  }

  /** Dropping one more element from the suffix drops it from b too. */
  lemma SliceStep<T>(a: seq<T>, i: nat, b: seq<T>)
    requires i < |a| && a[i..] == b
    ensures a[i + 1..] == b[1..]
  {
    assert a[i + 1..] == a[i..][1..];
  }

  /** The state of the loop of SpliceVarValues after i matches: the text is copied up
    * to `from`, the matches left are those from `from` on, and `sb` followed by the
    * rewriting of the rest of the text is the whole result. */
  ghost predicate Spliced(s: string, replace: string -> string, matches: seq<VarMatch>, i: nat, from: nat,
                          sb: string, target: string)
  {
    i <= |matches| && from <= |s| && matches[i..] == Matches(s, from)
    && sb + Rewrite(s, from, replace) == target
  }

  /** After the last match, the rest of the text is copied unchanged. */
  lemma SplicedAtEnd(s: string, replace: string -> string, matches: seq<VarMatch>, from: nat,
                     sb: string, target: string)
    requires Spliced(s, replace, matches, |matches|, from, sb, target)
    ensures from <= |s| && sb + s[from..] == target
  {
    RewriteWithoutMatch(s, from, replace);
  }

  /** One turn of the loop of SpliceVarValues: copy the text up to the next match, then
    * append what that match is replaced with. */
  lemma LoopStep(s: string, replace: string -> string, matches: seq<VarMatch>, i: nat, from: nat,
                 sb: string, target: string, value: string)
    requires Spliced(s, replace, matches, i, from, sb, target) && i < |matches|
    requires value == ReplaceKey(replace, matches[i].key)
    ensures from <= matches[i].index && matches[i].index + matches[i].length <= |s|
    ensures Spliced(s, replace, matches, i + 1, matches[i].index + matches[i].length,
                    sb + s[from..matches[i].index] + value, target)
  {
    SliceHead(matches, i, Matches(s, from));
    ProcessStep(s, from, replace, sb, target, value);
    SliceStep(matches, i, Matches(s, from));
  }

  /** ProcessData: decode the bytes to text, put the var spans in place of the
    * placeholders, encode the text back to bytes. */
  method ProcessData(options: AssetsOptions, codec: StringCodec, varsManager: VarsManager, data: seq<byte>)
    returns (r: seq<byte>)
    requires varsManager.Valid()
    ensures r == codec.fromText(Rewrite(codec.toText(data), 0, Replacement(options.varValueSpanClass, varsManager.vars)))
  {
    var stringData := codec.toText(data);
    var matches := Matches(stringData, 0);
    ghost var replace := Replacement(options.varValueSpanClass, varsManager.vars);
    forall j | 0 <= j < |matches|
      ensures ReplaceKey(replace, matches[j].key) == Span(options.varValueSpanClass, VarValue(varsManager.vars, matches[j].key))
    {
      ReplacementIsSpan(options.varValueSpanClass, varsManager.vars, matches[j].key);
    }
    var replacedString := SpliceVarValues(options.varValueSpanClass, varsManager, stringData, matches, replace);
    return codec.fromText(replacedString);
  }
}
