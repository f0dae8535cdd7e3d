/** ConfigPathBuilder: builds a configuration section path such as
  * "HellEngine:Assets" by appending ':'-separated segments to a string buffer. */
module Configuration {
  import opened Wrappers
  import opened Models

  const ConfigPathSeparator: string := ":"

  /** The buffer after Add(segment): unchanged for a null or empty segment; otherwise
    * the segment, preceded by the separator when the buffer is not empty. */
  function Appended(built: string, segment: NullableString): (r: string)
    ensures IsNullOrEmpty(segment) ==> r == built
    ensures !IsNullOrEmpty(segment) ==> |r| == |built| + (if built == "" then 0 else 1) + |segment.value|
    ensures built <= r
  {
    if IsNullOrEmpty(segment) then built
    else if |built| > 0 then built + ConfigPathSeparator + segment.value
    else segment.value
  }

  /** The buffer after a sequence of Add calls. */
  function AppendAll(built: string, segments: seq<NullableString>): string
    decreases |segments|
  {
    if segments == [] then built else AppendAll(Appended(built, segments[0]), segments[1..])
  }

  /** The non-empty segments, in order. */
  function NonEmptySegments(segments: seq<NullableString>): seq<string>
  {
    if segments == [] then []
    else (if IsNullOrEmpty(segments[0]) then [] else [segments[0].value]) + NonEmptySegments(segments[1..])
  }

  /** The segments Add keeps are exactly the non-empty ones, in order: none of them is
    * empty, and every non-empty segment is among them. */
  lemma {:induction false} NonEmptySegmentsMeaning(segments: seq<NullableString>)
    ensures forall i :: 0 <= i < |NonEmptySegments(segments)| ==> NonEmptySegments(segments)[i] != ""
    ensures forall i :: 0 <= i < |segments| && !IsNullOrEmpty(segments[i]) ==> segments[i].value in NonEmptySegments(segments)
  {
    if segments != [] {
      NonEmptySegmentsMeaning(segments[1..]);
      var head := if IsNullOrEmpty(segments[0]) then [] else [segments[0].value];
      var rest := NonEmptySegments(segments[1..]);
      assert NonEmptySegments(segments) == head + rest;
      forall i | 0 <= i < |head + rest|
        ensures (head + rest)[i] != ""
      {
        if i >= |head| {
          assert (head + rest)[i] == rest[i - |head|];
        }
      }
      forall i | 0 <= i < |segments| && !IsNullOrEmpty(segments[i])
        ensures segments[i].value in head + rest
      {
        if i > 0 {
          assert segments[i] == segments[1..][i - 1];
        }
      }
    }
  }

  /** Reference definition: the parts joined by the separator. */
  function Join(parts: seq<string>): string
  {
    if |parts| == 0 then ""
    else if |parts| == 1 then parts[0]
    else Join(parts[..|parts| - 1]) + ConfigPathSeparator + parts[|parts| - 1]
  }

  lemma JoinSnoc(parts: seq<string>, s: string)
    requires parts != []
    ensures Join(parts + [s]) == Join(parts) + ConfigPathSeparator + s
  {
    assert (parts + [s])[..|parts|] == parts;
  }

  /** A join ends with its last part, so it is not empty when that part is not. */
  lemma JoinEndsWithLast(parts: seq<string>)
    requires parts != []
    ensures |Join(parts)| >= |parts[|parts| - 1]|
  {
  }

  /** The last part, if any, is not empty: then the join is empty only with no parts. */
  predicate LastNonEmpty(parts: seq<string>)
  {
    parts == [] || parts[|parts| - 1] != ""
  }

  /** One Add step extends the join by the segment, if it is not empty. */
  lemma AppendedIsJoin(parts: seq<string>, s: NullableString)
    requires LastNonEmpty(parts)
    ensures Appended(Join(parts), s) == Join(parts + NonEmptySegments([s]))
    ensures LastNonEmpty(parts + NonEmptySegments([s]))
  {
    assert [s][1..] == [];
    if IsNullOrEmpty(s) {
      assert NonEmptySegments([s]) == [];
      assert parts + [] == parts;
    } else {
      assert NonEmptySegments([s]) == [s.value];
      if parts == [] {
        assert parts + [s.value] == [s.value];
      } else {
        JoinEndsWithLast(parts);
        JoinSnoc(parts, s.value);
      }
    }
  }

  lemma NonEmptySegmentsCons(segments: seq<NullableString>)
    requires segments != []
    ensures NonEmptySegments(segments) == NonEmptySegments([segments[0]]) + NonEmptySegments(segments[1..])
  {
    assert [segments[0]][1..] == [];
  }

  /** Whatever segments are added, the built path is the ':'-join of the base path and
    * the non-empty segments: no empty component, no leading or doubled separator. */
  lemma {:induction false} BuiltPathIsJoin(parts: seq<string>, segments: seq<NullableString>)
    requires LastNonEmpty(parts)
    ensures AppendAll(Join(parts), segments) == Join(parts + NonEmptySegments(segments))
    decreases |segments|
  {
    if segments == [] {
      assert parts + NonEmptySegments(segments) == parts;
    } else {
      var next := parts + NonEmptySegments([segments[0]]);
      var rest := NonEmptySegments(segments[1..]);
      AppendedIsJoin(parts, segments[0]);
      calc {
        AppendAll(Join(parts), segments);
        AppendAll(Appended(Join(parts), segments[0]), segments[1..]);
        AppendAll(Join(next), segments[1..]);
        { BuiltPathIsJoin(next, segments[1..]); }
        Join(next + rest);
        { NonEmptySegmentsCons(segments);
          ConcatAssoc(parts, NonEmptySegments([segments[0]]), rest); }
        Join(parts + NonEmptySegments(segments));
      }
    }
  }

  class ConfigPathBuilder {
    /** The StringBuilder's contents. */
    var path: string

    /** new ConfigPathBuilder(basePath): a null base path starts an empty buffer. */
    constructor(basePath: NullableString := None)
      ensures path == OrEmpty(basePath)
    {
      path := OrEmpty(basePath);
    }

    /** Add(segment) appends in place and returns the same builder for chaining. */
    method Add(segment: NullableString) returns (self: ConfigPathBuilder)
      modifies this
      ensures self == this
      ensures path == Appended(old(path), segment)
    {
      if IsNullOrEmpty(segment) {
        return this;
      }
      if |path| > 0 {
        path := path + ConfigPathSeparator;
      }
      path := path + segment.value;
      return this;
    }

    method Build() returns (r: string)
      ensures r == path
    {
      return path;
    }
  }

  /** The examples of ConfigPathBuilderTests, run against the class. */
  method BuilderExamples()
  {
    var b := new ConfigPathBuilder();
    var r := b.Build();
    assert r == "";
    var self := b.Add(Some("section1"));
    r := b.Build();
    assert r == "section1";
    b := new ConfigPathBuilder(Some("root"));
    self := b.Add(None);
    self := b.Add(Some(""));
    r := b.Build();
    assert r == "root";
    self := b.Add(Some("section"));
    r := b.Build();
    assert r == "root:section";
  }
}
