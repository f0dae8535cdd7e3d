/** Base64Encoder: the standard base64 alphabet with '=' padding (section 4 of
  * RFC 4648), as Convert.ToBase64String and Convert.FromBase64String apply it,
  * plus the string overloads that go through the configured text encoding. */
module Base64Encoder {
  import opened Wrappers
  import opened Models
  import opened Errors

  const Padding: char := '='

  /** A six-bit value, the unit one base64 symbol carries. */
  type sextet = v: int | 0 <= v < 64

  /** The alphabet: A-Z, a-z, 0-9, '+', '/' for the values 0 to 63. */
  function Symbol(v: sextet): (c: char)
    ensures c != Padding
  {
    if v < 26 then ('A' as int + v) as char
    else if v < 52 then ('a' as int + (v - 26)) as char
    else if v < 62 then ('0' as int + (v - 52)) as char
    else if v == 62 then '+'
    else '/'
  }

  /** The value of an alphabet character; None for any other character. */
  function SymbolValue(c: char): (r: Option<sextet>)
    ensures r.Some? ==> Symbol(r.value) == c
  {
    if 'A' <= c <= 'Z' then Some(c as int - 'A' as int)
    else if 'a' <= c <= 'z' then Some(c as int - 'a' as int + 26)
    else if '0' <= c <= '9' then Some(c as int - '0' as int + 52)
    else if c == '+' then Some(62)
    else if c == '/' then Some(63)
    else None
  }

  lemma SymbolValueOfSymbol(v: sextet)
    ensures SymbolValue(Symbol(v)) == Some(v)
  {
  }

  predicate IsSymbol(c: char)
  {
    SymbolValue(c).Some?
  }

  /** The six-bit groups of three bytes, most significant first. */
  function Sextets(b0: byte, b1: byte, b2: byte): (sextet, sextet, sextet, sextet)
  {
    (b0 as int / 4, (b0 as int % 4) * 16 + b1 as int / 16, (b1 as int % 16) * 4 + b2 as int / 64, b2 as int % 64)
  }

  /** The bytes that four six-bit groups spell, most significant first. */
  function Octets(c0: sextet, c1: sextet, c2: sextet, c3: sextet): (byte, byte, byte)
  {
    ((c0 * 4 + c1 / 16) as byte, ((c1 % 16) * 16 + c2 / 4) as byte, ((c2 % 4) * 64 + c3) as byte)
  }

  /** Regrouping the bits of three bytes and back gives the bytes again. */
  lemma OctetsOfSextets(b0: byte, b1: byte, b2: byte)
    ensures var (c0, c1, c2, c3) := Sextets(b0, b1, b2); Octets(c0, c1, c2, c3) == (b0, b1, b2)
  {
    var (c0, c1, c2, c3) := Sextets(b0, b1, b2);
    SplitBy16(b0 as int % 4, b1 as int / 16);
    SplitBy4(b1 as int % 16, b2 as int / 64);
    assert c0 * 4 + c1 / 16 == b0 as int;
    assert (c1 % 16) * 16 + c2 / 4 == b1 as int;
    assert (c2 % 4) * 64 + c3 == b2 as int;
  }

  lemma SplitBy16(hi: int, lo: int)
    requires 0 <= lo < 16 && 0 <= hi
    ensures (hi * 16 + lo) / 16 == hi && (hi * 16 + lo) % 16 == lo
  {
  }

  lemma SplitBy4(hi: int, lo: int)
    requires 0 <= lo < 4 && 0 <= hi
    ensures (hi * 4 + lo) / 4 == hi && (hi * 4 + lo) % 4 == lo
  {
  }

  function EncodeBlock(b0: byte, b1: byte, b2: byte): (r: string)
    ensures |r| == 4
  {
    var (c0, c1, c2, c3) := Sextets(b0, b1, b2);
    [Symbol(c0), Symbol(c1), Symbol(c2), Symbol(c3)]
  }

  /** Convert.ToBase64String: full three-byte groups, then a last group of one or two
    * bytes padded with "=" or "==". */
  function Encode(data: seq<byte>): (r: string)
    ensures |r| == 4 * ((|data| + 2) / 3)
    decreases |data|
  {
    if |data| >= 3 then EncodeBlock(data[0], data[1], data[2]) + Encode(data[3..])
    else if |data| == 2 then
      var (c0, c1, c2, _) := Sextets(data[0], data[1], 0);
      [Symbol(c0), Symbol(c1), Symbol(c2), Padding]
    else if |data| == 1 then
      var (c0, c1, _, _) := Sextets(data[0], 0, 0);
      [Symbol(c0), Symbol(c1), Padding, Padding]
    else []
  }

  /** Four symbols as three bytes. */
  function DecodeBlock(q: string): (r: Result<seq<byte>, Error>)
    requires |q| == 4
    ensures r.Success? <==> IsSymbol(q[0]) && IsSymbol(q[1]) && IsSymbol(q[2]) && IsSymbol(q[3])
    ensures r.Success? ==> |r.value| == 3
    ensures r.Failure? ==> r.error == Base64Format
  {
    if !(IsSymbol(q[0]) && IsSymbol(q[1]) && IsSymbol(q[2]) && IsSymbol(q[3])) then Failure(Base64Format)
    else
      var (b0, b1, b2) := Octets(SymbolValue(q[0]).value, SymbolValue(q[1]).value, SymbolValue(q[2]).value, SymbolValue(q[3]).value);
      Success([b0, b1, b2])
  }

  /** The last group, which may end in "=" (two bytes) or "==" (one byte); the bits
    * that fall below the last byte are dropped. */
  function DecodeLastBlock(q: string): (r: Result<seq<byte>, Error>)
    requires |q| == 4
    ensures r.Success? ==> 1 <= |r.value| <= 3
    ensures r.Failure? ==> r.error == Base64Format
  {
    if q[3] != Padding then DecodeBlock(q)
    else if q[2] == Padding then
      if IsSymbol(q[0]) && IsSymbol(q[1]) then
        var (b0, _, _) := Octets(SymbolValue(q[0]).value, SymbolValue(q[1]).value, 0, 0);
        Success([b0])
      else Failure(Base64Format)
    else if IsSymbol(q[0]) && IsSymbol(q[1]) && IsSymbol(q[2]) then
      var (b0, b1, _) := Octets(SymbolValue(q[0]).value, SymbolValue(q[1]).value, SymbolValue(q[2]).value, 0);
      Success([b0, b1])
    else Failure(Base64Format)
  }

  /** What is left after the first group of a longer group sequence is a group
    * sequence too. */
  lemma RemainingGroups(n: int)
    requires n % 4 == 0 && n > 4
    ensures (n - 4) % 4 == 0 && n - 4 >= 4
  {
  }

  function DecodeGroups(s: string): (r: Result<seq<byte>, Error>)
    requires |s| % 4 == 0 && |s| >= 4
    ensures r.Failure? ==> r.error == Base64Format
    decreases |s|
  {
    if |s| == 4 then DecodeLastBlock(s)
    else
      RemainingGroups(|s|);
      match DecodeBlock(s[..4])
      case Failure(e) => Failure(e)
      case Success(head) =>
        match DecodeGroups(s[4..])
        case Failure(e) => Failure(e)
        case Success(tail) => Success(head + tail)
  }

  /** Convert.FromBase64String: a FormatException for a length that is not a multiple
    * of four, a character outside the alphabet, or padding anywhere but at the end. */
  function Decode(s: string): (r: Result<seq<byte>, Error>)
    ensures |s| % 4 != 0 ==> r == Failure(Base64Format)
    ensures r.Failure? ==> r.error == Base64Format
  {
    if |s| % 4 != 0 then Failure(Base64Format)
    else if s == [] then Success([])
    else DecodeGroups(s)
  }

  lemma BlockRoundTrip(b0: byte, b1: byte, b2: byte)
    ensures DecodeBlock(EncodeBlock(b0, b1, b2)) == Success([b0, b1, b2])
  {
    var (c0, c1, c2, c3) := Sextets(b0, b1, b2);
    SymbolValueOfSymbol(c0);
    SymbolValueOfSymbol(c1);
    SymbolValueOfSymbol(c2);
    SymbolValueOfSymbol(c3);
    OctetsOfSextets(b0, b1, b2);
  }

  lemma EncodeTwo(b0: byte, b1: byte)
    ensures var (c0, c1, c2, _) := Sextets(b0, b1, 0); Encode([b0, b1]) == [Symbol(c0), Symbol(c1), Symbol(c2), Padding]
  {
  }

  lemma EncodeOne(b0: byte)
    ensures var (c0, c1, _, _) := Sextets(b0, 0, 0); Encode([b0]) == [Symbol(c0), Symbol(c1), Padding, Padding]
  {
  }

  lemma DecodeLastTwo(c0: sextet, c1: sextet, c2: sextet)
    ensures var (b0, b1, _) := Octets(c0, c1, c2, 0);
      DecodeLastBlock([Symbol(c0), Symbol(c1), Symbol(c2), Padding]) == Success([b0, b1])
  {
    SymbolValueOfSymbol(c0);
    SymbolValueOfSymbol(c1);
    SymbolValueOfSymbol(c2);
  }

  lemma DecodeLastOne(c0: sextet, c1: sextet)
    ensures var (b0, _, _) := Octets(c0, c1, 0, 0);
      DecodeLastBlock([Symbol(c0), Symbol(c1), Padding, Padding]) == Success([b0])
  {
    SymbolValueOfSymbol(c0);
    SymbolValueOfSymbol(c1);
  }

  lemma ThreeBytesRoundTrip(data: seq<byte>)
    requires |data| == 3
    ensures |Encode(data)| == 4 && DecodeLastBlock(Encode(data)) == Success(data)
  {
    var q := EncodeBlock(data[0], data[1], data[2]);
    assert Encode(data) == q;
    assert DecodeLastBlock(q) == DecodeBlock(q);
    BlockRoundTrip(data[0], data[1], data[2]);
    assert data == [data[0], data[1], data[2]];
  }

  lemma TwoBytesRoundTrip(data: seq<byte>)
    requires |data| == 2
    ensures |Encode(data)| == 4 && DecodeLastBlock(Encode(data)) == Success(data)
  {
    var (c0, c1, c2, _) := Sextets(data[0], data[1], 0);
    assert data == [data[0], data[1]];
    EncodeTwo(data[0], data[1]);
    DecodeLastTwo(c0, c1, c2);
    OctetsOfSextets(data[0], data[1], 0);
  }

  lemma OneByteRoundTrip(data: seq<byte>)
    requires |data| == 1
    ensures |Encode(data)| == 4 && DecodeLastBlock(Encode(data)) == Success(data)
  {
    var (c0, c1, _, _) := Sextets(data[0], 0, 0);
    assert data == [data[0]];
    EncodeOne(data[0]);
    DecodeLastOne(c0, c1);
    OctetsOfSextets(data[0], 0, 0);
  }

  /** Splitting off the first group of a concatenation gives back the two parts. */
  lemma SplitFirstGroup(head: string, tail: string)
    requires |head| == 4 && |tail| % 4 == 0
    ensures (head + tail)[..4] == head && (head + tail)[4..] == tail
    ensures |head + tail| % 4 == 0 && |head + tail| == |tail| + 4
  {
  }

  lemma DecodeCons(head: string, tail: string, x: seq<byte>, y: seq<byte>)
    requires |head| == 4 && |tail| % 4 == 0 && |tail| >= 4
    requires DecodeBlock(head) == Success(x) && Decode(tail) == Success(y)
    ensures Decode(head + tail) == Success(x + y)
  {
    SplitFirstGroup(head, tail);
  }

  /** Every encoding is made of whole four-character groups, at least one for
    * non-empty input. */
  lemma EncodedLength(data: seq<byte>)
    ensures |Encode(data)| % 4 == 0
    ensures |data| > 0 ==> |Encode(data)| >= 4
  {
    GroupCount(|data|);
  }

  /** The group count of n bytes: at least one group for n > 0. */
  lemma GroupCount(n: nat)
    ensures (4 * ((n + 2) / 3)) % 4 == 0
    ensures n > 0 ==> 4 * ((n + 2) / 3) >= 4
  {
  }

  lemma EncodeCons(data: seq<byte>)
    requires |data| > 3
    ensures Encode(data) == EncodeBlock(data[0], data[1], data[2]) + Encode(data[3..])
    ensures |Encode(data[3..])| >= 4
  {
  }

  /** Inputs of at most three bytes: a single, possibly padded, group. */
  lemma ShortRoundTrip(data: seq<byte>)
    requires |data| <= 3
    ensures Decode(Encode(data)) == Success(data)
  {
    if |data| == 1 {
      OneByteRoundTrip(data);
    } else if |data| == 2 {
      TwoBytesRoundTrip(data);
    } else if |data| == 3 {
      ThreeBytesRoundTrip(data);
    }
  }

  /** A full group in front of a decodable encoding decodes to its three bytes in
    * front of the rest. */
  lemma BlockThenRest(b0: byte, b1: byte, b2: byte, encoded: string, rest: seq<byte>)
    requires |encoded| % 4 == 0 && |encoded| >= 4 && Decode(encoded) == Success(rest)
    ensures Decode(EncodeBlock(b0, b1, b2) + encoded) == Success([b0, b1, b2] + rest)
  {
    BlockRoundTrip(b0, b1, b2);
    DecodeCons(EncodeBlock(b0, b1, b2), encoded, [b0, b1, b2], rest);
  }

  /** Decoding undoes encoding, for every byte sequence. */
  lemma {:induction false} RoundTrip(data: seq<byte>)
    ensures Decode(Encode(data)) == Success(data)
    decreases |data|
  {
    if |data| <= 3 {
      ShortRoundTrip(data);
    } else {
      EncodeCons(data);
      EncodedLength(data[3..]);
      RoundTrip(data[3..]);
      BlockThenRest(data[0], data[1], data[2], Encode(data[3..]), data[3..]);
      assert [data[0], data[1], data[2]] + data[3..] == data;
    }
  }

  /** Distinct byte sequences never share an encoding. */
  lemma EncodeInjective(a: seq<byte>, b: seq<byte>)
    ensures Encode(a) == Encode(b) ==> a == b
  {
    RoundTrip(a);
    RoundTrip(b);
  }

  /** The string overload: the text's bytes under the configured encoding, then base64. */
  function EncodeString(codec: StringCodec, data: string): (r: string)
    ensures Decode(r) == Success(codec.fromText(data))
  {
    RoundTrip(codec.fromText(data));
    Encode(codec.fromText(data))
  }

  /** DecodeAsString: base64 to bytes, then bytes to text under the configured encoding. */
  function DecodeAsString(codec: StringCodec, data: string): (r: Result<string, Error>)
    ensures r.Success? <==> Decode(data).Success?
    ensures r.Success? ==> r.value == codec.toText(Decode(data).value)
  {
    var bytes :- Decode(data);
    Success(codec.toText(bytes))
  }

  /** A string survives EncodeString then DecodeAsString exactly when the text encoding
    * itself round-trips it. */
  lemma StringRoundTrip(codec: StringCodec, text: string)
    ensures DecodeAsString(codec, EncodeString(codec, text)) == Success(codec.toText(codec.fromText(text)))
  {
  }

  lemma ExampleBlocks()
    ensures EncodeBlock(0x66, 0x6F, 0x6F) == "Zm9v"
    ensures EncodeBlock(0x62, 0x61, 0x72) == "YmFy"
    ensures EncodeBlock(0x71, 0x31, 0x2F) == "cTEv"
  {
  }

  lemma ExampleTails(x: seq<byte>, y: seq<byte>)
    requires x == [0x31] && y == [0x5D]
    ensures Encode(x) == "MQ==" && Encode(y) == "XQ=="
  {
  }

  /** The expected texts of the examples, group by group. */
  lemma ExampleTexts()
    ensures "Zm9v" + "YmFy" + "MQ==" == "Zm9vYmFyMQ=="
    ensures "cTEv" + "XQ==" == "cTEvXQ=="
  {
  }

  /** The examples of Base64EncoderTests. */
  lemma EncoderExampleOne(a: seq<byte>, text: string)
    requires a == [0x66, 0x6F, 0x6F, 0x62, 0x61, 0x72, 0x31] && text == "Zm9vYmFyMQ=="
    ensures Encode(a) == text && Decode(text) == Success(a)
  {
    ExampleBlocks();
    ExampleTails(a[6..], [0x5D]);
    EncodeCons(a);
    EncodeCons(a[3..]);
    assert a[3..][3..] == a[6..];
    assert Encode(a) == "Zm9v" + "YmFy" + "MQ==";
    ExampleTexts();
    RoundTrip(a);
  }

  lemma EncoderExampleTwo(b: seq<byte>, text: string)
    requires b == [0x71, 0x31, 0x2F, 0x5D] && text == "cTEvXQ=="
    ensures Encode(b) == text && Decode(text) == Success(b)
  {
    ExampleBlocks();
    ExampleTails([0x31], b[3..]);
    EncodeCons(b);
    assert Encode(b) == "cTEv" + "XQ==";
    ExampleTexts();
    RoundTrip(b);
  }
}
