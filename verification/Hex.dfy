// The hex codec (src/Utility/Utility.h).
module Hex {
  import opened Common

  type Byte = b: int | 0 <= b < 256
  type Bytes = seq<Byte>

  function Digit(n: nat): char
    requires n < 16
  {
    if n < 10 then ('0' as int + n) as char else ('a' as int + n - 10) as char
  }

  // setw(2), setfill('0'), hex.
  function Pair(b: Byte): string { [Digit(b / 16), Digit(b % 16)] }

  function ToHex(bytes: Bytes): (hex: string)
    ensures |hex| == 2 * |bytes|
  {
    if bytes == [] then "" else Pair(bytes[0]) + ToHex(bytes[1..])
  }

  // ---- std::stoi(text, nullptr, 16) on the short texts the decoder passes ----

  // isspace: the blank and the five controls from tab to carriage return.
  predicate Space(c: char)
    ensures Space(c) <==> c == ' ' || 9 <= c as int <= 13
  {
    c in " \t\n\r" || c as int == 11 || c as int == 12
  }

  function Value(c: char): Option<nat> {
    if '0' <= c <= '9' then Some(c as int - '0' as int)
    else if 'a' <= c <= 'f' then Some(c as int - 'a' as int + 10)
    else if 'A' <= c <= 'F' then Some(c as int - 'A' as int + 10)
    else None
  }

  predicate HexDigit(c: char) { Value(c).Some? }

  function SkipSpace(s: string): string {
    if s != "" && Space(s[0]) then SkipSpace(s[1..]) else s
  }

  // The longest run of hex digits at the start of s, on top of what was read before.
  function Digits(s: string, acc: nat): nat {
    if s != "" && HexDigit(s[0]) then Digits(s[1..], acc * 16 + Value(s[0]).value) else acc
  }

  function Unsigned(s: string): Option<nat> {
    var t := if |s| > 2 && s[0] == '0' && s[1] in "xX" && HexDigit(s[2]) then s[2..] else s;
    if t != "" && HexDigit(t[0]) then Some(Digits(t, 0)) else None
  }

  function Stoi16(s: string): Result<int> {
    var t := SkipSpace(s);
    var negative := t != "" && t[0] == '-';
    match Unsigned(if t != "" && t[0] in "+-" then t[1..] else t)
    case None => Throws("stoi")
    case Some(v) => var n: int := v; Ok(if negative then -n else n)
  }

  // substr(i, 2): the last chunk may be a single character.
  function Chunk(hex: string): string { if |hex| < 2 then hex else hex[..2] }

  // uint8_t keeps the low bits; an exception ends the whole decoding.
  function Joined(first: Result<int>, rest: Result<Bytes>): Result<Bytes> {
    match (first, rest)
    case (Throws(e), _) => Throws(e)
    case (_, Throws(e)) => Throws(e)
    case (Ok(v), Ok(bytes)) => Ok([v % 256] + bytes)
  }

  function FromHex(hex: string): Result<Bytes> {
    if hex == "" then Ok([]) else Joined(Stoi16(Chunk(hex)), FromHex(hex[|Chunk(hex)|..]))
  }

  predicate AllHex(s: string) { forall i :: 0 <= i < |s| ==> HexDigit(s[i]) }

  function Lower(s: string): string {
    seq(|s|, i requires 0 <= i < |s| => if 'A' <= s[i] <= 'F' then (s[i] as int + 32) as char else s[i])
  }

  // ---- laws ----

  lemma StoiOfDigits(c: char, d: char)
    requires HexDigit(c) && HexDigit(d)
    ensures Stoi16([c, d]) == Ok(Value(c).value * 16 + Value(d).value)
  {
    var s := [c, d];
    assert SkipSpace(s) == s;
    assert s[1..] == [d] && [d][1..] == "";
    assert Digits(s, 0) == Digits([d], Value(c).value) == Digits("", Value(c).value * 16 + Value(d).value);
  }

  lemma PairValues(b: Byte)
    ensures HexDigit(Pair(b)[0]) && HexDigit(Pair(b)[1])
    ensures Value(Pair(b)[0]).value == b / 16 && Value(Pair(b)[1]).value == b % 16
  {
    DigitValue(b / 16);
    DigitValue(b % 16);
  }

  lemma DigitValue(n: nat)
    requires n < 16
    ensures Value(Digit(n)) == Some(n)
  {
  }

  lemma DecodePair(b: Byte, rest: string)
    ensures FromHex(Pair(b) + rest) == Joined(Ok(b), FromHex(rest))
  {
    var hex := Pair(b) + rest;
    assert Chunk(hex) == Pair(b) && hex[2..] == rest;
    PairValues(b);
    StoiOfDigits(Pair(b)[0], Pair(b)[1]);
    hide Stoi16, Pair;
  }

  lemma {:induction false} DecodeInvertsEncode(bytes: Bytes)
    ensures FromHex(ToHex(bytes)) == Ok(bytes)
  {
    hide Stoi16, Pair, Digit;
    if bytes != [] {
      hide FromHex;
      DecodePair(bytes[0], ToHex(bytes[1..]));
      DecodeInvertsEncode(bytes[1..]);
      assert [bytes[0]] + bytes[1..] == bytes;
    }
  }

  const DIGITS: string := "0123456789abcdef"

  lemma DigitsAre(n: nat)
    requires n < 16
    ensures Digit(n) == DIGITS[n] && Value(DIGITS[n]) == Some(n)
    ensures n >= 10 ==> Value("ABCDEF"[n - 10]) == Some(n)
  {
  }

  // The text: for each byte, its high digit and then its low digit.
  lemma {:induction false} EncodedAt(bytes: Bytes, k: nat)
    requires k < |bytes|
    ensures ToHex(bytes)[2 * k] == DIGITS[bytes[k] / 16] && ToHex(bytes)[2 * k + 1] == DIGITS[bytes[k] % 16]
  {
    DigitsAre(bytes[k] / 16);
    DigitsAre(bytes[k] % 16);
    if k > 0 {
      EncodedAt(bytes[1..], k - 1);
      hide ToHex, Digit;
      ToHexTail(bytes, 2 * k);
      ToHexTail(bytes, 2 * k + 1);
    }
  }

  lemma ToHexTail(bytes: Bytes, i: nat)
    requires bytes != [] && 2 <= i < |ToHex(bytes)|
    ensures ToHex(bytes)[i] == ToHex(bytes[1..])[i - 2]
  {
  }

  lemma EncodeInjective(a: Bytes, b: Bytes)
    requires ToHex(a) == ToHex(b)
    ensures a == b
  {
    DecodeInvertsEncode(a);
    DecodeInvertsEncode(b);
  }

  lemma {:induction false} EncodeIsLowerHex(bytes: Bytes)
    ensures AllHex(ToHex(bytes)) && Lower(ToHex(bytes)) == ToHex(bytes)
  {
    if bytes != [] {
      PairValues(bytes[0]);
      EncodeIsLowerHex(bytes[1..]);
      forall i | 0 <= i < |ToHex(bytes)|
        ensures HexDigit(ToHex(bytes)[i]) && Lower(ToHex(bytes))[i] == ToHex(bytes)[i]
      {
        if i >= 2 { assert ToHex(bytes)[i] == ToHex(bytes[1..])[i - 2] == Lower(ToHex(bytes[1..]))[i - 2]; }
      }
    }
  }

  lemma PairOfDigits(c: char, d: char)
    requires HexDigit(c) && HexDigit(d)
    ensures Pair(Value(c).value * 16 + Value(d).value) == Lower([c, d])
  {
    LowerDigit(c);
    LowerDigit(d);
    var x, y := Value(c).value, Value(d).value;
    hide Value, Digit;
    assert (x * 16 + y) / 16 == x && (x * 16 + y) % 16 == y;
    assert Lower([c, d]) == [Lower([c])[0], Lower([d])[0]];
  }

  lemma LowerDigit(c: char)
    requires HexDigit(c)
    ensures Value(c).value < 16 && Digit(Value(c).value) == Lower([c])[0]
  {
  }

  // Re-encoding what was decoded gives the text back in lower case exactly for the texts that are
  // pairs of hex digits.
  lemma ReencodeIff(hex: string)
    ensures |hex| % 2 == 0 && AllHex(hex) <==>
      FromHex(hex).Ok? && ToHex(FromHex(hex).value) == Lower(hex)
  {
    if |hex| % 2 == 0 && AllHex(hex) { ReencodePairs(hex); }
    if FromHex(hex).Ok? && ToHex(FromHex(hex).value) == Lower(hex) { OnlyPairsReencode(hex, FromHex(hex).value); }
  }

  lemma OnlyPairsReencode(hex: string, bytes: Bytes)
    requires ToHex(bytes) == Lower(hex)
    ensures |hex| % 2 == 0 && AllHex(hex)
  {
    EncodeIsLowerHex(bytes);
    hide FromHex, ToHex;
    assert |hex| == |Lower(hex)|;
    forall i | 0 <= i < |hex| ensures HexDigit(hex[i]) { assert HexDigit(Lower(hex)[i]); }
  }

  lemma PairFact(c: char, d: char) returns (v: Byte)
    requires HexDigit(c) && HexDigit(d)
    ensures Stoi16([c, d]) == Ok(v) && Pair(v) == Lower([c, d])
  {
    StoiOfDigits(c, d);
    PairOfDigits(c, d);
    LowerDigit(c);
    LowerDigit(d);
    hide Stoi16, Pair, Lower, Digit, HexDigit, Value;
    v := Value(c).value * 16 + Value(d).value;
  }

  lemma DecodeStep(hex: string, v: Byte, rest: Bytes)
    requires |hex| >= 2 && Stoi16([hex[0], hex[1]]) == Ok(v) && FromHex(hex[2..]) == Ok(rest)
    ensures FromHex(hex) == Ok([v] + rest) && ToHex([v] + rest) == Pair(v) + ToHex(rest)
  {
    hide Stoi16, Pair;
    assert Chunk(hex) == [hex[0], hex[1]];
    assert ([v] + rest)[1..] == rest;
  }

  lemma LowerSplits(hex: string)
    requires |hex| >= 2
    ensures Lower(hex) == Lower([hex[0], hex[1]]) + Lower(hex[2..])
  {
  }

  lemma {:induction false} ReencodePairs(hex: string)
    requires |hex| % 2 == 0 && AllHex(hex)
    ensures FromHex(hex).Ok? && ToHex(FromHex(hex).value) == Lower(hex)
  {
    hide Stoi16, Pair, HexDigit;
    if hex == "" {
      assert Lower(hex) == "";
    } else {
      hide Lower, ToHex;
      var v := PairFact(hex[0], hex[1]);
      ReencodePairs(hex[2..]);
      DecodeStep(hex, v, FromHex(hex[2..]).value);
      LowerSplits(hex);
    }
  }

  // ---- what the decoder takes ----

  // A digit first, or a single space or sign and then a digit.
  predicate Takes(s: string) {
    s != "" && (HexDigit(s[0]) || (|s| > 1 && (Space(s[0]) || s[0] in "+-") && HexDigit(s[1])))
  }

  // The byte a chunk stands for: one digit, or two; a minus sign wraps around.
  function Meant(s: string): Byte
    requires Takes(s)
  {
    if HexDigit(s[0]) then
      if |s| > 1 && HexDigit(s[1]) then (Value(s[0]).value * 16 + Value(s[1]).value) % 256 else Value(s[0]).value % 256
    else if s[0] == '-' then (256 - Value(s[1]).value) % 256 else Value(s[1]).value % 256
  }

  function ChunkAt(hex: string, k: nat): string
    requires 2 * k < |hex|
  {
    Chunk(hex[2 * k..])
  }

  function Chunks(hex: string): nat { (|hex| + 1) / 2 }

  lemma StoiOfOne(c: char)
    ensures Stoi16([c]) == if HexDigit(c) then Ok(Value(c).value) else Throws("stoi")
  {
    assert [c][1..] == "";
    assert SkipSpace([c]) == if Space(c) then "" else [c];
    if HexDigit(c) { assert Digits([c], 0) == Digits("", Value(c).value); }
  }

  lemma StoiOfDigitAndJunk(c: char, d: char)
    requires HexDigit(c) && !HexDigit(d)
    ensures Stoi16([c, d]) == Ok(Value(c).value)
  {
    assert [c, d][1..] == [d];
    assert SkipSpace([c, d]) == [c, d];
    assert Digits([c, d], 0) == Digits([d], Value(c).value);
  }

  lemma StoiOfSpaceOrSign(c: char, d: char)
    requires !HexDigit(c)
    ensures Stoi16([c, d]) ==
      if (Space(c) || c in "+-") && HexDigit(d) then Ok(if c == '-' then -(Value(d).value as int) else Value(d).value)
      else Throws("stoi")
  {
    StoiOfOne(d);
    assert [c, d][1..] == [d] && [d][1..] == "";
    if Space(c) {
      assert SkipSpace([c, d]) == SkipSpace([d]);
    } else {
      assert SkipSpace([c, d]) == [c, d];
      if HexDigit(d) { assert Digits([d], 0) == Digits("", Value(d).value); }
    }
  }

  // std::stoi on a chunk succeeds exactly on those forms.
  lemma StoiTakes(s: string)
    requires 1 <= |s| <= 2
    ensures Stoi16(s).Ok? <==> Takes(s)
    ensures Takes(s) ==> Stoi16(s).value % 256 == Meant(s)
  {
    hide Stoi16;
    if |s| == 1 {
      assert s == [s[0]];
      StoiOfOne(s[0]);
    } else {
      assert s == [s[0], s[1]];
      if !HexDigit(s[0]) {
        StoiOfSpaceOrSign(s[0], s[1]);
      } else if HexDigit(s[1]) {
        StoiOfDigits(s[0], s[1]);
      } else {
        StoiOfDigitAndJunk(s[0], s[1]);
      }
    }
  }

  // Decoding takes exactly the texts all of whose chunks have one of those forms, and then gives
  // one byte for each chunk; any other chunk, anywhere, ends it with an exception.
  lemma {:induction false} DecodesIff(hex: string)
    ensures FromHex(hex).Ok? <==> forall k :: 0 <= k < Chunks(hex) ==> Takes(ChunkAt(hex, k))
    ensures FromHex(hex).Ok? ==>
      && |FromHex(hex).value| == Chunks(hex)
      && forall k :: 0 <= k < Chunks(hex) ==> FromHex(hex).value[k] == Meant(ChunkAt(hex, k))
  {
    hide Stoi16, Takes, Meant, FromHex;
    DecodeOne(hex);
    if hex != "" {
      StoiTakes(Chunk(hex));
      DecodesIff(hex[|Chunk(hex)|..]);
      ChunksShift(hex);
      hide Chunk, Chunks, ChunkAt;
    }
  }

  lemma DecodeOne(hex: string)
    ensures FromHex(hex) == if hex == "" then Ok([]) else Joined(Stoi16(Chunk(hex)), FromHex(hex[|Chunk(hex)|..]))
  {
    hide Stoi16;
  }

  lemma ChunksShift(hex: string)
    requires hex != ""
    ensures var rest := hex[|Chunk(hex)|..];
      && Chunks(hex) == Chunks(rest) + 1 && ChunkAt(hex, 0) == Chunk(hex)
      && (forall k :: 1 <= k < Chunks(hex) ==> ChunkAt(hex, k) == ChunkAt(rest, k - 1))
      && (forall k :: 0 <= k < Chunks(rest) ==> ChunkAt(rest, k) == ChunkAt(hex, k + 1))
  {
    var rest := hex[|Chunk(hex)|..];
    forall k | 0 <= k < Chunks(rest) ensures ChunkAt(rest, k) == ChunkAt(hex, k + 1) {
      assert rest[2 * k..] == hex[2 * (k + 1)..];
    }
  }

  // Some of what it takes beyond pairs of hex digits: a single digit, trailing junk, a sign,
  // leading space.
  lemma DecodeIsLenient(c: char, junk: char, v: int)
    requires Value(c) == Some(v) && !HexDigit(junk)
    ensures 0 <= v < 16
    ensures FromHex([c]) == Ok([v]) && FromHex([c, junk]) == Ok([v])
    ensures FromHex(['+', c]) == Ok([v]) && FromHex([' ', c]) == Ok([v])
    ensures FromHex(['-', c]) == Ok([if v == 0 then 0 else 256 - v])
  {
    LowerDigit(c);
    MeantHere(c, junk, v);
    hide Takes, Meant, FromHex, Value, Digit, Lower, HexDigit;
    ShortText([c]);
    ShortText([c, junk]);
    ShortText(['+', c]);
    ShortText([' ', c]);
    ShortText(['-', c]);
  }

  lemma MeantHere(c: char, junk: char, v: int)
    requires Value(c) == Some(v) && v < 16 && !HexDigit(junk)
    ensures Takes([c]) && Meant([c]) == v && Takes([c, junk]) && Meant([c, junk]) == v
    ensures Takes(['+', c]) && Meant(['+', c]) == v && Takes([' ', c]) && Meant([' ', c]) == v
    ensures Takes(['-', c]) && Meant(['-', c]) == if v == 0 then 0 else 256 - v
  {
  }

  // One chunk of at most two characters is the whole text.
  lemma ShortText(s: string)
    requires Takes(s) && 1 <= |s| <= 2
    ensures FromHex(s) == Ok([Meant(s)])
  {
    hide Stoi16, Takes, Meant, FromHex;
    assert ChunkAt(s, 0) == s;
    DecodesIff(s);
    var bytes := FromHex(s).value;
    assert |bytes| == 1 && bytes == [bytes[0]];
  }

  // ---- the loops ----

  method ToHexString(bytes: Bytes) returns (hex: string)
    ensures hex == ToHex(bytes)
  {
    hex := "";
    for i := 0 to |bytes|
      invariant hex + ToHex(bytes[i..]) == ToHex(bytes)
    {
      assert bytes[i..] == [bytes[i]] + bytes[i + 1..];
      hex := hex + Pair(bytes[i]);
    }
  }

  function Tail(s: string, i: nat): string { if i <= |s| then s[i..] else "" }

  // What the loop has, followed by what is still to come.
  function Prefixed(bytes: Bytes, rest: Result<Bytes>): Result<Bytes> {
    match rest case Ok(more) => Ok(bytes + more) case Throws(e) => Throws(e)
  }

  lemma ChunkDecoded(bytes: Bytes, hex: string)
    requires hex != ""
    ensures Prefixed(bytes, FromHex(hex)) ==
      if Stoi16(Chunk(hex)).Throws? then Throws(Stoi16(Chunk(hex)).message)
      else Prefixed(bytes + [Stoi16(Chunk(hex)).value % 256], FromHex(hex[|Chunk(hex)|..]))
  {
    hide Stoi16;
    assert forall b: Byte, more: Bytes :: bytes + ([b] + more) == bytes + [b] + more;
  }

  method FromHexString(hex: string) returns (r: Result<Bytes>)
    ensures r == FromHex(hex)
  {
    hide FromHex, Stoi16;
    var bytes: Bytes := [];
    var i := 0;
    assert Tail(hex, 0) == hex;
    assert FromHex(hex).Ok? ==> [] + FromHex(hex).value == FromHex(hex).value;
    while i < |hex|
      invariant FromHex(hex) == Prefixed(bytes, FromHex(Tail(hex, i)))
    {
      var byteString := if i + 2 <= |hex| then hex[i..i + 2] else hex[i..];
      assert byteString == Chunk(Tail(hex, i)) && Tail(hex, i)[|byteString|..] == Tail(hex, i + 2);
      ChunkDecoded(bytes, Tail(hex, i));
      var parsed := Stoi16(byteString);
      if parsed.Throws? { return Throws(parsed.message); }
      bytes := bytes + [parsed.value % 256];
      i := i + 2;
    }
    NothingLeft();
    assert Tail(hex, i) == "" && bytes + [] == bytes;
    r := Ok(bytes);
  }

  lemma NothingLeft()
    ensures FromHex("") == Ok([])
  {
  }
}
