/**
 The base64 text of section 4 of RFC 4648 and its canonical decoding. The
 decoder underneath is strict about padding bits (section 3.5) but skips line
 breaks, so the comparison with the re-encoded bytes is what makes it exact.
 */
module Base64 {
  import opened Basics

  newtype byte = x: int | 0 <= x < 256

  // ------------------------------------------------------------------ digits

  function ToChar(digit: nat): (c: char)
    requires digit < 64
    ensures FromChar(c) == Some(digit)
  {
    if digit < 26 then ('A' as int + digit) as char
    else if digit < 52 then ('a' as int + digit - 26) as char
    else if digit < 62 then ('0' as int + digit - 52) as char
    else if digit == 62 then '+'
    else '/'
  }

  function FromChar(c: char): (digit: Option<nat>)
    ensures digit.Some? ==> digit.value < 64
    ensures c == '=' || c == '\r' || c == '\n' ==> digit.None?
  {
    if 'A' <= c <= 'Z' then Some(c as int - 'A' as int)
    else if 'a' <= c <= 'z' then Some(c as int - 'a' as int + 26)
    else if '0' <= c <= '9' then Some(c as int - '0' as int + 52)
    else if c == '+' then Some(62)
    else if c == '/' then Some(63)
    else None
  }

  lemma DigitsInvert(c: char)
    requires FromChar(c).Some?
    ensures ToChar(FromChar(c).value) == c
  {
  }

  // ----------------------------------------------------------------- quanta

  function Quantum(d0: nat, d1: nat, d2: nat, d3: nat): (s: string)
    requires d0 < 64 && d1 < 64 && d2 < 64 && d3 < 64
  {
    [ToChar(d0), ToChar(d1), ToChar(d2), ToChar(d3)]
  }

  function EncodeThree(a: byte, b: byte, c: byte): (s: string)
    ensures |s| == 4
  {
    var (x, y, z) := (a as int, b as int, c as int);
    Quantum(x / 4, x % 4 * 16 + y / 16, y % 16 * 4 + z / 64, z % 64)
  }

  function EncodeTwo(a: byte, b: byte): (s: string)
    ensures |s| == 4
  {
    var (x, y) := (a as int, b as int);
    [ToChar(x / 4), ToChar(x % 4 * 16 + y / 16), ToChar(y % 16 * 4), '=']
  }

  function EncodeOne(a: byte): (s: string)
    ensures |s| == 4
  {
    var x := a as int;
    [ToChar(x / 4), ToChar(x % 4 * 16), '=', '=']
  }

  function Encode(b: seq<byte>): (s: string)
    ensures |s| == 4 * ((|b| + 2) / 3)
  {
    if |b| == 0 then ""
    else if |b| == 1 then EncodeOne(b[0])
    else if |b| == 2 then EncodeTwo(b[0], b[1])
    else EncodeThree(b[0], b[1], b[2]) + Encode(b[3..])
  }

  /** The bytes of four digits without padding. */
  function DecodeFull(s: string): (r: Option<seq<byte>>)
    requires |s| == 4
    ensures r.Some? ==> |r.value| == 3
  {
    var d := [FromChar(s[0]), FromChar(s[1]), FromChar(s[2]), FromChar(s[3])];
    if d[0].None? || d[1].None? || d[2].None? || d[3].None? then None
    else
      Some([(d[0].value * 4 + d[1].value / 16) as byte,
            (d[1].value % 16 * 16 + d[2].value / 4) as byte,
            (d[2].value % 4 * 64 + d[3].value) as byte])
  }

  /** The last quantum: padding is allowed here and its spare bits must be zero. */
  function DecodeLast(s: string): (r: Option<seq<byte>>)
    requires |s| == 4
  {
    var d0, d1, d2 := FromChar(s[0]), FromChar(s[1]), FromChar(s[2]);
    if s[3] != '=' then DecodeFull(s)
    else if d0.None? || d1.None? then None
    else if s[2] == '=' then
      if d1.value % 16 != 0 then None else Some([(d0.value * 4 + d1.value / 16) as byte])
    else if d2.None? || d2.value % 4 != 0 then None
    else Some([(d0.value * 4 + d1.value / 16) as byte, (d1.value % 16 * 16 + d2.value / 4) as byte])
  }

  /** The strict decoder on text without line breaks. */
  function DecodeStrict(s: string): (r: Option<seq<byte>>)
  {
    if |s| == 0 then Some([])
    else if |s| < 4 then None
    else if |s| == 4 then DecodeLast(s)
    else
      var head := DecodeFull(s[..4]);
      if head.None? then None
      else
        var tail := DecodeStrict(s[4..]);
        if tail.None? then None else Some(head.value + tail.value)
  }

  predicate IsBreak(c: char) { c == '\r' || c == '\n' }

  /** The decoder skips line breaks wherever they stand. */
  function Strip(s: string): (r: string)
    ensures (forall i :: 0 <= i < |r| ==> !IsBreak(r[i]))
    ensures |r| <= |s|
    ensures r == s <==> forall i :: 0 <= i < |s| ==> !IsBreak(s[i])
  {
    if s == "" then ""
    else if IsBreak(s[0]) then Strip(s[1..])
    else
      var rest := Strip(s[1..]);
      assert s == [s[0]] + s[1..];
      [s[0]] + rest
  }

  function Decode(s: string): (r: Option<seq<byte>>)
  {
    DecodeStrict(Strip(s))
  }

  /** decodeCanonicalBase64 */
  function DecodeCanonical(s: string): (r: Option<seq<byte>>)
  {
    var decoded := Decode(s);
    if decoded.None? || Encode(decoded.value) != s then None else decoded
  }

  // ------------------------------------------------------------------ proofs

  /**
   The text of section 4 of RFC 4648: three bytes are one 24-bit group read as
   four 6-bit digits, and a short last group is filled up with zero bits.
   */
  lemma GroupsAreBigEndian(a: byte, b: byte, c: byte)
    ensures var s := EncodeThree(a, b, c);
            ((FromChar(s[0]).value * 64 + FromChar(s[1]).value) * 64 + FromChar(s[2]).value) * 64 + FromChar(s[3]).value
            == (a as int * 256 + b as int) * 256 + c as int
    ensures EncodeTwo(a, b) == EncodeThree(a, b, 0)[..3] + "="
    ensures EncodeOne(a) == EncodeThree(a, 0, 0)[..2] + "=="
  {
    hide ToChar, FromChar;
    var s := EncodeThree(a, b, c);
    var x, y, z := a as int, b as int, c as int;
    assert FromChar(s[0]).value == x / 4 && FromChar(s[3]).value == z % 64;
    assert FromChar(s[1]).value == x % 4 * 16 + y / 16 && FromChar(s[2]).value == y % 16 * 4 + z / 64;
  }

  /** The digits of three bytes join to those bytes again. */
  lemma BytesSurvive(x: nat, y: nat, z: nat)
    requires x < 256 && y < 256 && z < 256
    ensures var d1, d2 := x % 4 * 16 + y / 16, y % 16 * 4 + z / 64;
            && x / 4 * 4 + d1 / 16 == x && d1 % 16 * 16 + d2 / 4 == y && d2 % 4 * 64 + z % 64 == z
  {
    assert (x % 4 * 16 + y / 16) / 16 == x % 4 && (x % 4 * 16 + y / 16) % 16 == y / 16;
    assert (y % 16 * 4 + z / 64) / 4 == y % 16 && (y % 16 * 4 + z / 64) % 4 == z / 64;
  }

  /** The bytes of four digits split into those digits again. */
  lemma DigitsSurvive(d0: nat, d1: nat, d2: nat, d3: nat)
    requires d0 < 64 && d1 < 64 && d2 < 64 && d3 < 64
    ensures var x, y, z := d0 * 4 + d1 / 16, d1 % 16 * 16 + d2 / 4, d2 % 4 * 64 + d3;
            && x < 256 && y < 256 && z < 256
            && x / 4 == d0 && x % 4 * 16 + y / 16 == d1 && y % 16 * 4 + z / 64 == d2 && z % 64 == d3
  {
    assert (d0 * 4 + d1 / 16) / 4 == d0 && (d0 * 4 + d1 / 16) % 4 == d1 / 16;
    assert (d1 % 16 * 16 + d2 / 4) / 16 == d1 % 16 && (d1 % 16 * 16 + d2 / 4) % 16 == d2 / 4;
    assert (d2 % 4 * 64 + d3) / 64 == d2 % 4 && (d2 % 4 * 64 + d3) % 64 == d3;
  }

  lemma ThreeInverts(a: byte, b: byte, c: byte)
    ensures DecodeFull(EncodeThree(a, b, c)) == Some([a, b, c])
    ensures EncodeThree(a, b, c)[3] != '='
  {
    hide ToChar, FromChar;
    BytesSurvive(a as int, b as int, c as int);
  }

  lemma LastInverts(a: byte, b: byte)
    ensures DecodeLast(EncodeOne(a)) == Some([a])
    ensures DecodeLast(EncodeTwo(a, b)) == Some([a, b])
  {
    hide ToChar, FromChar;
    BytesSurvive(a as int, 0, 0);
    BytesSurvive(a as int, b as int, 0);
  }

  lemma FullIsEncoded(s: string)
    requires |s| == 4 && DecodeFull(s).Some?
    ensures var b := DecodeFull(s).value; EncodeThree(b[0], b[1], b[2]) == s
  {
    hide ToChar, FromChar;
    DigitsInvert(s[0]);
    DigitsInvert(s[1]);
    DigitsInvert(s[2]);
    DigitsInvert(s[3]);
    DigitsSurvive(FromChar(s[0]).value, FromChar(s[1]).value, FromChar(s[2]).value, FromChar(s[3]).value);
  }

  lemma PaddedIsEncoded(s: string)
    requires |s| == 4 && s[3] == '=' && DecodeLast(s).Some?
    ensures Encode(DecodeLast(s).value) == s
  {
    hide ToChar, FromChar;
    DigitsInvert(s[0]);
    DigitsInvert(s[1]);
    if s[2] == '=' {
      DigitsSurvive(FromChar(s[0]).value, FromChar(s[1]).value, 0, 0);
      assert Encode(DecodeLast(s).value) == EncodeOne(DecodeLast(s).value[0]);
    } else {
      DigitsInvert(s[2]);
      DigitsSurvive(FromChar(s[0]).value, FromChar(s[1]).value, FromChar(s[2]).value, 0);
      assert Encode(DecodeLast(s).value) == EncodeTwo(DecodeLast(s).value[0], DecodeLast(s).value[1]);
    }
  }

  lemma LastIsEncoded(s: string)
    requires |s| == 4 && DecodeLast(s).Some?
    ensures Encode(DecodeLast(s).value) == s
  {
    if s[3] == '=' {
      PaddedIsEncoded(s);
    } else {
      FullIsEncoded(s);
      hide DecodeFull, EncodeThree;
      assert DecodeFull(s).value[3..] == [];
      assert s + "" == s;
    }
  }

  lemma NoBreaksInEncoding(b: seq<byte>)
    ensures forall i :: 0 <= i < |Encode(b)| ==> !IsBreak(Encode(b)[i])
  {
  }

  lemma {:induction false} StrictInverts(b: seq<byte>)
    ensures DecodeStrict(Encode(b)) == Some(b)
    decreases |b|
  {
    hide DecodeFull, DecodeLast, EncodeOne, EncodeTwo, EncodeThree;
    if |b| == 0 {
    } else if |b| == 1 {
      LastInverts(b[0], b[0]);
      assert b == [b[0]];
    } else if |b| == 2 {
      LastInverts(b[0], b[1]);
      assert b == [b[0], b[1]];
    } else {
      ThreeInverts(b[0], b[1], b[2]);
      StrictInverts(b[3..]);
      assert b == [b[0], b[1], b[2]] + b[3..];
      StrictPrefix(EncodeThree(b[0], b[1], b[2]), Encode(b[3..]));
    }
  }

  lemma StrictPrefix(head: string, tail: string)
    requires |head| == 4 && head[3] != '=' && DecodeFull(head).Some? && DecodeStrict(tail).Some?
    ensures DecodeStrict(head + tail) == Some(DecodeFull(head).value + DecodeStrict(tail).value)
  {
    hide DecodeFull;
    var s := head + tail;
    if tail == "" {
      assert s == head;
      assert DecodeFull(head).value + [] == DecodeFull(head).value;
    } else {
      assert |s| > 4 && s[..4] == head && s[4..] == tail;
    }
  }

  /** On text without line breaks the strict decoder already accepts only canonical text. */
  lemma {:induction false} StrictIsEncoded(s: string)
    requires DecodeStrict(s).Some?
    ensures Encode(DecodeStrict(s).value) == s
    decreases |s|
  {
    if |s| == 4 {
      LastIsEncoded(s);
    } else if |s| > 4 {
      FullIsEncoded(s[..4]);
      StrictIsEncoded(s[4..]);
      var head, tail := DecodeFull(s[..4]).value, DecodeStrict(s[4..]).value;
      assert (head + tail)[3..] == tail;
      assert s == s[..4] + s[4..];
    }
  }

  /**
   The canonical decoder accepts exactly the image of the encoder and inverts
   it.
   */
  lemma CanonicalExactlyInverts(s: string, b: seq<byte>)
    ensures DecodeCanonical(s) == Some(b) <==> s == Encode(b)
  {
    NoBreaksInEncoding(b);
    StrictInverts(b);
    assert Strip(Encode(b)) == Encode(b);
  }

  /** The re-encoding check rejects precisely the decodable texts that contain a line break. */
  lemma ReencodingMattersForBreaksOnly(s: string)
    requires Decode(s).Some?
    ensures DecodeCanonical(s).None? <==> exists i :: 0 <= i < |s| && IsBreak(s[i])
  {
    StrictIsEncoded(Strip(s));
  }
}
