/**
 UTF-8 as Python's strict 'utf8' codec applies it to an authentication token
 (section 3 of RFC 3629). A `char` is a Unicode scalar value.
 */
module Utf8 {
  import opened Wire

  predicate IsAscii(s: string) { forall i | 0 <= i < |s| :: s[i] as int < 0x80 }

  function EncodeChar(c: char): (r: Octets)
    ensures 1 <= |r| <= 4
    ensures |r| == 1 <==> c as int < 0x80
  {
    var v := c as int;
    if v < 0x80 then [v]
    else if v < 0x800 then [0xC0 + v / 0x40, 0x80 + v % 0x40]
    else if v < 0x1_0000 then [0xE0 + v / 0x1000, 0x80 + v / 0x40 % 0x40, 0x80 + v % 0x40]
    else [0xF0 + v / 0x4_0000, 0x80 + v / 0x1000 % 0x40, 0x80 + v / 0x40 % 0x40, 0x80 + v % 0x40]
  }

  function Encode(s: string): (r: Octets)
    ensures |r| >= |s|
  {
    if s == [] then [] else EncodeChar(s[0]) + Encode(s[1..])
  }

  predicate IsContinuation(o: Octet) { 0x80 <= o < 0xC0 }

  predicate IsScalar(v: int) { 0 <= v < 0xD800 || 0xE000 <= v < 0x11_0000 }

  /** The first character and the number of octets it takes; None for ill-formed input. */
  function DecodeChar(s: Octets): (r: Option<(char, nat)>)
    requires s != []
    ensures r.Some? ==> 1 <= r.value.1 <= |s|
  {
    if s[0] < 0x80 then Some((s[0] as char, 1))
    else if 0xC2 <= s[0] < 0xE0 && |s| >= 2 && IsContinuation(s[1]) then
      Some((((s[0] as int - 0xC0) * 0x40 + (s[1] - 0x80)) as char, 2))
    else if 0xE0 <= s[0] < 0xF0 && |s| >= 3 && IsContinuation(s[1]) && IsContinuation(s[2]) then
      var v := (s[0] as int - 0xE0) * 0x1000 + (s[1] as int - 0x80) * 0x40 + (s[2] - 0x80);
      if 0x800 <= v && IsScalar(v) then Some((v as char, 3)) else None
    else if 0xF0 <= s[0] < 0xF5 && |s| >= 4
         && IsContinuation(s[1]) && IsContinuation(s[2]) && IsContinuation(s[3]) then
      var v := (s[0] as int - 0xF0) * 0x4_0000 + (s[1] as int - 0x80) * 0x1000 + (s[2] as int - 0x80) * 0x40
        + (s[3] - 0x80);
      if 0x1_0000 <= v && IsScalar(v) then Some((v as char, 4)) else None
    else None
  }

  function Decode(s: Octets): (r: Option<string>)
  {
    if s == [] then Some([])
    else match DecodeChar(s)
      case None => None
      case Some((c, n)) =>
        match Decode(s[n..])
        case None => None
        case Some(rest) => Some([c] + rest)
  }

  lemma TwoOctets(v: int)
    requires 0x80 <= v < 0x800
    ensures 0xC2 <= 0xC0 + v / 0x40 < 0xE0
    ensures v / 0x40 * 0x40 + v % 0x40 == v
  {
  }

  lemma ThreeOctets(v: int)
    requires 0x800 <= v < 0x1_0000
    ensures 0xE0 <= 0xE0 + v / 0x1000 < 0xF0
    ensures v / 0x1000 * 0x1000 + v / 0x40 % 0x40 * 0x40 + v % 0x40 == v
  {
    assert v / 0x40 / 0x40 == v / 0x1000;
  }

  lemma FourOctets(v: int)
    requires 0x1_0000 <= v < 0x11_0000
    ensures 0xF0 <= 0xF0 + v / 0x4_0000 < 0xF5
    ensures v / 0x4_0000 * 0x4_0000 + v / 0x1000 % 0x40 * 0x1000 + v / 0x40 % 0x40 * 0x40 + v % 0x40 == v
  {
    assert v / 0x1000 / 0x40 == v / 0x4_0000;
    assert v / 0x40 / 0x40 == v / 0x1000;
  }

  lemma DecodeEncodeChar(c: char, rest: Octets)
    ensures DecodeChar(EncodeChar(c) + rest) == Some((c, |EncodeChar(c)|))
  {
    var v := c as int;
    if 0x80 <= v < 0x800 {
      TwoOctets(v);
    } else if 0x800 <= v < 0x1_0000 {
      ThreeOctets(v);
    } else if 0x1_0000 <= v {
      FourOctets(v);
    }
  }

  /** Decoding undoes encoding for every string. */
  lemma {:induction false} DecodeEncode(s: string)
    ensures Decode(Encode(s)) == Some(s)
  {
    if s == [] {
    } else {
      DecodeEncodeChar(s[0], Encode(s[1..]));
      assert Encode(s)[|EncodeChar(s[0])|..] == Encode(s[1..]);
      DecodeEncode(s[1..]);
      assert [s[0]] + s[1..] == s;
    }
  }

  /** A character takes one octet exactly when it is ASCII, so only an ASCII text keeps its length. */
  lemma {:induction false} LengthKeptIffAscii(s: string)
    ensures |Encode(s)| == |s| <==> IsAscii(s)
  {
    if s == [] {
    } else {
      LengthKeptIffAscii(s[1..]);
      if IsAscii(s) {
        assert IsAscii(s[1..]);
      } else if s[0] as int < 0x80 {
        var i :| 0 <= i < |s| && s[i] as int >= 0x80;
        assert s[1..][i - 1] == s[i];
        assert !IsAscii(s[1..]);
      }
    }
  }

  /** An ASCII text encodes to its own character codes, so any cut of it decodes to that cut. */
  lemma {:induction false} AsciiCut(s: string, n: nat)
    requires IsAscii(s) && n <= |s|
    ensures |Encode(s)| == |s| && Decode(Encode(s)[..n]) == Some(s[..n])
  {
    LengthKeptIffAscii(s);
    if n == 0 {
    } else {
      AsciiCut(s[1..], n - 1);
      assert Encode(s)[..n] == EncodeChar(s[0]) + Encode(s[1..])[..n - 1];
      assert Encode(s)[..n][1..] == Encode(s[1..])[..n - 1];
      assert s[..n] == [s[0]] + s[1..][..n - 1];
    }
  }
}
