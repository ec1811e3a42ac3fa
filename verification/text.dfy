/** Rust strings as the byte sequences they are: well-formed UTF-8 (section 4 of RFC 3629),
    character boundaries, and the UTF-16 view that the other VCMP implementations slice by. */
module Texts {
  datatype Option<+T> = None | Some(value: T)

  const U64_MAX: nat := 0xFFFF_FFFF_FFFF_FFFF

  type Byte = x: int | 0 <= x < 256

  /** The bytes of a string. `Valid` says that they are UTF-8. */
  type Text = seq<Byte>

  predicate IsContinuation(b: Byte) {
    0x80 <= b < 0xC0
  }

  /** Length of the well-formed character at the front of `s`, or 0 when there is none. */
  function CharLength(s: Text): (n: nat)
    ensures n <= 4 && n <= |s|
    ensures n > 0 ==> !IsContinuation(s[0])
    ensures forall i :: 1 <= i < n ==> IsContinuation(s[i])
  {
    if |s| == 0 then 0
    else if s[0] < 0x80 then 1
    else if 0xC2 <= s[0] <= 0xDF && |s| >= 2 && IsContinuation(s[1]) then 2
    else if |s| >= 3 && IsContinuation(s[1]) && IsContinuation(s[2]) && TripleLead(s[0], s[1]) then 3
    else if |s| >= 4 && IsContinuation(s[1]) && IsContinuation(s[2]) && IsContinuation(s[3])
            && QuadrupleLead(s[0], s[1]) then 4
    else 0
  }

  predicate TripleLead(lead: Byte, second: Byte) {
    || (lead == 0xE0 && 0xA0 <= second)
    || 0xE1 <= lead <= 0xEC
    || (lead == 0xED && second < 0xA0)
    || 0xEE <= lead <= 0xEF
  }

  predicate QuadrupleLead(lead: Byte, second: Byte) {
    || (lead == 0xF0 && 0x90 <= second)
    || 0xF1 <= lead <= 0xF3
    || (lead == 0xF4 && second < 0x90)
  }

  predicate Valid(s: Text) {
    s == [] || (CharLength(s) > 0 && Valid(s[CharLength(s)..]))
  }

  /** `str::is_char_boundary`. */
  predicate IsBoundary(s: Text, i: nat) {
    i == 0 || i == |s| || (i < |s| && !IsContinuation(s[i]))
  }

  predicate IsAscii(s: Text) {
    forall i :: 0 <= i < |s| ==> s[i] < 0x80
  }

  /** `str::get` with a range: `None` when a bound is outside the string or inside a character. */
  function Get(s: Text, lo: nat, hi: nat): Option<Text> {
    if lo <= hi <= |s| && IsBoundary(s, lo) && IsBoundary(s, hi) then Some(s[lo..hi]) else None
  }

  /** The slicing operator `&s[lo..]`, which panics unless its bound is a boundary. */
  function SliceFrom(s: Text, lo: nat): Text
    requires lo <= |s| && IsBoundary(s, lo)
  {
    s[lo..]
  }

  /** The character at the front does not depend on what follows it. */
  lemma {:induction false} CharLengthExtends(s: Text, t: Text)
    requires 0 < CharLength(s) <= |t|
    requires forall i :: 0 <= i < CharLength(s) ==> t[i] == s[i]
    ensures CharLength(t) == CharLength(s)
  {
    assert t[0] == s[0];
    if CharLength(s) >= 2 {
      assert t[1] == s[1];
    }
  }

  /** Cutting UTF-8 at a boundary leaves UTF-8 on both sides. */
  lemma {:induction false} ValidAtBoundary(s: Text, i: nat)
    requires Valid(s) && i <= |s| && IsBoundary(s, i)
    ensures Valid(s[..i]) && Valid(s[i..])
    decreases |s|
  {
    var n := CharLength(s);
    if i == 0 {
      assert s[i..] == s;
    } else if i == |s| {
      assert s[..i] == s;
    } else {
      assert i >= n;
      ValidAtBoundary(s[n..], i - n);
      assert s[..i][n..] == s[n..][..i - n];
      assert s[n..][i - n..] == s[i..];
      CharLengthExtends(s, s[..i]);
    }
  }

  lemma {:induction false} ValidConcat(a: Text, b: Text)
    requires Valid(a) && Valid(b)
    ensures Valid(a + b)
    decreases |a|
  {
    hide CharLength;
    if a == [] {
      assert a + b == b;
    } else {
      var n := CharLength(a);
      ValidConcat(a[n..], b);
      assert (a + b)[n..] == a[n..] + b;
      CharLengthExtends(a, a + b);
    }
  }

  lemma {:induction false} AsciiValid(s: Text)
    requires IsAscii(s)
    ensures Valid(s)
  {
    if s != [] {
      AsciiValid(s[1..]);
    }
  }

  /** From a boundary, the next one is at most four bytes on. */
  lemma {:induction false} NextBoundary(s: Text, i: nat) returns (j: nat)
    requires Valid(s) && i < |s| && IsBoundary(s, i)
    ensures i < j <= i + 4 && j <= |s| && IsBoundary(s, j)
  {
    ValidAtBoundary(s, i);
    var n := CharLength(s[i..]);
    j := i + n;
    if j < |s| {
      assert CharLength(s[i..][n..]) > 0;
      assert s[i..][n..][0] == s[j];
    }
  }

  function Payload(b: int, mark: int, shift: nat): int {
    (b - mark) * shift
  }

  /** The code point of the character at the front. */
  function Scalar(s: Text): int
    requires CharLength(s) > 0
  {
    match CharLength(s)
    case 1 => s[0]
    case 2 => Payload(s[0], 0xC0, 0x40) + Payload(s[1], 0x80, 1)
    case 3 => Payload(s[0], 0xE0, 0x1000) + Payload(s[1], 0x80, 0x40) + Payload(s[2], 0x80, 1)
    case _ => Payload(s[0], 0xF0, 0x40000) + Payload(s[1], 0x80, 0x1000)
              + Payload(s[2], 0x80, 0x40) + Payload(s[3], 0x80, 1)
  }

  /** A Unicode scalar value: a code point that is no surrogate. */
  predicate IsScalar(c: int) {
    0 <= c < 0xD800 || 0xE000 <= c < 0x110000
  }

  /** The encoding of one scalar value, by the table of section 3 of RFC 3629. */
  function Utf8(c: int): Text
    requires IsScalar(c)
  {
    if c < 0x80 then [c]
    else if c < 0x800 then [0xC0 + c / 0x40, 0x80 + c % 0x40]
    else if c < 0x10000 then [0xE0 + c / 0x1000, 0x80 + c / 0x40 % 0x40, 0x80 + c % 0x40]
    else [0xF0 + c / 0x40000, 0x80 + c / 0x1000 % 0x40, 0x80 + c / 0x40 % 0x40, 0x80 + c % 0x40]
  }

  lemma {:induction false} ThreeParts(c: int, x: int, y: int, z: int)
    requires 0 <= c && 0 <= y < 0x40 && 0 <= z < 0x40
    ensures c == x * 0x1000 + y * 0x40 + z <==> x == c / 0x1000 && y == c / 0x40 % 0x40 && z == c % 0x40
  {
    assert c / 0x40 / 0x40 == c / 0x1000;
  }

  lemma {:induction false} FourParts(c: int, w: int, x: int, y: int, z: int)
    requires 0 <= c && 0 <= x < 0x40 && 0 <= y < 0x40 && 0 <= z < 0x40
    ensures c == w * 0x40000 + x * 0x1000 + y * 0x40 + z
            <==> w == c / 0x40000 && x == c / 0x1000 % 0x40 && y == c / 0x40 % 0x40 && z == c % 0x40
  {
    ThreeParts(c, w * 0x40 + x, y, z);
    assert c / 0x1000 / 0x40 == c / 0x40000;
  }

  lemma {:induction false} EncodedTriple(c: int, s: Text)
    requires IsScalar(c) && 0x800 <= c < 0x10000 && |s| >= 3
    requires s[0] == 0xE0 + c / 0x1000 && s[1] == 0x80 + c / 0x40 % 0x40 && s[2] == 0x80 + c % 0x40
    ensures CharLength(s) == 3 && Scalar(s) == c
  {
    ThreeParts(c, c / 0x1000, c / 0x40 % 0x40, c % 0x40);
  }

  lemma {:induction false} EncodedQuadruple(c: int, s: Text)
    requires IsScalar(c) && 0x10000 <= c && |s| >= 4
    requires s[0] == 0xF0 + c / 0x40000 && s[1] == 0x80 + c / 0x1000 % 0x40
    requires s[2] == 0x80 + c / 0x40 % 0x40 && s[3] == 0x80 + c % 0x40
    ensures CharLength(s) == 4 && Scalar(s) == c
  {
    FourParts(c, c / 0x40000, c / 0x1000 % 0x40, c / 0x40 % 0x40, c % 0x40);
  }

  lemma {:induction false} EncodedCharacter(c: int, rest: Text)
    requires IsScalar(c)
    ensures CharLength(Utf8(c) + rest) == |Utf8(c)| && Scalar(Utf8(c) + rest) == c
  {
    var s := Utf8(c) + rest;
    if c < 0x800 {
    } else if c < 0x10000 {
      EncodedTriple(c, s);
    } else {
      EncodedQuadruple(c, s);
    }
  }

  lemma {:induction false} DecodedTriple(s: Text)
    requires CharLength(s) == 3
    ensures var c := Scalar(s); IsScalar(c) && 0x800 <= c < 0x10000 && s[..3] == Utf8(c)
  {
    var c: int, x: int, y: int, z: int := Scalar(s), s[0] - 0xE0, s[1] - 0x80, s[2] - 0x80;
    assert c == x * 0x1000 + y * 0x40 + z;
    ThreeParts(c, x, y, z);
  }

  lemma {:induction false} DecodedQuadruple(s: Text)
    requires CharLength(s) == 4
    ensures var c := Scalar(s); IsScalar(c) && 0x10000 <= c && s[..4] == Utf8(c)
  {
    var c: int, w: int, x: int := Scalar(s), s[0] - 0xF0, s[1] - 0x80;
    var y: int, z: int := s[2] - 0x80, s[3] - 0x80;
    assert c == w * 0x40000 + x * 0x1000 + y * 0x40 + z;
    FourParts(c, w, x, y, z);
  }

  lemma {:induction false} DecodedCharacter(s: Text)
    requires CharLength(s) > 0
    ensures IsScalar(Scalar(s)) && s[..CharLength(s)] == Utf8(Scalar(s))
  {
    if CharLength(s) == 3 {
      DecodedTriple(s);
    } else if CharLength(s) == 4 {
      DecodedQuadruple(s);
    }
  }

  /** The encoding of a sequence of scalar values. */
  function Encoded(cs: seq<int>): Text
    requires forall i :: 0 <= i < |cs| ==> IsScalar(cs[i])
  {
    if cs == [] then [] else Utf8(cs[0]) + Encoded(cs[1..])
  }

  predicate Encodes(cs: seq<int>, s: Text) {
    (forall i :: 0 <= i < |cs| ==> IsScalar(cs[i])) && Encoded(cs) == s
  }

  lemma {:induction false} EncodedValid(cs: seq<int>)
    requires forall i :: 0 <= i < |cs| ==> IsScalar(cs[i])
    ensures Valid(Encoded(cs))
  {
    hide CharLength, Scalar, Utf8;
    if cs != [] {
      var s := Encoded(cs);
      EncodedValid(cs[1..]);
      EncodedCharacter(cs[0], Encoded(cs[1..]));
      assert s[CharLength(s)..] == Encoded(cs[1..]);
      assert CharLength(s) > 0 by {
        Utf8Length(cs[0]);
      }
    }
  }

  lemma {:induction false} Utf8Length(c: int)
    requires IsScalar(c)
    ensures 1 <= |Utf8(c)| <= 4
  {
  }

  lemma {:induction false} ValidDecodes(s: Text) returns (cs: seq<int>)
    requires Valid(s)
    ensures Encodes(cs, s)
  {
    hide CharLength, Scalar, Utf8;
    if s == [] {
      return [];
    }
    var n := CharLength(s);
    var rest := ValidDecodes(s[n..]);
    DecodedCharacter(s);
    cs := [Scalar(s)] + rest;
    assert cs[1..] == rest;
    assert s == s[..n] + s[n..];
  }

  /** The strings are exactly the encodings of sequences of scalar values: nothing overlong, no surrogate,
      nothing beyond the last plane. */
  lemma {:induction false} ValidExactly(s: Text)
    ensures Valid(s) <==> exists cs :: Encodes(cs, s)
  {
    hide Valid;
    if Valid(s) {
      var cs := ValidDecodes(s);
    } else if cs :| Encodes(cs, s) {
      EncodedValid(cs);
    }
  }

  /** A position is a boundary exactly if what precedes it is a string. */
  lemma {:induction false} BoundaryExactly(s: Text, i: nat)
    requires Valid(s) && i <= |s|
    ensures IsBoundary(s, i) <==> Valid(s[..i])
    decreases |s|
  {
    if IsBoundary(s, i) {
      ValidAtBoundary(s, i);
    } else {
      InsideCharacter(s, i);
    }
  }

  lemma {:induction false} InsideCharacter(s: Text, i: nat)
    requires Valid(s) && i < |s| && i > 0 && IsContinuation(s[i])
    ensures !Valid(s[..i])
    decreases |s|
  {
    var n := CharLength(s);
    if i < n {
      CutCharacter(s, i);
    } else {
      assert s[n..][i - n] == s[i];
      assert s[n..] != [] && CharLength(s[n..]) > 0;
      if i > n {
        InsideCharacter(s[n..], i - n);
        assert s[..i][n..] == s[n..][..i - n];
        CharLengthExtends(s, s[..i]);
      }
    }
  }

  lemma {:induction false} CutCharacter(s: Text, i: nat)
    requires 0 < i < CharLength(s)
    ensures !Valid(s[..i])
  {
    assert s[..i][0] == s[0];
    if i >= 2 {
      assert s[..i][1] == s[1];
    }
  }

  /** The UTF-16 code units of one scalar value. */
  function Units(c: int): seq<int> {
    if c < 0x10000 then [c] else [0xD800 + (c - 0x10000) / 0x400, 0xDC00 + (c - 0x10000) % 0x400]
  }

  /** A scalar value is one unit, or a pair of surrogates that stand for it (section 2.1 of RFC 2781). */
  lemma {:induction false} UnitsExactly(c: int)
    requires IsScalar(c)
    ensures c < 0x10000 ==> Units(c) == [c]
    ensures c >= 0x10000 ==>
              var u := Units(c);
              && |u| == 2 && 0xD800 <= u[0] < 0xDC00 && 0xDC00 <= u[1] < 0xE000
              && c == 0x10000 + (u[0] - 0xD800) * 0x400 + (u[1] - 0xDC00)
  {
  }

  /** The UTF-16 code units of a string, by which the JavaScript and Java implementations slice. */
  function Utf16(s: Text): seq<int>
    requires Valid(s)
  {
    if s == [] then []
    else
      Units(Scalar(s)) + Utf16(s[CharLength(s)..])
  }

  lemma {:induction false} AsciiCharacter(s: Text)
    requires s != [] && s[0] < 0x80
    ensures Valid(s) <==> Valid(s[1..])
    ensures Valid(s) ==> Utf16(s) == [s[0]] + Utf16(s[1..])
  {
    assert CharLength(s) == 1 && Scalar(s) == s[0];
  }

  /** An ASCII prefix occupies as many UTF-16 units as bytes. */
  lemma {:induction false} Utf16AsciiPrefix(p: Text, rest: Text)
    requires IsAscii(p) && Valid(rest)
    ensures Valid(p + rest)
    ensures Utf16(p + rest) == p + Utf16(rest)
  {
    hide Valid, Utf16;
    if p == [] {
      assert p + rest == rest;
    } else {
      var s := p + rest;
      Utf16AsciiPrefix(p[1..], rest);
      assert s[1..] == p[1..] + rest;
      AsciiCharacter(s);
      assert p == [p[0]] + p[1..];
    }
  }
}
