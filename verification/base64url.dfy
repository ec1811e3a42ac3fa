/** Frame ids: base64url without padding (section 5 of RFC 4648), `src/frame.rs:198-225`. */
module Ids {
  import opened Texts
  import opened Frames

  const ID_BYTES: nat := 9

  type Sextet = x: int | 0 <= x < 64

  /** The alphabet `A-Z a-z 0-9 - _`. */
  function Char(v: Sextet): (c: Byte)
    ensures InAlphabet(c) && c < 0x80
  {
    if v < 26 then 65 + v
    else if v < 52 then 71 + v
    else if v < 62 then v - 4
    else if v == 62 then 45
    else 95
  }

  predicate InAlphabet(c: Byte) {
    65 <= c <= 90 || 97 <= c <= 122 || 48 <= c <= 57 || c == 45 || c == 95
  }

  function CharValue(c: Byte): (v: Sextet)
    requires InAlphabet(c)
  {
    if 65 <= c <= 90 then c - 65
    else if 97 <= c <= 122 then c - 71
    else if 48 <= c <= 57 then c + 4
    else if c == 45 then 62
    else 63
  }

  lemma {:induction false} CharValueChar(v: Sextet)
    ensures CharValue(Char(v)) == v
  {
  }

  /** The table of section 5 of RFC 4648: three runs of consecutive characters, then the two others. */
  lemma {:induction false} Alphabet(v: Sextet, w: Sextet)
    ensures Char(0) == 'A' as int && Char(25) == 'Z' as int && Char(26) == 'a' as int && Char(51) == 'z' as int
    ensures Char(52) == '0' as int && Char(61) == '9' as int && Char(62) == '-' as int && Char(63) == '_' as int
    ensures (v <= w < 26 || 26 <= v <= w < 52 || 52 <= v <= w < 62) ==> Char(w) == Char(v) + (w - v)
    ensures Char(v) == Char(w) <==> v == w
  {
  }

  /** Byte `i` of a chunk as a number; missing bytes count as zero. */
  function ByteAt(chunk: Text, i: nat): int {
    if i < |chunk| then chunk[i] else 0
  }

  /** Up to three bytes as one 24-bit number. */
  function Triple(chunk: Text): (t: int)
    ensures 0 <= t < 0x1000000
  {
    ByteAt(chunk, 0) * 0x10000 + ByteAt(chunk, 1) * 0x100 + ByteAt(chunk, 2)
  }

  /** `(triple >> (18 - 6 * i)) & 0x3f`. */
  function SextetAt(triple: int, i: nat): Sextet
    requires triple >= 0 && i < 4
  {
    (match i
     case 0 => triple / 0x40000
     case 1 => triple / 0x1000
     case 2 => triple / 0x40
     case _ => triple) % 64
  }

  /** The length of the next chunk of at most three bytes. */
  function ChunkLength(bytes: Text, done: nat): nat
    requires done < |bytes|
  {
    if done + 3 <= |bytes| then 3 else |bytes| - done
  }

  lemma {:induction false} EncodedStep(bytes: Text, done: nat)
    requires done < |bytes|
    ensures var n := ChunkLength(bytes, done);
            Encoded(bytes[done..]) == EncodedChunk(bytes[done..done + n]) + Encoded(bytes[done + n..])
  {
    var rest, n := bytes[done..], ChunkLength(bytes, done);
    assert rest[..n] == bytes[done..done + n] && rest[n..] == bytes[done + n..];
  }

  /** `base64url_no_pad`, the outer loop. */
  method Encode(bytes: Text) returns (out: Text)
    ensures out == Encoded(bytes)
    ensures |out| == EncodedLength(|bytes|) && Decode(Encoded(bytes)) == bytes
  {
    hide Encoded, EncodedChunk, Decode, InAlphabet;
    out := [];
    var done := 0;
    assert bytes[0..] == bytes;
    while done < |bytes|
      invariant done <= |bytes|
      invariant Encoded(bytes) == out + Encoded(bytes[done..])
    {
      var n := ChunkLength(bytes, done);
      var chunk := EncodeChunk(bytes[done..done + n]);
      EncodedStep(bytes, done);
      assert out + (chunk + Encoded(bytes[done + n..])) == out + chunk + Encoded(bytes[done + n..]);
      out := out + chunk;
      done := done + n;
    }
    EncodedSize(bytes[done..]);
    assert Encoded(bytes[done..]) == [];
    EncodedSize(bytes);
    DecodeEncoded(bytes);
  }

  /** The inner loop: one character more than the chunk has bytes. */
  method EncodeChunk(chunk: Text) returns (out: Text)
    requires 1 <= |chunk| <= 3
    ensures out == EncodedChunk(chunk)
    ensures DecodedGroup(EncodedChunk(chunk)) == chunk
  {
    out := [];
    var triple := Triple(chunk);
    var chars := |chunk| + 1;
    for i := 0 to chars
      invariant out == EncodedChars(chunk, i)
    {
      out := out + [Char(SextetAt(triple, i))];
    }
    DecodeChunk(chunk);
  }

  /** `4 * (n / 3)` plus 0, 2 or 3 characters. */
  function EncodedLength(n: nat): nat {
    4 * (n / 3) + (match n % 3 case 0 => 0 case 1 => 2 case _ => 3)
  }

  /** What one chunk contributes. */
  function EncodedChunk(chunk: Text): (s: Text)
    requires 1 <= |chunk| <= 3
    ensures |s| == |chunk| + 1
    ensures forall i :: 0 <= i < |s| ==> InAlphabet(s[i])
  {
    EncodedChars(chunk, |chunk| + 1)
  }

  function EncodedChars(chunk: Text, k: nat): (s: Text)
    requires k <= 4
    ensures |s| == k
    ensures forall i :: 0 <= i < k ==> InAlphabet(s[i])
  {
    if k == 0 then [] else EncodedChars(chunk, k - 1) + [Char(SextetAt(Triple(chunk), k - 1))]
  }

  function Encoded(bytes: Text): (s: Text)
    ensures forall i :: 0 <= i < |s| ==> InAlphabet(s[i])
  {
    if bytes == [] then []
    else
      var n := if |bytes| < 3 then |bytes| else 3;
      EncodedChunk(bytes[..n]) + Encoded(bytes[n..])
  }

  /** The decoder of section 4 of RFC 4648, without its checks: four characters give three bytes,
      a last group of two or three gives one or two. */
  function Decode(s: Text): Text
    requires forall i :: 0 <= i < |s| ==> InAlphabet(s[i])
  {
    if |s| < 2 then []
    else
      var n := if |s| < 4 then |s| else 4;
      DecodedGroup(s[..n]) + Decode(s[n..])
  }

  function DecodedGroup(g: Text): (bytes: Text)
    requires 2 <= |g| <= 4
    requires forall i :: 0 <= i < |g| ==> InAlphabet(g[i])
    ensures |bytes| == |g| - 1
  {
    var v0, v1 := CharValue(g[0]), CharValue(g[1]);
    var v2 := if |g| > 2 then CharValue(g[2]) else 0;
    var v3 := if |g| > 3 then CharValue(g[3]) else 0;
    [v0 * 4 + v1 / 16] + (if |g| > 2 then [(v1 % 16) * 16 + v2 / 4] else [])
    + (if |g| > 3 then [(v2 % 4) * 64 + v3] else [])
  }

  lemma {:induction false} CharsOfChunk(chunk: Text, k: nat, i: nat)
    requires i < k <= 4
    ensures EncodedChars(chunk, k)[i] == Char(SextetAt(Triple(chunk), i))
  {
    if i < k - 1 {
      CharsOfChunk(chunk, k - 1, i);
    }
  }

  lemma {:induction false} Quotient(t: int, d: int, q: int, r: int)
    requires d in {0x40000, 0x1000, 0x40} && t == q * d + r && 0 <= r < d
    ensures t / d == q
  {
  }

  lemma {:induction false} LowSextet(q: int, r: int)
    requires 0 <= r < 64
    ensures (q * 64 + r) % 64 == r
  {
  }

  lemma {:induction false} SextetsOfTriple(b0: int, b1: int, b2: int, t: int)
    requires 0 <= b0 < 256 && 0 <= b1 < 256 && 0 <= b2 < 256
    requires t == b0 * 0x10000 + b1 * 0x100 + b2
    ensures SextetAt(t, 0) == b0 / 4
    ensures SextetAt(t, 1) == (b0 % 4) * 16 + b1 / 16
    ensures SextetAt(t, 2) == (b1 % 16) * 4 + b2 / 64
    ensures SextetAt(t, 3) == b2 % 64
  {
    Quotient(t, 0x40000, b0 / 4, (b0 % 4) * 0x10000 + b1 * 0x100 + b2);
    Quotient(t, 0x1000, b0 * 16 + b1 / 16, (b1 % 16) * 0x100 + b2);
    Quotient(t, 0x40, b0 * 1024 + b1 * 4 + b2 / 64, b2 % 64);
    LowSextet(b0 / 4, (b0 % 4) * 16 + b1 / 16);
    LowSextet(b0 * 16 + b1 / 16, (b1 % 16) * 4 + b2 / 64);
    LowSextet(b0 * 1024 + b1 * 4 + b2 / 64, b2 % 64);
  }

  /** The sextets of a triple, put together as the decoder does. */
  lemma {:induction false} Regrouped(b0: int, b1: int, b2: int)
    requires 0 <= b0 < 256 && 0 <= b1 < 256 && 0 <= b2 < 256
    ensures var v0, v1, v2, v3 := b0 / 4, (b0 % 4) * 16 + b1 / 16, (b1 % 16) * 4 + b2 / 64, b2 % 64;
            && v0 * 4 + v1 / 16 == b0
            && (v1 % 16) * 16 + v2 / 4 == b1
            && (v2 % 4) * 64 + v3 == b2
  {
  }

  lemma {:induction false} DecodeChunk(chunk: Text)
    requires 1 <= |chunk| <= 3
    ensures DecodedGroup(EncodedChunk(chunk)) == chunk
  {
    hide Char, CharValue, SextetAt, Triple, EncodedChars;
    var t := Triple(chunk);
    var b0, b1, b2 := ByteAt(chunk, 0), ByteAt(chunk, 1), ByteAt(chunk, 2);
    TripleOf(chunk);
    SextetsOfTriple(b0, b1, b2, t);
    Regrouped(b0, b1, b2);
    forall i | 0 <= i <= |chunk|
      ensures CharValue(EncodedChunk(chunk)[i]) == SextetAt(t, i)
    {
      CharsOfChunk(chunk, |chunk| + 1, i);
      CharValueChar(SextetAt(t, i));
    }
    var bytes := DecodedGroup(EncodedChunk(chunk));
    assert bytes[0] == chunk[0];
  }

  lemma {:induction false} TripleOf(chunk: Text)
    ensures Triple(chunk) == ByteAt(chunk, 0) * 0x10000 + ByteAt(chunk, 1) * 0x100 + ByteAt(chunk, 2)
  {
  }

  lemma {:induction false} LengthStep(n: nat)
    requires n >= 3
    ensures EncodedLength(n) == 4 + EncodedLength(n - 3)
  {
  }

  lemma {:induction false} EncodedSize(bytes: Text)
    ensures |Encoded(bytes)| == EncodedLength(|bytes|)
  {
    hide EncodedChunk, InAlphabet;
    if |bytes| >= 3 {
      EncodedSize(bytes[3..]);
      LengthStep(|bytes|);
    } else if bytes != [] {
      assert Encoded(bytes[|bytes|..]) == [];
    }
  }

  /** The encoding determines the bytes. */
  lemma {:induction false} DecodeEncoded(bytes: Text)
    ensures Decode(Encoded(bytes)) == bytes
  {
    hide EncodedChunk, DecodedGroup, InAlphabet;
    if bytes != [] {
      var n := if |bytes| < 3 then |bytes| else 3;
      DecodeEncoded(bytes[n..]);
      DecodeChunk(bytes[..n]);
      DecodeStep(EncodedChunk(bytes[..n]), Encoded(bytes[n..]));
      if n < 3 {
        assert bytes[n..] == [];
      }
      assert bytes == bytes[..n] + bytes[n..];
    }
  }

  /** The decoder takes a full group off the front, or the only group. */
  lemma {:induction false} DecodeStep(group: Text, rest: Text)
    requires 2 <= |group| <= 4 && (|group| == 4 || rest == [])
    requires forall i :: 0 <= i < |group| ==> InAlphabet(group[i])
    requires forall i :: 0 <= i < |rest| ==> InAlphabet(rest[i])
    ensures Decode(group + rest) == DecodedGroup(group) + Decode(rest)
  {
    hide DecodedGroup, InAlphabet;
    var s := group + rest;
    assert s[..|group|] == group && s[|group|..] == rest;
  }

  /** Nine random bytes always give a frame id the parser accepts, and different bytes give
      different ids: freshness of the bytes is freshness of the id. */
  lemma {:induction false} IdOfNineBytes(bytes: Text, other: Text)
    requires |bytes| == ID_BYTES && |other| == ID_BYTES
    ensures WellFormedId(Encoded(bytes))
    ensures Encoded(bytes) == Encoded(other) ==> bytes == other
  {
    EncodedSize(bytes);
    DecodeEncoded(bytes);
    DecodeEncoded(other);
    var id := Encoded(bytes);
    assert forall i :: 0 <= i < |id| ==> InAlphabet(id[i]) && id[i] < 0x80;
  }
}
