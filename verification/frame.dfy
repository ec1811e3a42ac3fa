/** The frame codec of `src/frame.rs`: a three-letter type, then an id and payload or an interval. */
module Frames {
  import opened Texts

  datatype Result<+T, +E> = Ok(value: T) | Err(error: E)

  datatype Frame =
    | Message(id: Text, payload: Text)
    | Ack(id: Text, result: Option<Text>)
    | Nak(id: Text, problem: Option<Text>)
    | Heartbeat(interval: nat)

  datatype FrameError =
    | TooShort(length: nat)
    | InvalidType(kind: Text)
    | IncompleteId
    | InvalidInterval(text: Text)

  const TYPE_LENGTH: nat := 3
  const ID_LENGTH: nat := 12
  const PAYLOAD_INDEX: nat := TYPE_LENGTH + ID_LENGTH

  const MSG: Text := [77, 83, 71]
  const ACK: Text := [65, 67, 75]
  const NAK: Text := [78, 65, 75]
  const HBT: Text := [72, 66, 84]
  const ZERO: Byte := 48
  const PLUS: Byte := 43

  /** The frames the session builds: 12-byte ASCII ids, UTF-8 payloads, no empty optional payload
      (the constructors `ack` and `nak` normalise it away), 64-bit intervals. */
  predicate WellFormed(f: Frame) {
    match f
    case Message(id, payload) => WellFormedId(id) && Valid(payload)
    case Ack(id, result) => WellFormedId(id) && WellFormedPayload(result)
    case Nak(id, problem) => WellFormedId(id) && WellFormedPayload(problem)
    case Heartbeat(interval) => interval <= U64_MAX
  }

  predicate WellFormedId(id: Text) {
    |id| == ID_LENGTH && IsAscii(id)
  }

  predicate WellFormedPayload(payload: Option<Text>) {
    payload.Some? ==> payload.value != [] && Valid(payload.value)
  }

  /** `payload.filter(|p| !p.is_empty())`, in the constructors of replies. */
  function Normalised(payload: Option<Text>): Option<Text> {
    if payload.Some? && payload.value == [] then None else payload
  }

  /** What the peer gets when `given` is replied: no payload for none or an empty one, otherwise just that. */
  predicate SameReply(given: Option<Text>, got: Option<Text>) {
    && (got.None? <==> given.None? || given.value == [])
    && (got.Some? ==> got == given)
  }

  function Kind(f: Frame): Text {
    match f
    case Message(_, _) => MSG
    case Ack(_, _) => ACK
    case Nak(_, _) => NAK
    case Heartbeat(_) => HBT
  }

  /** Decimal notation, as `u64::to_string` prints it. */
  function Decimal(n: nat): (s: Text)
    ensures AllDigits(s) && DecimalValue(s) == n
    ensures IsCanonical(s)
  {
    if n < 10 then [ZERO + n] else Decimal(n / 10) + [ZERO + n % 10]
  }

  predicate IsDigit(b: Byte) {
    ZERO <= b <= ZERO + 9
  }

  predicate AllDigits(s: Text) {
    s == [] || (IsDigit(s[|s| - 1]) && AllDigits(s[..|s| - 1]))
  }

  function DecimalValue(s: Text): nat
    requires AllDigits(s)
  {
    if s == [] then 0 else 10 * DecimalValue(s[..|s| - 1]) + (s[|s| - 1] - ZERO)
  }

  /** Digits without a superfluous leading zero or sign. */
  predicate IsCanonical(s: Text) {
    s != [] && s[0] != PLUS && (s[0] == ZERO ==> |s| == 1)
  }

  /** `str::parse::<u64>`: one optional `+`, then at least one digit, and no overflow. */
  function ParseU64(s: Text): Option<nat> {
    var digits := if s != [] && s[0] == PLUS then s[1..] else s;
    if digits != [] && AllDigits(digits) && DecimalValue(digits) <= U64_MAX
    then Some(DecimalValue(digits))
    else None
  }

  /** `Frame::parse`. Every slice is taken at a character boundary: `SliceFrom` demands it. */
  function Parse(raw: Text): Result<Frame, FrameError> {
    match Get(raw, 0, TYPE_LENGTH)
    case None => Err(TooShort(|raw|))
    case Some(kind) =>
      if kind == HBT then ParseHeartbeat(SliceFrom(raw, TYPE_LENGTH))
      else if kind == MSG || kind == ACK || kind == NAK then ParseWithId(raw, kind)
      else Err(InvalidType(kind))
  }

  function ParseHeartbeat(interval: Text): Result<Frame, FrameError> {
    match ParseU64(interval)
    case Some(n) => Ok(Heartbeat(n))
    case None => Err(InvalidInterval(interval))
  }

  function ParseWithId(raw: Text, kind: Text): Result<Frame, FrameError> {
    match Get(raw, TYPE_LENGTH, PAYLOAD_INDEX)
    case None => Err(IncompleteId)
    case Some(id) =>
      if !IsAscii(id) then Err(IncompleteId)
      else
        var payload := match Get(raw, PAYLOAD_INDEX, |raw|) case Some(p) => p case None => [];
        Ok(if kind == MSG then Message(id, payload)
           else if kind == ACK then Ack(id, Normalised(Some(payload)))
           else Nak(id, Normalised(Some(payload))))
  }

  function PayloadBytes(payload: Option<Text>): Text {
    if payload.Some? then payload.value else []
  }

  /** The payload of a frame with an id; nothing is sent for an absent one. */
  function BodyPayload(f: Frame): Text
    requires !f.Heartbeat?
  {
    match f
    case Message(_, payload) => payload
    case Ack(_, result) => PayloadBytes(result)
    case Nak(_, problem) => PayloadBytes(problem)
  }

  /** What follows the type on the wire. */
  function Body(f: Frame): Text {
    if f.Heartbeat? then Decimal(f.interval) else f.id + BodyPayload(f)
  }

  function Wire(f: Frame): Text {
    Kind(f) + Body(f)
  }

  /** `Frame::serialize`, which pushes the parts into one buffer. */
  method Serialize(f: Frame) returns (out: Text)
    ensures out == Wire(f)
    ensures WellFormed(f) ==> Valid(out) && Parse(out) == Ok(f)
  {
    out := [];
    out := out + Kind(f);
    match f {
      case Message(id, payload) =>
        out := out + id;
        out := out + payload;
      case Ack(id, payload) =>
        out := out + id;
        if payload.Some? {
          out := out + payload.value;
        }
      case Nak(id, payload) =>
        out := out + id;
        if payload.Some? {
          out := out + payload.value;
        }
      case Heartbeat(interval) =>
        out := out + Decimal(interval);
    }
    assert out == Wire(f);
    if WellFormed(f) {
      ParseWire(f);
    }
  }

  /** The bytes of an ASCII string. */
  function Ascii(s: string): Text
    requires forall i :: 0 <= i < |s| ==> s[i] < 128 as char
  {
    seq(|s|, i requires 0 <= i < |s| => s[i] as int)
  }

  lemma {:induction false} DigitsAscii(s: Text)
    requires AllDigits(s)
    ensures IsAscii(s) && forall i :: 0 <= i < |s| ==> IsDigit(s[i])
  {
    if s != [] {
      DigitsAscii(s[..|s| - 1]);
    }
  }

  lemma {:induction false} ParseU64Decimal(n: nat)
    requires n <= U64_MAX
    ensures ParseU64(Decimal(n)) == Some(n)
  {
    DigitsAscii(Decimal(n));
  }

  lemma {:induction false} WireSplit(kind: Text, id: Text, payload: Text)
    requires |kind| == TYPE_LENGTH && IsAscii(kind)
    requires WellFormedId(id) && Valid(payload)
    ensures var raw := kind + (id + payload);
            && Valid(raw)
            && Get(raw, 0, TYPE_LENGTH) == Some(kind)
            && Get(raw, TYPE_LENGTH, PAYLOAD_INDEX) == Some(id)
            && Get(raw, PAYLOAD_INDEX, |raw|) == Some(payload)
  {
    AsciiValid(kind);
    AsciiValid(id);
    ValidConcat(id, payload);
    ValidConcat(kind, id + payload);
    var raw := kind + (id + payload);
    assert raw[..TYPE_LENGTH] == kind;
    assert raw[TYPE_LENGTH..PAYLOAD_INDEX] == id;
    assert raw[PAYLOAD_INDEX..|raw|] == payload;
    assert raw[TYPE_LENGTH] == id[0];
    if payload != [] {
      assert CharLength(payload) > 0 && raw[PAYLOAD_INDEX] == payload[0];
    }
  }

  /** The three types with an id go through the same branch. */
  lemma {:induction false} ParseSplit(kind: Text, id: Text, payload: Text)
    requires kind == MSG || kind == ACK || kind == NAK
    requires WellFormedId(id) && Valid(payload)
    ensures var raw := kind + (id + payload);
            && Valid(raw)
            && Parse(raw) == Ok(if kind == MSG then Message(id, payload)
                                else if kind == ACK then Ack(id, Normalised(Some(payload)))
                                else Nak(id, Normalised(Some(payload))))
  {
    WireSplit(kind, id, payload);
    var raw := kind + (id + payload);
    assert Parse(raw) == ParseWithId(raw, kind);
  }

  lemma {:induction false} ParseBeat(interval: nat)
    requires interval <= U64_MAX
    ensures var raw := HBT + Decimal(interval); Valid(raw) && Parse(raw) == Ok(Heartbeat(interval))
  {
    var raw := HBT + Decimal(interval);
    DigitsAscii(Decimal(interval));
    ParseU64Decimal(interval);
    AsciiValid(raw);
    assert raw[0..TYPE_LENGTH] == HBT;
    assert raw[TYPE_LENGTH..] == Decimal(interval);
  }

  /** Parsing undoes serialising, for every well-formed frame. */
  lemma {:induction false} ParseWire(f: Frame)
    requires WellFormed(f)
    ensures Valid(Wire(f)) && Parse(Wire(f)) == Ok(f)
  {
    if f.Heartbeat? {
      ParseBeat(f.interval);
    } else {
      ParseSplit(Kind(f), f.id, BodyPayload(f));
    }
  }

  /** Where a frame with an id is cut. */
  lemma {:induction false} CutParts(raw: Text, kind: Text, f: Frame)
    requires ParseWithId(raw, kind) == Ok(f)
    ensures |raw| >= PAYLOAD_INDEX && IsBoundary(raw, PAYLOAD_INDEX) && !f.Heartbeat?
    ensures WellFormedId(f.id)
    ensures raw == raw[0..TYPE_LENGTH] + (f.id + BodyPayload(f))
    ensures BodyPayload(f) == raw[PAYLOAD_INDEX..]
    ensures f.Message? || Normalised(Some(raw[PAYLOAD_INDEX..])) == (if f.Ack? then f.result else f.problem)
  {
    assert raw[PAYLOAD_INDEX..|raw|] == raw[PAYLOAD_INDEX..];
    assert f.id == raw[TYPE_LENGTH..PAYLOAD_INDEX] && BodyPayload(f) == raw[PAYLOAD_INDEX..];
    assert raw == raw[0..TYPE_LENGTH] + (raw[TYPE_LENGTH..PAYLOAD_INDEX] + raw[PAYLOAD_INDEX..]);
  }

  lemma {:induction false} ParsedKind(raw: Text, f: Frame)
    requires Parse(raw) == Ok(f) && !f.Heartbeat?
    ensures |raw| >= TYPE_LENGTH && ParseWithId(raw, Kind(f)) == Ok(f)
    ensures Kind(f) == raw[0..TYPE_LENGTH]
  {
  }

  /** What the three types with an id are cut into. */
  lemma {:induction false} ParsedParts(raw: Text, f: Frame)
    requires Valid(raw) && Parse(raw) == Ok(f) && !f.Heartbeat?
    ensures |raw| >= PAYLOAD_INDEX && WellFormed(f)
    ensures raw == Wire(f)
    ensures Valid(BodyPayload(f))
  {
    ParsedKind(raw, f);
    CutParts(raw, Kind(f), f);
    ValidAtBoundary(raw, PAYLOAD_INDEX);
  }

  lemma {:induction false} ParsedHeartbeat(raw: Text, interval: nat)
    requires Valid(raw) && Parse(raw) == Ok(Heartbeat(interval))
    ensures |raw| >= TYPE_LENGTH && raw == HBT + raw[TYPE_LENGTH..]
    ensures ParseU64(raw[TYPE_LENGTH..]) == Some(interval)
  {
    assert raw == raw[0..TYPE_LENGTH] + raw[TYPE_LENGTH..];
  }

  /** Reading a number and printing it again gives canonical digits, and those only. */
  lemma {:induction false} DecimalOfParsed(t: Text, n: nat)
    requires ParseU64(t) == Some(n)
    ensures n <= U64_MAX
    ensures Decimal(n) == t <==> IsCanonical(t)
  {
    if IsCanonical(t) {
      DecimalOfValue(t);
    }
  }

  /** Whatever is parsed is well formed, and serialising it gives the input back, except that the
      digits of a heartbeat are brought into canonical form. */
  lemma {:induction false} WireParse(raw: Text, f: Frame)
    requires Valid(raw) && Parse(raw) == Ok(f)
    ensures WellFormed(f) && |raw| >= TYPE_LENGTH
    ensures f.Heartbeat? ==> ParseU64(raw[TYPE_LENGTH..]) == Some(f.interval)
    ensures Wire(f) == raw <==> (f.Heartbeat? ==> IsCanonical(raw[TYPE_LENGTH..]))
  {
    if f.Heartbeat? {
      ParsedHeartbeat(raw, f.interval);
      DecimalOfParsed(raw[TYPE_LENGTH..], f.interval);
      assert (HBT + Decimal(f.interval))[TYPE_LENGTH..] == Decimal(f.interval);
    } else {
      ParsedParts(raw, f);
    }
  }

  /** The decimal digits of a number, most significant first, with any number of leading zeros. */
  ghost predicate Denotes(digits: Text, n: nat) {
    && digits != []
    && (forall i :: 0 <= i < |digits| ==> 48 <= digits[i] <= 57)
    && n == Sum(digits)
  }

  /** Every digit counts for its position, from the front. */
  function Sum(digits: Text): int {
    if digits == [] then 0 else (digits[0] - 48) * Power(|digits| - 1) + Sum(digits[1..])
  }

  function Power(n: nat): nat {
    if n == 0 then 1 else 10 * Power(n - 1)
  }

  lemma {:induction false} SumLast(digits: Text, d: Byte)
    ensures Sum(digits + [d]) == 10 * Sum(digits) + (d - 48)
  {
    var s := digits + [d];
    if digits == [] {
      assert s[1..] == [];
    } else {
      SumLast(digits[1..], d);
      assert s[1..] == digits[1..] + [d];
      assert Power(|s| - 1) == 10 * Power(|digits| - 1);
      var first: int := digits[0];
      Distribute(first - 48, Power(|digits| - 1));
    }
  }

  lemma {:induction false} Distribute(d: int, p: int)
    ensures d * (10 * p) == 10 * (d * p)
  {
  }

  lemma {:induction false} DigitsSum(s: Text)
    ensures AllDigits(s) <==> forall i :: 0 <= i < |s| ==> 48 <= s[i] <= 57
    ensures AllDigits(s) ==> DecimalValue(s) == Sum(s)
  {
    if s != [] {
      var front, d := s[..|s| - 1], s[|s| - 1];
      DigitsSum(front);
      assert s == front + [d];
      SumLast(front, d);
    }
  }

  /** What every frame looks like on the wire: three letters, then the id and the payload if there is one, or
      the interval in decimal digits without leading zeros. */
  lemma {:induction false} WireForm(f: Frame)
    ensures match f
            case Message(id, payload) => Wire(f) == Ascii("MSG") + id + payload
            case Ack(id, None) => Wire(f) == Ascii("ACK") + id
            case Ack(id, Some(payload)) => Wire(f) == Ascii("ACK") + id + payload
            case Nak(id, None) => Wire(f) == Ascii("NAK") + id
            case Nak(id, Some(payload)) => Wire(f) == Ascii("NAK") + id + payload
            case Heartbeat(n) =>
              && |Wire(f)| > 3 && Wire(f)[..3] == Ascii("HBT") && Denotes(Wire(f)[3..], n)
              && (Wire(f)[3] == '0' as int ==> n == 0 && |Wire(f)| == 4)
  {
    assert Ascii("MSG") == MSG && Ascii("ACK") == ACK && Ascii("NAK") == NAK && Ascii("HBT") == HBT;
    if f.Heartbeat? {
      var digits := Decimal(f.interval);
      DigitsSum(digits);
      assert Wire(f)[3..] == digits;
      assert digits[0] == ZERO ==> |digits| == 1 && Sum(digits[1..]) == 0;
    }
  }

  /** A number, with or without a sign in front. */
  ghost predicate Signed(t: Text, n: nat) {
    Denotes(t, n) || (t != [] && t[0] == 43 && Denotes(t[1..], n))
  }

  lemma {:induction false} ParsedNumber(t: Text, n: nat)
    ensures ParseU64(t) == Some(n) <==> n <= U64_MAX && Signed(t, n)
  {
    hide Sum, DecimalValue, AllDigits;
    DigitsSum(t);
    if t != [] {
      DigitsSum(t[1..]);
    }
  }

  /** `HBT` is accepted exactly with a number of 64 bits behind it: an optional `+`, then at least one digit,
      leading zeros included. Its interval is that number. */
  lemma {:induction false} HeartbeatAccepted(raw: Text, n: nat)
    requires |raw| >= TYPE_LENGTH && raw[..TYPE_LENGTH] == HBT
    ensures Parse(raw) == Ok(Heartbeat(n)) <==> n <= U64_MAX && Signed(raw[TYPE_LENGTH..], n)
  {
    hide Sum, ParseU64;
    ParsedNumber(raw[TYPE_LENGTH..], n);
    assert raw[0..TYPE_LENGTH] == HBT;
    assert |raw| > TYPE_LENGTH ==> raw[TYPE_LENGTH..][0] == raw[TYPE_LENGTH];
  }

  /** What is refused, and with which error. */
  lemma {:induction false} RefusedExactly(raw: Text)
    ensures var typed := |raw| >= 3 && IsBoundary(raw, 3);
            && (Parse(raw) == Err(TooShort(|raw|)) <==> !typed)
            && (typed && raw[..3] in [MSG, ACK, NAK] ==>
                  (Parse(raw) == Err(IncompleteId)
                   <==> |raw| < 15 || !IsBoundary(raw, 15) || exists i :: 3 <= i < 15 && raw[i] >= 0x80))
            && (typed && raw[..3] in [MSG, ACK, NAK] ==> Parse(raw).Ok? || Parse(raw) == Err(IncompleteId))
            && (typed && raw[..3] == HBT ==> Parse(raw).Ok? || Parse(raw) == Err(InvalidInterval(raw[3..])))
            && (typed && raw[..3] !in [MSG, ACK, NAK, HBT] ==> Parse(raw) == Err(InvalidType(raw[..3])))
  {
    if |raw| >= 3 && IsBoundary(raw, 3) {
      assert raw[0..3] == raw[..3];
      if |raw| >= 15 {
        assert forall i :: 3 <= i < 15 ==> raw[3..15][i - 3] == raw[i];
        assert IsAscii(raw[3..15]) <==> forall i :: 3 <= i < 15 ==> raw[i] < 0x80;
      }
    }
  }

  lemma {:induction false} LeadingDigit(s: Text)
    requires s != [] && AllDigits(s) && s[0] != ZERO
    ensures DecimalValue(s) >= 1
  {
    DigitsAscii(s);
    if |s| > 1 {
      LeadingDigit(s[..|s| - 1]);
    }
  }

  lemma {:induction false} DecimalOfValue(s: Text)
    requires AllDigits(s) && IsCanonical(s)
    ensures Decimal(DecimalValue(s)) == s
  {
    if |s| == 1 {
      assert DecimalValue(s[..0]) == 0;
    } else {
      var front := s[..|s| - 1];
      LeadingDigit(front);
      DecimalOfValue(front);
      assert s == front + [s[|s| - 1]];
    }
  }

  /** The frames accepted with an id are exactly the serialised ones. */
  lemma {:induction false} AcceptedExactly(raw: Text, kind: Text)
    requires Valid(raw) && kind in [MSG, ACK, NAK]
    ensures (Parse(raw).Ok? && Kind(Parse(raw).value) == kind)
            <==> exists f :: WellFormed(f) && Kind(f) == kind && Wire(f) == raw
  {
    if Parse(raw).Ok? && Kind(Parse(raw).value) == kind {
      var f := Parse(raw).value;
      WireParse(raw, f);
      assert WellFormed(f) && Kind(f) == kind && Wire(f) == raw;
    }
    if f :| WellFormed(f) && Kind(f) == kind && Wire(f) == raw {
      ParseWire(f);
    }
  }

  /** Two frames with the same wire form are the same frame. */
  lemma {:induction false} WireInjective(f: Frame, g: Frame)
    requires WellFormed(f) && WellFormed(g) && Wire(f) == Wire(g)
    ensures f == g
  {
    ParseWire(f);
    ParseWire(g);
  }

  lemma {:induction false} WireUnits(kind: Text, id: Text, payload: Text)
    requires IsAscii(kind) && IsAscii(id) && Valid(payload)
    ensures Valid(kind + (id + payload))
    ensures Utf16(kind + (id + payload)) == kind + id + Utf16(payload)
  {
    assert kind + (id + payload) == kind + id + payload;
    Utf16AsciiPrefix(kind + id, payload);
  }

  /** Splitting an accepted frame by bytes is splitting it by UTF-16 units, which is how the
      JavaScript and Java peers find the id and the payload. */
  lemma {:induction false} SplitByUnits(raw: Text, f: Frame)
    requires Valid(raw) && Parse(raw) == Ok(f) && !f.Heartbeat?
    ensures Valid(BodyPayload(f))
    ensures Utf16(raw) == Kind(f) + f.id + Utf16(BodyPayload(f))
    ensures |Kind(f)| == TYPE_LENGTH && |f.id| == ID_LENGTH
  {
    ParsedParts(raw, f);
    WireUnits(Kind(f), f.id, BodyPayload(f));
  }
}
