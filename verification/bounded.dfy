/** `serialize_bounded` of `src/session.rs`: JSON is written part by part into a buffer with a limit. */
module Bounded {
  import opened Texts
  import opened Frames
  import opened Resources

  datatype SerializeError = MessageTooLarge | SerializationFailed

  /** Everything the serializer writes. */
  function Joined(parts: seq<Text>): Text {
    if parts == [] then [] else parts[0] + Joined(parts[1..])
  }

  class Output {
    var bytes: Text
    const limit: nat
    var full: bool

    constructor (limit: nat)
      ensures this.limit == limit && bytes == [] && !full
    {
      this.limit := limit;
      bytes, full := [], false;
    }

    /** `write` takes a part whole or not at all. */
    method Write(part: Text) returns (ok: bool)
      requires |bytes| <= limit
      modifies this
      ensures |bytes| <= limit
      ensures ok <==> |old(bytes)| + |part| <= limit
      ensures bytes == if ok then old(bytes) + part else old(bytes)
      ensures full == (old(full) || !ok)
    {
      if |part| > SaturatingSub(limit, |bytes|) {
        full := true;
        return false;
      }
      bytes := bytes + part;
      return true;
    }
  }

  lemma {:induction false} JoinedFrom(parts: seq<Text>, i: nat)
    requires i < |parts|
    ensures Joined(parts[i..]) == parts[i] + Joined(parts[i + 1..])
  {
    assert parts[i..][1..] == parts[i + 1..];
  }

  /** The serializer writes `parts` and then succeeds or fails of its own accord. The result is the whole
      text exactly when that fits; what does not fit is reported as too large, whatever would have
      followed. */
  method SerializeBounded(parts: seq<Text>, succeeds: bool, limit: nat) returns (r: Result<Text, SerializeError>)
    ensures r == if |Joined(parts)| > limit then Err(MessageTooLarge)
                 else if succeeds then Ok(Joined(parts))
                 else Err(SerializationFailed)
  {
    var output := new Output(limit);
    var i := 0;
    assert parts[0..] == parts;
    while i < |parts|
      invariant i <= |parts| && |output.bytes| <= limit && !output.full
      invariant Joined(parts) == output.bytes + Joined(parts[i..])
    {
      JoinedFrom(parts, i);
      ghost var before := output.bytes;
      var ok := output.Write(parts[i]);
      if !ok {
        assert |Joined(parts)| >= |before| + |parts[i]|;
        return Err(MessageTooLarge);
      }
      assert before + (parts[i] + Joined(parts[i + 1..])) == output.bytes + Joined(parts[i + 1..]);
      i := i + 1;
    }
    assert parts[i..] == [] && Joined(parts) == output.bytes + [];
    assert Joined(parts) == output.bytes;
    if succeeds {
      r := Ok(output.bytes);
    } else {
      r := Err(SerializationFailed);
    }
  }

  /** What was serialized within the limit gives a frame of the permitted size, provided that the permitted
      size has room for a type and an id at all. */
  lemma {:induction false} BoundedFits(max: nat, id: Text, payload: Text)
    requires |id| == ID_LENGTH && |payload| <= SaturatingSub(max, 15)
    ensures |Wire(Message(id, payload))| <= max <==> max >= 15
    ensures |Wire(Ack(id, Some(payload)))| <= max <==> max >= 15
    ensures |Wire(Message(id, payload))| == |payload| + 15
  {
  }

  /** From a value to the frame that is sent: bounded serialization and then the size check of `exchange`. A
      frame is built exactly if the serializer succeeds and the frame is within the permitted size; also a
      serializer that fails is reported as too large once it has written too much. */
  method MessageFrame(parts: seq<Text>, succeeds: bool, max: nat, id: Text) returns (r: Result<Frame, SerializeError>)
    requires |id| == ID_LENGTH
    ensures r.Ok? <==> succeeds && |Joined(parts)| + 15 <= max
    ensures r.Ok? ==> r.value == Message(id, Joined(parts)) && |Wire(r.value)| <= max
    ensures r == Err(SerializationFailed) <==> !succeeds && |Joined(parts)| <= SaturatingSub(max, 15)
  {
    var payload := SerializeBounded(parts, succeeds, SaturatingSub(max, 15));
    if payload.Err? {
      return Err(payload.error);
    }
    if |payload.value| + 15 > max {
      return Err(MessageTooLarge);
    }
    BoundedFits(max, id, payload.value);
    r := Ok(Message(id, payload.value));
  }
}
