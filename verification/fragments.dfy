/** The incremental WebSocket fragmenter of `src/ws.rs` (section 5.4 of RFC 6455). */
module Fragments {
  import opened Texts

  datatype Opcode = TextFrame | Continuation

  datatype WsMessage =
    | Whole(text: Text)
    | Fragment(opcode: Opcode, payload: Text, final: bool)

  const USIZE_MAX := U64_MAX

  /** `None` and zero both mean: do not fragment. */
  function SizeLimit(size: Option<nat>): (n: nat)
    ensures n > 0
  {
    if size.Some? && size.value > 0 then size.value else USIZE_MAX
  }

  /** The last boundary in `start..=end`, or `start` if there is none behind it. */
  function BackUp(text: Text, start: nat, end: nat): (b: nat)
    requires start <= end
    ensures start <= b <= end
    ensures b > start ==> IsBoundary(text, b)
    ensures forall i :: b < i <= end ==> !IsBoundary(text, i)
  {
    if end > start && !IsBoundary(text, end) then BackUp(text, start, end - 1) else end
  }

  /** How far a fragment may reach at most. */
  function Reach(text: Text, size: nat, start: nat): nat
    requires start <= |text|
  {
    start + if |text| - start <= size then |text| - start else size
  }

  /** Where the fragment that begins at `start` ends. */
  function CutAfter(text: Text, size: nat, start: nat): (end: nat)
    requires size > 0 && start < |text|
    ensures start < end <= |text| && end - start <= size
  {
    var limit := Reach(text, size, start);
    var b := BackUp(text, start, limit);
    if b == start then limit else b
  }

  function FragmentAt(text: Text, size: nat, start: nat): WsMessage
    requires size > 0 && start < |text|
  {
    var end := CutAfter(text, size, start);
    Fragment(if start == 0 then TextFrame else Continuation, text[start..end], end == |text|)
  }

  function FragmentsFrom(text: Text, size: nat, start: nat): seq<WsMessage>
    requires size > 0 && start <= |text|
    decreases |text| - start
  {
    if start == |text| then []
    else [FragmentAt(text, size, start)] + FragmentsFrom(text, size, CutAfter(text, size, start))
  }

  /** Everything the fragmenter yields for a text. */
  function Messages(text: Text, size: Option<nat>): seq<WsMessage> {
    if |text| <= SizeLimit(size) then [Whole(text)]
    else FragmentsFrom(text, SizeLimit(size), 0)
  }

  /** The closure state of `message_fragments`. */
  class Fragmenter {
    var text: Text
    var start: nat
    var done: bool
    const fragmentSize: Option<nat>

    /** What is still to come. */
    ghost function Remaining(): seq<WsMessage>
      requires Consistent()
      reads this
    {
      if done then []
      else if start == 0 && |text| <= SizeLimit(fragmentSize) then [Whole(text)]
      else FragmentsFrom(text, SizeLimit(fragmentSize), start)
    }

    ghost predicate Consistent()
      reads this
    {
      !done ==> (start < |text| && |text| > SizeLimit(fragmentSize))
                || (start == 0 && |text| <= SizeLimit(fragmentSize))
    }

    constructor (text: Text, fragmentSize: Option<nat>)
      ensures Consistent() && Remaining() == Messages(text, fragmentSize)
      ensures this.fragmentSize == fragmentSize
    {
      this.text := text;
      this.fragmentSize := fragmentSize;
      start := 0;
      done := false;
    }

    method Next() returns (m: Option<WsMessage>)
      requires Consistent()
      modifies this
      ensures Consistent()
      ensures m.None? <==> old(Remaining()) == []
      ensures m.None? ==> Remaining() == []
      ensures m.Some? ==> old(Remaining()) == [m.value] + Remaining()
    {
      if done {
        return None;
      }
      var size := SizeLimit(fragmentSize);
      if |text| <= size {
        done := true;
        m := Some(Whole(text));
        text := [];
        assert old(Remaining()) == [m.value] + [];
        return;
      }
      var limit := start + if |text| - start <= size then |text| - start else size;
      var end := limit;
      while end > start && !IsBoundary(text, end)
        invariant start <= end <= limit
        invariant BackUp(text, start, limit) == BackUp(text, start, end)
      {
        end := end - 1;
      }
      if end == start {
        end := limit;
      }
      var opcode := if start == 0 then TextFrame else Continuation;
      var chunk := text[start..end];
      assert end == CutAfter(text, size, start);
      done := end == |text|;
      start := end;
      m := Some(Fragment(opcode, chunk, done));
      assert m.value == FragmentAt(text, size, old(start));
      assert Remaining() == FragmentsFrom(text, size, end);
    }
  }

  /** Draining the iterator, as the sink does. */
  method Collect(text: Text, fragmentSize: Option<nat>) returns (out: seq<WsMessage>)
    ensures out == Messages(text, fragmentSize)
  {
    hide Messages, Fragmenter.Remaining, Fragmenter.Consistent;
    var fragmenter := new Fragmenter(text, fragmentSize);
    out := [];
    var next := fragmenter.Next();
    while next.Some?
      invariant fragmenter.Consistent()
      invariant next.None? ==> fragmenter.Remaining() == []
      invariant Messages(text, fragmentSize)
             == out + (if next.Some? then [next.value] else []) + fragmenter.Remaining()
      decreases (if next.Some? then 1 else 0) + |fragmenter.Remaining()|
    {
      out := out + [next.value];
      next := fragmenter.Next();
    }
  }

  function Payload(m: WsMessage): Text {
    match m
    case Whole(text) => text
    case Fragment(_, payload, _) => payload
  }

  /** Reassembly at the peer. */
  function Joined(ms: seq<WsMessage>): Text {
    if ms == [] then [] else Payload(ms[0]) + Joined(ms[1..])
  }

  /** Reassembling gives back the text, whether or not it was cut inside characters. */
  lemma {:induction false} FragmentsJoin(text: Text, size: nat, start: nat)
    requires size > 0 && start <= |text|
    ensures Joined(FragmentsFrom(text, size, start)) == text[start..]
    decreases |text| - start
  {
    if start < |text| {
      var end := CutAfter(text, size, start);
      FragmentsJoin(text, size, end);
      var ms := FragmentsFrom(text, size, start);
      assert ms[1..] == FragmentsFrom(text, size, end);
      assert text[start..] == text[start..end] + text[end..];
    }
  }

  /** Fragment `i` is never empty or too large, opens the message exactly when it comes first, and
      ends it exactly when it comes last. */
  lemma {:induction false} FragmentShape(text: Text, size: nat, start: nat, i: nat)
    requires size > 0 && start <= |text| && i < |FragmentsFrom(text, size, start)|
    ensures var ms := FragmentsFrom(text, size, start);
            && ms[i].Fragment?
            && 0 < |ms[i].payload| <= size
            && (ms[i].opcode == TextFrame <==> i == 0 && start == 0)
            && (ms[i].final <==> i == |ms| - 1)
    decreases |text| - start
  {
    var end := CutAfter(text, size, start);
    if i > 0 {
      FragmentShape(text, size, end, i - 1);
    } else if end < |text| {
      assert |FragmentsFrom(text, size, end)| > 0;
    }
  }

  /** With room for any character, every cut of UTF-8 is at a character boundary and gives up at
      most three bytes of the room. */
  lemma {:induction false} CutOnBoundary(text: Text, size: nat, start: nat)
    requires size >= 4 && start < |text| && Valid(text) && IsBoundary(text, start)
    ensures IsBoundary(text, CutAfter(text, size, start))
    ensures var end := CutAfter(text, size, start); end == |text| || end - start >= size - 3
  {
    var limit := Reach(text, size, start);
    var b := BackUp(text, start, limit);
    var j := NextBoundary(text, start);
    if j <= limit && b < |text| {
      var k := NextBoundary(text, if b == start then start else b);
      assert b != start;
      assert k > limit;
    }
  }

  lemma {:induction false} FragmentsOnBoundaries(text: Text, size: nat, start: nat, i: nat)
    requires size >= 4 && start <= |text| && Valid(text) && IsBoundary(text, start)
    requires i < |FragmentsFrom(text, size, start)|
    ensures Valid(Payload(FragmentsFrom(text, size, start)[i]))
    decreases |text| - start
  {
    var end := CutAfter(text, size, start);
    CutOnBoundary(text, size, start);
    if i > 0 {
      FragmentsOnBoundaries(text, size, end, i - 1);
    } else {
      ValidAtBoundary(text, end);
      assert IsBoundary(text[..end], start);
      ValidAtBoundary(text[..end], start);
      assert text[..end][start..] == text[start..end];
    }
  }

  lemma {:induction false} OneMore(rest: nat, room: nat, used: nat, left: nat)
    requires 0 < used && (used >= room || rest == 0)
    requires rest > 0 ==> (rest - 1) * room < left
    ensures rest * room < used + left
  {
    if rest > 0 {
      assert rest * room == (rest - 1) * room + room;
    }
  }

  /** At most `len / (size - 3)` fragments, rounded up: each but the last carries `size - 3` bytes. */
  lemma {:induction false} FragmentCount(text: Text, size: nat, start: nat)
    requires size >= 4 && start <= |text| && Valid(text) && IsBoundary(text, start)
    ensures var n := |FragmentsFrom(text, size, start)|;
            n > 0 ==> (n - 1) * (size - 3) < |text| - start
    decreases |text| - start
  {
    hide CutAfter, IsBoundary, Valid, FragmentAt;
    if start < |text| {
      var end := CutAfter(text, size, start);
      CutOnBoundary(text, size, start);
      FragmentCount(text, size, end);
      OneMore(|FragmentsFrom(text, size, end)|, size - 3, end - start, |text| - end);
    }
  }

  /** A fragment ends at the last character boundary within its size. Where there is none it is cut inside a
      character, and takes all the room there is. */
  predicate CutAtLast(text: Text, size: nat, start: nat, end: nat) {
    && (forall b :: end < b <= start + size && b <= |text| ==> !IsBoundary(text, b))
    && ((exists b :: start < b <= start + size && b <= |text| && IsBoundary(text, b)) ==> IsBoundary(text, end))
    && ((forall b :: start < b <= start + size && b <= |text| ==> !IsBoundary(text, b)) ==> end == start + size)
  }

  lemma {:induction false} CutsAtLast(text: Text, size: nat, start: nat)
    requires size > 0 && start < |text|
    ensures CutAtLast(text, size, start, CutAfter(text, size, start))
  {
    var limit := Reach(text, size, start);
    var b := BackUp(text, start, limit);
    assert IsBoundary(text, |text|);
    if b == start {
      assert forall x :: start < x <= limit ==> !IsBoundary(text, x);
    }
  }

  /** Where fragment `i` begins and ends in the text. */
  lemma {:induction false} FragmentCut(text: Text, size: nat, start: nat, i: nat)
    requires size > 0 && start <= |text| && i < |FragmentsFrom(text, size, start)|
    ensures var ms := FragmentsFrom(text, size, start);
            var from := start + |Joined(ms[..i])|;
            var to := from + |Payload(ms[i])|;
            to <= |text| && Payload(ms[i]) == text[from..to] && CutAtLast(text, size, from, to)
    decreases |text| - start
  {
    hide CutAtLast, CutAfter;
    var ms, end := FragmentsFrom(text, size, start), CutAfter(text, size, start);
    if i == 0 {
      CutsAtLast(text, size, start);
      assert Joined(ms[..0]) == [];
    } else {
      FragmentCut(text, size, end, i - 1);
      var rest := FragmentsFrom(text, size, end);
      assert ms[..i][1..] == rest[..i - 1] && ms[i] == rest[i - 1];
      assert Joined(ms[..i]) == Payload(ms[0]) + Joined(rest[..i - 1]);
    }
  }

  /** Fragmentation of every UTF-8 text, in one statement. */
  lemma {:induction false} Fragmentation(text: Text, size: Option<nat>)
    requires Valid(text)
    ensures var ms := Messages(text, size);
            && Joined(ms) == text
            && (|text| <= SizeLimit(size) <==> ms == [Whole(text)])
            && (|text| > SizeLimit(size) ==>
                  forall i :: 0 <= i < |ms| ==>
                    && ms[i].Fragment?
                    && 0 < |ms[i].payload| <= SizeLimit(size)
                    && ms[i].opcode == (if i == 0 then TextFrame else Continuation)
                    && (ms[i].final <==> i == |ms| - 1)
                    && (SizeLimit(size) >= 4 ==> Valid(ms[i].payload))
                    && var from := |Joined(ms[..i])|;
                       CutAtLast(text, SizeLimit(size), from, from + |ms[i].payload|))
            && (|text| > SizeLimit(size) >= 4 ==> (|ms| - 1) * (SizeLimit(size) - 3) < |text|)
    ensures SizeLimit(size) == if size.Some? && size.value > 0 then size.value else 0xFFFF_FFFF_FFFF_FFFF
  {
    hide FragmentsFrom, Valid, CutAtLast;
    var ms, n := Messages(text, size), SizeLimit(size);
    if |text| <= n {
      assert ms[1..] == [];
    } else {
      FragmentsJoin(text, n, 0);
      forall i | 0 <= i < |ms|
        ensures && ms[i].Fragment?
                && 0 < |ms[i].payload| <= n
                && ms[i].opcode == (if i == 0 then TextFrame else Continuation)
                && (ms[i].final <==> i == |ms| - 1)
                && (n >= 4 ==> Valid(ms[i].payload))
                && var from := |Joined(ms[..i])|; CutAtLast(text, n, from, from + |ms[i].payload|)
      {
        FragmentShape(text, n, 0, i);
        FragmentCut(text, n, 0, i);
        if n >= 4 {
          FragmentsOnBoundaries(text, n, 0, i);
        }
      }
      assert ms[0].Fragment?;
      if n >= 4 {
        FragmentCount(text, n, 0);
      }
    }
  }
}
