/**
  Sessions of calls into the mockup chip. gpiolib drives the chip one
  callback at a time (the driver has no locking, so calls are serialized);
  Run and Replies give the table and the answers after a whole sequence of
  such calls, and the lemmas below state what the driver guarantees across
  a session: rejected calls change nothing, pins are independent, get sees
  the last write, and direction_input leaves no trace at all.
 */
module GpioTraces {
  import opened GpioMockup

  /** The table after the calls `calls`, made one after another from table `pins`. */
  function Run(pins: seq<int>, calls: seq<Call>): (r: seq<int>)
    requires |pins| == NumPins
    ensures |r| == NumPins
    decreases |calls|
  {
    if calls == [] then pins else Run(After(pins, calls[0]), calls[1..])
  }

  /** The reply to each of the calls `calls`, made one after another from table `pins`. */
  function Replies(pins: seq<int>, calls: seq<Call>): (r: seq<Reply>)
    requires |pins| == NumPins
    ensures |r| == |calls|
    decreases |calls|
  {
    if calls == [] then []
    else [Response(pins, calls[0])] + Replies(After(pins, calls[0]), calls[1..])
  }

  /** A session split in two: the second part starts from the table the first part leaves. */
  lemma {:induction false} RunAppend(pins: seq<int>, a: seq<Call>, b: seq<Call>)
    requires |pins| == NumPins
    ensures Run(pins, a + b) == Run(Run(pins, a), b)
    ensures Replies(pins, a + b) == Replies(pins, a) + Replies(Run(pins, a), b)
    decreases |a|
  {
    if a == [] {
      assert a + b == b;
    } else {
      assert (a + b)[0] == a[0];
      assert (a + b)[1..] == a[1..] + b;
      RunAppend(After(pins, a[0]), a[1..], b);
    }
  }

  /** A session of calls that all fail the bounds check leaves the table as it was; set answers nothing and every other call -EINVAL. */
  lemma {:induction false} RejectedSession(pins: seq<int>, calls: seq<Call>)
    requires |pins| == NumPins
    requires forall k | 0 <= k < |calls| :: !InRange(calls[k].offset)
    ensures Run(pins, calls) == pins
    ensures forall k | 0 <= k < |calls| ::
      Replies(pins, calls)[k] == if calls[k].Set? then Void else Returned(EInval)
    decreases |calls|
  {
    if calls != [] {
      RejectedCall(pins, calls[0]);
      var rest := calls[1..];
      assert forall k | 0 <= k < |rest| :: rest[k] == calls[k + 1];
      RejectedSession(pins, rest);
      assert Replies(pins, calls) == [Response(pins, calls[0])] + Replies(pins, rest);
    }
  }

  /** Pin `j` keeps its value through every session in which no call writes it. */
  lemma {:induction false} UntouchedPin(pins: seq<int>, calls: seq<Call>, j: nat)
    requires |pins| == NumPins && j < NumPins
    requires forall k | 0 <= k < |calls| :: !calls[k].Writes(j)
    ensures Run(pins, calls)[j] == pins[j]
    decreases |calls|
  {
    if calls != [] {
      WriteFrame(pins, calls[0], j);
      var rest := calls[1..];
      assert forall k | 0 <= k < |rest| :: rest[k] == calls[k + 1];
      UntouchedPin(After(pins, calls[0]), rest, j);
    }
  }

  /** A session of get_direction, direction_input and get calls leaves the whole table unchanged. */
  lemma {:induction false} ReadOnlySession(pins: seq<int>, calls: seq<Call>)
    requires |pins| == NumPins
    requires forall k | 0 <= k < |calls| :: calls[k].ReadOnly()
    ensures Run(pins, calls) == pins
  {
    forall j | 0 <= j < NumPins
      ensures Run(pins, calls)[j] == pins[j]
    {
      UntouchedPin(pins, calls, j);
    }
  }

  /** A session of one call. */
  lemma SingleCall(pins: seq<int>, c: Call)
    requires |pins| == NumPins
    ensures Run(pins, [c]) == After(pins, c)
    ensures Replies(pins, [c]) == [Response(pins, c)]
  {
    assert [c][1..] == [];
  }

  /** Right after a write to a valid pin, and through any calls that do not write it, the pin holds the value written. */
  lemma WriteSurvives(pins: seq<int>, w: Call, after: seq<Call>)
    requires |pins| == NumPins
    requires (w.DirectionOutput? || w.Set?) && InRange(w.offset)
    requires forall k | 0 <= k < |after| :: !after[k].Writes(w.offset)
    ensures Run(pins, [w] + after)[w.offset] == w.value
  {
    var written := After(pins, w);
    WriteFrame(pins, w, w.offset);
    assert ([w] + after)[0] == w && ([w] + after)[1..] == after;
    assert Run(pins, [w] + after) == Run(written, after);
    UntouchedPin(written, after, w.offset);
  }

  /** The reply to a call made at the end of a session is the reply from the table the session leaves. */
  lemma LastReply(pins: seq<int>, calls: seq<Call>, c: Call)
    requires |pins| == NumPins
    ensures Replies(pins, calls + [c])[|calls|] == Response(Run(pins, calls), c)
  {
    RunAppend(pins, calls, [c]);
    SingleCall(Run(pins, calls), c);
  }

  /** After a direction_output or set on a valid pin, and any calls that do not write that pin, a get returns the value written (LastReply places that get in the session). */
  lemma GetSeesLastWrite(pins: seq<int>, before: seq<Call>, w: Call, after: seq<Call>)
    requires |pins| == NumPins
    requires (w.DirectionOutput? || w.Set?) && InRange(w.offset)
    requires forall k | 0 <= k < |after| :: !after[k].Writes(w.offset)
    ensures Response(Run(pins, before + [w] + after), Get(w.offset)) == Returned(Ok(w.value))
  {
    var tail := [w] + after;
    var mid := Run(pins, before);
    assert before + [w] + after == before + tail;
    assert Run(pins, before + tail) == Run(mid, tail) by {
      RunAppend(pins, before, tail);
    }
    assert Run(mid, tail)[w.offset] == w.value by {
      WriteSurvives(mid, w, after);
    }
  }

  /** get_direction on a valid pin reports "output" at the end of every session, including one that set the pin to input. */
  lemma GetDirectionIgnoresHistory(pins: seq<int>, calls: seq<Call>, o: uint32)
    requires |pins| == NumPins && InRange(o)
    ensures Replies(pins, calls + [GetDirection(o)])[|calls|] == Returned(Ok(LineDirectionOut))
  {
    LastReply(pins, calls, GetDirection(o));
  }

  /** direction_input is invisible: removing it from a session changes neither the final table nor any other reply. */
  lemma DirectionInputInvisible(pins: seq<int>, a: seq<Call>, o: uint32, b: seq<Call>)
    requires |pins| == NumPins
    ensures Run(pins, a + [DirectionInput(o)] + b) == Run(pins, a + b)
    ensures var r := Replies(pins, a + [DirectionInput(o)] + b);
      r[..|a|] + r[|a| + 1..] == Replies(pins, a + b)
  {
    var c := DirectionInput(o);
    var mid := Run(pins, a);
    RunAppend(pins, a, [c]);
    SingleCall(mid, c);
    assert Run(pins, a + [c]) == mid;
    RunAppend(pins, a + [c], b);
    RunAppend(pins, a, b);
    var r := Replies(pins, a + [c] + b);
    assert Replies(pins, a + [c]) == Replies(pins, a) + [Response(mid, c)];
    assert r == Replies(pins, a) + [Response(mid, c)] + Replies(mid, b);
    assert r[..|a|] == Replies(pins, a);
    assert r[|a| + 1..] == Replies(mid, b);
  }

  /** The session of the reference scenario, replayed on the value layer from the table at load time. */
  lemma ReferenceSession()
    ensures Replies(Initial(), [DirectionOutput(2, 1), Get(2), Get(5), Set(0, 1), Get(0), GetDirection(0)])
      == [Returned(Ok(0)), Returned(Ok(1)), Returned(EInval), Void, Returned(Ok(1)), Returned(Ok(LineDirectionOut))]
  {
  }
}
