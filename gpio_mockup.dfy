/**
  The mockup GPIO controller of gpio-mockup.c: a fixed table of pin values
  and the five gpio_chip callbacks (get_direction, direction_input,
  direction_output, get, set) that read or update it.

  The module has two layers. The value layer (Call, After, Response, Logged)
  says what one callback does to a table given as a sequence; the class Chip
  owns the table as an array, as the driver's static gpio_values[] is, and
  each of its methods is proved to do what the value layer says.
 */
module GpioMockup {

  /** The C `unsigned int` in which gpiolib passes a pin offset. */
  type uint32 = x: int | 0 <= x < 0x1_0000_0000

  /** MOCKUP_GPIO_NUM: the number of pins of the chip. */
  const NumPins: nat := 4

  /** The errno the callbacks return, negated, for an offset out of range. */
  const EINVAL: int := 22

  /** gpiolib's code for the "output" line direction, as returned by get_direction. */
  const LineDirectionOut: int := 0

  /** The bounds check every callback starts with: `offset >= MOCKUP_GPIO_NUM` fails. */
  predicate InRange(offset: uint32) {
    offset < NumPins
  }

  /** The outcome of a callback that returns `int`, with -EINVAL kept apart from a pin value. */
  datatype Status = Ok(value: int) | EInval

  /** One call from gpiolib into the chip. */
  datatype Call =
    | GetDirection(offset: uint32)
    | DirectionInput(offset: uint32)
    | DirectionOutput(offset: uint32, value: int)
    | Get(offset: uint32)
    | Set(offset: uint32, value: int)
  {
    /** The call stores a value into pin `pin` (when its offset passes the check). */
    predicate Writes(pin: nat) {
      (DirectionOutput? || Set?) && offset == pin
    }

    /** The call never stores into the table. */
    predicate ReadOnly() {
      GetDirection? || DirectionInput? || Get?
    }
  }

  /** What the caller gets back: an `int` status, or nothing from the `void` set callback. */
  datatype Reply = Returned(status: Status) | Void

  /** The diagnostic each callback prints (pr_err / pr_info), with the offset and value it names; the offset is kept unsigned, while the driver prints it with %d. */
  datatype Event =
    | InvalidOffset(offset: uint32)
    | DirectionInputSet(offset: uint32)
    | DirectionOutputSet(offset: uint32, value: int)
    | ValueRead(offset: uint32, value: int)
    | ValueSet(offset: uint32, value: int)

  /** The table at load time: every pin 0. */
  function Initial(): (pins: seq<int>)
    ensures |pins| == NumPins
    ensures forall i | 0 <= i < NumPins :: pins[i] == 0
  {
    seq(NumPins, _ => 0)
  }

  /** The table after call `c`: only a direction_output or a set with a valid offset stores, and only into its own slot. */
  function After(pins: seq<int>, c: Call): (r: seq<int>)
    requires |pins| == NumPins
    ensures |r| == NumPins
  {
    if !InRange(c.offset) then pins
    else match c
      case DirectionOutput(o, v) => pins[o := v]
      case Set(o, v) => pins[o := v]
      case _ => pins
  }

  /** What call `c` returns when the table is `pins`. */
  function Response(pins: seq<int>, c: Call): (r: Reply)
    requires |pins| == NumPins
    ensures r.Void? <==> c.Set?
    ensures r.Returned? ==> (r.status.EInval? <==> !InRange(c.offset))
    ensures r.Returned? && r.status.Ok? && !c.Get? ==> r.status.value == 0
  {
    match c
    case GetDirection(o) => Returned(if InRange(o) then Ok(LineDirectionOut) else EInval)
    case DirectionInput(o) => Returned(if InRange(o) then Ok(0) else EInval)
    case DirectionOutput(o, _) => Returned(if InRange(o) then Ok(0) else EInval)
    case Get(o) => Returned(if InRange(o) then Ok(pins[o]) else EInval)
    case Set(_, _) => Void
  }

  /** The diagnostics call `c` prints when the table is `pins`: one line, except none from a successful get_direction. */
  function Logged(pins: seq<int>, c: Call): (r: seq<Event>)
    requires |pins| == NumPins
    ensures |r| <= 1
    ensures r == [] <==> c.GetDirection? && InRange(c.offset)
    ensures !InRange(c.offset) ==> r == [InvalidOffset(c.offset)]
  {
    if !InRange(c.offset) then [InvalidOffset(c.offset)]
    else match c
      case GetDirection(_) => []
      case DirectionInput(o) => [DirectionInputSet(o)]
      case DirectionOutput(o, v) => [DirectionOutputSet(o, v)]
      case Get(o) => [ValueRead(o, pins[o])]
      case Set(o, v) => [ValueSet(o, v)]
  }

  /** The `int` the C callback actually returns for a status. */
  function ToErrno(s: Status): (r: int)
    ensures s.Ok? ==> r == s.value
    ensures s.EInval? ==> r < 0
    ensures r >= 0 ==> s.Ok?
  {
    match s
    case Ok(v) => v
    case EInval => -EINVAL
  }

  /** The C return value is ambiguous: get on a pin holding -22 returns the same int as get on an offset out of range. */
  lemma ErrnoCollision(pins: seq<int>, o: uint32, o': uint32)
    requires |pins| == NumPins && InRange(o) && !InRange(o') && pins[o] == -EINVAL
    ensures ToErrno(Response(pins, Get(o)).status) == ToErrno(Response(pins, Get(o')).status)
    ensures Response(pins, Get(o)) != Response(pins, Get(o'))
  {
  }

  /** With the non-negative pin values the driver expects, the C return value determines the status. */
  lemma ErrnoDecodable(s: Status, s': Status)
    requires s.Ok? ==> s.value >= 0
    requires s'.Ok? ==> s'.value >= 0
    ensures ToErrno(s) == ToErrno(s') <==> s == s'
    ensures ToErrno(s) < 0 <==> s == EInval
  {
  }

  /** Every callback rejects an offset out of range: the table is untouched, set reports nothing, the others report -EINVAL, and the error is logged. */
  lemma RejectedCall(pins: seq<int>, c: Call)
    requires |pins| == NumPins
    requires !InRange(c.offset)
    ensures After(pins, c) == pins
    ensures Response(pins, c) == if c.Set? then Void else Returned(EInval)
    ensures Logged(pins, c) == [InvalidOffset(c.offset)]
  {
  }

  /** get_direction reports "output" for every valid pin, whatever the table holds, and stores nothing. */
  lemma GetDirectionReportsOutput(pins: seq<int>, o: uint32)
    requires |pins| == NumPins && InRange(o)
    ensures Response(pins, GetDirection(o)) == Returned(Ok(LineDirectionOut))
    ensures After(pins, GetDirection(o)) == pins
  {
  }

  /** direction_input on a valid pin succeeds and changes no pin value. */
  lemma DirectionInputKeepsTable(pins: seq<int>, o: uint32)
    requires |pins| == NumPins && InRange(o)
    ensures Response(pins, DirectionInput(o)) == Returned(Ok(0))
    ensures After(pins, DirectionInput(o)) == pins
  {
  }

  /** get on a valid pin returns its stored value and changes nothing. */
  lemma GetReadsPin(pins: seq<int>, o: uint32)
    requires |pins| == NumPins && InRange(o)
    ensures Response(pins, Get(o)) == Returned(Ok(pins[o]))
    ensures After(pins, Get(o)) == pins
  {
  }

  /** A read-only call leaves the table exactly as it was, valid offset or not. */
  lemma ReadOnlyCallKeepsTable(pins: seq<int>, c: Call)
    requires |pins| == NumPins && c.ReadOnly()
    ensures After(pins, c) == pins
  {
  }

  /** direction_output on a valid pin succeeds, and a following get returns the value written. */
  lemma DirectionOutputThenGet(pins: seq<int>, o: uint32, v: int)
    requires |pins| == NumPins && InRange(o)
    ensures Response(pins, DirectionOutput(o, v)) == Returned(Ok(0))
    ensures Response(After(pins, DirectionOutput(o, v)), Get(o)) == Returned(Ok(v))
  {
  }

  /** set on a valid pin returns nothing, and a following get returns the value written. */
  lemma SetThenGet(pins: seq<int>, o: uint32, v: int)
    requires |pins| == NumPins && InRange(o)
    ensures Response(pins, Set(o, v)) == Void
    ensures Response(After(pins, Set(o, v)), Get(o)) == Returned(Ok(v))
  {
  }

  /** A call changes at most the pin it writes; a valid write stores its value unclamped. */
  lemma WriteFrame(pins: seq<int>, c: Call, j: nat)
    requires |pins| == NumPins && j < NumPins
    ensures !c.Writes(j) ==> After(pins, c)[j] == pins[j]
    ensures c.Writes(j) ==> After(pins, c)[j] == c.value
  {
  }

  /** The controller: the table gpio_values[] of MOCKUP_GPIO_NUM pin values, updated in place. */
  class Chip {
    /** gpio_values: the stored value of each pin. */
    const values: array<int>

    /** The table has exactly MOCKUP_GPIO_NUM slots; it is never reallocated. */
    ghost predicate Valid() {
      values.Length == NumPins
    }

    /** The table as a value. */
    ghost function Pins(): seq<int>
      reads values
    {
      values[..]
    }

    /** The table as the module loads it: MOCKUP_GPIO_NUM pins, all 0. */
    constructor ()
      ensures Valid() && fresh(values)
      ensures Pins() == Initial()
    {
      values := new int[NumPins](_ => 0);
    }

    /** mockup_gpio_get_direction: -EINVAL out of range, otherwise always "output". */
    method GetDirection(offset: uint32) returns (r: Status)
      requires Valid()
      ensures Returned(r) == Response(Pins(), Call.GetDirection(offset))
    {
      if offset >= NumPins {
        return EInval;
      }
      return Ok(LineDirectionOut);
    }

    /** mockup_gpio_direction_input: -EINVAL out of range, otherwise 0; no direction is recorded. */
    method DirectionInput(offset: uint32) returns (r: Status)
      requires Valid()
      ensures Returned(r) == Response(Pins(), Call.DirectionInput(offset))
    {
      if offset >= NumPins {
        return EInval;
      }
      return Ok(0);
    }

    /** mockup_gpio_direction_output: -EINVAL out of range, otherwise stores `value` and returns 0. */
    method DirectionOutput(offset: uint32, value: int) returns (r: Status)
      requires Valid()
      modifies values
      ensures Pins() == After(old(Pins()), Call.DirectionOutput(offset, value))
      ensures Returned(r) == Response(old(Pins()), Call.DirectionOutput(offset, value))
    {
      if offset >= NumPins {
        return EInval;
      }
      values[offset] := value;
      return Ok(0);
    }

    /** mockup_gpio_get: -EINVAL out of range, otherwise the stored value. */
    method Get(offset: uint32) returns (r: Status)
      requires Valid()
      ensures Returned(r) == Response(Pins(), Call.Get(offset))
    {
      if offset >= NumPins {
        return EInval;
      }
      return Ok(values[offset]);
    }

    /** mockup_gpio_set: returns nothing; out of range it only returns, otherwise it stores `value`. */
    method Set(offset: uint32, value: int)
      requires Valid()
      modifies values
      ensures Pins() == After(old(Pins()), Call.Set(offset, value))
    {
      if offset >= NumPins {
        return;
      }
      values[offset] := value;
    }
  }

  /** A freshly loaded chip driven through a short session: direction_output(2, 1), get(2), get(5), set(0, 1), get(0), get_direction(0). */
  method ReferenceScenario() returns (out2: Status, got2: Status, got5: Status, got0: Status, dir0: Status)
    ensures out2 == Ok(0) && got2 == Ok(1) && got5 == EInval
    ensures got0 == Ok(1) && dir0 == Ok(LineDirectionOut)
  {
    var chip := new Chip();
    out2 := chip.DirectionOutput(2, 1);
    got2 := chip.Get(2);
    got5 := chip.Get(5);
    chip.Set(0, 1);
    got0 := chip.Get(0);
    dir0 := chip.GetDirection(0);
  }
}
