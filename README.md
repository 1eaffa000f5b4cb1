# Mockup GPIO controller, modelled in Dafny

`gpio-mockup.c` is a Linux kernel module that registers a fake GPIO chip
with four pins. Its only state is the static table `gpio_values[]` of
`MOCKUP_GPIO_NUM` (4) `int`s, all 0 when the module loads. gpiolib calls five
callbacks on the chip:

- `get_direction(offset)` returns 0, which is gpiolib's "output".
- `direction_input(offset)` returns 0 and records nothing.
- `direction_output(offset, value)` stores `value` and returns 0.
- `get(offset)` returns the stored value.
- `set(offset, value)` stores `value` and returns nothing (`void`).

Every callback first rejects `offset >= MOCKUP_GPIO_NUM`. The four
`int`-returning ones then return `-EINVAL`. `set` just returns.

The model has two files.

- `gpio_mockup.dfy`, module `GpioMockup`:
  - The value layer. `Call` is one callback invocation. `After` gives the
    table after a call. `Response` gives what the call returns: `Returned(Ok(v))`,
    `Returned(EInval)`, or `Void` for `set`. `Logged` gives the diagnostic
    line the call prints.
  - The class `Chip`. It owns the table as an `array<int>` of length 4, held
    in a `const` field, so the array is never replaced and its length never
    changes. Each callback is a method proved equal to the value layer.
    `DirectionOutput` and `Set` have `modifies values`. `GetDirection`,
    `DirectionInput` and `Get` have no `modifies` clause, so the verifier's
    framing guarantees that they leave the table alone.
  - Per-call lemmas: bounds-check rejection, write-then-read round trips,
    frame conditions, and the fixed "output" direction.
  - `ToErrno`, the C encoding of a `Status` as one `int`.
  - A client, `ReferenceScenario`, that drives a fresh `Chip`.
- `gpio_traces.dfy`, module `GpioTraces`: a session is a sequence of calls
  made one at a time. The driver has no locking, so the host must serialize
  calls. `Run` and `Replies` evaluate a whole session. The lemmas state the
  properties that hold across calls: rejected calls change nothing, pins are
  independent, `get` sees the last write, and `direction_input` has no
  observable effect.

Pin offsets are `uint32`, matching the C `unsigned int`. Pin values are
unbounded `int`, stored unclamped as the C code stores them. Nothing is ever
computed on a value, so the 32-bit width of the C `int` plays no part.

Three choices follow the code:

- The pin count is the constant 4 (`MOCKUP_GPIO_NUM`), not a construction
  parameter.
- Values are any `int`, not restricted to 0 or 1, although the doc comments
  say "0 or 1".
- A successful `get_direction` prints nothing. Every other successful call
  prints one info line.

## Model

| member | source | states |
|---|---|---|
| `GpioMockup.Initial` | gpio-mockup.c:10-14 | the table at load time has exactly MOCKUP_GPIO_NUM = 4 entries, every one 0 |
| `GpioMockup.After` | gpio-mockup.c:59-106 | no call changes the length of the table: it has 4 slots after any call |
| `GpioMockup.Logged` | gpio-mockup.c:24-106 | every call prints at most one line; only a successful get_direction prints none; a call with an out-of-range offset prints exactly the invalid-offset error for that offset |
| `GpioMockup.Response` | gpio-mockup.c:24-106 | only set returns nothing; a returning call reports -EINVAL exactly when its offset is out of range; every successful call other than get returns 0 |
| `GpioMockup.ToErrno` | gpio-mockup.c:24-87 | the C int return: a success carries its value itself, -EINVAL is negative, so a non-negative return always means success |
| `GpioMockup.ErrnoCollision` | gpio-mockup.c:79-87 | get on a valid pin holding -22 returns the same C int as get on an offset out of range, although the two outcomes differ |
| `GpioMockup.ErrnoDecodable` | gpio-mockup.c:79-87 | when pin values are non-negative, the C return value determines the outcome, and it is negative exactly for -EINVAL |
| `GpioMockup.RejectedCall` | gpio-mockup.c:26-103 | any call with offset >= 4 leaves the table unchanged, returns -EINVAL (set returns nothing), and logs the invalid offset |
| `GpioMockup.GetDirectionReportsOutput` | gpio-mockup.c:21-31 | get_direction on a valid pin returns 0 ("output") whatever the table holds, and stores nothing |
| `GpioMockup.DirectionInputKeepsTable` | gpio-mockup.c:40-48 | direction_input on a valid pin returns 0 and changes no pin value |
| `GpioMockup.GetReadsPin` | gpio-mockup.c:79-87 | get on a valid pin returns the stored value of that pin and changes nothing |
| `GpioMockup.ReadOnlyCallKeepsTable` | gpio-mockup.c:24-87 | get_direction, direction_input and get never change the table, for any offset |
| `GpioMockup.DirectionOutputThenGet` | gpio-mockup.c:59-87 | direction_output(o, v) on a valid pin returns 0, and a following get(o) returns v |
| `GpioMockup.SetThenGet` | gpio-mockup.c:79-106 | set(o, v) on a valid pin returns nothing, and a following get(o) returns v |
| `GpioMockup.WriteFrame` | gpio-mockup.c:59-106 | a call changes no pin other than the one it writes; a valid write stores its value unclamped |
| `GpioMockup.Chip.constructor` | gpio-mockup.c:13-14 | the new chip's table is a fresh array of 4 slots, all 0 |
| `GpioMockup.Chip.GetDirection` | gpio-mockup.c:24-31 | returns -EINVAL for offset >= 4 and 0 ("output") otherwise; reads no pin and changes nothing |
| `GpioMockup.Chip.DirectionInput` | gpio-mockup.c:40-48 | returns -EINVAL for offset >= 4 and 0 otherwise; changes nothing |
| `GpioMockup.Chip.DirectionOutput` | gpio-mockup.c:59-69 | returns -EINVAL and leaves the table alone for offset >= 4; otherwise stores value in slot offset only and returns 0 |
| `GpioMockup.Chip.Get` | gpio-mockup.c:79-87 | returns -EINVAL for offset >= 4, otherwise the value in slot offset; changes nothing |
| `GpioMockup.Chip.Set` | gpio-mockup.c:98-106 | leaves the table alone for offset >= 4; otherwise stores value in slot offset only |
| `GpioMockup.ReferenceScenario` | gpio-mockup.c:59-106 | on a fresh chip: direction_output(2, 1) returns 0, get(2) returns 1, get(5) returns -EINVAL, after set(0, 1) get(0) returns 1, and get_direction(0) returns "output" |
| `GpioTraces.Run` | gpio-mockup.c:13-14 | the table keeps its 4 slots through any session of calls |
| `GpioTraces.Replies` | gpio-mockup.c:24-106 | a session gets exactly one reply per call |
| `GpioTraces.RejectedSession` | gpio-mockup.c:26-103 | a session of calls whose offsets all fail the bounds check leaves the table as it was; set replies nothing and every other call replies -EINVAL |
| `GpioTraces.UntouchedPin` | gpio-mockup.c:59-106 | pins are independent: a pin that no call of a session writes keeps its value through the session |
| `GpioTraces.ReadOnlySession` | gpio-mockup.c:24-87 | a session of get_direction, direction_input and get calls leaves the whole table unchanged |
| `GpioTraces.WriteSurvives` | gpio-mockup.c:59-106 | right after a direction_output(o, v) or set(o, v) on a valid pin, and through any later calls that do not write o, pin o holds v |
| `GpioTraces.GetSeesLastWrite` | gpio-mockup.c:59-106 | after a direction_output(o, v) or set(o, v) on a valid pin, followed by any calls that do not write o, get(o) returns v |
| `GpioTraces.LastReply` | gpio-mockup.c:24-106 | the reply to the last call of a session is that call's reply on the table left by the calls before it |
| `GpioTraces.GetDirectionIgnoresHistory` | gpio-mockup.c:21-31 | get_direction on a valid pin replies "output" after any session, including one that called direction_input on that pin |
| `GpioTraces.DirectionInputInvisible` | gpio-mockup.c:40-48 | removing a direction_input from a session changes neither the final table nor the reply to any other call |
| `GpioTraces.ReferenceSession` | gpio-mockup.c:59-106 | the reference session replayed on the value layer gives the replies 0, 1, -EINVAL, nothing, 1, "output" |

## Left out

- `mockup_gpio_probe` and `mockup_gpio_remove` (gpio-mockup.c:115-150) are not part of this model. They fill in the `gpio_chip` structure and register it through `devm_gpiochip_add_data`, a kernel call outside the driver.
- `mockup_gpio_init`, `mockup_gpio_exit`, the `platform_driver` structure and the module macros (gpio-mockup.c:153-211) are not part of this model. They only allocate and register the platform device.
- `pr_err` and `pr_info` are not emitted by the class methods, because Dafny has no output here. The value-level function `Logged` states which line each call would print, with the offset and value that line names. The format strings are not modelled. Neither is the `%d` conversion of the `unsigned int` offset, which prints an offset of 2^31 or more as a negative number (0xFFFFFFFF prints as -1); `InvalidOffset` keeps the unsigned offset.
- The `struct gpio_chip *chip` parameter is not modelled, because no callback uses it.
- Concurrency is not modelled. The driver has no locking, and the model treats calls as serialized.
- The C `int` width of pin values is not modelled, because values are only stored and returned, never computed on.

## Notes on reproduced behaviour

Two behaviours of the source are reproduced as written rather than corrected.

- `get_direction` always reports "output", even after `direction_input`. The comment at gpio-mockup.c:21 says it "Returns 0, assuming all pins are in output mode by default". `GetDirectionIgnoresHistory` and `DirectionInputInvisible` prove it.
- `get` returns the stored value in the same `int` as the error code. A stored -22 would therefore read back as `-EINVAL` (`ErrnoCollision`). With the 0/1 values the doc comments expect, this cannot happen (`ErrnoDecodable`). The model keeps the two apart with the `Status` datatype.
