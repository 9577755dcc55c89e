# name-tag: the one-pixel name tag's state machines, in Dafny

This project models the logic of `code.py` of the name tag: a microcontroller
that drives a single RGB pixel with three cooperating state machines.

- **Palettes** (`palettes.dfy`): unpacking `0xRRGGBB` numbers into
  triples, the colour limiter that keeps every colour within a byte at
  every step of the colour-cycle ramp (`COLOR_CYCLE_STEP_MAX = 44`,
  `COLOR_CYCLE_STEP_DIV = 4`), the channel level `int(x * step / 4)` that
  `load_pixel` writes, and the four palettes the controller publishes
  (Christmas, Hanukkah, pride, Ukraine).
- **Controller** (`controller.dfy`): the theme selector. Its themes form the
  cycle flame → Christmas → Hanukkah → pride → Ukraine → flame, advanced by
  button presses. It keeps the press counter, the `candle` flag that lets
  the flicker run, the published palette, and the `triggered()` change
  detector that other machines wait on. `OurFlicker.suppress` is modelled
  beside it.
- **ColorCycle** (`color_cycle.dfy`): fades the pixel up and down through
  each colour of the published palette. It drops the fade as soon as the
  controller publishes a different palette object.
- `name_tag.dfy` steps the three machines through the first button press
  in a verified scenario.
- `machines.dfy` holds what the state-machine library supplies: `Option`
  and the wait conditions (`Immediate` stands for `IMMEDATE_TRANSFER`).

Each machine is a class. Its current state is a datatype tag, and it records
the wait condition it last returned. Each state function is a method that
returns `(next state or None, wait condition)`. `Run` stands for one
invocation of the current state by the scheduler: it applies the returned
state and wait. The button watcher's `consume()` is the boolean parameter
`pressed`. Python's `is` comparison of palettes is a comparison of handles
(`Pallet`), one per module-level palette tuple.

Invariants proved as `Valid()` and kept by every `Run`:

- Controller: whenever it waits on the button, `candle` holds exactly in
  the flame theme, and the published palette is the resident theme's own
  (None exactly in the flame theme). Between states, neither holds.
- ColorCycle: `0 <= step <= 44`. While it ramps up, `step < 44`; while it
  ramps down, `step >= 1`. In both, `color_index` is inside the latched
  palette, so `load_pixel` always finds a colour. Every value it writes is
  in 0..255.

Behaviour of the code worth knowing when reading the model:

- The palettes are module-level tuples (code.py:30-36), so a theme
  publishes the same palette object each time it is selected, and
  ColorCycle restarts on reselection only if it saw a different palette (or
  None) in between. `ReselectionRepublishes` states this.
- The palette themes never touch `candle`; `flickering` sets it and clears
  it when a press leaves it (code.py:98-106). At rest each theme's flags are
  fixed (`Controller.Valid`).
- After a colour ramps down, `up` starts the next colour from step 0 (a dark
  frame). A new cycle starts from step 1.

## Model

| member | source | states |
|---|---|---|
| Palettes.NumberColorToTuple | code.py:24-25 | every component is in 0..255, and repacking them gives `h & 0xFFFFFF` (for negative `h` too) |
| Palettes.NumberColorRoundTrip | code.py:24-25 | unpacking a packed byte triple gives the triple back |
| Palettes.NumberPaletToTuple | code.py:27-28 | the result has the palette's length, and entry i is the unpacking of number i (order kept) |
| Palettes.ScaleFactor | code.py:16 | the factor `255 / (max * 11)` of a failing colour is in (0, 1) and brings `max * 11` to 255 |
| Palettes.Rescale | code.py:16-19 | the rescaled colour passes the ramp test with its brightest channel times 11 exactly 255, signs are kept, and the assertion on line 17 holds |
| Palettes.ColorLimiter | code.py:10-19 | the result always passes the ramp test, and it equals the input exactly when the input already passes |
| Palettes.ColorLimiterSpec | code.py:10-19 | the result always passes the ramp test; it equals the input exactly when the input passes; otherwise all channels are scaled by one factor in (0, 1]; non-negative colours stay non-negative |
| Palettes.PalletLimiter | code.py:21-22 | same length, entry i is the limited colour i, every entry passes the ramp test, non-negative entries stay non-negative |
| Palettes.Trunc | code.py:153 | Python's `int()` on a float: the integer part, at most the value and within 1 below it for a non-negative value, at least the value and within 1 above it for a negative one |
| Palettes.Level | code.py:153 | one channel `int(x * step / 4)`; its contract is carried by `LevelInByteRange` and `LevelMonotone` |
| Palettes.ScaledColor | code.py:153 | the colour `load_pixel` writes at a step; its contract is carried by `ScaledColorInByteRange` |
| Palettes.LevelInByteRange | code.py:153 | for a non-negative channel that passed the limiter's test and any step in 0..44, `int(x * step / 4)` is in 0..255 |
| Palettes.LevelMonotone | code.py:153 | for a non-negative channel, a higher step never gives a lower level (the ramp brightens going up and dims going down) |
| Palettes.ScaledColorInByteRange | code.py:153 | every channel written for a safe colour at a step in 0..44 fits a byte |
| Palettes.PalletColors | code.py:30-36 | the colours of each module-level palette, passed through the limiter: every one of them passes the ramp test |
| Palettes.ShippedPalletsSafe | code.py:30-36 | each of the four palettes is non-empty, and every colour in it is non-negative and passes the ramp test |
| Palettes.PublishedIsTruthy | code.py:30-36 | every published palette is truthy, so ColorCycle's `if self.controller.colors()` sees it |
| ModeController.Successor | code.py:58-106 | the theme a press moves to is never `start` and never the same theme, and it publishes a different palette (or none where there was one), so ColorCycle always sees the change |
| ModeController.ThemePallet | code.py:58-106 | the palette a resident theme publishes: None exactly in `start` and `flickering` |
| ModeController.ThemeAfter | code.py:58-106 | pressing from a theme never leads back to `start` |
| ModeController.FivePresses | code.py:58-106 | five presses return every theme to itself |
| ModeController.ThemeCycle | code.py:58-106 | n presses return a theme to itself if and only if n is a multiple of five |
| ModeController.FivePressesReturn | code.py:58-106 | five presses, each followed by the new theme settling, bring a resting controller back to its theme, palette and candle, with the count 5 higher |
| ModeController.ReselectionRepublishes | code.py:30-36 | five presses republish the very palette object the theme published before |
| ModeController.Controller.constructor | code.py:39-44 | count 0, no candle, no palette, nothing triggered, about to run `start` |
| ModeController.Controller.ButtonWasPressed | code.py:46-50 | returns what `consume()` answered and adds exactly 1 to `count` on a press, 0 otherwise; no other field changes |
| ModeController.Controller.Colors | code.py:52-53 | at rest, the resident theme's palette: None exactly in the flame theme |
| ModeController.Controller.StartState | code.py:55-56 | goes to `flickering` by immediate transfer |
| ModeController.Controller.PrideState | code.py:58-66 | publishes the pride palette; on a press counts it, clears the palette and moves to `ukraine` at once; otherwise stays and waits on the button |
| ModeController.Controller.HanukkahState | code.py:68-76 | publishes the Hanukkah palette; on a press counts it, clears the palette and moves to `pride` at once; otherwise stays and waits on the button |
| ModeController.Controller.UkraineState | code.py:78-86 | publishes the Ukraine palette; on a press counts it, clears the palette and moves to `flickering` at once; otherwise stays and waits on the button |
| ModeController.Controller.XmassState | code.py:88-96 | publishes the Christmas palette; on a press counts it, clears the palette and moves to `hanukkah` at once; otherwise stays and waits on the button |
| ModeController.Controller.FlickeringState | code.py:98-106 | lights the candle and leaves it lit exactly when there was no press; on a press counts it and moves to `xmass` at once; otherwise stays and waits on the button |
| ModeController.Controller.Triggered | code.py:108-113 | true exactly when the count changed since it last fired, and afterwards the snapshot equals the count |
| ModeController.TriggeredOncePerPress | code.py:108-113 | a second `triggered()` with no press in between is false |
| ModeController.Controller.Run | code.py:55-106 | keeps `Valid`; `start` goes to `flickering`; with a press a theme moves to its successor by immediate transfer with no palette and no candle; without one it stays and waits on the button; the count grows by exactly the presses consumed |
| ModeController.OurFlicker.constructor | code.py:116-118 | the flicker consults the given controller |
| ModeController.OurFlicker.Suppress | code.py:120-124 | None exactly when `candle` is set, otherwise a redirect to the controller; at rest, None exactly when no palette is published |
| ColorCycling.ColorCycle.constructor | code.py:127-131 | no palette latched, about to run `start` |
| ColorCycling.ColorCycle.StartState | code.py:133-137 | a truthy published palette leads to `new_cycle` at once; otherwise to `idle`, waiting on the controller |
| ColorCycling.ColorCycle.IdleState | code.py:139-143 | a truthy published palette leads to `new_cycle` at once; otherwise stays, waiting on the controller |
| ColorCycling.ColorCycle.NewCycleState | code.py:145-150 | latches the published palette and resets `color_index = 0` and `step = 1`, then goes to `up` at once |
| ColorCycling.ColorCycle.LoadPixel | code.py:152-153 | writes `int(c * step / 4)` per channel of the current colour, and that is in 0..255 when `step` is in 0..44 |
| ColorCycling.ColorCycle.UpState | code.py:155-163 | a different published palette sends it to `idle` at once with nothing written; otherwise it writes the current colour at the current step, increments `step`, and turns to `down` at 44 or waits on the pulser |
| ColorCycling.ColorCycle.DownState | code.py:165-176 | a different published palette sends it to `idle` at once with nothing written; otherwise it writes, decrements `step`, and below 1 moves to the next colour, restarting with `new_cycle` after the last colour and re-entering `up` otherwise |
| ColorCycling.ColorCycle.WillWrite | code.py:155-167 | ramping and the controller still publishes the latched palette (`is`); its meaning is carried by `Run`: the pixel is written exactly in this case |
| ColorCycling.ColorCycle.Run | code.py:133-176 | keeps `Valid` (step bounds, colour index inside the palette); writes only when ramping over the palette still published, and then a value in 0..255; a changed palette sends it to `idle` with `step` and `color_index` kept; `new_cycle` resets index and step |
| ColorCycling.NeverBothWrite | code.py:120-124 | in every state of a valid controller, the flicker is enabled only when ColorCycle will not write, and a writing ColorCycle finds the flicker suppressed |
| NameTag.FirstPressScenario | code.py:98-163 | from power-up in the flame theme, one press suppresses the flicker and ColorCycle writes the first Christmas colour at step 1, within 0..255 |

## Left out

- Hardware imports and the module-level wiring (`board`, `digitalio`, `neopixel`, the blinker, machine registration, `statemachines.run`): boot glue and I/O.
- The `statemachines` library is not part of this model. That covers the scheduler, `Pulser`, `ButtonWatcher`, `UnevenBlinker` and `NeoPixelFlicker` with its random-walk flicker. Wait conditions are tags, `consume()` is a boolean input, and `Run` stands for one dispatch of the scheduler.
- ColorCycling.ColorCycle.Run: requires that a cycle about to run `new_cycle` still sees a truthy published palette. The scheduler provides this by running a chain of immediate transfers before any other machine, but the scheduler is not modelled.
- OurFlicker: only `suppress` is modelled. The flicker's own writes come from the library.
- Palettes.ColorLimiterSpec: the rescaling branch uses exact real arithmetic. Python's floats may round the scale factor and the scaled channels, so exact Python results are not claimed.
- The `print` calls and the unused `now` argument of every state function: not observable logic.
- Pixel colour order (GRB) and the `pixels.show()` flush: done by the driver.
