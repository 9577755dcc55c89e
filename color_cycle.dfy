/** ColorCycle: fades the single pixel up and down through each colour of
    the palette the controller publishes, and drops the fade as soon as the
    controller publishes a different palette object. */
module ColorCycling {
  import opened Machines
  import opened Palettes
  import ModeController

  /** ColorCycle's state functions. */
  datatype CycleState = Start | Idle | NewCycle | Up | Down

  class ColorCycle {
    /** The shared one-pixel buffer, also written by the flicker. */
    const pixels: array<Rgb>
    const controller: ModeController.Controller
    /** The palette object latched by new_cycle (compared with `is`). */
    var colorList: Option<Pallet>
    var colorIndex: nat
    var step: int
    /** The scheduler's record of this machine. */
    var state: CycleState
    var wait: Wait

    /** The latched palette has a colour at colorIndex. */
    ghost predicate Ramping()
      reads this
    {
      colorList.Some? && colorIndex < |PalletColors(colorList.value)|
    }

    /** The step never leaves 0..STEP_MAX; on the way up it is below the top,
        on the way down it is at least 1, and while ramping the colour index
        stays inside the latched palette. */
    ghost predicate Valid()
      reads this
    {
      pixels.Length == 1 &&
      0 <= step <= StepMax &&
      (state == Up ==> Ramping() && step < StepMax) &&
      (state == Down ==> Ramping() && 1 <= step)
    }

    /** ColorCycle writes the pixel on its next invocation exactly when it is
        ramping and the controller still publishes the palette it latched. */
    predicate WillWrite()
      reads this, controller
    {
      (state == Up || state == Down) && controller.colorList == colorList
    }

    constructor (pixels: array<Rgb>, controller: ModeController.Controller)
      requires pixels.Length == 1
      ensures Valid()
      ensures this.pixels == pixels && this.controller == controller
      ensures colorList == None && state == Start && wait == Immediate
    {
      this.pixels := pixels;
      this.controller := controller;
      colorList := None;
      colorIndex := 0;
      step := 0;
      state := Start;
      wait := Immediate;
    }

    /** start: a published palette starts a cycle at once; otherwise go idle
        until the controller changes. */
    method StartState() returns (next: Option<CycleState>, w: Wait)
      ensures Truthy(controller.colorList) ==> next == Some(NewCycle) && w == Immediate
      ensures !Truthy(controller.colorList) ==> next == Some(Idle) && w == OnController
    {
      if Truthy(controller.Colors()) {
        return Some(NewCycle), Immediate;
      }
      return Some(Idle), OnController;
    }

    /** idle: as start, but staying in idle. */
    method IdleState() returns (next: Option<CycleState>, w: Wait)
      ensures Truthy(controller.colorList) ==> next == Some(NewCycle) && w == Immediate
      ensures !Truthy(controller.colorList) ==> next == None && w == OnController
    {
      if Truthy(controller.Colors()) {
        return Some(NewCycle), Immediate;
      }
      return None, OnController;
    }

    /** new_cycle: latch the published palette and restart at its first colour, step 1. */
    method NewCycleState() returns (next: Option<CycleState>, w: Wait)
      modifies this`colorList, this`colorIndex, this`step
      ensures colorList == controller.colorList && colorIndex == 0 && step == 1
      ensures next == Some(Up) && w == Immediate
    {
      colorList := controller.Colors();
      colorIndex := 0;
      step := 1;
      return Some(Up), Immediate;
    }

    /** load_pixel: the current colour at the current step. For a colour of a
        shipped palette and a step in 0..STEP_MAX every channel fits a byte. */
    method LoadPixel()
      requires Ramping() && pixels.Length == 1
      modifies pixels
      ensures pixels[0] == ScaledColor(PalletColors(colorList.value)[colorIndex], step)
      ensures 0 <= step <= StepMax ==> InByteRange(pixels[0])
    {
      var c := PalletColors(colorList.value)[colorIndex];
      pixels[0] := Rgb(Level(c.r, step), Level(c.g, step), Level(c.b, step));
      if 0 <= step <= StepMax {
        ShippedPalletsSafe(colorList.value);
        ScaledColorInByteRange(c, step);
      }
    }

    /** up: a different published palette preempts the fade; otherwise write
        and brighten, turning down at STEP_MAX. */
    method UpState() returns (next: Option<CycleState>, w: Wait)
      requires Ramping() && pixels.Length == 1
      modifies this`step, pixels
      ensures controller.colorList != colorList ==>
                next == Some(Idle) && w == Immediate && step == old(step) && unchanged(pixels)
      ensures controller.colorList == colorList ==>
                pixels[0] == ScaledColor(PalletColors(colorList.value)[colorIndex], old(step)) &&
                (0 <= old(step) <= StepMax ==> InByteRange(pixels[0])) &&
                step == old(step) + 1 &&
                (if step >= StepMax then next == Some(Down) && w == Immediate
                 else next == None && w == OnPulser)
    {
      if controller.Colors() != colorList {
        return Some(Idle), Immediate;
      }
      LoadPixel();
      step := step + 1;
      if step >= StepMax {
        return Some(Down), Immediate;
      }
      return None, OnPulser;
    }

    /** down: a different published palette preempts the fade; otherwise write
        and dim; below step 1 move to the next colour, and after the last
        colour start a new cycle. */
    method DownState() returns (next: Option<CycleState>, w: Wait)
      requires Ramping() && pixels.Length == 1
      modifies this`step, this`colorIndex, pixels
      ensures controller.colorList != colorList ==>
                next == Some(Idle) && w == Immediate && step == old(step) &&
                colorIndex == old(colorIndex) && unchanged(pixels)
      ensures controller.colorList == colorList ==>
                pixels[0] == ScaledColor(PalletColors(colorList.value)[old(colorIndex)], old(step)) &&
                (0 <= old(step) <= StepMax ==> InByteRange(pixels[0])) &&
                step == old(step) - 1 &&
                (if step < 1 then
                   colorIndex == old(colorIndex) + 1 && w == Immediate &&
                   next == (if colorIndex >= |PalletColors(colorList.value)| then Some(NewCycle) else Some(Up))
                 else
                   colorIndex == old(colorIndex) && next == None && w == OnPulser)
    {
      if controller.Colors() != colorList {
        return Some(Idle), Immediate;
      }
      LoadPixel();
      step := step - 1;
      if step < 1 {
        colorIndex := colorIndex + 1;
        if colorIndex >= |PalletColors(colorList.value)| {
          return Some(NewCycle), Immediate;
        }
        return Some(Up), Immediate;
      }
      return None, OnPulser;
    }

    /** One invocation of the current state by the scheduler. The scheduler
        runs a chain of immediate transfers before any other machine, so a
        cycle that is about to latch a palette still sees the published one. */
    method Run() returns (next: Option<CycleState>, w: Wait)
      requires Valid()
      requires state == NewCycle ==> Truthy(controller.colorList)
      modifies this, pixels
      ensures Valid()
      ensures state == NewCycle ==> Truthy(controller.colorList)
      ensures wait == w && state == (if next.Some? then next.value else old(state))
      ensures old(state) != NewCycle ==> colorList == old(colorList)
      ensures (old(state) == Start || old(state) == Idle) ==>
                step == old(step) && colorIndex == old(colorIndex) &&
                if Truthy(controller.colorList) then state == NewCycle && wait == Immediate
                else state == Idle && wait == OnController
      ensures old(state) == NewCycle ==>
                colorList == controller.colorList && colorIndex == 0 && step == 1 &&
                state == Up && wait == Immediate
      ensures old(state) == Up && old(WillWrite()) ==>
                step == old(step) + 1 && colorIndex == old(colorIndex) &&
                if step == StepMax then state == Down && wait == Immediate
                else state == Up && wait == OnPulser
      ensures old(state) == Down && old(WillWrite()) ==>
                if old(step) == 1 then
                  step == 0 && colorIndex == old(colorIndex) + 1 && wait == Immediate &&
                  state == (if colorIndex == |PalletColors(colorList.value)| then NewCycle else Up)
                else
                  step == old(step) - 1 && colorIndex == old(colorIndex) && state == Down && wait == OnPulser
      ensures (old(state) == Up || old(state) == Down) && controller.colorList != old(colorList) ==>
                state == Idle && wait == Immediate && step == old(step) && colorIndex == old(colorIndex)
      ensures !old(WillWrite()) ==> unchanged(pixels)
      ensures old(WillWrite()) ==>
                pixels[0] == ScaledColor(PalletColors(old(colorList).value)[old(colorIndex)], old(step)) &&
                InByteRange(pixels[0])
    {
      match state {
        case Start => next, w := StartState();
        case Idle => next, w := IdleState();
        case NewCycle => next, w := NewCycleState();
        case Up => next, w := UpState();
        case Down => next, w := DownState();
      }
      if next.Some? {
        state := next.value;
      }
      wait := w;
    }
  }

  /** The flicker and ColorCycle never both write in one tick: in every
      state of the controller, a burning candle means no palette is published, so
      ColorCycle preempts its fade instead of writing, and a ColorCycle that
      writes finds the flicker suppressed. */
  lemma NeverBothWrite(flicker: ModeController.OurFlicker, cycle: ColorCycle)
    requires flicker.controller == cycle.controller
    requires cycle.controller.Valid()
    requires cycle.Valid()
    ensures flicker.Suppress() == None ==> !cycle.WillWrite()
    ensures cycle.WillWrite() ==> flicker.Suppress() == Some(OnController)
  {
  }
}
