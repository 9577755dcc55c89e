/** The three machines of the name tag working together on one pixel. */
module NameTag {
  import opened Machines
  import opened Palettes
  import opened ModeController
  import opened ColorCycling

  /** From power-up in the flame theme, one press moves the controller to the
      Christmas palette: the flicker stands down, and ColorCycle leaves idle,
      starts a new cycle and writes the first Christmas colour at step 1. */
  method FirstPressScenario() returns (flameBefore: bool, suppressedAfter: Option<Wait>, first: Rgb)
    ensures flameBefore
    ensures suppressedAfter == Some(OnController)
    ensures first == ScaledColor(PalletColors(XmassPallet)[0], 1)
    ensures InByteRange(first)
  {
    var controller := new Controller();
    var flicker := new OurFlicker(controller);
    var pixels := new Rgb[1](_ => Rgb(0, 0, 0));
    var cycle := new ColorCycle(pixels, controller);

    var _, _ := controller.Run(false);  // start -> flickering
    var _, _ := controller.Run(false);  // the flame rests, waiting on the button
    var _, _ := cycle.Run();            // no palette: start -> idle
    assert cycle.state == Idle;
    flameBefore := flicker.Suppress() == None;

    var _, _ := controller.Run(true);   // a press: flickering -> xmass
    var _, _ := controller.Run(false);  // xmass publishes its palette and rests
    suppressedAfter := flicker.Suppress();

    PublishedIsTruthy(XmassPallet);
    var _, _ := cycle.Run();            // idle -> new_cycle
    var _, _ := cycle.Run();            // new_cycle -> up
    assert cycle.WillWrite();
    var _, _ := cycle.Run();            // up writes step 1
    first := pixels[0];
  }
}
