/** The mode controller: one theme at a time, cycled by button presses, and
    the flicker wrapper that stands down while a palette theme is showing. */
module ModeController {
  import opened Machines
  import opened Palettes

  /** The controller's state functions. */
  datatype ControllerState = Start | Flickering | Xmass | Hanukkah | Pride | Ukraine

  /** The theme a press moves to: flame, Christmas, Hanukkah, pride, Ukraine,
      flame. A press never leads back to start, and the next theme always
      publishes a different palette (or none where there was one). */
  function Successor(t: ControllerState): (r: ControllerState)
    requires t != Start
    ensures r != Start && r != t
    ensures ThemePallet(r) != ThemePallet(t)
  {
    match t
    case Flickering => Xmass
    case Xmass => Hanukkah
    case Hanukkah => Pride
    case Pride => Ukraine
    case Ukraine => Flickering
  }

  /** The palette a theme publishes while it is resident: none in start and
      the flame, one in every palette theme. */
  function ThemePallet(t: ControllerState): (r: Option<Pallet>)
    ensures r == None <==> t == Start || t == Flickering
  {
    match t
    case Start => None
    case Flickering => None
    case Xmass => Some(XmassPallet)
    case Hanukkah => Some(HanukkahPallet)
    case Pride => Some(PridePallet)
    case Ukraine => Some(UkrainePallet)
  }

  /** The theme reached from t after n presses. */
  function ThemeAfter(t: ControllerState, n: nat): (r: ControllerState)
    requires t != Start
    ensures r != Start
  {
    if n == 0 then t else Successor(ThemeAfter(t, n - 1))
  }

  lemma {:induction false} ThemeAfterAdd(t: ControllerState, m: nat, n: nat)
    requires t != Start
    ensures ThemeAfter(t, m + n) == ThemeAfter(ThemeAfter(t, m), n)
    decreases n
  {
    if n != 0 {
      ThemeAfterAdd(t, m, n - 1);
    }
  }

  lemma FivePresses(t: ControllerState)
    requires t != Start
    ensures ThemeAfter(t, 5) == t
  {
  }

  /** The theme cycle has period exactly five: n presses bring any theme
      back to itself if and only if n is a multiple of five. */
  lemma {:induction false} ThemeCycle(t: ControllerState, n: nat)
    requires t != Start
    ensures ThemeAfter(t, n) == t <==> n % 5 == 0
    decreases n
  {
    if n < 5 {
      assert ThemeAfter(t, 1) == Successor(t);
      assert ThemeAfter(t, 2) == Successor(Successor(t));
      assert ThemeAfter(t, 3) == Successor(Successor(Successor(t)));
      assert ThemeAfter(t, 4) == Successor(Successor(Successor(Successor(t))));
    } else {
      ThemeAfterAdd(t, 5, n - 5);
      FivePresses(t);
      ThemeCycle(t, n - 5);
    }
  }

  /** The palettes are module-level objects, so five presses bring back not
      only the theme but the very palette object it published. */
  lemma ReselectionRepublishes(t: ControllerState)
    requires t != Start
    ensures ThemePallet(ThemeAfter(t, 5)) == ThemePallet(t)
  {
  }

  class Controller {
    /** Button presses consumed so far. */
    var count: nat
    /** Set while the flame theme is resident: the flicker may write. */
    var candle: bool
    /** The palette published for ColorCycle, or None. */
    var colorList: Option<Pallet>
    /** The press count at the last triggered() that fired. */
    var lastCountTriggered: nat
    /** The scheduler's record of this machine: its current state function
        and what it waits on before it is run again. */
    var state: ControllerState
    var wait: Wait

    /** Whenever the controller waits on the button, its resident theme
        determines the flags: the candle burns exactly in the flame theme and
        a palette is published exactly in the palette themes. While it is
        between states (waiting for an immediate transfer) neither holds. */
    ghost predicate Valid()
      reads this
    {
      lastCountTriggered <= count &&
      match wait
      case OnButton => state != Start && candle == (state == Flickering) && colorList == ThemePallet(state)
      case Immediate => !candle && colorList == None
      case _ => false
    }

    constructor ()
      ensures Valid()
      ensures count == 0 && !candle && colorList == None && lastCountTriggered == 0
      ensures state == Start && wait == Immediate
    {
      count := 0;
      candle := false;
      colorList := None;
      lastCountTriggered := 0;
      state := Start;
      wait := Immediate;
    }

    /** button_was_pressed: `pressed` is what the button watcher's consume()
        answered; a press is counted exactly once. */
    method ButtonWasPressed(pressed: bool) returns (r: bool)
      modifies this`count
      ensures r == pressed
      ensures count == old(count) + (if pressed then 1 else 0)
    {
      if pressed {
        count := count + 1;
        return true;
      }
      return false;
    }

    /** colors(): at rest, the resident theme's palette, None exactly in the flame theme. */
    function Colors(): (r: Option<Pallet>)
      reads this
      ensures Valid() && wait == OnButton ==> r == ThemePallet(state)
      ensures Valid() && wait == OnButton ==> (r == None <==> state == Flickering)
    {
      colorList
    }

    method StartState() returns (next: Option<ControllerState>, w: Wait)
      ensures next == Some(Flickering) && w == Immediate
    {
      return Some(Flickering), Immediate;
    }

    method PrideState(pressed: bool) returns (next: Option<ControllerState>, w: Wait)
      modifies this`count, this`colorList
      ensures count == old(count) + (if pressed then 1 else 0)
      ensures pressed ==> colorList == None && next == Some(Successor(Pride)) && w == Immediate
      ensures !pressed ==> colorList == ThemePallet(Pride) && next == None && w == OnButton
    {
      colorList := Some(PridePallet);
      var p := ButtonWasPressed(pressed);
      if p {
        colorList := None;
        return Some(Ukraine), Immediate;
      }
      return None, OnButton;
    }

    method HanukkahState(pressed: bool) returns (next: Option<ControllerState>, w: Wait)
      modifies this`count, this`colorList
      ensures count == old(count) + (if pressed then 1 else 0)
      ensures pressed ==> colorList == None && next == Some(Successor(Hanukkah)) && w == Immediate
      ensures !pressed ==> colorList == ThemePallet(Hanukkah) && next == None && w == OnButton
    {
      colorList := Some(HanukkahPallet);
      var p := ButtonWasPressed(pressed);
      if p {
        colorList := None;
        return Some(Pride), Immediate;
      }
      return None, OnButton;
    }

    method UkraineState(pressed: bool) returns (next: Option<ControllerState>, w: Wait)
      modifies this`count, this`colorList
      ensures count == old(count) + (if pressed then 1 else 0)
      ensures pressed ==> colorList == None && next == Some(Successor(Ukraine)) && w == Immediate
      ensures !pressed ==> colorList == ThemePallet(Ukraine) && next == None && w == OnButton
    {
      colorList := Some(UkrainePallet);
      var p := ButtonWasPressed(pressed);
      if p {
        colorList := None;
        return Some(Flickering), Immediate;
      }
      return None, OnButton;
    }

    method XmassState(pressed: bool) returns (next: Option<ControllerState>, w: Wait)
      modifies this`count, this`colorList
      ensures count == old(count) + (if pressed then 1 else 0)
      ensures pressed ==> colorList == None && next == Some(Successor(Xmass)) && w == Immediate
      ensures !pressed ==> colorList == ThemePallet(Xmass) && next == None && w == OnButton
    {
      colorList := Some(XmassPallet);
      var p := ButtonWasPressed(pressed);
      if p {
        colorList := None;
        return Some(Hanukkah), Immediate;
      }
      return None, OnButton;
    }

    /** The flame theme lights the candle and puts it out again on a press;
        it leaves colorList alone. */
    method FlickeringState(pressed: bool) returns (next: Option<ControllerState>, w: Wait)
      modifies this`count, this`candle
      ensures count == old(count) + (if pressed then 1 else 0)
      ensures candle == !pressed
      ensures pressed ==> next == Some(Successor(Flickering)) && w == Immediate
      ensures !pressed ==> next == None && w == OnButton
    {
      candle := true;
      var p := ButtonWasPressed(pressed);
      if p {
        candle := false;
        return Some(Xmass), Immediate;
      }
      return None, OnButton;
    }

    /** triggered: fires once for every change of the press count since it
        last fired. */
    method Triggered() returns (r: bool)
      modifies this`lastCountTriggered
      ensures r <==> count != old(lastCountTriggered)
      ensures lastCountTriggered == count
    {
      if count != lastCountTriggered {
        lastCountTriggered := count;
        return true;
      }
      return false;
    }

    /** One invocation of the current state by the scheduler, which then
        moves the machine to the state returned (if any) and records what it
        waits on. */
    method Run(pressed: bool) returns (next: Option<ControllerState>, w: Wait)
      requires Valid()
      modifies this
      ensures Valid()
      ensures wait == w && state == (if next.Some? then next.value else old(state))
      ensures lastCountTriggered == old(lastCountTriggered)
      ensures old(state) == Start ==> state == Flickering && wait == Immediate && count == old(count)
      ensures old(state) != Start ==> count == old(count) + (if pressed then 1 else 0)
      ensures old(state) != Start && pressed ==>
                state == Successor(old(state)) && wait == Immediate && colorList == None && !candle
      ensures old(state) != Start && !pressed ==>
                state == old(state) && wait == OnButton && next == None
    {
      match state {
        case Start => next, w := StartState();
        case Flickering => next, w := FlickeringState(pressed);
        case Xmass => next, w := XmassState(pressed);
        case Hanukkah => next, w := HanukkahState(pressed);
        case Pride => next, w := PrideState(pressed);
        case Ukraine => next, w := UkraineState(pressed);
      }
      if next.Some? {
        state := next.value;
      }
      wait := w;
    }
  }

  /** A press is seen by triggered() exactly once. */
  method TriggeredOncePerPress(c: Controller) returns (first: bool, second: bool)
    modifies c
    ensures first <==> old(c.count) != old(c.lastCountTriggered)
    ensures !second
    ensures c.count == old(c.count)
  {
    first := c.Triggered();
    second := c.Triggered();
  }

  /** Five presses, each followed by the new theme settling, bring a resting
      controller back to the theme, palette and candle it started with. */
  method FivePressesReturn(c: Controller)
    requires c.Valid() && c.wait == OnButton
    modifies c
    ensures c.Valid() && c.wait == OnButton
    ensures c.state == old(c.state) && c.colorList == old(c.colorList) && c.candle == old(c.candle)
    ensures c.count == old(c.count) + 5
  {
    ghost var t := c.state;
    var _, _ := c.Run(true);
    var _, _ := c.Run(false);
    var _, _ := c.Run(true);
    var _, _ := c.Run(false);
    var _, _ := c.Run(true);
    var _, _ := c.Run(false);
    var _, _ := c.Run(true);
    var _, _ := c.Run(false);
    var _, _ := c.Run(true);
    var _, _ := c.Run(false);
    assert c.state == Successor(Successor(Successor(Successor(Successor(t)))));
  }

  /** NeoPixelFlicker subclass whose suppress() hook consults the controller. */
  class OurFlicker {
    const controller: Controller

    constructor (controller: Controller)
      ensures this.controller == controller
    {
      this.controller := controller;
    }

    /** suppress: None lets the flame write; otherwise the flicker is told to
        wait on the controller. At rest, the flicker runs exactly when the
        controller publishes no palette for ColorCycle. */
    function Suppress(): (r: Option<Wait>)
      reads controller
      ensures r == None <==> controller.candle
      ensures r != None ==> r == Some(OnController)
      ensures controller.Valid() && controller.wait == OnButton ==> (r == None <==> controller.Colors() == None)
    {
      if controller.candle then None else Some(OnController)
    }
  }
}
