/** ui/button.py: press-and-release click detection. Whether the cursor is over the button is
    passed in (the source asks pygame for the mouse position). */
module Buttons {
  import opened Geometry
  import opened Colors
  import opened Events

  /** One handle_event call: the new `is_pressed` and whether the callback fired. */
  datatype Reaction = Reaction(pressed: bool, clicked: bool)

  function ButtonStep(pressed: bool, ev: Event, hovered: bool): (r: Reaction)
    ensures r.clicked <==> IsLeftUp(ev) && pressed && hovered
    ensures IsLeftUp(ev) ==> !r.pressed
    ensures IsLeftDown(ev) ==> r.pressed == (hovered || pressed)
    ensures ev.MouseMotion? ==> r.pressed == (pressed && hovered)
    ensures !IsLeftDown(ev) && !IsLeftUp(ev) && !ev.MouseMotion? ==> r == Reaction(pressed, false)
  {
    if IsLeftDown(ev) && hovered then Reaction(true, false)
    else if ev.MouseMotion? && !hovered then Reaction(false, false)
    else if IsLeftUp(ev) then Reaction(false, pressed && hovered)
    else Reaction(pressed, false)
  }

  /** A trace of events, each with whether the cursor was over the button at the time. */
  type Trace = seq<(Event, bool)>

  function Run(pressed: bool, t: Trace): bool
    decreases |t|
  {
    if t == [] then pressed else Run(ButtonStep(pressed, t[0].0, t[0].1).pressed, t[1..])
  }

  function Clicks(pressed: bool, t: Trace): nat
    decreases |t|
  {
    if t == [] then 0
    else
      var r := ButtonStep(pressed, t[0].0, t[0].1);
      (if r.clicked then 1 else 0) + Clicks(r.pressed, t[1..])
  }

  /** Left presses made while over the button. */
  function Presses(t: Trace): nat
    decreases |t|
  {
    if t == [] then 0 else (if IsLeftDown(t[0].0) && t[0].1 then 1 else 0) + Presses(t[1..])
  }

  /** The callback never fires without a press before it: starting released, a trace has at
      most as many clicks as hovered left presses. */
  lemma {:induction false} ClicksNeedPresses(pressed: bool, t: Trace)
    ensures Clicks(pressed, t) <= Presses(t) + (if pressed then 1 else 0)
    decreases |t|
  {
    if t != [] {
      ClicksNeedPresses(ButtonStep(pressed, t[0].0, t[0].1).pressed, t[1..]);
    }
  }

  /** A left press and release over the button fires it exactly once, from any state. */
  lemma FullClickFires(pressed: bool, x: int, y: int)
    ensures Clicks(pressed, [(MouseButtonDown(LeftButton, x, y), true), (MouseButtonUp(LeftButton, x, y), true)]) == 1
  {
    var t := [(MouseButtonDown(LeftButton, x, y), true), (MouseButtonUp(LeftButton, x, y), true)];
    assert ButtonStep(pressed, t[0].0, true) == Reaction(true, false);
    assert t[1..] == [(MouseButtonUp(LeftButton, x, y), true)];
    assert Clicks(true, t[1..]) == 1 + Clicks(false, t[1..][1..]);
    assert t[1..][1..] == [];
  }

  /** Dragging off the button cancels the press: a release back over it does not fire. */
  lemma DragOffCancels(x: int, y: int)
    ensures Clicks(false, [(MouseButtonDown(LeftButton, x, y), true), (MouseMotion(x, y), false),
                           (MouseButtonUp(LeftButton, x, y), true)]) == 0
  {
    var t := [(MouseButtonDown(LeftButton, x, y), true), (MouseMotion(x, y), false), (MouseButtonUp(LeftButton, x, y), true)];
    assert t[1..] == [(MouseMotion(x, y), false), (MouseButtonUp(LeftButton, x, y), true)];
    assert t[1..][1..] == [(MouseButtonUp(LeftButton, x, y), true)];
    assert t[1..][1..][1..] == [];
    assert Clicks(false, t[1..][1..]) == 0;
    assert Clicks(true, t[1..]) == 0;
  }

  class Button {
    const x: int
    const y: int
    const width: int
    const height: int
    var rect: Rect
    const text: string
    const color: Color
    const colorHover: Color
    const colorClick: Color
    const textColor: Color
    const textSize: int
    var isPressed: bool

    constructor (x: int, y: int, width: int, height: int, text: string, color: Color,
                 textColor: Color, textSize: int)
      requires width > 0 && height > 0
      requires ValidColor(color) && ValidColor(textColor) && textSize > 0
      ensures rect == CenteredAt(x, y, width, height) && this.text == text
      ensures this.color == color && colorHover == Brighten(color, 1.2) && colorClick == Brighten(color, 1.4)
      ensures ValidColor(colorHover) && ValidColor(colorClick)
      ensures !isPressed
    {
      this.x, this.y := x, y;
      this.width, this.height := width, height;
      rect := CenteredAt(x, y, width, height);
      this.text := text;
      this.color := color;
      colorHover := Brighten(color, 1.2);
      colorClick := Brighten(color, 1.4);
      this.textColor := textColor;
      this.textSize := textSize;
      isPressed := false;
    }

    /** handle_event; `clicked` says whether on_click_event was called. */
    method HandleEvent(ev: Event, hovered: bool) returns (clicked: bool)
      modifies this`isPressed
      ensures Reaction(isPressed, clicked) == ButtonStep(old(isPressed), ev, hovered)
    {
      clicked := false;
      if IsLeftDown(ev) && hovered {
        isPressed := true;
      } else if ev.MouseMotion? && !hovered {
        isPressed := false;
      } else if IsLeftUp(ev) {
        if isPressed && hovered {
          clicked := true;
        }
        isPressed := false;
      }
    }
  }
}
