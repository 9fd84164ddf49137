/** ui/checkbox.py: a toggle that flips on press-and-release. Unlike a button it ignores mouse
    motion, so a press survives the cursor leaving. */
module Checkboxes {
  import opened Geometry
  import opened Colors
  import opened Events

  datatype State = State(pressed: bool, checked: bool)

  /** One handle_event call; `toggled` says whether `checked` flipped (on_toggle is then called
      when it is callable). */
  function CheckboxStep(s: State, ev: Event, hovered: bool): (r: (State, bool))
    ensures r.1 <==> IsLeftUp(ev) && s.pressed && hovered
    ensures r.0.checked == (s.checked != r.1)
    ensures IsLeftUp(ev) ==> !r.0.pressed
    ensures IsLeftDown(ev) ==> r.0.pressed == (hovered || s.pressed)
    ensures !IsLeftDown(ev) && !IsLeftUp(ev) ==> r == (s, false)
  {
    if IsLeftDown(ev) && hovered then (s.(pressed := true), false)
    else if IsLeftUp(ev) then
      (if s.pressed && hovered then (State(false, !s.checked), true) else (s.(pressed := false), false))
    else (s, false)
  }

  function Run(s: State, t: seq<(Event, bool)>): State
    decreases |t|
  {
    if t == [] then s else Run(CheckboxStep(s, t[0].0, t[0].1).0, t[1..])
  }

  function Toggles(s: State, t: seq<(Event, bool)>): nat
    decreases |t|
  {
    if t == [] then 0
    else
      var r := CheckboxStep(s, t[0].0, t[0].1);
      (if r.1 then 1 else 0) + Toggles(r.0, t[1..])
  }

  /** After any trace, `checked` has flipped exactly as often as the toggles counted. */
  lemma {:induction false} CheckedParity(s: State, t: seq<(Event, bool)>)
    ensures Run(s, t).checked == (s.checked != (Toggles(s, t) % 2 == 1))
    decreases |t|
  {
    if t != [] {
      CheckedParity(CheckboxStep(s, t[0].0, t[0].1).0, t[1..]);
    }
  }

  /** Two complete clicks over the box restore `checked` and leave it released. */
  lemma TwoClicksRestore(s: State, x: int, y: int)
    ensures var down, up := (MouseButtonDown(LeftButton, x, y), true), (MouseButtonUp(LeftButton, x, y), true);
            Run(s, [down, up, down, up]) == State(false, s.checked)
  {
    var down, up := (MouseButtonDown(LeftButton, x, y), true), (MouseButtonUp(LeftButton, x, y), true);
    var t := [down, up, down, up];
    var s1 := State(true, s.checked);
    var s2 := State(false, !s.checked);
    var s3 := State(true, !s.checked);
    assert CheckboxStep(s, down.0, true).0 == s1;
    assert CheckboxStep(s1, up.0, true).0 == s2;
    assert CheckboxStep(s2, down.0, true).0 == s3;
    assert CheckboxStep(s3, up.0, true).0 == State(false, s.checked);
    assert t[1..] == [up, down, up] && t[1..][1..] == [down, up] && t[1..][1..][1..] == [up];
    assert t[1..][1..][1..][1..] == [];
    assert Run(s3, [up]) == State(false, s.checked);
    assert Run(s2, [down, up]) == State(false, s.checked);
    assert Run(s1, [up, down, up]) == State(false, s.checked);
  }

  /** Leaving and coming back does not cancel a press, unlike a button. */
  lemma PressSurvivesLeaving(checked: bool, x: int, y: int)
    ensures Run(State(false, checked), [(MouseButtonDown(LeftButton, x, y), true), (MouseMotion(x, y), false),
                                        (MouseButtonUp(LeftButton, x, y), true)]).checked == !checked
  {
    var t := [(MouseButtonDown(LeftButton, x, y), true), (MouseMotion(x, y), false), (MouseButtonUp(LeftButton, x, y), true)];
    assert t[1..] == [(MouseMotion(x, y), false), (MouseButtonUp(LeftButton, x, y), true)];
    assert t[1..][1..] == [(MouseButtonUp(LeftButton, x, y), true)];
    assert t[1..][1..][1..] == [];
    assert Run(State(true, checked), t[1..][1..]) == State(false, !checked);
    assert Run(State(true, checked), t[1..]) == State(false, !checked);
  }

  /** The colour of the tick as written: `int(c * 2.4)`, with no cap. */
  function CheckColorAsWritten(c: Color): Color
  {
    (Trunc(c.0 as real * 2.4), Trunc(c.1 as real * 2.4), Trunc(c.2 as real * 2.4))
  }

  /** A valid base colour with a channel of 107 or more gives an invalid tick colour. */
  lemma CheckColorOverflows()
    ensures ValidColor((107, 0, 0)) && !ValidColor(CheckColorAsWritten((107, 0, 0)))
    ensures CheckColorAsWritten((107, 0, 0)).0 == 256
  {
  }

  /** The tick colour capped at 255 like the hover and click colours. */
  function CheckColor(c: Color): (r: Color)
    ensures ValidColor(c) ==> ValidColor(r)
    ensures ValidColor(c) && c.0 <= 106 && c.1 <= 106 && c.2 <= 106 ==> r == CheckColorAsWritten(c)
  {
    Brighten(c, 2.4)
  }

  class Checkbox {
    const x: int
    const y: int
    const size: int
    var rect: Rect
    const text: string
    const color: Color
    const colorHover: Color
    const colorClick: Color
    const checkColor: Color
    const textColor: Color
    const textSize: int
    var checked: bool
    var isPressed: bool

    function Current(): State
      reads this
    {
      State(isPressed, checked)
    }

    constructor (x: int, y: int, size: int, text: string, checked: bool, color: Color,
                 textColor: Color, textSize: int)
      requires size > 0 && ValidColor(color) && ValidColor(textColor)
      ensures rect == CenteredAt(x, y, size, size) && this.text == text
      ensures Current() == State(false, checked)
      ensures colorHover == Brighten(color, 1.2) && colorClick == Brighten(color, 1.4)
      ensures checkColor == CheckColor(color) && ValidColor(checkColor)
    {
      this.x, this.y, this.size := x, y, size;
      rect := CenteredAt(x, y, size, size);
      this.text := text;
      this.color := color;
      colorHover := Brighten(color, 1.2);
      colorClick := Brighten(color, 1.4);
      checkColor := CheckColor(color);
      this.textColor := textColor;
      this.textSize := textSize;
      this.checked := checked;
      isPressed := false;
    }

    /** handle_event; `toggleCalled` says whether on_toggle ran (it must be callable). */
    method HandleEvent(ev: Event, hovered: bool, hasCallback: bool) returns (toggleCalled: bool)
      modifies this`isPressed, this`checked
      ensures var r := CheckboxStep(old(Current()), ev, hovered);
              Current() == r.0 && toggleCalled == (r.1 && hasCallback)
    {
      toggleCalled := false;
      if IsLeftDown(ev) && hovered {
        isPressed := true;
      } else if IsLeftUp(ev) {
        if isPressed && hovered {
          checked := !checked;
          if hasCallback {
            toggleCalled := true;
          }
        }
        isPressed := false;
      }
    }
  }
}
