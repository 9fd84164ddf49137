/** ui/text_input_field.py: a click-to-focus text box with a length-capped alphanumeric buffer. */
module TextInputs {
  import opened Config
  import opened Geometry
  import opened Colors
  import opened Events

  predicate IsAlnumChar(c: char)
  {
    ('a' <= c <= 'z') || ('A' <= c <= 'Z') || ('0' <= c <= '9')
  }

  /** str.isalnum(): non-empty and every character a letter or digit. */
  predicate IsAlnum(s: string)
  {
    |s| > 0 && forall i :: 0 <= i < |s| ==> IsAlnumChar(s[i])
  }

  /** The key branch of handle_event, applied while the field is active. */
  function EditText(text: string, key: Key, unicode: string, maxLength: int): string
  {
    if key == Backspace then (if |text| == 0 then text else text[..|text| - 1])
    else if key == Delete then ""
    else if |text| < maxLength && IsAlnum(unicode) then text + unicode
    else text
  }

  /** A buffer within its cap stays within it when keys bring at most one character. */
  lemma EditKeepsCap(text: string, key: Key, unicode: string, maxLength: int)
    requires |text| <= maxLength && |unicode| <= 1
    ensures |EditText(text, key, unicode, maxLength)| <= maxLength
    ensures |EditText(text, key, unicode, maxLength)| <= |text| + 1
  {
  }

  /** Backspace undoes a typed character. */
  lemma BackspaceUndoesTyping(text: string, c: char, code: int, maxLength: int)
    requires |text| < maxLength && IsAlnumChar(c)
    ensures EditText(EditText(text, OtherKey(code), [c], maxLength), Backspace, "", maxLength) == text
  {
    assert IsAlnum([c]);
    assert (text + [c])[..|text|] == text;
  }

  /** Typing the characters of cs one key at a time. */
  function TypeAll(text: string, cs: string, maxLength: int): string
    decreases |cs|
  {
    if cs == [] then text else TypeAll(EditText(text, OtherKey(0), [cs[0]], maxLength), cs[1..], maxLength)
  }

  /** Typing alphanumeric characters keeps exactly as many as fit: the buffer becomes the
      longest prefix of text + cs within the cap. */
  lemma {:induction false} TypeAllTruncates(text: string, cs: string, maxLength: int)
    requires |text| <= maxLength
    requires forall i :: 0 <= i < |cs| ==> IsAlnumChar(cs[i])
    ensures TypeAll(text, cs, maxLength) == (text + cs)[..Min(maxLength, |text| + |cs|)]
    decreases |cs|
  {
    if cs != [] {
      var next := EditText(text, OtherKey(0), [cs[0]], maxLength);
      assert IsAlnum([cs[0]]);
      TypeAllTruncates(next, cs[1..], maxLength);
      if |text| < maxLength {
        assert next == text + [cs[0]];
        assert next + cs[1..] == text + cs;
      } else {
        assert next == text;
        TypeAllFull(text, cs[1..], maxLength);
      }
    }
  }

  lemma {:induction false} TypeAllFull(text: string, cs: string, maxLength: int)
    requires |text| == maxLength
    ensures TypeAll(text, cs, maxLength) == text
    decreases |cs|
  {
    if cs != [] {
      TypeAllFull(text, cs[1..], maxLength);
    }
  }

  /** The rectangle _update_size gives a field laid out at (x, y), width x height on the
      1600 x 900 design screen, once the screen is sw x sh pixels. */
  function ScreenRect(x: int, y: int, width: int, height: int, sw: nat, sh: nat): (r: Rect)
    ensures width >= 0 && height >= 0 ==> r.w >= 0 && r.h >= 0
  {
    CenteredAt(Scale(x as real, sw, ScreenWidth), Scale(y as real, sh, ScreenHeight),
               Scale(width as real, sw, ScreenWidth), Scale(height as real, sh, ScreenHeight))
  }

  /** At the design size the rescaled rectangle is the one built at construction. */
  lemma {:induction false} ScreenRectAtDesign(x: int, y: int, width: int, height: int)
    ensures ScreenRect(x, y, width, height, ScreenWidth, ScreenHeight) == CenteredAt(x, y, width, height)
  {
    ScaleAtDesign(x as real, ScreenWidth);
    TruncOfInt(x);
    ScaleAtDesign(y as real, ScreenHeight);
    TruncOfInt(y);
    ScaleAtDesign(width as real, ScreenWidth);
    TruncOfInt(width);
    ScaleAtDesign(height as real, ScreenHeight);
    TruncOfInt(height);
  }

  /** On any screen where the field is still visible, a click on the rescaled centre of the
      field lands inside it. */
  lemma ScreenRectHoldsCentre(x: int, y: int, width: int, height: int, sw: nat, sh: nat)
    requires Scale(width as real, sw, ScreenWidth) > 0 && Scale(height as real, sh, ScreenHeight) > 0
    ensures ContainsPoint(ScreenRect(x, y, width, height, sw, sh),
                          Scale(x as real, sw, ScreenWidth), Scale(y as real, sh, ScreenHeight))
  {
  }

  /** On a half-size (800 x 450) window a field with even layout numbers is rebuilt at exactly
      half its position and size. */
  lemma {:induction false} HalfScreenRect(x: int, y: int, width: int, height: int)
    requires x % 2 == 0 && y % 2 == 0 && width % 2 == 0 && height % 2 == 0
    ensures ScreenRect(x, y, width, height, ScreenWidth / 2, ScreenHeight / 2) == CenteredAt(x / 2, y / 2, width / 2, height / 2)
  {
    ScaleExact(x, ScreenWidth / 2, ScreenWidth, x / 2);
    ScaleExact(y, ScreenHeight / 2, ScreenHeight, y / 2);
    ScaleExact(width, ScreenWidth / 2, ScreenWidth, width / 2);
    ScaleExact(height, ScreenHeight / 2, ScreenHeight, height / 2);
  }

  /** A 400 x 50 field centred at (800, 450): on the half-size window a click at (400, 225) hits
      the rebuilt rectangle but misses the construction one, which a handler that never rescales
      would keep testing. */
  lemma HalfScreenField()
    ensures ScreenRect(800, 450, 400, 50, ScreenWidth / 2, ScreenHeight / 2) == Rect(300, 213, 200, 25)
    ensures ContainsPoint(ScreenRect(800, 450, 400, 50, ScreenWidth / 2, ScreenHeight / 2), 400, 225)
    ensures !ContainsPoint(CenteredAt(800, 450, 400, 50), 400, 225)
  {
    HalfScreenRect(800, 450, 400, 50);
  }

  class TextInputField {
    const x: int
    const y: int
    const width: int
    const height: int
    var rect: Rect
    const colorInactive: Color
    const colorActive: Color
    var color: Color
    var text: string
    const textSize: int
    const textColor: Color
    const maxLength: int
    var active: bool

    /** The initial text is not checked against max_length. */
    constructor (x: int, y: int, width: int, height: int, text: string, color: Color,
                 textColor: Color, maxLength: int, textSize: int)
      requires width > 0 && height > 0
      requires ValidColor(color) && ValidColor(textColor)
      requires maxLength > 0 && textSize > 0
      ensures this.x == x && this.y == y && this.width == width && this.height == height
      ensures this.textColor == textColor && this.textSize == textSize
      ensures rect == CenteredAt(x, y, width, height)
      ensures this.text == text && this.maxLength == maxLength && !active
      ensures this.color == color == colorInactive && colorActive == Brighten(color, 1.5)
      ensures ValidColor(colorActive)
    {
      this.x, this.y := x, y;
      this.width, this.height := width, height;
      rect := CenteredAt(x, y, width, height);
      colorInactive := color;
      this.color := color;
      colorActive := Brighten(color, 1.5);
      this.text := text;
      this.textSize := textSize;
      this.textColor := textColor;
      this.maxLength := maxLength;
      active := false;
    }

    /** _update_size, which draw runs on every frame: the rectangle is rebuilt from the layout
        for the current screen; the text and focus are kept. */
    method UpdateSize(sw: nat, sh: nat)
      modifies this`rect
      ensures rect == ScreenRect(x, y, width, height, sw, sh)
    {
      var rectWidth := Scale(width as real, sw, ScreenWidth);
      var rectHeight := Scale(height as real, sh, ScreenHeight);
      var rectX := Scale(x as real, sw, ScreenWidth);
      var rectY := Scale(y as real, sh, ScreenHeight);
      rect := CenteredAt(rectX, rectY, rectWidth, rectHeight);
    }

    /** handle_event: a click focuses or unfocuses the field, tested against the rectangle of
        the last UpdateSize (the construction rectangle before any); keys edit only a focused
        field. */
    method HandleEvent(ev: Event)
      modifies this`active, this`color, this`text
      ensures ev.MouseButtonDown? ==>
                && active == ContainsPoint(rect, ev.x, ev.y)
                && color == (if active then colorActive else colorInactive)
                && text == old(text)
      ensures ev.KeyDown? ==>
                && active == old(active) && color == old(color)
                && text == (if active then EditText(old(text), ev.key, ev.unicode, maxLength) else old(text))
      ensures !ev.MouseButtonDown? && !ev.KeyDown? ==>
                active == old(active) && color == old(color) && text == old(text)
    {
      if ev.MouseButtonDown? {
        if ContainsPoint(rect, ev.x, ev.y) {
          active := true;
          color := colorActive;
        } else {
          active := false;
          color := colorInactive;
        }
      }
      if ev.KeyDown? && active {
        if ev.key == Backspace {
          if |text| > 0 {
            text := text[..|text| - 1];
          }
        } else if ev.key == Delete {
          text := "";
        } else if |text| < maxLength && IsAlnum(ev.unicode) {
          text := text + ev.unicode;
        }
      }
    }
  }
}
