/** The pygame events the modelled handlers look at. */
module Events {
  datatype Key = Escape | Backspace | Delete | LeftArrow | RightArrow | UpArrow | OtherKey(code: int)

  datatype Event =
    | MouseButtonDown(button: int, x: int, y: int)
    | MouseButtonUp(button: int, x: int, y: int)
    | MouseMotion(x: int, y: int)
    | KeyDown(key: Key, unicode: string)
    | VideoResize(w: int, h: int)
    | Quit
    | OtherEvent

  /** pygame numbers the left mouse button 1. */
  const LeftButton: int := 1

  predicate IsLeftDown(ev: Event) { ev.MouseButtonDown? && ev.button == LeftButton }
  predicate IsLeftUp(ev: Event) { ev.MouseButtonUp? && ev.button == LeftButton }
  predicate IsKey(ev: Event, k: Key) { ev.KeyDown? && ev.key == k }
}
