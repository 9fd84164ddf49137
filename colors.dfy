/** The colour arithmetic of the widgets: channels scaled and capped at 255. */
module Colors {
  import opened Geometry

  type Color = (int, int, int)

  predicate ValidColor(c: Color)
  {
    0 <= c.0 <= 255 && 0 <= c.1 <= 255 && 0 <= c.2 <= 255
  }

  /** `min(255, int(c * k))` for one channel. */
  function Channel(c: int, k: real): (r: int)
    ensures r <= 255
    ensures 0 <= c && 0.0 <= k ==> 0 <= r
    ensures 0 <= c && 1.0 <= k ==> (c <= 255 ==> c <= r)
  {
    var s := Trunc(c as real * k);
    assert 0 <= c && 0.0 <= k ==> 0.0 <= c as real * k by {
      if 0 <= c && 0.0 <= k { NonNegProduct(c as real, k); }
    }
    if s < 255 then s else 255
  }

  /** `tuple(min(255, int(c * k)) for c in color)`. */
  function Brighten(c: Color, k: real): (r: Color)
    ensures ValidColor(c) && 0.0 <= k ==> ValidColor(r)
    ensures ValidColor(c) && 1.0 <= k ==> c.0 <= r.0 && c.1 <= r.1 && c.2 <= r.2
  {
    (Channel(c.0, k), Channel(c.1, k), Channel(c.2, k))
  }
}
