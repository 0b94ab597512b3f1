/** The three-colour scale both screens of the web client paint scores with. */
module Display {

  /** `bg-emerald-500`, `bg-amber-500` and `bg-red-500`. */
  datatype BarColor = Emerald | Amber | Red

  function ColorRank(c: BarColor): nat {
    match c
    case Red => 0
    case Amber => 1
    case Emerald => 2
  }

  /** Emerald from `high` up, amber from `mid` up, red below. */
  function ThresholdColor(s: real, mid: real, high: real): (c: BarColor)
    requires mid <= high
    ensures c == Emerald <==> s >= high
    ensures c == Amber <==> mid <= s < high
    ensures c == Red <==> s < mid
  {
    if s >= high then Emerald else if s >= mid then Amber else Red
  }

  /** A higher score never gets a lower colour. */
  lemma ThresholdColorMonotone(a: real, b: real, mid: real, high: real)
    requires mid <= high && a <= b
    ensures ColorRank(ThresholdColor(a, mid, high)) <= ColorRank(ThresholdColor(b, mid, high))
  {
  }
}
