/** Three-component values, the six communication directions, and the
    particle attributes that are merely carried along. */
module Vectors {

  type Axis = a: int | 0 <= a < 3

  /** 0 = east, 1 = west, 2 = north, 3 = south, 4 = up, 5 = down. */
  type Dir = d: int | 0 <= d < 6

  datatype V3<+T> = V3(x: T, y: T, z: T) {
    function At(a: Axis): T {
      if a == 0 then x else if a == 1 then y else z
    }
  }

  /** Stands for everything that travels with a particle without being looked at. */
  datatype Attr = Attr(charge: real, diameter: real)

  function AxisOf(d: Dir): Axis {
    d / 2
  }

  function Opposite(d: Dir): Dir {
    if d % 2 == 0 then d + 1 else d - 1
  }

  /** +1 for east, north and up; -1 for west, south and down. */
  function Sign(d: Dir): int {
    if d % 2 == 0 then 1 else -1
  }

  /** Two vectors that agree on every axis are the same vector. */
  lemma SameOnEveryAxis<T>(u: V3<T>, v: V3<T>)
    requires forall a: Axis :: u.At(a) == v.At(a)
    ensures u == v
  {
    assert u.At(0) == v.At(0) && u.At(1) == v.At(1) && u.At(2) == v.At(2);
  }
}
