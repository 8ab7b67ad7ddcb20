/** The integer helpers of Minecraft's `MathHelper` that the entity query
    uses, written the way Java computes them: a truncating `(int)` cast
    followed by one correction step. */
module JavaMath {

  /** Java's `(int) v` cast: truncation toward zero. */
  function TruncToInt(v: real): (i: int)
    ensures v >= 0.0 ==> 0 <= i && i as real <= v < i as real + 1.0
    ensures v < 0.0 ==> i <= 0 && i as real - 1.0 < v <= i as real
  {
    if v >= 0.0 then v.Floor else -((-v).Floor)
  }

  /** `MathHelper.floor(v)`: the greatest integer not above `v`. */
  function Floor(v: real): (i: int)
    ensures i as real <= v < i as real + 1.0
  {
    var t := TruncToInt(v);
    if v < t as real then t - 1 else t
  }

  /** `MathHelper.ceil(v)`: the least integer not below `v`. */
  function Ceil(v: real): (i: int)
    ensures i as real - 1.0 < v <= i as real
  {
    var t := TruncToInt(v);
    if v > t as real then t + 1 else t
  }

  /** `MathHelper.clamp(value, min, max)` on ints. */
  function Clamp(value: int, min: int, max: int): (r: int)
    requires min <= max
    ensures min <= r <= max
    ensures min <= value <= max ==> r == value
    ensures value < min ==> r == min
    ensures value > max ==> r == max
  {
    if value < min then min
    else if value > max then max
    else value
  }

  /** `Floor` and `Ceil` agree with the mathematical floor and ceiling of the
      reals. */
  lemma FloorCeilExact(v: real)
    ensures Floor(v) == v.Floor
    ensures Ceil(v) == -((-v).Floor)
  {
  }

  /** `Floor` is monotone. */
  lemma FloorMonotone(a: real, b: real)
    requires a <= b
    ensures Floor(a) <= Floor(b)
  {
  }
}
