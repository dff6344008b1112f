/** The integer helpers of Unity's `Mathf` that the generator calls. */
module Mathf {

  function Min(a: int, b: int): (r: int)
    ensures r <= a && r <= b
    ensures r == a || r == b
  {
    if a < b then a else b
  }

  function Max(a: int, b: int): (r: int)
    ensures r >= a && r >= b
    ensures r == a || r == b
  {
    if a < b then b else a
  }

  /**
   * `Mathf.Clamp` on integers: below `min` gives `min`, otherwise above `max` gives `max`,
   * otherwise the value itself. With `min > max` a value below `min` still yields `min`.
   */
  function Clamp(value: int, min: int, max: int): (r: int)
    ensures min <= max ==> min <= r <= max
    ensures min <= value <= max ==> r == value
    ensures r == value || r == min || r == max
    ensures value < min ==> r == min
    ensures min <= value && max < value ==> r == max
  {
    if value < min then min else if value > max then max else value
  }
}
