/** The quantity stepper (src/components/product/QuantitySelector.tsx): minus and plus buttons
    clamped to [min, max], each disabled at its bound. */
module QuantitySelector {

  const DefaultMin: int := 1
  const DefaultMax: int := 10

  /** The value handed over by the minus button: `Math.max(min, value - 1)`. */
  function Decrement(value: int, min: int): (r: int)
    ensures r >= min
    ensures value > min ==> r == value - 1
    ensures value <= min ==> r == min
  {
    if value - 1 >= min then value - 1 else min
  }

  /** The value handed over by the plus button: `Math.min(max, value + 1)`. */
  function Increment(value: int, max: int): (r: int)
    ensures value < max ==> r == value + 1
    ensures value >= max ==> r == max
  {
    if value + 1 <= max then value + 1 else max
  }

  predicate DecrementDisabled(value: int, min: int) {
    value <= min
  }

  predicate IncrementDisabled(value: int, max: int) {
    value >= max
  }

  // ---------------------------------------------------------------------------------------------
  // Lemmas

  /** From a value within the bounds, both buttons keep it within the bounds. */
  lemma StaysInRange(value: int, min: int, max: int)
    requires min <= value <= max
    ensures min <= Decrement(value, min) <= max
    ensures min <= Increment(value, max) <= max
  {
  }

  /** Within the bounds, a button is disabled exactly when pressing it would change nothing. */
  lemma DisabledIffNoEffect(value: int, min: int, max: int)
    requires min <= value <= max
    ensures DecrementDisabled(value, min) <==> Decrement(value, min) == value
    ensures IncrementDisabled(value, max) <==> Increment(value, max) == value
  {
  }

  /** Plus then minus returns to the start when plus was enabled; minus then plus likewise. */
  lemma StepsUndo(value: int, min: int, max: int)
    requires min <= value
    ensures value < max ==> Decrement(Increment(value, max), min) == value
    ensures value > min && value <= max ==> Increment(Decrement(value, min), max) == value
  {
  }
}
