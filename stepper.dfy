/** The quantity stepper (components/ui/Stepper.tsx): a stateless control
    that shows `value` and, on its two buttons, asks its owner to change it.
    Values are JavaScript numbers, modelled as reals; `min` defaults to 1 and
    `max` may be absent. */
module Stepper {
  import opened Util

  /** `min = 1` in the component's parameter list. */
  function MinOf(min: Option<real>): (m: real)
    ensures min.None? ==> m == 1.0
    ensures min.Some? ==> m == min.value
  {
    min.GetOr(1.0)
  }

  /** `isMin`: the decrement button is disabled. */
  predicate DecrementDisabled(value: real, min: Option<real>) {
    value <= MinOf(min)
  }

  /** `isMax`: the increment button is disabled. */
  predicate IncrementDisabled(value: real, max: Option<real>) {
    max.Some? && value >= max.value
  }

  /** The value the decrement button emits: `Math.max(min, value - 1)`. */
  function Decremented(value: real, min: Option<real>): real {
    if value - 1.0 >= MinOf(min) then value - 1.0 else MinOf(min)
  }

  /** The value the increment button emits: `value + 1`. */
  function Incremented(value: real): real {
    value + 1.0
  }

  /** Decrementing never emits less than `min`; an enabled decrement emits
      a smaller value, one less than `value` unless that would pass `min`,
      in which case it emits `min` itself. */
  lemma DecrementStaysAboveMin(value: real, min: Option<real>)
    ensures Decremented(value, min) >= MinOf(min)
    ensures !DecrementDisabled(value, min) ==> Decremented(value, min) < value
    ensures Decremented(value, min) == value - 1.0 <==> value - 1.0 >= MinOf(min)
    ensures value - 1.0 < MinOf(min) ==> Decremented(value, min) == MinOf(min)
  {
  }

  /** For whole numbers an enabled decrement emits exactly `value - 1`,
      with the given `min` or with the default 1. */
  lemma WholeDecrementStepsByOne(value: int, min: int)
    requires !DecrementDisabled(value as real, Some(min as real))
    ensures Decremented(value as real, Some(min as real)) == (value - 1) as real
    ensures 1 < value ==> Decremented(value as real, None) == (value - 1) as real
  {
    assert min < value;
    assert (value - 1) as real == value as real - 1.0;
  }

  /** Without a `max` the increment button is never disabled, whatever the value. */
  lemma NoMaxNeverDisabled(value: real)
    ensures !IncrementDisabled(value, None)
    ensures Incremented(value) > value
  {
  }

  /** For whole numbers an enabled increment never emits more than `max`. */
  lemma WholeIncrementWithinMax(value: int, max: int)
    requires !IncrementDisabled(value as real, Some(max as real))
    ensures Incremented(value as real) <= max as real
  {
    assert value < max;
    assert (value + 1) as real == value as real + 1.0;
  }

  /** The bound needs whole numbers: at 4.5 with `max` 5 the increment is
      enabled and emits 5.5. */
  lemma FractionalIncrementPassesMax()
    ensures !IncrementDisabled(4.5, Some(5.0)) && Incremented(4.5) > 5.0
  {
  }
}
