/** The retry-delay counter: starts at an initial value, grows by a fixed
    step on every failure up to an optional maximum, and resets on success. */
module Scaling {
  import opened Wrappers

  function Min(a: int, b: int): int {
    if a <= b then a else b
  }

  /** The counter's value after one `Add` from `value`. */
  function Increased(value: int, increase: int, max: Option<int>): int {
    if max.None? then value + increase
    else if value >= max.value then value
    else Min(value + increase, max.value)
  }

  /** The value after `n` calls of `Add` from `value`. */
  function AfterAdds(value: int, increase: int, max: Option<int>, n: nat): int
    decreases n
  {
    if n == 0 then value else AfterAdds(Increased(value, increase, max), increase, max, n - 1)
  }

  /** One `Add` never moves a value at or below the maximum past it, never
      lowers it for a non-negative step, and leaves a value at or above the
      maximum alone. */
  lemma IncreasedBounds(value: int, increase: int, max: Option<int>)
    ensures max.Some? && value <= max.value ==> Increased(value, increase, max) <= max.value
    ensures increase >= 0 ==> Increased(value, increase, max) >= value
    ensures max.Some? && value >= max.value ==> Increased(value, increase, max) == value
    ensures max.None? ==> Increased(value, increase, max) == value + increase
  {
  }

  /** From an initial value at or below the maximum and a positive step, the
      value after `n` failures is `min(init + n * step, max)`. */
  lemma {:induction false} AfterAddsClosedForm(init: int, increase: int, max: int, n: nat)
    requires init <= max && increase > 0
    ensures AfterAdds(init, increase, Some(max), n) == Min(init + n * increase, max)
    decreases n
  {
    if n > 0 {
      var next := Increased(init, increase, Some(max));
      if init == max {
        AfterAddsAtMax(max, increase, n);
      } else {
        AfterAddsClosedForm(next, increase, max, n - 1);
        assert Min(next + (n - 1) * increase, max) == Min(init + n * increase, max);
      }
    }
  }

  lemma {:induction false} AfterAddsAtMax(max: int, increase: int, n: nat)
    ensures AfterAdds(max, increase, Some(max), n) == max
    decreases n
  {
    if n > 0 {
      AfterAddsAtMax(max, increase, n - 1);
    }
  }

  /** The schedule of the configuration poll and the gRPC reconnect loop
      (`Scaler(0, 10, 60)`): 0, 10, 20, ... seconds, capped at 60. */
  lemma PollBackoffSchedule(n: nat)
    ensures AfterAdds(0, 10, Some(60), n) == Min(10 * n, 60)
    ensures n >= 6 ==> AfterAdds(0, 10, Some(60), n) == 60
  {
    AfterAddsClosedForm(0, 10, 60, n);
  }

  /** The schedule of the server-list refresh (`Scaler(10, 10, 60)`):
      10, 20, ... seconds, capped at 60. */
  lemma ServerListBackoffSchedule(n: nat)
    ensures AfterAdds(10, 10, Some(60), n) == Min(10 + 10 * n, 60)
  {
    AfterAddsClosedForm(10, 10, 60, n);
  }

  /** The counter object itself. */
  class Scaler {
    const initValue: int
    const increaseValue: int
    const maxValue: Option<int>
    var value: int

    constructor (initValue: int, increaseValue: int, maxValue: Option<int>)
      ensures this.initValue == initValue && this.increaseValue == increaseValue && this.maxValue == maxValue
      ensures value == initValue
    {
      this.initValue := initValue;
      value := initValue;
      this.increaseValue := increaseValue;
      this.maxValue := maxValue;
    }

    method Add()
      modifies this`value
      ensures value == Increased(old(value), increaseValue, maxValue)
    {
      if maxValue.Some? {
        if value >= maxValue.value {
          return;
        }
        var newValue := value + increaseValue;
        if newValue > maxValue.value {
          newValue := maxValue.value;
        }
        value := newValue;
      } else {
        value := value + increaseValue;
      }
    }

    method Reset()
      modifies this`value
      ensures value == initValue
    {
      value := initValue;
    }
  }
}
