/** The quantity stepper of components/QuantitySelector.tsx: a minus and a
    plus button that ask the parent, through `onChangeQuantity`, for one
    less or one more, each only while its own guard allows it. The stepper
    keeps no state of its own; the quantity is its parent's. */
module QuantitySelector {
  import opened Common

  /** The value `maxQuantity` takes when the prop is not supplied. */
  const DefaultMaxQuantity := 10

  function EffectiveMax(maxQuantity: Option<int>): (max: int)
    ensures maxQuantity.None? ==> max == DefaultMaxQuantity
    ensures maxQuantity.Some? ==> max == maxQuantity.value
  {
    match maxQuantity
    case None => DefaultMaxQuantity
    case Some(m) => m
  }

  /** The `disabled` prop of the minus button. */
  predicate DecreaseDisabled(quantity: int) {
    quantity <= 1
  }

  /** The `disabled` prop of the plus button. */
  predicate IncreaseDisabled(quantity: int, max: int) {
    quantity >= max
  }

  /** `handleDecrease`: the value passed to `onChangeQuantity`, if any. It
      emits exactly when the minus button is enabled, and never below 1. */
  function Decrease(quantity: int): (emitted: Option<int>)
    ensures emitted.Some? <==> !DecreaseDisabled(quantity)
    ensures emitted.Some? ==> emitted.value == quantity - 1 && emitted.value >= 1
  {
    if quantity > 1 then Some(quantity - 1) else None
  }

  /** `handleIncrease`: emits exactly when the plus button is enabled, and
      never above the maximum. */
  function Increase(quantity: int, max: int): (emitted: Option<int>)
    ensures emitted.Some? <==> !IncreaseDisabled(quantity, max)
    ensures emitted.Some? ==> emitted.value == quantity + 1 && emitted.value <= max
  {
    if quantity < max then Some(quantity + 1) else None
  }

  datatype Press = Minus | Plus

  /** The parent's quantity after one press, when the parent stores whatever
      the stepper emits (as the order screen does with `setQuantity`). */
  function AfterPress(quantity: int, max: int, press: Press): (q: int)
    ensures q == quantity || q == quantity - 1 || q == quantity + 1
  {
    var emitted := match press
      case Minus => Decrease(quantity)
      case Plus => Increase(quantity, max);
    match emitted
    case None => quantity
    case Some(v) => v
  }

  function AfterPresses(quantity: int, max: int, presses: seq<Press>): int
    decreases |presses|
  {
    if presses == [] then quantity
    else AfterPresses(AfterPress(quantity, max, presses[0]), max, presses[1..])
  }

  /** Starting inside `[1, max]`, no sequence of presses leaves it. */
  lemma {:induction false} PressesStayInRange(quantity: int, max: int, presses: seq<Press>)
    requires 1 <= quantity <= max
    ensures 1 <= AfterPresses(quantity, max, presses) <= max
    decreases |presses|
  {
    if presses != [] {
      PressesStayInRange(AfterPress(quantity, max, presses[0]), max, presses[1..]);
    }
  }

  /** Pressing plus `n` times from inside the range adds `n`, up to the
      maximum and no further. */
  lemma {:induction false} PlusPressesSaturate(quantity: int, max: int, n: nat)
    requires 1 <= quantity <= max
    ensures AfterPresses(quantity, max, seq(n, _ => Plus)) == if quantity + n <= max then quantity + n else max
    decreases n
  {
    if n > 0 {
      var presses := seq(n, _ => Plus);
      assert presses[0] == Plus;
      assert presses[1..] == seq(n - 1, _ => Plus);
      PlusPressesSaturate(AfterPress(quantity, max, Plus), max, n - 1);
    }
  }

  /** The stepper does not clamp: a quantity already above the maximum is
      only ever moved by the minus button, one step at a time. */
  lemma AboveMaxOnlyDecreases(quantity: int, max: int)
    requires quantity > max && quantity > 1
    ensures Increase(quantity, max) == None
    ensures Decrease(quantity) == Some(quantity - 1)
  {
  }
}
