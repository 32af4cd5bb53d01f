/** The quantity stepper of components/CartItem.js. */
module CartItem {
  import opened Wrappers

  /** The minus control is disabled at a quantity of 1 or less. */
  predicate MinusDisabled(quantity: int) {
    quantity <= 1
  }

  /** What pressing minus asks `onQuantityChange` for: nothing when disabled,
      otherwise one less. */
  function MinusRequest(quantity: int): (r: Option<int>)
    ensures r.Some? <==> quantity > 1
    ensures r.Some? ==> r.value == quantity - 1 && r.value >= 1
  {
    if MinusDisabled(quantity) then None else Some(quantity - 1)
  }

  /** What pressing plus asks for: one more, with no upper bound. */
  function PlusRequest(quantity: int): (r: int)
    ensures r > quantity
  {
    quantity + 1
  }

  /** Minus and plus undo each other: from any quantity of at least 1, plus then
      minus returns to it, and an enabled minus is undone by plus. */
  lemma StepperRoundTrip(quantity: int)
    ensures quantity >= 1 ==> MinusRequest(PlusRequest(quantity)) == Some(quantity)
    ensures MinusRequest(quantity).Some? ==> PlusRequest(MinusRequest(quantity).value) == quantity
  {
  }
}
