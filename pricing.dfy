/** The storefront's pricing rule: subtotal is the sum of price × quantity
    over the cart, delivery is free above 500 and 40 otherwise, and the total
    is their sum. The bag page and the checkout page both show these figures;
    here the rule is written once and both pages use it. */
module Pricing {
  import opened Types

  const FreeDeliveryAbove: int := 500
  const DeliveryFee: int := 40

  /** What one cart line costs. */
  function LineAmount(item: CartItem): int {
    item.Price() * item.quantity
  }

  /** Σ price × quantity over the lines, the reference definition. */
  function Subtotal(items: seq<CartItem>): int {
    if items == [] then 0 else LineAmount(items[0]) + Subtotal(items[1..])
  }

  /** The pages' `items.reduce((acc, item) => acc + item.price * item.quantity, acc)`. */
  function ReduceSubtotal(acc: int, items: seq<CartItem>): int
    decreases |items|
  {
    if items == [] then acc else ReduceSubtotal(acc + LineAmount(items[0]), items[1..])
  }

  /** The fold adds the reference subtotal to its starting accumulator. */
  lemma {:induction false} ReduceIsSubtotal(acc: int, items: seq<CartItem>)
    ensures ReduceSubtotal(acc, items) == acc + Subtotal(items)
    decreases |items|
  {
    if items != [] {
      ReduceIsSubtotal(acc + LineAmount(items[0]), items[1..]);
    }
  }

  function Delivery(subtotal: int): int {
    if subtotal > FreeDeliveryAbove then 0 else DeliveryFee
  }

  datatype Quote = Quote(subtotal: int, delivery: int, total: int)

  /** The figures shown for a cart: the subtotal is Σ price × quantity,
      delivery is 0 exactly when that exceeds 500 and 40 otherwise, and the
      total adds the two, so it never falls below the subtotal. */
  function PriceCart(items: seq<CartItem>): (q: Quote)
    ensures q.subtotal == Subtotal(items)
    ensures q.delivery == 0 || q.delivery == DeliveryFee
    ensures q.delivery == 0 <==> q.subtotal > FreeDeliveryAbove
    ensures q.total == q.subtotal + q.delivery && q.total >= q.subtotal
  {
    var subtotal := ReduceSubtotal(0, items);
    ReduceIsSubtotal(0, items);
    var delivery := Delivery(subtotal);
    Quote(subtotal, delivery, subtotal + delivery)
  }

  /** The threshold is strict: a subtotal of exactly 500 still pays delivery. */
  lemma DeliveryThreshold()
    ensures Delivery(499) == 40 && Delivery(500) == 40 && Delivery(501) == 0
    ensures Delivery(0) == 40
  {
  }

  /** With no negative quantities nothing is owed below zero. */
  lemma {:induction false} SubtotalNonNegative(items: seq<CartItem>)
    requires forall i :: 0 <= i < |items| ==> items[i].quantity >= 0
    ensures Subtotal(items) >= 0
  {
    if items != [] {
      SubtotalNonNegative(items[1..]);
    }
  }
}
