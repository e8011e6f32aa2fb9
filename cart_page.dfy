/** The shopping-bag page: an empty-state panel for an empty cart, otherwise
    one row per line with its amount and the order summary; its buttons only
    dispatch the store's quantity and removal reducers. */
module CartPage {
  import opened Types
  import opened CartSlice
  import opened Pricing
  import opened AppStore

  datatype LineView = LineView(id: int, quantity: int, amount: int)

  datatype View = EmptyBag | Bag(lines: seq<LineView>, summary: Quote)

  function LineViews(cart: seq<CartItem>): seq<LineView> {
    seq(|cart|, i requires 0 <= i < |cart| => LineView(cart[i].Id(), cart[i].quantity, LineAmount(cart[i])))
  }

  /** What the page shows for a cart. */
  function Render(cart: seq<CartItem>): (v: View)
    ensures v.EmptyBag? <==> cart == []
    ensures v.Bag? ==> v.lines == LineViews(cart) && |v.lines| == |cart| && v.summary == PriceCart(cart)
  {
    if |cart| == 0 then EmptyBag else Bag(LineViews(cart), PriceCart(cart))
  }

  function SumAmounts(lines: seq<LineView>): int {
    if lines == [] then 0 else lines[0].amount + SumAmounts(lines[1..])
  }

  /** Each row shows price × quantity for its line, and the rows add up to the
      subtotal in the summary. */
  lemma {:induction false} RowsAddUpToSubtotal(cart: seq<CartItem>)
    ensures forall i :: 0 <= i < |cart| ==> LineViews(cart)[i].amount == cart[i].Price() * cart[i].quantity
    ensures SumAmounts(LineViews(cart)) == PriceCart(cart).subtotal
  {
    if cart != [] {
      RowsAddUpToSubtotal(cart[1..]);
      assert LineViews(cart)[1..] == LineViews(cart[1..]);
    }
  }

  /** The minus button: one unit less, never below one, never removing the line. */
  method PressMinus(store: Store, line: CartItem)
    modifies store
    ensures old(store.Valid()) ==> store.Valid()
    ensures store.items == QuantityUpdated(old(store.items), line.Id(), -1)
    ensures store.State() == old(store.State()).(items := store.items,
      storage := old(store.storage)[CartKey := CartJson(store.items)])
  {
    store.UpdateQuantity(line.Id(), -1);
  }

  /** The plus button: one unit more. */
  method PressPlus(store: Store, line: CartItem)
    modifies store
    ensures old(store.Valid()) ==> store.Valid()
    ensures store.items == QuantityUpdated(old(store.items), line.Id(), 1)
    ensures store.State() == old(store.State()).(items := store.items,
      storage := old(store.storage)[CartKey := CartJson(store.items)])
  {
    store.UpdateQuantity(line.Id(), 1);
  }

  /** The trash button: the line goes. */
  method PressTrash(store: Store, line: CartItem)
    modifies store
    ensures old(store.Valid()) ==> store.Valid()
    ensures store.items == RemovedFromCart(old(store.items), line.Id())
    ensures store.State() == old(store.State()).(items := store.items,
      storage := old(store.storage)[CartKey := CartJson(store.items)])
  {
    store.RemoveFromCart(line.Id());
  }
}
