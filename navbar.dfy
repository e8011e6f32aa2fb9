/** The navigation bar's derived figures: the cart badge (total units in the
    bag), the wishlist badge (number of saved products) and the account label
    (the user's first name, or ENTRY when nobody is signed in). */
module Navbar {
  import opened Types
  import opened CartSlice
  import opened Text

  /** Total units over the lines, the reference definition. */
  function TotalUnits(items: seq<CartItem>): int {
    if items == [] then 0 else items[0].quantity + TotalUnits(items[1..])
  }

  /** `items.reduce((acc, item) => acc + item.quantity, acc)`. */
  function ReduceUnits(acc: int, items: seq<CartItem>): int
    decreases |items|
  {
    if items == [] then acc else ReduceUnits(acc + items[0].quantity, items[1..])
  }

  lemma {:induction false} ReduceIsTotalUnits(acc: int, items: seq<CartItem>)
    ensures ReduceUnits(acc, items) == acc + TotalUnits(items)
    decreases |items|
  {
    if items != [] {
      ReduceIsTotalUnits(acc + items[0].quantity, items[1..]);
    }
  }

  /** The number on the cart badge: the sum of all line quantities. */
  function CartCount(items: seq<CartItem>): (n: int)
    ensures n == TotalUnits(items)
  {
    ReduceIsTotalUnits(0, items);
    ReduceUnits(0, items)
  }

  predicate ShowCartBadge(items: seq<CartItem>) {
    CartCount(items) > 0
  }

  /** When every line holds at least one unit, the count is at least the
      number of lines, so the badge shows exactly when the cart is not empty. */
  lemma {:induction false} CartBadgeIffNonEmpty(items: seq<CartItem>)
    requires forall i :: 0 <= i < |items| ==> items[i].quantity >= 1
    ensures CartCount(items) >= |items|
    ensures ShowCartBadge(items) <==> items != []
  {
    if items != [] {
      CartBadgeIffNonEmpty(items[1..]);
    }
  }

  /** The wishlist badge: shown only for a non-empty wishlist, with its length. */
  function WishlistBadge(wishlist: seq<Product>): (badge: Option<nat>)
    ensures badge.Some? <==> wishlist != []
    ensures badge.Some? ==> badge.value == |wishlist| && badge.value > 0
  {
    if |wishlist| > 0 then Some(|wishlist|) else None
  }

  /** `user ? user.name.split(' ')[0] : 'ENTRY'`. */
  function UserLabel(user: Option<User>): string {
    match user
    case None => "ENTRY"
    case Some(u) => Split(u.name, ' ')[0]
  }

  /** The label of a signed-in user is the start of their name up to the first
      space; a one-word name is shown whole. */
  lemma UserLabelIsFirstWord(user: Option<User>)
    ensures user.None? ==> UserLabel(user) == "ENTRY"
    ensures user.Some? ==> ' ' !in UserLabel(user) && UserLabel(user) <= user.value.name
    ensures user.Some? && ' ' !in user.value.name ==> UserLabel(user) == user.value.name
    ensures user.Some? && |UserLabel(user)| < |user.value.name| ==> user.value.name[|UserLabel(user)|] == ' '
  {
    if user.Some? && ' ' !in user.value.name {
      SplitWithoutSeparator(user.value.name, ' ');
    }
  }
}
