/** The application's single state container: the authentication slice, the
    transient UI slice and the shopping slice, together with the browser-local
    key-value mirror that every shopping mutation writes through to. Each
    reducer is one method that rewrites the fields in place; its contract
    gives the complete new state in terms of the old one. */
module AppStore {
  import opened Types
  import opened CartSlice

  datatype AuthStatus = Idle | Loading | Failed

  datatype ToastKind = SuccessToast | ErrorToast

  datatype Toast = Toast(message: string, kind: Option<ToastKind>)

  /** A value held in the mirror. The mirror holds JSON text; the model keeps
      the decoded value instead, one constructor per kind of entry. */
  datatype Stored =
    | Text(text: string)
    | CartJson(items: seq<CartItem>)
    | WishlistJson(products: seq<Product>)
    | AddressesJson(addresses: seq<Address>)
    | OrdersJson(orders: seq<Order>)

  const TokenKey: string := "token"
  const RefreshTokenKey: string := "refreshToken"
  const CartKey: string := "cart"
  const WishlistKey: string := "wishlist"
  const AddressesKey: string := "addresses"
  const OrdersKey: string := "orders"

  const NoToast: Toast := Toast("", None)

  /** The access token found in the mirror at start-up, if any. */
  function StoredToken(storage: map<string, Stored>): Option<string> {
    if TokenKey in storage && storage[TokenKey].Text? then Some(storage[TokenKey].text) else None
  }

  /** Every field of the store at one instant. */
  datatype Snapshot = Snapshot(
    user: Option<User>,
    token: Option<string>,
    status: AuthStatus,
    toast: Toast,
    items: seq<CartItem>,
    wishlist: seq<Product>,
    addresses: seq<Address>,
    orders: seq<Order>,
    storage: map<string, Stored>)

  // ----- the authentication reducers as transitions of the whole state -----

  /** `setAuth`: the user and token are replaced and both tokens persisted. */
  function Authenticated(s: Snapshot, u: User, accessToken: string, refreshToken: string): Snapshot {
    s.(user := Some(u), token := Some(accessToken),
       storage := s.storage[TokenKey := Text(accessToken)][RefreshTokenKey := Text(refreshToken)])
  }

  /** `logout`: no user, no token, and an empty mirror. */
  function LoggedOut(s: Snapshot): Snapshot {
    s.(user := None, token := None, storage := map[])
  }

  /** `fetchProfile.pending`. */
  function ProfilePending(s: Snapshot): Snapshot {
    s.(status := Loading)
  }

  /** `fetchProfile.fulfilled`. */
  function ProfileFetched(s: Snapshot, profile: User): Snapshot {
    s.(status := Idle, user := Some(profile))
  }

  /** `fetchProfile.rejected`: no user and no token; the mirror keeps its tokens. */
  function ProfileRejected(s: Snapshot): Snapshot {
    s.(status := Failed, user := None, token := None)
  }

  class Store {
    // authentication slice
    var user: Option<User>
    var token: Option<string>
    var status: AuthStatus
    // UI slice
    var toast: Toast
    // shopping slice
    var items: seq<CartItem>
    var wishlist: seq<Product>
    var addresses: seq<Address>
    var orders: seq<Order>
    // the browser-local mirror
    var storage: map<string, Stored>

    ghost function State(): Snapshot
      reads this
    {
      Snapshot(user, token, status, toast, items, wishlist, addresses, orders, storage)
    }

    /** One line per product with at least one unit; no product twice in the wishlist. */
    ghost predicate Valid()
      reads this
    {
      WellFormedCart(items) && Distinct(ProductIds(wishlist))
    }

    /** Start-up: the shopping collections as read back from the mirror, the
        token as stored under `token`, no user, idle, and no toast. */
    constructor (storage0: map<string, Stored>, items0: seq<CartItem>, wishlist0: seq<Product>,
                 addresses0: seq<Address>, orders0: seq<Order>)
      ensures Valid() <==> WellFormedCart(items0) && Distinct(ProductIds(wishlist0))
      ensures State() == Snapshot(None, StoredToken(storage0), Idle, NoToast,
                                  items0, wishlist0, addresses0, orders0, storage0)
    {
      user, token, status := None, StoredToken(storage0), Idle;
      toast := NoToast;
      items, wishlist, addresses, orders := items0, wishlist0, addresses0, orders0;
      storage := storage0;
    }

    // ----- authentication slice -----

    /** Replace user and token and persist both tokens; the status is left alone. */
    method SetAuth(u: User, accessToken: string, refreshToken: string)
      modifies this
      ensures State() == Authenticated(old(State()), u, accessToken, refreshToken)
    {
      user := Some(u);
      token := Some(accessToken);
      storage := storage[TokenKey := Text(accessToken)];
      storage := storage[RefreshTokenKey := Text(refreshToken)];
    }

    /** Replace the user record only. */
    method UpdateUserInState(u: User)
      modifies this
      ensures State() == old(State()).(user := Some(u))
    {
      user := Some(u);
    }

    /** Forget user and token and wipe the whole mirror; the in-memory
        shopping collections stay as they are. */
    method Logout()
      modifies this
      ensures State() == LoggedOut(old(State()))
    {
      user := None;
      token := None;
      storage := map[];
    }

    method FetchProfilePending()
      modifies this
      ensures State() == ProfilePending(old(State()))
    {
      status := Loading;
    }

    method FetchProfileFulfilled(profile: User)
      modifies this
      ensures State() == ProfileFetched(old(State()), profile)
    {
      status := Idle;
      user := Some(profile);
    }

    /** A failed profile fetch logs the user out of memory: status `failed`,
        no user and no token (the mirror keeps its tokens). */
    method FetchProfileRejected()
      modifies this
      ensures State() == ProfileRejected(old(State()))
    {
      status := Failed;
      user := None;
      token := None;
    }

    // ----- UI slice -----

    method ShowToast(message: string, kind: ToastKind)
      modifies this
      ensures State() == old(State()).(toast := Toast(message, Some(kind)))
    {
      toast := Toast(message, Some(kind));
    }

    method HideToast()
      modifies this
      ensures State() == old(State()).(toast := NoToast)
    {
      toast := NoToast;
    }

    // ----- shopping slice -----

    /** Find the product's line and bump it, or push a new line of one unit;
        then write the cart through to the mirror. */
    method AddToCart(p: Product)
      modifies this
      ensures old(Valid()) ==> Valid()
      ensures items == AddedToCart(old(items), p)
      ensures State() == old(State()).(items := items, storage := old(storage)[CartKey := CartJson(items)])
    {
      if Valid() {
        AddToCartEffect(items, p);
      }
      var i := 0;
      while i < |items| && items[i].Id() != p.id
        invariant 0 <= i <= |items|
        invariant forall j :: 0 <= j < i ==> items[j].Id() != p.id
      {
        i := i + 1;
      }
      forall j | 0 <= j < i ensures CartIds(items)[j] != p.id { }
      IndexOfFirst(CartIds(items), p.id, i);
      if i < |items| {
        items := items[i := items[i].(quantity := items[i].quantity + 1)];
      } else {
        items := items + [CartItem(p, 1)];
      }
      storage := storage[CartKey := CartJson(items)];
    }

    /** Filter out the lines with that product id; then write the cart through. */
    method RemoveFromCart(id: int)
      modifies this
      ensures old(Valid()) ==> Valid()
      ensures items == RemovedFromCart(old(items), id)
      ensures State() == old(State()).(items := items, storage := old(storage)[CartKey := CartJson(items)])
    {
      if Valid() {
        RemoveFromCartEffect(items, id);
      }
      var kept: seq<CartItem> := [];
      var i := 0;
      while i < |items|
        invariant 0 <= i <= |items|
        invariant kept == RemovedFromCart(items[..i], id)
      {
        assert items[..i + 1][..i] == items[..i];
        if items[i].Id() != id {
          kept := kept + [items[i]];
        }
        i := i + 1;
      }
      assert items[..i] == items;
      items := kept;
      storage := storage[CartKey := CartJson(items)];
    }

    /** Set the line's quantity to `max(1, quantity + delta)`; the cart is
        written through even when no line has that id. */
    method UpdateQuantity(id: int, delta: int)
      modifies this
      ensures old(Valid()) ==> Valid()
      ensures items == QuantityUpdated(old(items), id, delta)
      ensures State() == old(State()).(items := items, storage := old(storage)[CartKey := CartJson(items)])
    {
      if Valid() {
        UpdateQuantityEffect(items, id, delta);
      }
      var i := 0;
      while i < |items| && items[i].Id() != id
        invariant 0 <= i <= |items|
        invariant forall j :: 0 <= j < i ==> items[j].Id() != id
      {
        i := i + 1;
      }
      forall j | 0 <= j < i ensures CartIds(items)[j] != id { }
      IndexOfFirst(CartIds(items), id, i);
      if i < |items| {
        items := items[i := items[i].(quantity := Max(1, items[i].quantity + delta))];
      }
      storage := storage[CartKey := CartJson(items)];
    }

    /** Empty the cart and remove its mirror entry. */
    method ClearCart()
      modifies this
      ensures old(Valid()) ==> Valid()
      ensures State() == old(State()).(items := [], storage := old(storage) - {CartKey})
    {
      items := [];
      storage := storage - {CartKey};
    }

    /** Splice out the product's wishlist entry, or push the product; then
        write the wishlist through. */
    method ToggleWishlist(p: Product)
      modifies this
      ensures old(Valid()) ==> Valid()
      ensures wishlist == WishlistToggled(old(wishlist), p)
      ensures State() == old(State()).(wishlist := wishlist,
        storage := old(storage)[WishlistKey := WishlistJson(wishlist)])
    {
      if Valid() {
        ToggleWishlistEffect(wishlist, p);
      }
      var index := 0;
      while index < |wishlist| && wishlist[index].id != p.id
        invariant 0 <= index <= |wishlist|
        invariant forall j :: 0 <= j < index ==> wishlist[j].id != p.id
      {
        index := index + 1;
      }
      forall j | 0 <= j < index ensures ProductIds(wishlist)[j] != p.id { }
      IndexOfFirst(ProductIds(wishlist), p.id, index);
      if index < |wishlist| {
        wishlist := wishlist[..index] + wishlist[index + 1..];
      } else {
        wishlist := wishlist + [p];
      }
      storage := storage[WishlistKey := WishlistJson(wishlist)];
    }

    /** A default newcomer first clears every flag; the address is then pushed
        and the addresses are written through. */
    method AddAddress(a: Address)
      modifies this
      ensures old(Valid()) ==> Valid()
      ensures addresses == AddressAdded(old(addresses), a)
      ensures State() == old(State()).(addresses := addresses,
        storage := old(storage)[AddressesKey := AddressesJson(addresses)])
    {
      var updated := addresses;
      if a.isDefault {
        var i := 0;
        while i < |updated|
          invariant 0 <= i <= |updated| == |addresses|
          invariant forall j :: 0 <= j < i ==> updated[j] == addresses[j].(isDefault := false)
          invariant forall j :: i <= j < |updated| ==> updated[j] == addresses[j]
        {
          updated := updated[i := updated[i].(isDefault := false)];
          i := i + 1;
        }
        assert updated == ClearedDefaults(addresses);
      }
      addresses := updated + [a];
      storage := storage[AddressesKey := AddressesJson(addresses)];
    }

    /** Filter out the addresses with that id; then write them through. */
    method RemoveAddress(id: string)
      modifies this
      ensures old(Valid()) ==> Valid()
      ensures addresses == AddressRemoved(old(addresses), id)
      ensures State() == old(State()).(addresses := addresses,
        storage := old(storage)[AddressesKey := AddressesJson(addresses)])
    {
      var kept: seq<Address> := [];
      var i := 0;
      while i < |addresses|
        invariant 0 <= i <= |addresses|
        invariant kept == AddressRemoved(addresses[..i], id)
      {
        assert addresses[..i + 1][..i] == addresses[..i];
        if addresses[i].id != id {
          kept := kept + [addresses[i]];
        }
        i := i + 1;
      }
      assert addresses[..i] == addresses;
      addresses := kept;
      storage := storage[AddressesKey := AddressesJson(addresses)];
    }

    /** Rewrite every flag to "this address has the chosen id"; then write
        the addresses through. */
    method SetDefaultAddress(id: string)
      modifies this
      ensures old(Valid()) ==> Valid()
      ensures addresses == DefaultSet(old(addresses), id)
      ensures State() == old(State()).(addresses := addresses,
        storage := old(storage)[AddressesKey := AddressesJson(addresses)])
    {
      var updated := addresses;
      var i := 0;
      while i < |updated|
        invariant 0 <= i <= |updated| == |addresses|
        invariant forall j :: 0 <= j < i ==> updated[j] == addresses[j].(isDefault := addresses[j].id == id)
        invariant forall j :: i <= j < |updated| ==> updated[j] == addresses[j]
      {
        updated := updated[i := updated[i].(isDefault := updated[i].id == id)];
        i := i + 1;
      }
      assert updated == DefaultSet(addresses, id);
      addresses := updated;
      storage := storage[AddressesKey := AddressesJson(addresses)];
    }

    /** Put the order in front of the history, empty the cart, persist the
        orders and remove the cart's mirror entry. */
    method PlaceOrder(o: Order)
      modifies this
      ensures old(Valid()) ==> Valid()
      ensures orders == [o] + old(orders) && orders[0] == o
      ensures State() == old(State()).(items := [], orders := orders,
        storage := (old(storage)[OrdersKey := OrdersJson(orders)]) - {CartKey})
    {
      orders := [o] + orders;
      items := [];
      storage := storage[OrdersKey := OrdersJson(orders)];
      storage := storage - {CartKey};
    }
  }
}
