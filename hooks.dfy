/** The hooks the pages read the store through: the derived authentication
    flags, wishlist membership, and the two cart actions that forward to the
    store's reducers. */
module Hooks {
  import opened Types
  import opened CartSlice
  import opened AppStore

  /** JavaScript truthiness of a nullable string: present and non-empty. */
  predicate Truthy(token: Option<string>) {
    token.Some? && token.value != ""
  }

  /** `!!token && !!user`. */
  predicate IsAuthenticated(token: Option<string>, user: Option<User>) {
    Truthy(token) && user.Some?
  }

  /** `status === 'loading'`. */
  predicate IsLoading(status: AuthStatus) {
    status == Loading
  }

  /** `wishlist.some(i => i.id === id)`. */
  predicate IsInWishlist(wishlist: seq<Product>, id: int) {
    exists i :: 0 <= i < |wishlist| && wishlist[i].id == id
  }

  /** What the authentication reducers do to the flags: signing in with a
      non-empty token authenticates (and an empty one does not); logging
      out or a rejected profile fetch leaves nobody authenticated; a pending
      fetch is loading, and a settled one is not; a fetched profile
      authenticates exactly when a usable token was already held; and
      signing in or out does not touch the loading flag. */
  lemma AuthFlagsFollowReducers(s: Snapshot, u: User, accessToken: string, refreshToken: string, profile: User)
    ensures var t := Authenticated(s, u, accessToken, refreshToken);
      (IsAuthenticated(t.token, t.user) <==> accessToken != "") && IsLoading(t.status) == IsLoading(s.status)
    ensures var t := LoggedOut(s);
      !IsAuthenticated(t.token, t.user) && !Truthy(t.token) && IsLoading(t.status) == IsLoading(s.status)
    ensures var t := ProfileRejected(s);
      !IsAuthenticated(t.token, t.user) && !Truthy(t.token) && !IsLoading(t.status)
    ensures IsLoading(ProfilePending(s).status)
    ensures var t := ProfileFetched(s, profile);
      !IsLoading(t.status) && (IsAuthenticated(t.token, t.user) <==> Truthy(s.token))
  {
  }

  /** The membership test the pages use agrees with the search the
      `toggleWishlist` reducer performs. */
  lemma InWishlistIffFound(wishlist: seq<Product>, id: int)
    ensures IsInWishlist(wishlist, id) <==> IndexOf(ProductIds(wishlist), id) >= 0
    ensures IsInWishlist(wishlist, id) <==> id in ProductIds(wishlist)
  {
    if IsInWishlist(wishlist, id) {
      var i :| 0 <= i < |wishlist| && wishlist[i].id == id;
      assert ProductIds(wishlist)[i] == id;
    }
  }

  /** The heart on a product flips each time it is toggled. */
  lemma ToggleFlipsHeart(wishlist: seq<Product>, p: Product)
    requires Distinct(ProductIds(wishlist))
    ensures IsInWishlist(WishlistToggled(wishlist, p), p.id) <==> !IsInWishlist(wishlist, p.id)
  {
    ToggleWishlistEffect(wishlist, p);
    InWishlistIffFound(wishlist, p.id);
    InWishlistIffFound(WishlistToggled(wishlist, p), p.id);
  }

  /** `addItem`: dispatches `addToCart` for the product. */
  method AddItem(store: Store, p: Product)
    modifies store
    ensures old(store.Valid()) ==> store.Valid()
    ensures store.items == AddedToCart(old(store.items), p)
    ensures store.State() == old(store.State()).(items := store.items,
      storage := old(store.storage)[CartKey := CartJson(store.items)])
  {
    store.AddToCart(p);
  }

  /** `toggleFav`: dispatches `toggleWishlist` for the product. */
  method ToggleFav(store: Store, p: Product)
    modifies store
    ensures old(store.Valid()) ==> store.Valid()
    ensures store.wishlist == WishlistToggled(old(store.wishlist), p)
    ensures store.State() == old(store.State()).(wishlist := store.wishlist,
      storage := old(store.storage)[WishlistKey := WishlistJson(store.wishlist)])
  {
    store.ToggleWishlist(p);
  }
}
