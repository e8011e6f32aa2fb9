/** The product page: the quantity stepper, the related-products cap, the
    image reset on load, the heart, and the add-to-bag button that adds the
    product once per unit chosen. */
module ProductDetail {
  import opened Types
  import opened Text
  import opened CartSlice
  import opened AppStore
  import opened Hooks

  /** Related products kept on the page. */
  const RelatedShown: int := 4

  /** The minus button: `Math.max(1, q - 1)`. */
  function Decremented(q: int): (r: int)
    ensures r >= 1
    ensures q >= 2 ==> r == q - 1
    ensures q <= 2 ==> r == 1
  {
    Max(1, q - 1)
  }

  /** The plus button: `q + 1`. */
  function Incremented(q: int): (r: int)
    ensures r > q
  {
    q + 1
  }

  /** From any valid quantity, plus then minus returns to it; minus then
      plus returns to it unless it was already the floor of 1. */
  lemma StepperRoundTrips(q: int)
    requires q >= 1
    ensures Decremented(Incremented(q)) == q
    ensures Incremented(Decremented(q)) == (if q == 1 then 2 else q)
  {
  }

  /** `data.slice(0, 4)`: the first four related products, or all of them. */
  function CappedRelated(data: seq<Product>): (r: seq<Product>)
    ensures |r| <= RelatedShown && r <= data
    ensures |data| <= RelatedShown ==> r == data
    ensures |data| > RelatedShown ==> |r| == RelatedShown
  {
    if |data| <= RelatedShown then data else data[..RelatedShown]
  }

  /** The cart after `addToCart(p)` has been dispatched `n` times. */
  function AddedTimes(items: seq<CartItem>, p: Product, n: nat): seq<CartItem> {
    if n == 0 then items else AddedToCart(AddedTimes(items, p, n - 1), p)
  }

  /** Adding `n` units of a product already in the bag grows its line by `n`
      and touches nothing else. */
  lemma {:induction false} AddedTimesExisting(items: seq<CartItem>, p: Product, n: nat)
    requires WellFormedCart(items) && p.id in CartIds(items)
    ensures var r := AddedTimes(items, p, n);
      && WellFormedCart(r)
      && CartIds(r) == CartIds(items)
      && |r| == |items|
      && forall k :: 0 <= k < |items| ==>
           r[k] == if items[k].Id() == p.id then items[k].(quantity := items[k].quantity + n) else items[k]
  {
    if n > 0 {
      AddedTimesExisting(items, p, n - 1);
      var prev := AddedTimes(items, p, n - 1);
      assert p.id in CartIds(prev);
      AddToCartEffect(prev, p);
      var r := AddedTimes(items, p, n);
      assert |CartIds(r)| == |CartIds(items)|;
      forall k | 0 <= k < |items| ensures CartIds(r)[k] == CartIds(items)[k] {
        assert r[k].Id() == prev[k].Id();
      }
    }
  }

  /** Adding `n ≥ 1` units of a product not in the bag appends one line
      holding all `n` units. */
  lemma {:induction false} AddedTimesNew(items: seq<CartItem>, p: Product, n: nat)
    requires WellFormedCart(items) && p.id !in CartIds(items) && n >= 1
    ensures AddedTimes(items, p, n) == items + [CartItem(p, n)]
    ensures WellFormedCart(AddedTimes(items, p, n))
  {
    AddToCartEffect(items, p);
    if n > 1 {
      AddedTimesNew(items, p, n - 1);
      var prev := items + [CartItem(p, n - 1)];
      CartIdsAppend(items, CartItem(p, n - 1));
      assert CartIds(prev)[|items|] == p.id;
      AddToCartEffect(prev, p);
      forall k | 0 <= k < |items| ensures items[k].Id() != p.id {
        assert CartIds(items)[k] == items[k].Id();
      }
    }
  }

  /** The heart is filled exactly when the product is saved. */
  function IsFav(wishlist: seq<Product>, p: Product): (fav: bool)
    ensures fav <==> p.id in ProductIds(wishlist)
  {
    InWishlistIffFound(wishlist, p.id);
    IsInWishlist(wishlist, p.id)
  }

  /** The page's own state. */
  class DetailPage {
    var product: Option<Product>
    var related: seq<Product>
    var loading: bool
    var activeImg: int
    var quantity: int

    /** The stepper never shows less than one unit. */
    predicate Valid()
      reads this
    {
      quantity >= 1
    }

    /** The page mounts loading, with one unit and the first image. */
    constructor()
      ensures Valid()
      ensures product == None && related == [] && loading && activeImg == 0 && quantity == 1
    {
      product := None;
      related := [];
      loading := true;
      activeImg := 0;
      quantity := 1;
    }

    method Decrement()
      requires Valid()
      modifies this
      ensures Valid()
      ensures quantity == Decremented(old(quantity))
      ensures product == old(product) && related == old(related) && activeImg == old(activeImg) && loading == old(loading)
    {
      quantity := Decremented(quantity);
    }

    method Increment()
      requires Valid()
      modifies this
      ensures Valid()
      ensures quantity == old(quantity) + 1
      ensures product == old(product) && related == old(related) && activeImg == old(activeImg) && loading == old(loading)
    {
      quantity := Incremented(quantity);
    }

    /** A thumbnail selects its image. */
    method SelectImage(index: int)
      modifies this
      ensures activeImg == index
      ensures product == old(product) && related == old(related) && quantity == old(quantity) && loading == old(loading)
    {
      activeImg := index;
    }

    /** The load for a product id: the product request (`None` when it
        fails) and, only after it succeeds, the related request (`None` when
        that fails). A loaded product shows its first image; the related list
        is capped at four; the chosen quantity carries over. */
    method Load(productResp: Option<Product>, relatedResp: Option<seq<Product>>)
      requires Valid()
      modifies this
      ensures Valid() && quantity == old(quantity) && !loading
      ensures productResp.Some? ==> product == productResp && activeImg == 0
      ensures productResp.None? ==> product == old(product) && activeImg == old(activeImg)
      ensures related == if productResp.Some? && relatedResp.Some? then CappedRelated(relatedResp.value) else old(related)
    {
      loading := true;
      if productResp.Some? {
        product := productResp;
        activeImg := 0;
        if relatedResp.Some? {
          related := CappedRelated(relatedResp.value);
        }
      }
      loading := false;
    }

    /** ADD TO BAG: dispatch `addItem` once per unit chosen, then announce
        the count. */
    method AddToCart(store: Store)
      requires Valid() && product.Some?
      modifies store
      ensures old(store.Valid()) ==> store.Valid()
      ensures store.items == AddedTimes(old(store.items), product.value, quantity)
      ensures store.State() == old(store.State()).(
        items := store.items,
        toast := Toast(DecimalText(quantity) + " units added to cart.", Some(SuccessToast)),
        storage := old(store.storage)[CartKey := CartJson(store.items)])
    {
      var p := product.value;
      var i := 0;
      while i < quantity
        invariant 0 <= i <= quantity
        invariant old(store.Valid()) ==> store.Valid()
        invariant store.items == AddedTimes(old(store.items), p, i)
        invariant i == 0 ==> store.State() == old(store.State())
        invariant i > 0 ==> store.State() == old(store.State()).(
          items := store.items,
          storage := old(store.storage)[CartKey := CartJson(store.items)])
      {
        AddItem(store, p);
        i := i + 1;
      }
      store.ShowToast(DecimalText(quantity) + " units added to cart.", SuccessToast);
    }
  }
}
