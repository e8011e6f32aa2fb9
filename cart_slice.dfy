/** The shopping slice's reducers as functions of the collections they
    rewrite, with the properties the storefront relies on: cart lines and
    wishlist entries are keyed by product id, quantities never fall below 1,
    and at most one saved address is the default. The class in store.dfy
    performs these rewrites step by step and is proved to match them. */
module CartSlice {
  import opened Types

  predicate Distinct<T(==)>(s: seq<T>) {
    forall i, j :: 0 <= i < j < |s| ==> s[i] != s[j]
  }

  /** Position of the first occurrence of `x` in `s`, or -1 when there is
      none (the index behind `Array.prototype.find` and `findIndex`). */
  function IndexOf<T(==)>(s: seq<T>, x: T): (k: int)
    ensures -1 <= k < |s|
    ensures 0 <= k ==> s[k] == x && forall j :: 0 <= j < k ==> s[j] != x
    ensures k < 0 ==> x !in s
  {
    if s == [] then -1
    else if s[0] == x then 0
    else
      var k := IndexOf(s[1..], x);
      if k < 0 then -1 else k + 1
  }

  /** A position before which `x` does not occur, and at which it does
      unless it is the end, is where `IndexOf` finds `x`. */
  lemma IndexOfFirst<T>(s: seq<T>, x: T, i: int)
    requires 0 <= i <= |s|
    requires forall j :: 0 <= j < i ==> s[j] != x
    requires i < |s| ==> s[i] == x
    ensures IndexOf(s, x) == (if i < |s| then i else -1)
  {
  }

  function Max(a: int, b: int): int {
    if a < b then b else a
  }

  // ----- cart lines -----

  function CartIds(items: seq<CartItem>): seq<int> {
    seq(|items|, i requires 0 <= i < |items| => items[i].Id())
  }

  /** The cart's standing invariant: one line per product, each holding at least one unit. */
  ghost predicate WellFormedCart(items: seq<CartItem>) {
    && Distinct(CartIds(items))
    && forall i :: 0 <= i < |items| ==> items[i].quantity >= 1
  }

  /** `addToCart`: bump the quantity of the product's line, or append a new line of one unit. */
  function AddedToCart(items: seq<CartItem>, p: Product): seq<CartItem> {
    var k := IndexOf(CartIds(items), p.id);
    if k >= 0 then items[k := items[k].(quantity := items[k].quantity + 1)]
    else items + [CartItem(p, 1)]
  }

  /** `updateQuantity`: the product's line gets `max(1, quantity + delta)`. */
  function QuantityUpdated(items: seq<CartItem>, id: int, delta: int): seq<CartItem> {
    var k := IndexOf(CartIds(items), id);
    if k >= 0 then items[k := items[k].(quantity := Max(1, items[k].quantity + delta))]
    else items
  }

  /** `removeFromCart`: keep, in order, the lines whose product id differs. */
  function RemovedFromCart(items: seq<CartItem>, id: int): seq<CartItem> {
    if items == [] then []
    else
      var n := |items| - 1;
      RemovedFromCart(items[..n], id) + (if items[n].Id() != id then [items[n]] else [])
  }

  lemma CartIdsAppend(items: seq<CartItem>, c: CartItem)
    ensures CartIds(items + [c]) == CartIds(items) + [c.Id()]
  {
  }

  lemma {:induction false} DistinctSplice<T>(s: seq<T>, k: nat)
    requires Distinct(s) && k < |s|
    ensures Distinct(s[..k] + s[k + 1..])
  {
    var t := s[..k] + s[k + 1..];
    forall i, j | 0 <= i < j < |t| ensures t[i] != t[j] {
      var i' := if i < k then i else i + 1;
      var j' := if j < k then j else j + 1;
      assert t[i] == s[i'] && t[j] == s[j'] && i' < j';
    }
  }

  /** `addToCart` on a well-formed cart: a product already in the cart gets
      one more unit on its own line and nothing else changes; a new product
      is appended as a line of one unit. Either way the cart stays well formed. */
  lemma AddToCartEffect(items: seq<CartItem>, p: Product)
    requires WellFormedCart(items)
    ensures WellFormedCart(AddedToCart(items, p))
    ensures p.id in CartIds(items) ==>
      var r := AddedToCart(items, p);
      && |r| == |items|
      && forall k :: 0 <= k < |items| ==>
           r[k] == if items[k].Id() == p.id then items[k].(quantity := items[k].quantity + 1) else items[k]
    ensures p.id !in CartIds(items) ==> AddedToCart(items, p) == items + [CartItem(p, 1)]
  {
    var r := AddedToCart(items, p);
    var k := IndexOf(CartIds(items), p.id);
    if k < 0 {
      CartIdsAppend(items, CartItem(p, 1));
      assert CartIds(r) == CartIds(items) + [p.id];
    } else {
      assert CartIds(r) == CartIds(items);
      forall j | 0 <= j < |items| && j != k ensures items[j].Id() != p.id {
        assert CartIds(items)[j] != CartIds(items)[k];
      }
    }
  }

  /** `updateQuantity` on a well-formed cart: only the line with that id
      changes, to `max(1, quantity + delta)`; no line is removed or added, and
      an unknown id leaves the cart as it was. */
  lemma UpdateQuantityEffect(items: seq<CartItem>, id: int, delta: int)
    requires WellFormedCart(items)
    ensures var r := QuantityUpdated(items, id, delta);
      && WellFormedCart(r)
      && CartIds(r) == CartIds(items)
      && forall k :: 0 <= k < |items| ==>
           r[k] == if items[k].Id() == id then items[k].(quantity := Max(1, items[k].quantity + delta)) else items[k]
    ensures id !in CartIds(items) ==> QuantityUpdated(items, id, delta) == items
  {
    var r := QuantityUpdated(items, id, delta);
    var k := IndexOf(CartIds(items), id);
    assert CartIds(r) == CartIds(items);
    if k >= 0 {
      forall j | 0 <= j < |items| && j != k ensures items[j].Id() != id {
        assert CartIds(items)[j] != CartIds(items)[k];
      }
    } else {
      forall j | 0 <= j < |items| ensures items[j].Id() != id {
        assert CartIds(items)[j] == items[j].Id();
      }
    }
  }

  /** Removing an id that no line carries changes nothing. */
  lemma {:induction false} RemoveAbsent(items: seq<CartItem>, id: int)
    requires id !in CartIds(items)
    ensures RemovedFromCart(items, id) == items
  {
    if items != [] {
      var n := |items| - 1;
      assert CartIds(items[..n]) == CartIds(items)[..n];
      assert items[n].Id() == CartIds(items)[n];
      RemoveAbsent(items[..n], id);
      assert items == items[..n] + [items[n]];
    }
  }

  /** With distinct ids, removing the id of line `k` splices out exactly that line. */
  lemma {:induction false} RemoveSplices(items: seq<CartItem>, id: int, k: nat)
    requires Distinct(CartIds(items))
    requires k < |items| && items[k].Id() == id
    ensures RemovedFromCart(items, id) == items[..k] + items[k + 1..]
  {
    var n := |items| - 1;
    var pre := items[..n];
    assert CartIds(pre) == CartIds(items)[..n];
    if k == n {
      forall j | 0 <= j < n ensures CartIds(pre)[j] != id {
        assert CartIds(items)[j] != CartIds(items)[n];
      }
      RemoveAbsent(pre, id);
    } else {
      assert items[n].Id() != id by {
        assert CartIds(items)[k] != CartIds(items)[n];
      }
      RemoveSplices(pre, id, k);
      assert items[..k] + items[k + 1..] == pre[..k] + pre[k + 1..] + [items[n]];
    }
  }

  /** `removeFromCart` on a well-formed cart: no line with that id remains,
      the other lines keep their order, an unknown id changes nothing, and
      the cart stays well formed. */
  lemma RemoveFromCartEffect(items: seq<CartItem>, id: int)
    requires WellFormedCart(items)
    ensures var r := RemovedFromCart(items, id);
      && WellFormedCart(r)
      && id !in CartIds(r)
      && (id !in CartIds(items) ==> r == items)
      && forall k :: 0 <= k < |items| && items[k].Id() == id ==> r == items[..k] + items[k + 1..]
  {
    var ids := CartIds(items);
    var r := RemovedFromCart(items, id);
    var k := IndexOf(ids, id);
    if k < 0 {
      RemoveAbsent(items, id);
      forall k' | 0 <= k' < |items| ensures items[k'].Id() != id {
        assert ids[k'] == items[k'].Id();
      }
    } else {
      RemoveSplices(items, id, k);
      DistinctSplice(ids, k);
      assert CartIds(r) == ids[..k] + ids[k + 1..];
      forall j | 0 <= j < |r| ensures CartIds(r)[j] != id && r[j].quantity >= 1 {
        if j < k {
          assert r[j] == items[j];
        } else {
          assert r[j] == items[j + 1];
        }
      }
      forall k' | 0 <= k' < |items| && items[k'].Id() == id ensures k' == k {
        assert ids[k'] == ids[k];
      }
    }
  }

  // ----- wishlist -----

  function ProductIds(products: seq<Product>): seq<int> {
    seq(|products|, i requires 0 <= i < |products| => products[i].id)
  }

  /** `toggleWishlist`: splice out the product's entry, or append the product. */
  function WishlistToggled(wishlist: seq<Product>, p: Product): seq<Product> {
    var k := IndexOf(ProductIds(wishlist), p.id);
    if k >= 0 then wishlist[..k] + wishlist[k + 1..] else wishlist + [p]
  }

  /** `toggleWishlist` on a wishlist without duplicate ids: membership of the
      product flips, every other product keeps its membership, an absent
      product is appended, and ids stay distinct. */
  lemma ToggleWishlistEffect(wishlist: seq<Product>, p: Product)
    requires Distinct(ProductIds(wishlist))
    ensures var r := WishlistToggled(wishlist, p);
      && Distinct(ProductIds(r))
      && (p.id in ProductIds(r) <==> p.id !in ProductIds(wishlist))
      && (forall id :: id != p.id ==> (id in ProductIds(r) <==> id in ProductIds(wishlist)))
      && (p.id !in ProductIds(wishlist) ==> r == wishlist + [p])
      && (p.id in ProductIds(wishlist) ==> |r| == |wishlist| - 1)
      && (forall k :: 0 <= k < |wishlist| && wishlist[k].id == p.id ==> r == wishlist[..k] + wishlist[k + 1..])
  {
    var ids := ProductIds(wishlist);
    var r := WishlistToggled(wishlist, p);
    var k := IndexOf(ids, p.id);
    if k >= 0 {
      assert ProductIds(r) == ids[..k] + ids[k + 1..];
      DistinctSplice(ids, k);
      assert ids == ids[..k] + [ids[k]] + ids[k + 1..];
      forall j | 0 <= j < |ids| && j != k ensures ids[j] != p.id {
      }
      forall k' | 0 <= k' < |wishlist| && wishlist[k'].id == p.id ensures k' == k {
        assert ids[k'] == ids[k];
      }
    } else {
      forall k' | 0 <= k' < |wishlist| ensures wishlist[k'].id != p.id {
        assert ids[k'] == wishlist[k'].id;
      }
      assert ProductIds(r) == ids + [p.id];
    }
  }

  /** Toggling a product that is not in the wishlist twice restores the wishlist. */
  lemma ToggleTwiceRestores(wishlist: seq<Product>, p: Product)
    requires p.id !in ProductIds(wishlist)
    ensures WishlistToggled(WishlistToggled(wishlist, p), p) == wishlist
  {
    var once := WishlistToggled(wishlist, p);
    assert once == wishlist + [p];
    assert ProductIds(once) == ProductIds(wishlist) + [p.id];
    assert IndexOf(ProductIds(once), p.id) == |wishlist|;
    assert once[..|wishlist|] == wishlist;
  }

  // ----- addresses -----

  function AddressIds(addresses: seq<Address>): seq<string> {
    seq(|addresses|, i requires 0 <= i < |addresses| => addresses[i].id)
  }

  /** The address invariant: no two addresses are both the default. */
  ghost predicate AtMostOneDefault(addresses: seq<Address>) {
    forall i, j :: 0 <= i < j < |addresses| && addresses[i].isDefault ==> !addresses[j].isDefault
  }

  function ClearedDefaults(addresses: seq<Address>): seq<Address> {
    seq(|addresses|, i requires 0 <= i < |addresses| => addresses[i].(isDefault := false))
  }

  /** `addAddress`: a default newcomer first clears every existing default; then it is appended. */
  function AddressAdded(addresses: seq<Address>, a: Address): seq<Address> {
    (if a.isDefault then ClearedDefaults(addresses) else addresses) + [a]
  }

  /** `setDefaultAddressAction`: every address's flag becomes "its id is `id`". */
  function DefaultSet(addresses: seq<Address>, id: string): seq<Address> {
    seq(|addresses|, i requires 0 <= i < |addresses| => addresses[i].(isDefault := addresses[i].id == id))
  }

  /** `removeAddress`: keep, in order, the addresses whose id differs. */
  function AddressRemoved(addresses: seq<Address>, id: string): seq<Address> {
    if addresses == [] then []
    else
      var n := |addresses| - 1;
      AddressRemoved(addresses[..n], id) + (if addresses[n].id != id then [addresses[n]] else [])
  }

  /** `addAddress` always appends the new address at the end. A default
      newcomer is then the only default, the others otherwise unchanged; a
      non-default newcomer leaves every existing flag alone. At most one
      default is kept either way. */
  lemma AddAddressEffect(addresses: seq<Address>, a: Address)
    ensures var r := AddressAdded(addresses, a);
      && |r| == |addresses| + 1
      && r[|addresses|] == a
      && (a.isDefault ==>
            && (forall i :: 0 <= i < |addresses| ==> r[i] == addresses[i].(isDefault := false))
            && (forall i :: 0 <= i < |r| ==> (r[i].isDefault <==> i == |addresses|)))
      && (!a.isDefault ==> r[..|addresses|] == addresses)
      && (AtMostOneDefault(addresses) ==> AtMostOneDefault(r))
  {
  }

  /** After `setDefaultAddressAction(id)` an address is the default exactly
      when its id is `id`, so an unknown id leaves no default at all, and with
      distinct ids at most one address is the default. Nothing else about the
      addresses changes. */
  lemma SetDefaultEffect(addresses: seq<Address>, id: string)
    ensures var r := DefaultSet(addresses, id);
      && AddressIds(r) == AddressIds(addresses)
      && (forall i :: 0 <= i < |r| ==> r[i].(isDefault := false) == addresses[i].(isDefault := false))
      && (forall i :: 0 <= i < |r| ==> (r[i].isDefault <==> r[i].id == id))
      && (id !in AddressIds(addresses) ==> forall i :: 0 <= i < |r| ==> !r[i].isDefault)
      && (Distinct(AddressIds(addresses)) ==> AtMostOneDefault(r))
  {
    var r := DefaultSet(addresses, id);
    assert AddressIds(r) == AddressIds(addresses);
    forall i | 0 <= i < |r| && r[i].isDefault ensures id in AddressIds(addresses) {
      assert AddressIds(addresses)[i] == id;
    }
    if Distinct(AddressIds(addresses)) {
      forall i, j | 0 <= i < j < |r| && r[i].isDefault ensures !r[j].isDefault {
        assert AddressIds(addresses)[i] != AddressIds(addresses)[j];
      }
    }
  }

  ghost predicate NoDefault(addresses: seq<Address>) {
    forall i :: 0 <= i < |addresses| ==> !addresses[i].isDefault
  }

  /** Each of `kept` is one of `addresses`, flag included, and none has id `id`. */
  ghost predicate KeptFrom(kept: seq<Address>, addresses: seq<Address>, id: string) {
    forall j :: 0 <= j < |kept| ==> kept[j] in addresses && kept[j].id != id
  }

  /** `removeAddress` keeps exactly the old addresses with another id: every
      survivor is one of the old ones, flag included, none carries the
      removed id, and every old address with another id survives. */
  lemma {:induction false} RemoveAddressKeepsOldOnes(addresses: seq<Address>, id: string)
    ensures KeptFrom(AddressRemoved(addresses, id), addresses, id)
    ensures forall i :: 0 <= i < |addresses| && addresses[i].id != id ==> addresses[i] in AddressRemoved(addresses, id)
  {
    if addresses != [] {
      var n := |addresses| - 1;
      var pre := addresses[..n];
      RemoveAddressKeepsOldOnes(pre, id);
      var rp := AddressRemoved(pre, id);
      var r := AddressRemoved(addresses, id);
      forall j | 0 <= j < |r| ensures r[j] in addresses && r[j].id != id {
        if j < |rp| {
          assert r[j] == rp[j];
          assert rp[j] in pre;
        } else {
          assert r[j] == addresses[n];
        }
      }
      forall i | 0 <= i < |addresses| && addresses[i].id != id ensures addresses[i] in r {
        if i < n {
          assert pre[i] == addresses[i];
          var j :| 0 <= j < |rp| && rp[j] == addresses[i];
          assert r[j] == rp[j];
        } else {
          assert r[|r| - 1] == addresses[n];
        }
      }
    }
  }

  /** Removing an id no address carries changes nothing. */
  lemma {:induction false} RemoveAddressAbsent(addresses: seq<Address>, id: string)
    requires id !in AddressIds(addresses)
    ensures AddressRemoved(addresses, id) == addresses
  {
    if addresses != [] {
      var n := |addresses| - 1;
      assert AddressIds(addresses[..n]) == AddressIds(addresses)[..n];
      assert addresses[n].id == AddressIds(addresses)[n];
      RemoveAddressAbsent(addresses[..n], id);
      assert addresses == addresses[..n] + [addresses[n]];
    }
  }

  /** With distinct ids, removing the id of address `k` splices out exactly
      that address, the others keeping their order. */
  lemma {:induction false} RemoveAddressSplices(addresses: seq<Address>, id: string, k: nat)
    requires Distinct(AddressIds(addresses))
    requires k < |addresses| && addresses[k].id == id
    ensures AddressRemoved(addresses, id) == addresses[..k] + addresses[k + 1..]
  {
    var n := |addresses| - 1;
    var pre := addresses[..n];
    assert AddressIds(pre) == AddressIds(addresses)[..n];
    if k == n {
      forall j | 0 <= j < n ensures AddressIds(pre)[j] != id {
        assert AddressIds(addresses)[j] != AddressIds(addresses)[n];
      }
      RemoveAddressAbsent(pre, id);
    } else {
      assert addresses[n].id != id by {
        assert AddressIds(addresses)[k] != AddressIds(addresses)[n];
      }
      RemoveAddressSplices(pre, id, k);
      assert addresses[..k] + addresses[k + 1..] == pre[..k] + pre[k + 1..] + [addresses[n]];
    }
  }

  /** `removeAddress` keeps at most one default: it never sets a flag. */
  lemma {:induction false} RemoveAddressKeepsAtMostOneDefault(addresses: seq<Address>, id: string)
    requires AtMostOneDefault(addresses)
    ensures AtMostOneDefault(AddressRemoved(addresses, id))
  {
    if addresses != [] {
      var n := |addresses| - 1;
      var pre := addresses[..n];
      var rp := AddressRemoved(pre, id);
      RemoveAddressKeepsAtMostOneDefault(pre, id);
      if addresses[n].id != id && addresses[n].isDefault {
        RemoveAddressKeepsOldOnes(pre, id);
        forall i | 0 <= i < |rp| ensures !rp[i].isDefault {
          assert rp[i] in pre;
          var i' :| 0 <= i' < |pre| && pre[i'] == rp[i];
          assert addresses[i'] == rp[i];
        }
      }
    }
  }

  /** `removeAddress` drops the addresses with that id and keeps the rest:
      every survivor is one of the old addresses, flag included, and every
      old address with another id survives; with distinct ids the result is
      the old list with that one address spliced out, so the order is kept;
      an unknown id changes nothing; and no other address is promoted to
      default, so at most one default is kept. */
  lemma RemoveAddressEffect(addresses: seq<Address>, id: string)
    ensures var r := AddressRemoved(addresses, id);
      && id !in AddressIds(r)
      && (forall x :: x in r ==> x in addresses)
      && (forall i :: 0 <= i < |addresses| && addresses[i].id != id ==> addresses[i] in r)
      && (Distinct(AddressIds(addresses)) ==>
            forall k :: 0 <= k < |addresses| && addresses[k].id == id ==> r == addresses[..k] + addresses[k + 1..])
      && (id !in AddressIds(addresses) ==> r == addresses)
      && (AtMostOneDefault(addresses) ==> AtMostOneDefault(r))
  {
    var r := AddressRemoved(addresses, id);
    RemoveAddressKeepsOldOnes(addresses, id);
    if Distinct(AddressIds(addresses)) {
      forall k | 0 <= k < |addresses| && addresses[k].id == id
        ensures r == addresses[..k] + addresses[k + 1..]
      {
        RemoveAddressSplices(addresses, id, k);
      }
    }
    if id !in AddressIds(addresses) {
      RemoveAddressAbsent(addresses, id);
    }
    if AtMostOneDefault(addresses) {
      RemoveAddressKeepsAtMostOneDefault(addresses, id);
    }
    forall j | 0 <= j < |r| ensures AddressIds(r)[j] != id {
      assert AddressIds(r)[j] == r[j].id;
    }
    forall x | x in r ensures x in addresses {
      var j :| 0 <= j < |r| && r[j] == x;
    }
  }
}
