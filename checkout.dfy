/** The checkout page: an address step, a summary step and a confirmation.
    The preselected address, the order it builds from the cart, the guard
    that sends an empty cart back to the catalogue, and the step changes its
    buttons make. */
module Checkout {
  import opened Types
  import opened Text
  import opened CartSlice
  import opened Pricing
  import opened AppStore
  import CartPage

  // ----- the preselected address -----

  function DefaultFlags(addresses: seq<Address>): seq<bool> {
    seq(|addresses|, i requires 0 <= i < |addresses| => addresses[i].isDefault)
  }

  /** `addresses.find(a => a.isDefault)?.id || addresses[0]?.id || ''`: the
      first default's id, unless that is missing or empty, then the first
      address's id, unless that is missing or empty, then no address. The
      choice is always empty or one of the saved ids. */
  function InitialAddress(addresses: seq<Address>): (id: string)
    ensures id == "" || id in AddressIds(addresses)
  {
    var k := IndexOf(DefaultFlags(addresses), true);
    if k >= 0 && addresses[k].id != "" then
      assert AddressIds(addresses)[k] == addresses[k].id;
      addresses[k].id
    else if |addresses| > 0 && addresses[0].id != "" then
      assert AddressIds(addresses)[0] == addresses[0].id;
      addresses[0].id
    else ""
  }

  /** The first default address is the one preselected, provided its id is
      not empty; under the address invariant that is the only default. */
  lemma DefaultAddressPreselected(addresses: seq<Address>, k: int)
    requires 0 <= k < |addresses| && addresses[k].isDefault && addresses[k].id != ""
    requires forall j :: 0 <= j < k ==> !addresses[j].isDefault
    ensures InitialAddress(addresses) == addresses[k].id
  {
    assert DefaultFlags(addresses)[k];
    forall j | 0 <= j < k ensures !DefaultFlags(addresses)[j] {
      assert !addresses[j].isDefault;
    }
    IndexOfFirst(DefaultFlags(addresses), true, k);
  }

  /** Without a default the first address is preselected; a default whose id
      is empty is passed over in the same way; no addresses, no choice. */
  lemma FallbackAddressPreselected(addresses: seq<Address>)
    ensures addresses == [] ==> InitialAddress(addresses) == ""
    ensures NoDefault(addresses) ==> InitialAddress(addresses) == (if addresses == [] then "" else addresses[0].id)
    ensures (forall i :: 0 <= i < |addresses| && addresses[i].isDefault ==> addresses[i].id == "")
      ==> InitialAddress(addresses) == (if addresses == [] then "" else addresses[0].id)
  {
    var k := IndexOf(DefaultFlags(addresses), true);
    if NoDefault(addresses) {
      forall j | 0 <= j < |addresses| ensures !DefaultFlags(addresses)[j] {
        assert !addresses[j].isDefault;
      }
      IndexOfFirst(DefaultFlags(addresses), true, |addresses|);
    }
    if k >= 0 {
      assert addresses[k].isDefault;
    }
  }

  // ----- the order -----

  /** `ORD-${Date.now()}`, with the clock reading passed in. */
  function OrderId(now: nat): string {
    "ORD-" + DecimalText(now)
  }

  /** The order history shows `id.split('-')[1]`, which is the timestamp's
      text: the prefix has no dash and neither has a number. */
  lemma OrderIdShownInHistory(now: nat)
    ensures Split(OrderId(now), '-') == ["ORD", DecimalText(now)]
    ensures Split(OrderId(now), '-')[1] == DecimalText(now)
  {
    var t := DecimalText(now);
    assert OrderId(now) == "ORD" + ['-'] + t;
    SplitAtFirstSeparator("ORD", '-', t);
    forall i | 0 <= i < |t| ensures t[i] != '-' {
    }
    SplitWithoutSeparator(t, '-');
  }

  /** Orders placed at different instants get different ids. */
  lemma OrderIdsDistinct(now1: nat, now2: nat)
    ensures OrderId(now1) == OrderId(now2) <==> now1 == now2
  {
    if OrderId(now1) == OrderId(now2) {
      OrderIdShownInHistory(now1);
      OrderIdShownInHistory(now2);
      DecimalTextInjective(now1, now2);
    }
  }

  /** The order `handlePlaceOrder` builds: a copy of the cart, charged the
      total the page shows (subtotal plus delivery), for the selected
      address, in processing. */
  function NewOrder(cart: seq<CartItem>, addressId: string, now: nat, isoDate: string): (o: Order)
    ensures o.id == OrderId(now) && o.date == isoDate
    ensures o.items == cart && o.addressId == addressId && o.status == Processing
    ensures o.total == Subtotal(cart) + Delivery(Subtotal(cart))
    ensures o.total == Subtotal(cart) || o.total == Subtotal(cart) + DeliveryFee
    ensures o.total == Subtotal(cart) <==> Subtotal(cart) > FreeDeliveryAbove
  {
    var q := PriceCart(cart);
    Order(OrderId(now), isoDate, cart, q.total, Processing, addressId)
  }

  /** The order is charged exactly the total the bag page showed for the
      same cart: both pages price a cart with the one rule. */
  lemma OrderChargesBagTotal(cart: seq<CartItem>, addressId: string, now: nat, isoDate: string)
    requires cart != []
    ensures CartPage.Render(cart).Bag?
    ensures NewOrder(cart, addressId, now, isoDate).total == CartPage.Render(cart).summary.total
  {
  }

  // ----- the page -----

  datatype Step = AddressStep | SummaryStep | SuccessStep

  datatype Screen = RedirectHome | Confirmation | Form(step: Step)

  /** What the page renders for a cart and a step. */
  function ScreenFor(cart: seq<CartItem>, step: Step): Screen {
    if |cart| == 0 && step != SuccessStep then RedirectHome
    else if step == SuccessStep then Confirmation
    else Form(step)
  }

  /** The form is shown only for a non-empty cart; an empty cart outside the
      confirmation goes home; the confirmation survives the cart being
      emptied by the order it confirms. */
  lemma ScreenCases(cart: seq<CartItem>, step: Step)
    ensures ScreenFor(cart, step).Form? <==> cart != [] && step != SuccessStep
    ensures ScreenFor(cart, step) == RedirectHome <==> cart == [] && step != SuccessStep
    ensures ScreenFor(cart, step) == Confirmation <==> step == SuccessStep
    ensures ScreenFor([], SuccessStep) == Confirmation
  {
  }

  /** The page's own state: the step and the selected address id. */
  class CheckoutFlow {
    var step: Step
    var selectedAddr: string

    /** The page opens at the address step with the preselected address. */
    constructor(addresses: seq<Address>)
      ensures step == AddressStep && selectedAddr == InitialAddress(addresses)
    {
      step := AddressStep;
      selectedAddr := InitialAddress(addresses);
    }

    /** A radio button selects its address. */
    method ChooseAddress(a: Address)
      modifies this
      ensures selectedAddr == a.id && step == old(step)
    {
      selectedAddr := a.id;
    }

    /** NEXT: enabled only at the address step with an address selected. */
    method Next()
      modifies this
      ensures step == (if old(step) == AddressStep && old(selectedAddr) != "" then SummaryStep else old(step))
      ensures selectedAddr == old(selectedAddr)
    {
      if step == AddressStep && selectedAddr != "" {
        step := SummaryStep;
      }
    }

    /** BACK: from the summary to the address step. */
    method Back()
      modifies this
      ensures step == (if old(step) == SummaryStep then AddressStep else old(step))
      ensures selectedAddr == old(selectedAddr)
    {
      if step == SummaryStep {
        step := AddressStep;
      }
    }

    /** CONFIRM & PLACE ORDER (shown only at the summary step of the form,
        which needs a non-empty cart): build the
        order, hand it to the store, move to the confirmation and raise the
        success toast. */
    method PlaceOrder(store: Store, now: nat, isoDate: string) returns (o: Order)
      requires step == SummaryStep && store.items != []
        modifies this, store
      ensures o == NewOrder(old(store.items), old(selectedAddr), now, isoDate)
      ensures step == SuccessStep && selectedAddr == old(selectedAddr)
      ensures old(store.Valid()) ==> store.Valid()
      ensures store.State() == old(store.State()).(
        items := [],
        orders := [o] + old(store.orders),
        toast := Toast("Deployment confirmed.", Some(SuccessToast)),
        storage := (old(store.storage)[OrdersKey := OrdersJson([o] + old(store.orders))]) - {CartKey})
    {
      o := NewOrder(store.items, selectedAddr, now, isoDate);
      store.PlaceOrder(o);
      step := SuccessStep;
      store.ShowToast("Deployment confirmed.", SuccessToast);
    }
  }
}
