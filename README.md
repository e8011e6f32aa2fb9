# neo-stash storefront: client-side shopping state in Dafny

This project models the browser-side state of the neo-stash storefront.

- **The state container.** There are three slices:
  - authentication: user, token and loading status;
  - UI: the toast;
  - shopping: cart lines, wishlist, saved addresses and order history.

  Every shopping mutation is written through to the browser's key-value
  storage (the "mirror").
- **Derived figures and decisions the pages compute from that state:**
  - the pricing rule shared by the bag page and the checkout;
  - the checkout's preselected address, the order record it builds and its
    three-step flow;
  - the navigation bar's badges and account label;
  - the route guard;
  - the catalogue's query parameters, price sort and paging;
  - the product page's quantity stepper and its add-to-bag loop.

Modules:

- `Types` (types.dfy): the record shapes (product, category, user, cart line, address, order).
- `Text` (text.dfy): `String.prototype.split` with one separator character, and the decimal text of a number.
- `CartSlice` (cart_slice.dfy): each shopping reducer as a function of the collection it rewrites, with its effect proved.
- `AppStore` (store.dfy): the `Store` class.
  - Each of its fields is one slice field, plus a `storage` map for the mirror.
  - Each reducer is one method that updates the fields in place.
  - Each method's contract gives the complete new state in terms of the old one, and says the method keeps the cart and wishlist invariant (`Valid`).
- `Pricing` (pricing.dfy): the subtotal, delivery and total rule. It is written once; the bag page and the checkout both use it.
- `CartPage` (cart_page.dfy): the bag page.
- `Checkout` (checkout.dfy): the checkout page, including its `CheckoutFlow` class.
- `Hooks` (hooks.dfy): the derived authentication flags, wishlist membership, and the forwarding cart actions.
- `Navbar` (navbar.dfy): the badges and the label.
- `AuthGuard` (auth_guard.dfy): the guard decision.
- `Home` (home.dfy): the catalogue's query, sort and the `Listing` class.
- `ProductDetail` (product_detail.dfy): the product page and its `DetailPage` class.

Inputs that come from outside the program are parameters:

- the clock (`Date.now()` and the ISO date);
- network responses, as `Outcome` / `Option` values;
- what `parseInt` makes of a typed price, as `Option<int>` where `None` is NaN;
- the collections read back from storage at start-up.

## Model

| member | source | states |
|---|---|---|
| `AppStore.Store.constructor` | store.ts:12-16 | Start-up state: no user, the token stored under `token`, idle, no toast, and the four collections read back from storage. It also sets `Valid` exactly when the stored cart and wishlist are well formed. |
| `AppStore.Store.SetAuth` | store.ts:27-32 | Replaces user and token and stores `token` and `refreshToken`; the status and everything else are unchanged. |
| `AppStore.Store.UpdateUserInState` | store.ts:33-35 | Replaces the user only. |
| `AppStore.Store.Logout` | store.ts:36-40 | Nulls user and token and empties the entire mirror; the in-memory cart, wishlist, addresses and orders stay. |
| `AppStore.Store.FetchProfilePending` | store.ts:44 | Status becomes loading; nothing else changes. |
| `AppStore.Store.FetchProfileFulfilled` | store.ts:45-48 | Status becomes idle and the user becomes the fetched profile. |
| `AppStore.Store.FetchProfileRejected` | store.ts:49-53 | Status becomes failed, and both user and token become null. |
| `AppStore.Store.ShowToast` | store.ts:66-68 | The toast becomes the given message and kind. |
| `AppStore.Store.HideToast` | store.ts:69-71 | The toast is reset to an empty message with no kind. |
| `AppStore.Store.AddToCart` | store.ts:94-102 | The cart becomes `AddedToCart` of the old cart, and the mirror's `cart` entry equals the new cart. The invariant is kept and nothing else changes. |
| `AppStore.Store.RemoveFromCart` | store.ts:103-106 | The cart becomes `RemovedFromCart` of the old cart (the filter), and the mirror's `cart` entry equals it. |
| `AppStore.Store.UpdateQuantity` | store.ts:107-113 | The cart becomes `QuantityUpdated` of the old cart. The mirror's `cart` entry is rewritten even when no line has that id. |
| `AppStore.Store.ClearCart` | store.ts:114-117 | The cart becomes empty and the `cart` mirror entry is removed; everything else is unchanged. |
| `AppStore.Store.ToggleWishlist` | store.ts:118-126 | The wishlist becomes `WishlistToggled` of the old one, and the mirror's `wishlist` entry equals it. |
| `AppStore.Store.AddAddress` | store.ts:127-133 | The addresses become `AddressAdded` (flags cleared when the newcomer is the default, then pushed), and the mirror's `addresses` entry equals them. |
| `AppStore.Store.RemoveAddress` | store.ts:134-137 | The addresses become `AddressRemoved` (the filter), and the mirror's `addresses` entry equals them. |
| `AppStore.Store.SetDefaultAddress` | store.ts:138-141 | Every flag is rewritten to "id equals the chosen one", and the mirror's `addresses` entry equals the result. |
| `AppStore.Store.PlaceOrder` | store.ts:142-147 | Orders become the new order followed by the old ones, so `orders[0]` is the new order. The cart empties, the `orders` entry is rewritten, the `cart` entry is removed, and the wishlist and addresses are unchanged. |
| `CartSlice.IndexOf` | store.ts:95 | The position `find`/`findIndex` stops at: the first match, or -1 exactly when there is none. |
| `CartSlice.AddToCartEffect` | store.ts:94-100 | For a product already in the cart: its line grows by one, the length and the other lines are unchanged. Otherwise one line of one unit is appended. Ids stay distinct and quantities stay ≥ 1. |
| `CartSlice.UpdateQuantityEffect` | store.ts:107-111 | Only the matching line changes, to `max(1, q + delta)`. No line is removed and ids are unchanged; an unknown id leaves the cart as it was. |
| `CartSlice.RemoveAbsent` | store.ts:104 | Removing an id that no line has changes nothing. |
| `CartSlice.RemoveSplices` | store.ts:104 | With distinct ids, removing line `k`'s id splices out exactly line `k`, keeping the rest in order. |
| `CartSlice.RemoveFromCartEffect` | store.ts:103-105 | No line with that id remains, the rest keep their order, an unknown id changes nothing, and the cart stays well formed. |
| `CartSlice.ToggleWishlistEffect` | store.ts:118-124 | The product's membership flips and every other id keeps its membership. An absent product is appended; a present one is spliced out of its position, the rest keeping their order. Ids stay distinct. |
| `CartSlice.ToggleTwiceRestores` | store.ts:118-124 | Toggling an absent product twice restores the wishlist. |
| `CartSlice.AddAddressEffect` | store.ts:127-131 | The new address is appended (length +1). If it is the default, it becomes the only default and the others lose their flag. Otherwise every existing address is unchanged. At most one default is preserved. |
| `CartSlice.SetDefaultEffect` | store.ts:138-139 | Afterwards an address is the default exactly when its id is the chosen one, so an unknown id leaves no default. Only the flags change; with distinct ids at most one default remains. |
| `CartSlice.RemoveAddressKeepsOldOnes` | store.ts:135 | Every surviving address is an old one, flag included, and none has the removed id; every address with another id survives. |
| `CartSlice.RemoveAddressSplices` | store.ts:135 | With distinct ids, removing the id at position `k` leaves the addresses before `k` followed by those after it. |
| `CartSlice.RemoveAddressAbsent` | store.ts:135 | Removing an unknown id changes nothing. |
| `CartSlice.RemoveAddressKeepsAtMostOneDefault` | store.ts:135 | The filter never creates a second default. |
| `CartSlice.RemoveAddressEffect` | store.ts:134-136 | The removed id is gone and every other address survives; with distinct ids the result is the list with that one entry spliced out, in order. An unknown id changes nothing, and no other address is promoted to default. |
| `Pricing.ReduceIsSubtotal` | pages/Cart.tsx:11 | The `reduce` fold equals its seed plus Σ price × quantity. |
| `Pricing.PriceCart` | pages/Checkout.tsx:16-18 | Subtotal is Σ price × quantity. Delivery is 0 exactly when the subtotal exceeds 500, and 40 otherwise. Total is their sum and never below the subtotal. |
| `Pricing.DeliveryThreshold` | pages/Cart.tsx:12 | The threshold is strict: 500 pays 40 and 501 pays nothing. |
| `Pricing.SubtotalNonNegative` | pages/Cart.tsx:11 | Without negative quantities the subtotal is never negative. |
| `CartPage.Render` | pages/Cart.tsx:15-22 | The empty-state panel shows exactly for an empty cart. Otherwise there is one row per line, each row showing that line's product id, quantity and line amount, and the summary is the shared pricing. |
| `CartPage.RowsAddUpToSubtotal` | pages/Cart.tsx:65 | Each row shows price × quantity, and the rows add up to the summary's subtotal. |
| `CartPage.PressMinus` | pages/Cart.tsx:57 | Dispatches `updateQuantity` with −1 for that line. |
| `CartPage.PressPlus` | pages/Cart.tsx:61 | Dispatches `updateQuantity` with +1 for that line. |
| `CartPage.PressTrash` | pages/Cart.tsx:43 | Dispatches `removeFromCart` for that line's id. |
| `Checkout.InitialAddress` | pages/Checkout.tsx:13 | The preselected id is empty or one of the saved ids. |
| `Checkout.DefaultAddressPreselected` | pages/Checkout.tsx:13 | The first address flagged default, when its id is non-empty, is the one preselected. |
| `Checkout.FallbackAddressPreselected` | pages/Checkout.tsx:13 | With no default, or only defaults with empty ids, the first address is preselected. With no addresses, nothing is. |
| `Checkout.OrderIdShownInHistory` | pages/Orders.tsx:47 | `ORD-<timestamp>` split on `-` gives `["ORD", timestamp]`, so index 1 is the timestamp's text. |
| `Checkout.OrderIdsDistinct` | pages/Checkout.tsx:27 | Two order ids are equal exactly when their timestamps are. |
| `Checkout.NewOrder` | pages/Checkout.tsx:26-33 | The order copies the cart and is processing, for the selected address. It is charged subtotal plus delivery: exactly the subtotal above 500, otherwise 40 more. |
| `Checkout.OrderChargesBagTotal` | pages/Cart.tsx:11-13 | The order is charged the same total the bag page shows for the same cart. |
| `Checkout.ScreenCases` | pages/Checkout.tsx:20-23 | The form shows only for a non-empty cart. An empty cart before confirmation redirects home, and the confirmation survives the cart the order just emptied. |
| `Checkout.CheckoutFlow.constructor` | pages/Checkout.tsx:13-14 | The page opens at the address step with the preselected address. |
| `Checkout.CheckoutFlow.ChooseAddress` | pages/Checkout.tsx:84 | A radio button selects its address; the step is unchanged. |
| `Checkout.CheckoutFlow.Next` | pages/Checkout.tsx:99-101 | Moves from the address step to the summary step only when an address is selected. |
| `Checkout.CheckoutFlow.Back` | pages/Checkout.tsx:126 | Moves from the summary step back to the address step. |
| `Checkout.CheckoutFlow.PlaceOrder` | pages/Checkout.tsx:25-37 | Hands `NewOrder` of the current cart and selection to the store, so the orders gain it in front and the cart empties. Then it moves to the confirmation and raises the success toast. |
| `Hooks.AuthFlagsFollowReducers` | hooks.ts:16-17 | After signing in, authenticated exactly when the access token is non-empty. After logout or a rejected profile fetch, not authenticated and no usable token. A pending fetch means loading, a fetched profile ends it and leaves authentication to whether a token was held. |
| `Hooks.InWishlistIffFound` | hooks.ts:48 | `wishlist.some` by id agrees with the reducer's search and with id membership. |
| `Hooks.ToggleFlipsHeart` | hooks.ts:45-48 | Toggling flips the membership test for that product. |
| `Hooks.AddItem` | hooks.ts:42-44 | Exactly the `addToCart` reducer applied to the product. |
| `Hooks.ToggleFav` | hooks.ts:45-47 | Exactly the `toggleWishlist` reducer applied to the product. |
| `Navbar.ReduceIsTotalUnits` | components/Navbar.tsx:21 | The quantity fold equals its seed plus the total of the quantities. |
| `Navbar.CartCount` | components/Navbar.tsx:21 | The cart badge shows the sum of all line quantities. |
| `Navbar.CartBadgeIffNonEmpty` | components/Navbar.tsx:53-55 | With every quantity ≥ 1 the count is at least the number of lines, so the badge shows exactly for a non-empty cart. |
| `Navbar.WishlistBadge` | components/Navbar.tsx:44-46 | The wishlist badge shows exactly for a non-empty wishlist, with its length. |
| `Navbar.UserLabelIsFirstWord` | components/Navbar.tsx:70 | ENTRY without a user. Otherwise a space-free prefix of the name that ends at the first space, or the whole name when it has no space. |
| `AuthGuard.GuardAfterReducers` | components/AuthGuard.tsx:10-22 | A pending profile fetch shows the spinner. A rejected fetch redirects to the login page, as does logout unless a fetch is pending. Signing in with a non-empty token renders the page, and a fetched profile renders it exactly when a token was held. |
| `AuthGuard.GuardDecision` | components/AuthGuard.tsx:10-22 | Loading always shows the spinner. Otherwise redirect exactly when there is no usable token; a token without a user renders the page, and so does being authenticated. |
| `Home.ParamsFor` | pages/Home.tsx:29-37 | Offset and limit 12 always. Each of category, title, minimum and maximum is sent exactly when its filter is active, with the filter's value. |
| `Home.BuildParams` | pages/Home.tsx:29-37 | Filling the parameters one conditional assignment at a time gives exactly `ParamsFor`. |
| `Home.MinFromInput` | pages/Home.tsx:136 | A price that does not parse becomes 0; any other is kept. |
| `Home.MaxFromInput` | pages/Home.tsx:145 | A price that does not parse becomes 1000, and so does a typed 0; the maximum is never 0. |
| `Home.Insert` | pages/Home.tsx:66-70 | Inserting into a sorted list keeps it sorted and adds exactly that element. |
| `Home.SortedProducts` | pages/Home.tsx:66-70 | The sorted copy is ordered by the comparator and is a permutation of the products. |
| `Home.SortOrders` | pages/Home.tsx:66-69 | low-high gives ascending prices and high-low descending ones; no sort keeps the fetched order. |
| `Home.HasMoreAfter` | pages/Home.tsx:42-48 | More pages exist exactly when an array of at least 12 products came back. A short page, a non-array body or a fetch error ends paging. |
| `Home.Merged` | pages/Home.tsx:45 | A clearing fetch replaces the list; otherwise the page is appended after the existing products. |
| `Home.Listing.constructor` | pages/Home.tsx:10-18 | The whole state at mount: all categories, no query, prices 0 to 1000, no sort, no products, offset 0, more pages assumed, the first load pending and no load-more spinner. |
| `Home.Listing.FetchProducts` | pages/Home.tsx:24-39 | The request is `ParamsFor` the current filters at the given offset. A clearing fetch raises `loading`, an appending one `loadingMore`; every other field is unchanged. |
| `Home.Listing.ReceiveProducts` | pages/Home.tsx:40-52 | `hasMore` becomes `HasMoreAfter` of the outcome, an array of products is merged, and both spinners go down; filters, sort and offset are unchanged. |
| `Home.Listing.RefetchOnFilterChange` | pages/Home.tsx:55-58 | The offset becomes 0 and the request is `ParamsFor` the current filters at offset 0. `loading` goes up; everything else, `loadingMore` and `hasMore` included, is unchanged. |
| `Home.Listing.LoadMore` | pages/Home.tsx:60-64 | The offset grows by exactly 12 and the request is `ParamsFor` the current filters at the new offset. `loadingMore` goes up; everything else is unchanged. |
| `Home.Listing.SelectCategory` | pages/Home.tsx:108-116 | The selected category becomes the choice; every other filter and field is unchanged. |
| `Home.Listing.SetSearch` | pages/Home.tsx:9 | The query becomes the new text; every other filter and field is unchanged. |
| `Home.Listing.EditMin` | pages/Home.tsx:136 | The minimum becomes `MinFromInput` of the input; every other filter and field is unchanged. |
| `Home.Listing.EditMax` | pages/Home.tsx:145 | The maximum becomes `MaxFromInput` of the input; every other filter and field is unchanged. |
| `Home.Listing.Slide` | pages/Home.tsx:156 | The maximum becomes the slider position; every other filter and field is unchanged. |
| `ProductDetail.Decremented` | pages/ProductDetail.tsx:117 | Minus never goes below 1, and takes one off any quantity of 2 or more. |
| `ProductDetail.Incremented` | pages/ProductDetail.tsx:121 | Plus raises the quantity. |
| `ProductDetail.StepperRoundTrips` | pages/ProductDetail.tsx:117-121 | Plus then minus restores any quantity. Minus then plus restores any quantity above 1. |
| `ProductDetail.CappedRelated` | pages/ProductDetail.tsx:32 | At most four related products, a prefix of the response, and all of them when there are four or fewer. |
| `ProductDetail.AddedTimesExisting` | pages/ProductDetail.tsx:58-60 | `n` dispatches for a product already in the bag grow its line by `n` and touch nothing else. |
| `ProductDetail.AddedTimesNew` | pages/ProductDetail.tsx:58-60 | `n ≥ 1` dispatches for a new product append one line holding `n` units. |
| `ProductDetail.IsFav` | pages/ProductDetail.tsx:55 | The heart is filled exactly when the product's id is in the wishlist. |
| `ProductDetail.DetailPage.constructor` | pages/ProductDetail.tsx:14-18 | The page mounts loading, with quantity 1 and the first image. |
| `ProductDetail.DetailPage.Decrement` | pages/ProductDetail.tsx:117 | The quantity becomes `max(1, q − 1)`. |
| `ProductDetail.DetailPage.Increment` | pages/ProductDetail.tsx:121 | The quantity grows by one. |
| `ProductDetail.DetailPage.SelectImage` | pages/ProductDetail.tsx:82 | A thumbnail makes its index the active image; product, related list, quantity and loading flag are unchanged. |
| `ProductDetail.DetailPage.Load` | pages/ProductDetail.tsx:20-40 | A loaded product shows its first image, and the related list is capped at four. A failed request keeps what was there, and the chosen quantity carries over. |
| `ProductDetail.DetailPage.AddToCart` | pages/ProductDetail.tsx:57-62 | The cart becomes the product added `quantity` times, and the mirror holds it. The toast announces the count. |
| `Text.Split` | pages/Orders.tsx:47 | At least one piece, none containing the separator; the first piece is a prefix of the string, followed there by the separator unless it is the whole string. |
| `Text.SplitAtFirstSeparator` | pages/Orders.tsx:47 | Splitting `a-b`, where `a` has no dash, gives `a` followed by the pieces of `b`. |
| `Text.DecimalTextInjective` | pages/Checkout.tsx:27 | Different timestamps have different decimal texts. |

## Left out

- The REST client (`api.ts`) is not part of this model. That covers its token refresh and retry on 401, and the `fetchProfile` network call itself. Only the three reducer cases are modelled, with the profile as a parameter.
- Hydration from storage is not modelled. That includes `localStorage.getItem('token')`, the JSON parsing and its `'[]'` fallback, and a throw on malformed text. The constructor takes the decoded collections instead, and the mirror stores values rather than JSON text.
- Redux wiring is not modelled: `configureStore`, the action objects and Immer drafts. Each reducer is a method on one object.
- The toast timer in `useToast` (hooks.ts:24-29) is left out because it is timing only. Only the set and clear reducers are modelled.
- `Date.now()` and `new Date().toISOString()` are parameters: the clock is outside the program.
- The struck-through "was" price `Math.floor(price * 1.2)` is left out because it is floating point.
- The catalogue's category request and its 8-entry cap are left out. So are the hero banner and the loading skeletons, which are rendering.
- The profile, login, orders and shared UI pages are rendering and forms, except that the order history's id display is modelled by `Checkout.OrderIdShownInHistory`. The address form adds non-default addresses only.
- Concurrent fetches are not modelled: a response arriving after the filters changed is treated as belonging to the latest request.
- `Home.Listing.ReceiveProducts`: a body that is not an array leaves the product list unchanged. In the page, such a body would be stored or spread, which breaks rendering.
- The page declares a sort option but has no control that changes it, so `Listing` keeps `NoSort` and shows the fetched order. The sort is modelled for every option all the same.
- `Home.SortOrders`: stability is proved only for no sort, where the fetched order is kept. For equal prices under a price sort, the relative order of products is not stated.
- `AppStore.Store.constructor`: whether the stored cart is well formed is reported through `Valid` rather than established. Every reducer keeps `Valid`, and every write to the mirror comes from a reducer.
- `Checkout.CheckoutFlow.PlaceOrder` requires the summary step and a non-empty cart, because the button exists only there and the page redirects an empty cart away (modelled by `Checkout.ScreenFor`).
- `ProductDetail.DetailPage.AddToCart` requires a loaded product, because the button is rendered only then.
