# UrbanAura storefront: a Dafny model of its page logic

The UrbanAura storefront is a small React shop. It sells iPhone cases and sunglasses and keeps all of its
state in the browser. It has no big algorithm. Its behaviour lives in small event handlers, and this
project lifts each one out of the page and models it:

- **Session** (`session.dfy`, from `src/contexts/AuthContext.tsx`). `AuthProvider` holds `user`,
  `isLoading` and the stored session record under `urbanaura_user`. `Login` signs in the fixed
  administrator, or signs in any non-empty email and password as a regular user. That user's display
  name is the email's text before the first `@`. `Register` always succeeds. `Logout` clears both the
  user and the stored record.
- **Catalog** (`catalog.dfy`). This is the product record, the six-product seed catalog and the
  `filter`-based views. The seed list appears word for word in `src/pages/Index.tsx` and
  `src/pages/Admin.tsx`, and is defined once here.
- **Home page** (`storefront.dfy`, from `src/pages/Index.tsx`). It loads the stored catalog, or seeds
  and stores one when none is found. It then filters by the selected category and counts each category.
- **Admin dashboard** (`admin.dfy`, from `src/pages/Admin.tsx`). A guarded page with its own copy of
  the catalog and a five-field form. Add, edit and delete either apply a whole change or none. In the
  source, this page starts from the seed list and never reads or writes storage, and the model keeps
  that.
- **Checkout** (`checkout.dfy`, from `src/pages/Checkout.tsx`). This covers the area-keyed delivery
  fee, three validation checks in a fixed order, and the mobile-money outcome. An order is appended to
  `urbanaura_orders` and the cart is cleared only after payment succeeds.
- **Product page** (`product_detail.dfy`, from `src/pages/ProductDetail.tsx`). It looks up
  `parseInt` of the route id in a fixed list and redirects home when nothing matches. It also holds
  the add-to-cart guard.
- **Product card** (`product_card.dfy`, from `src/components/ProductCard.tsx`). An id-keyed table of
  image URLs overrides the product's own image.
- **Order confirmation** (`order_success.dfy`, from `src/pages/OrderSuccess.tsx`). It builds the
  `UA` order number from the clock and the contact message that quotes it.
- **Shared helpers.** `text.dfy` holds the JavaScript built-ins the handlers rely on: `trim`,
  `split('@')[0]`, `parseInt` and integer `toString`. A product's price, which the admin
  form sets with `parseInt`, is `Num = Int(v) | NaN`: an exact integer or NaN. Ids, fees and order
  amounts are plain `int`, because nothing modelled can make them NaN (see "## Left out" for what
  exact integers do not capture). `wrappers.dfy` holds `Option`.

Outside inputs are parameters: the clock (`Date.now()`, the ISO date), the simulated payment result,
the signed-in user and the cart subtotal. Browser storage is a map field from key to the already
decoded record.

Two behaviours of the code are worth stating outright:
- the admin form checks only that the name, category, price and description fields are non-empty,
  and stores whatever `parseInt` gives, including negative numbers and NaN (`Admin.PriceNotChecked`; ".5" is accepted by the number
  input and parses to NaN);
- the admin page's catalog is never persisted.

## Model

| member | source | states |
|---|---|---|
| `Text.TrimEmptyIffBlank` | src/pages/Checkout.tsx:56 | `!s.trim()` holds exactly when every character of `s` is JavaScript whitespace |
| `Text.Before` | src/contexts/AuthContext.tsx:59 | `split(sep)[0]` is the prefix before the first separator and holds no separator; the whole string when there is none |
| `Text.ParseInt` | src/pages/ProductDetail.tsx:94 | `parseInt("")` is NaN |
| `Text.Trim` | src/pages/Checkout.tsx:56 | `trim()` never lengthens a string, and a non-empty result starts and ends with a character that is not whitespace |
| `Text.ToString` | src/pages/Admin.tsx:175 | `toString()` of an integer is never empty: the decimal digits, after a '-' for a negative integer; NaN's text does not start with a digit |
| `Text.ParseIntToString` | src/pages/Admin.tsx:175 | `parseInt(n.toString())` gives back `n` for every integer and for NaN |
| `Text.Decimal` | src/pages/OrderSuccess.tsx:9 | an integer's `toString` is a non-empty string of decimal digits without leading zeros |
| `Catalog.Filter` | src/pages/Index.tsx:88 | `filter` keeps exactly the accepted elements and never grows the list |
| `Catalog.FilterConcat` | src/pages/Index.tsx:88 | filtering distributes over concatenation, so kept products stay in their original relative order |
| `Catalog.FilterKeepsAll` | src/pages/Index.tsx:88 | a filter that accepts every element returns the list unchanged |
| `Catalog.DisjointFiltersFit` | src/pages/Index.tsx:90-91 | two filters that never accept the same element take at most the list's length between them |
| `Catalog.OfCategory` | src/pages/Index.tsx:90-91 | a product is in a category's list exactly when it is in the catalog with that category |
| `Catalog.WithoutId` | src/pages/Admin.tsx:164 | a product survives deletion exactly when it was in the list and has another id |
| `Catalog.CategoriesFit` | src/pages/Index.tsx:90-91 | the iPhone-case and sunglasses lists together are never longer than the catalog |
| `Catalog.Seed` | src/pages/Index.tsx:31-80 | the seed catalog has six products |
| `Catalog.SeedShape` | src/pages/Index.tsx:31-80 | the seed catalog has six products with ids 1 to 6, three cases followed by three sunglasses, each with a positive integer price |
| `Catalog.SeedCategories` | src/pages/Index.tsx:31-80 | the seed's case list is its first three products and its sunglasses list its last three |
| `Storefront.Visible` | src/pages/Index.tsx:86-88 | "all" shows the catalog unchanged; any other category shows exactly the products of that category |
| `Storefront.VisibleKeepsOrder` | src/pages/Index.tsx:86-88 | the filtered list keeps the catalog's order |
| `Storefront.VisibleSeed` | src/pages/Index.tsx:86-91 | on the seed catalog each category shows three products and "all" shows six |
| `Storefront.StorefrontPage.constructor` | src/pages/Index.tsx:21-22 | the page starts with no products and the "all" filter |
| `Storefront.StorefrontPage.LoadCatalog` | src/pages/Index.tsx:24-84 | a stored catalog is shown as stored; otherwise the seed is shown and written under `urbanaura_products`; other keys are untouched |
| `Storefront.StorefrontPage.SelectCategory` | src/pages/Index.tsx:174-188 | a category button selects its category |
| `Storefront.StorefrontPage.CategoryCounts` | src/pages/Index.tsx:90-91 | the button counts are the category list lengths and never add up to more than the catalog |
| `Session.DisplayName` | src/contexts/AuthContext.tsx:59 | a regular user's name is the email's text before the first '@', or the whole email without one |
| `Session.Authenticate` | src/contexts/AuthContext.tsx:45-67 | login fails exactly when email or password is empty; it yields the administrator exactly for the fixed pair, and otherwise user 2 named by the email's local part |
| `Session.AdminEmailWrongPassword` | src/contexts/AuthContext.tsx:46-62 | the administrator's email with another non-empty password signs in a regular user named "admin" |
| `Session.AuthProvider.constructor` | src/contexts/AuthContext.tsx:30-31 | the provider starts with no user and loading |
| `Session.AuthProvider.Restore` | src/contexts/AuthContext.tsx:33-40 | a stored session becomes the user, no session keeps the user; loading ends either way |
| `Session.AuthProvider.Login` | src/contexts/AuthContext.tsx:42-71 | success exactly for non-empty credentials; then the user is stored under the session key; failure changes neither user nor storage; loading is false on return |
| `Session.AuthProvider.Register` | src/contexts/AuthContext.tsx:73-89 | always succeeds and stores a non-admin user with the given name, email and the clock as id; loading is false on return |
| `Session.AuthProvider.Logout` | src/contexts/AuthContext.tsx:91-94 | the user becomes null and the session key is removed from storage |
| `Session.SessionSurvivesReload` | src/contexts/AuthContext.tsx:33-65 | after a successful login, a fresh provider restoring from the same storage gets the same user |
| `Admin.Complete` | src/pages/Admin.tsx:109 | an accepted form has the name, category, price and description filled in |
| `Admin.ImageOptional` | src/pages/Admin.tsx:109 | the image field never decides whether a form is accepted, and the empty form is never accepted |
| `Admin.IsAdmin` | src/pages/Admin.tsx:40 | a signed-out visitor is never an administrator, and an administrator is a user flagged `isAdmin` |
| `Admin.OnlyAdminCredentialsOpenDashboard` | src/contexts/AuthContext.tsx:46-52 | the signed-in user passes the dashboard guard exactly when the fixed administrator email and password were used |
| `Admin.NewProduct` | src/pages/Admin.tsx:118-125 | the added product has the clock reading as id, `parseInt` of the price field as price, the form's text fields, and never an empty image: the form's image, or the placeholder URL when the image field is empty |
| `Admin.Edited` | src/pages/Admin.tsx:149 | an edit keeps the id, takes `parseInt` of the price field and the form's text fields, and keeps the old image exactly when the image field is empty |
| `Admin.FormOf` | src/pages/Admin.tsx:171-177 | the form `startEdit` fills in has a non-empty price that `parseInt` reads back as the product's price; it is accepted exactly when the product's name, category and description are non-empty |
| `Admin.EditById` | src/pages/Admin.tsx:147-151 | the edited list has the same length, and each product is edited exactly when its id is the edited id |
| `Admin.EditKeepsShape` | src/pages/Admin.tsx:147-151 | an edit keeps length, order and ids, changes only products with the edited id, and leaves all others as they were |
| `Admin.EditKeepsImages` | src/pages/Admin.tsx:149 | an edit with an empty image field keeps every product's previous image |
| `Admin.EditUnchangedForm` | src/pages/Admin.tsx:171-177 | saving the form that `startEdit` filled in, unchanged, gives back the same product |
| `Admin.EditUnchangedCatalog` | src/pages/Admin.tsx:147-151 | opening a product and saving it unchanged leaves the catalog as it was, when no other product shares its id |
| `Admin.PriceNotChecked` | src/pages/Admin.tsx:109-122 | a form with price "-5" or ".5" (both accepted by the number input) passes the check and stores -5 or NaN |
| `Admin.DeleteUndoesAdd` | src/pages/Admin.tsx:163-164 | deleting the id that an add has just used restores the earlier list |
| `Admin.DeleteAbsentId` | src/pages/Admin.tsx:164 | deleting an id that no product has changes nothing |
| `Admin.DeleteKeepsOrder` | src/pages/Admin.tsx:164 | delete keeps the remaining products in their original order, and a second delete changes nothing |
| `Admin.AdminPanel.constructor` | src/pages/Admin.tsx:27-37 | the page starts with no products, closed dialogs and an empty form |
| `Admin.AdminPanel.Mount` | src/pages/Admin.tsx:39-97 | a visitor who is not an administrator is redirected to "/" and nothing is loaded; an administrator gets the seed catalog |
| `Admin.AdminPanel.ResetForm` | src/pages/Admin.tsx:99-106 | all five fields become empty and nothing is being edited |
| `Admin.AdminPanel.AddProduct` | src/pages/Admin.tsx:108-135 | with a required field empty, nothing changes; otherwise exactly one product is appended (id = clock, price = `parseInt`, placeholder image when empty), the form is reset and the add dialog closed |
| `Admin.AdminPanel.EditProduct` | src/pages/Admin.tsx:137-161 | with no product being edited or a required field empty, nothing changes; otherwise the list is rewritten by id, the form is reset and the edit dialog closed |
| `Admin.AdminPanel.DeleteProduct` | src/pages/Admin.tsx:163-169 | the list becomes the old list without the given id |
| `Admin.AdminPanel.StartEdit` | src/pages/Admin.tsx:171-179 | the product is being edited, the form holds its fields with the price as text, and the edit dialog is open |
| `Admin.AdminPanel.Stats` | src/pages/Admin.tsx:201-222 | the cards show the catalog size and the two category counts, which never exceed it |
| `Admin.EditRoundTrip` | src/pages/Admin.tsx:137-179 | `startEdit` followed by an unchanged save succeeds and leaves the catalog unchanged |
| `Checkout.DeliveryFee` | src/pages/Checkout.tsx:27-36 | 200 with no area, the table fee for each of the six areas, 350 for any other area |
| `Checkout.Validate` | src/pages/Checkout.tsx:56-81 | a blank address is reported first, then an empty area, then a blank phone only for "mpesa"; no error exactly when all three pass |
| `Checkout.BlankAddressFirst` | src/pages/Checkout.tsx:56-63 | an address of whitespace only is rejected whatever the other fields hold |
| `Checkout.PhoneOnlyForMpesa` | src/pages/Checkout.tsx:74-81 | the phone number is never required for payment methods other than "mpesa" |
| `Checkout.NewOrder` | src/pages/Checkout.tsx:104-117 | total = subtotal + delivery fee, status "Processing", the phone kept only for "mpesa"; items, customer, id, address, area, payment method and date carried over |
| `Checkout.CheckoutPage.constructor` | src/pages/Checkout.tsx:20-24 | the page starts with "mpesa", empty fields and not processing |
| `Checkout.CheckoutPage.Enter` | src/pages/Checkout.tsx:183-245 | the form's change handlers set the four fields |
| `Checkout.CheckoutPage.Render` | src/pages/Checkout.tsx:141-144 | an empty cart redirects to "/cart", and only an empty cart does |
| `Checkout.CheckoutPage.PlaceOrder` | src/pages/Checkout.tsx:55-139 | the outcome is `Invalid` exactly when a check fails, and `Placed` exactly when every check passes and the payment is not a failed mpesa prompt; a failed check changes nothing; a failed mpesa payment writes no order, keeps the cart and ends not processing; success appends exactly one order after the stored ones, clears the cart and ends not processing |
| `Checkout.PlacedOrderAppends` | src/pages/Checkout.tsx:119-120 | the stored list after placing is the old list with the new order added at the end |
| `ProductDetail.FirstWithId` | src/pages/ProductDetail.tsx:94 | `find` returns the first product whose id equals the parsed id, or nothing when no id matches |
| `ProductDetail.Lookup` | src/pages/ProductDetail.tsx:94 | a found product is in the list and has the parsed id; nothing is found exactly when no product has that id |
| `ProductDetail.LookupNotANumber` | src/pages/ProductDetail.tsx:94 | a missing, empty or non-numeric route parameter finds no product |
| `ProductDetail.ProductsShape` | src/pages/ProductDetail.tsx:31-92 | the fixed list has ids 1 to 6 in order, all in stock |
| `ProductDetail.LookupFixedIds` | src/pages/ProductDetail.tsx:31-96 | every id 1 to 6 is found at its own position, and that product is in stock |
| `ProductDetail.LookupRoute` | src/pages/ProductDetail.tsx:94-96 | the route parameter "n" for n from 1 to 6 shows product n |
| `ProductDetail.ProductDetailPage.constructor` | src/pages/ProductDetail.tsx:26-27 | the page starts with no product and not loading |
| `ProductDetail.ProductDetailPage.Load` | src/pages/ProductDetail.tsx:29-100 | a match becomes the product; no match redirects to "/" and leaves the product as it was |
| `ProductDetail.ProductDetailPage.CanAddToCart` | src/pages/ProductDetail.tsx:216-218 | the button is enabled only for a loaded product that is in stock, and never while an add is under way |
| `ProductDetail.ProductDetailPage.AddToCart` | src/pages/ProductDetail.tsx:102-121 | with no product nothing happens; otherwise the product goes to the cart once and loading ends false |
| `ProductCard.ProductImage` | src/components/ProductCard.tsx:28-38 | ids 1 to 6 get their table URL, whatever the product's image; any other id gets the product's own image |
| `ProductCard.ProductImageDependsOnIdAndImage` | src/components/ProductCard.tsx:28-38 | products with the same id and image get the same card image |
| `ProductCard.TableMatchesSeed` | src/components/ProductCard.tsx:29-37 | each table URL is the seed image with the same id, so the override is a no-op on seeded products |
| `OrderSuccess.Slice` | src/pages/OrderSuccess.tsx:9 | `slice(-k)` is the last k characters, or the whole string when it is shorter |
| `OrderSuccess.OrderNumber` | src/pages/OrderSuccess.tsx:9 | starts with "UA", followed by the last min(6, digit count) digits of the clock reading, all decimal digits |
| `OrderSuccess.LastDigits` | src/pages/OrderSuccess.tsx:9 | the last k digits of a numeral spell the number modulo 10^k |
| `OrderSuccess.OrderNumberEncodesClock` | src/pages/OrderSuccess.tsx:9 | the digits after "UA" spell the clock reading modulo one million |
| `OrderSuccess.ContactMessage` | src/pages/OrderSuccess.tsx:12 | the contact message quotes the order number right after its fixed opening |

## Left out

- Rendering, styling, dialogs' open triggers, `toast` notifications and routing. Navigation is a
  returned redirect target, except in `Checkout.CheckoutPage.PlaceOrder`. That method returns an
  `Outcome`, and its `Placed` outcome stands for the `navigate("/order-success")` that follows a placed
  order.
- `localStorage` with `JSON.parse`/`JSON.stringify`. Storage is a map of already-decoded records, so
  malformed records, and the exception `JSON.parse` would raise inside the checkout's `try`, are not
  modelled.
- `simulateMpesaPrompt`, which uses `Math.random` and a 3-second `setTimeout`. Its outcome is the
  `paymentSucceeds` parameter, and the asynchronous suspension is not modelled.
- `Date.now()` and `new Date().toISOString()` are parameters. The order-number clock is a natural
  number.
- `parseInt` is modelled in base 10 only. The `0x` hexadecimal prefix is not modelled.
- `Number#toString` is modelled only for integers in plain decimal form. The exponent form at 1e21
  and above is not modelled. In the program, a price of 1e21 reopens in the edit form as "1e+21", and
  `parseInt("1e+21")` is 1. So the round trips below hold in the program only for prices below 1e21
  in magnitude:
- `Text.ParseIntToString` holds in the program only for integers below 1e21 in magnitude.
- `Admin.FormOf`: the price text reads back as the product's price only for prices below 1e21 in
  magnitude.
- `Admin.EditUnchangedForm` holds in the program only for prices below 1e21 in magnitude.
- `Admin.EditUnchangedCatalog` holds in the program only when the edited product's price is below 1e21
  in magnitude. Saving a 1e21 price unchanged stores 1.
- `Admin.EditRoundTrip` holds in the program only when the edited product's price is below 1e21 in
  magnitude.
- JavaScript numbers are IEEE-754 doubles, but the model's `Int` is an exact, unbounded integer.
  The model does not capture rounding above 2^53: `parseInt("9007199254740993")` is
  9007199254740992. It also leaves out `Infinity` for numerals of more than about 309 digits, and
  `-0`, as in `parseInt("-0")`. So `Admin.NewProduct` and `Admin.Edited` can hold prices that no
  JavaScript number represents, and the checkout total `getTotalPrice() + deliveryFee` is an exact
  sum, not a double sum.
- The cart context (`addToCart`, `clearCart`, `getTotalPrice`) is not part of this model. The
  subtotal is a parameter, `clearCart` empties the page's `items`, and `addToCart` is recorded in a
  list of calls.
- `toLocaleString`, `encodeURIComponent` and `window.open` in the WhatsApp links are locale and
  browser calls. Of those link builders, only the order confirmation's message text is modelled.
- `ProductCard`'s `handleAddToCart` loading flag is UI state and is not modelled. The product page's
  disabled-button rule is the predicate `ProductDetailPage.CanAddToCart`.
- Area values inherited from `Object.prototype` (such as "toString") are not modelled. The area
  select offers only the six table keys.
- `Checkout.CheckoutPage.PlaceOrder`: `getTotalPrice()` is taken once as `subtotal`. The source calls
  it twice, and the cart does not change between the two calls.
