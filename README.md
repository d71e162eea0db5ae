# Digital Services Showcase: cart, checkout request and SEO builders in Dafny

This project models three pieces of the storefront's TypeScript code and proves
properties of them:

- **The client-side cart** (`lib/cart.ts`), module `Cart`. The cart is a list
  of `{product, quantity}` entries kept in one local-storage slot under the key
  `cosmic-cart`. The class `CartStore` holds that slot in the field `stored`
  (`None` when the key is absent) and records in `inBrowser` whether a `window`
  exists. Each operation reads the list, changes it and writes it back, as the
  source does. Each mutating method is specified by a pure function of the cart
  it read (`Added`, `Without`, `WithQuantity`). Lemmas about those functions
  prove three things: unique product ids stay unique, only the targeted entry
  changes, and the total and item count move by the expected amount. Prices
  are integer cents.
- **The checkout-session request** (`app/api/create-checkout-session/route.ts`),
  module `CheckoutSession`. This is the mapping from the posted items to the
  payment provider's line items, the `metadata.items` snapshot and the two
  redirect URLs. The provider call is a function parameter that returns the new
  session's id, or `None` when it throws. Any failure gives the fixed 500 reply.
- **The SEO and schema.org builders** (`lib/seo.ts`), module `Seo`. These are
  pure record builders. The `NEXT_PUBLIC_SITE_URL` environment variable is a
  parameter. When it is unset or empty, the base URL falls back to
  `https://digital-services-showcase.vercel.app`.

`Optional` holds the `Option` type and JavaScript truthiness for optional
strings (absent and `""` are both falsy, which decides `canonical`, `ogImage`,
`starting_price` and the site URL).

Two behaviours of the code are worth stating, because a cart is commonly
assumed to do otherwise:

- Checkout-session creation does not reject an empty cart with a 400. An
  empty list reaches the provider with no line items
  (`EmptyCartReachesProvider`), and the only error reply is 500.
- Cart quantities are not kept at 1 or more. `addToCart` does not check the
  sign of `quantity`, so the model keeps it an unrestricted integer.

Outside a browser, `addToCart`, `removeFromCart` and `clearCart` throw at the
write to local storage, and the model reports this as `thrown`.
`updateCartItemQuantity` reads an empty cart there, finds nothing and writes
nothing, so it never throws.

## Model

| member | source | states |
|---|---|---|
| Cart.Find | lib/cart.ts:16 | the index returned holds the id and no earlier entry does; `None` exactly when no entry holds the id |
| Cart.Without | lib/cart.ts:34 | the filtered cart holds exactly the entries of the old cart whose id differs, and is no longer than it |
| Cart.WithoutConcat | lib/cart.ts:34 | for every cart, unique ids or not, filtering a concatenation concatenates the filtered parts, so kept entries keep their order and multiplicity |
| Cart.WithoutSingle | lib/cart.ts:34 | a single entry is kept exactly when its id differs from the removed one |
| Cart.CartStore.GetCart | lib/cart.ts:7-12 | the empty cart on the server and when nothing is stored, otherwise the stored list |
| Cart.CartStore.GetCartTotal | lib/cart.ts:72-75 | 0 when the cart reads empty (on the server, with nothing stored, or after `clearCart`); otherwise the `reduce` of price × quantity, whose changes under each operation the `...Totals` lemmas state |
| Cart.CartStore.GetCartItemCount | lib/cart.ts:77-80 | 0 when the cart reads empty; otherwise the `reduce` of the quantities, whose changes under each operation the `...Totals` lemmas state |
| Cart.CartStore.AddToCart | lib/cart.ts:14-30 | default quantity 1; throws exactly outside a browser and then stores nothing; otherwise stores `Added` of the cart read; keeps ids unique; total rises by charged price × quantity and count by quantity |
| Cart.CartStore.RemoveFromCart | lib/cart.ts:32-42 | throws exactly outside a browser and then stores nothing; otherwise stores the cart read with the id's entries filtered out; keeps ids unique |
| Cart.CartStore.UpdateCartItemQuantity | lib/cart.ts:44-61 | an absent id leaves the slot untouched; a present id stores `WithQuantity` of the cart read; keeps ids unique |
| Cart.CartStore.ClearCart | lib/cart.ts:63-70 | throws exactly outside a browser; otherwise removes the key, after which the cart reads empty with total and count 0 |
| Cart.EmptyAndAppendTotals | lib/cart.ts:72-80 | total and count are 0 on the empty cart; appending an entry adds its price × quantity and its quantity |
| Cart.AddedShape | lib/cart.ts:16-22 | adding a present id keeps the length, keeps that entry's product, raises its quantity by exactly `quantity` and leaves every other entry alone; adding an absent id appends `{product, quantity}` at the end |
| Cart.AddedKeepsUnique | lib/cart.ts:16-22 | adding keeps product ids unique |
| Cart.AddedTotals | lib/cart.ts:16-22 | after adding, the total is the old total plus the unit price of the entry already present (else the product's own) times `quantity`, and the count is the old count plus `quantity` |
| Cart.WithoutAbsent | lib/cart.ts:34 | removing an id no entry has leaves the cart unchanged |
| Cart.WithoutPresent | lib/cart.ts:34 | with unique ids, removing a present id drops exactly its entry and keeps the others in their order |
| Cart.WithoutKeepsUnique | lib/cart.ts:34 | removing keeps product ids unique |
| Cart.WithoutTotals | lib/cart.ts:34 | removing an absent id changes neither total nor count, for any cart; with unique ids, removing a present entry lowers total and count by its share |
| Cart.NonPositiveQuantityRemoves | lib/cart.ts:48-50 | a quantity of 0 or less gives the same cart as removing the id, whether or not the id is present |
| Cart.PositiveQuantityShape | lib/cart.ts:46-53 | a positive quantity sets only the found entry's quantity, keeping its product and every other entry; an absent id changes nothing |
| Cart.WithQuantityKeepsUnique | lib/cart.ts:46-53 | updating a quantity keeps product ids unique |
| Cart.WithQuantityTotals | lib/cart.ts:51-53 | setting quantity q on a present entry moves the total by its price × (q − old quantity) and the count by q − old quantity |
| CheckoutSession.ProductImages | app/api/create-checkout-session/route.ts:18-20 | empty when the product has no first image URL; otherwise exactly that URL plus the 500×500 resize query |
| CheckoutSession.LineItems | app/api/create-checkout-session/route.ts:12-25 | one line item per cart item in the same order, with currency `usd`, the product's name, description and images, unit amount equal to the price in cents, and the item's quantity |
| CheckoutSession.Snapshot | app/api/create-checkout-session/route.ts:34-39 | one snapshot entry per cart item in the same order, carrying product id, name, quantity and price |
| CheckoutSession.BuildSessionRequest | app/api/create-checkout-session/route.ts:27-41 | card payments in payment mode; line items and snapshot as above; success URL is origin + `/checkout/success?session_id={CHECKOUT_SESSION_ID}`, cancel URL is origin + `/cart`, a missing origin printing as `null` |
| CheckoutSession.Post | app/api/create-checkout-session/route.ts:8-50 | status 500 with `Failed to create checkout session` exactly when the body cannot be read or the provider call throws; otherwise 200 with the provider's session id |
| CheckoutSession.SnapshotMatchesLineItems | app/api/create-checkout-session/route.ts:12-39 | at every position the snapshot and the line item agree on name, quantity and price |
| CheckoutSession.EmptyCartReachesProvider | app/api/create-checkout-session/route.ts:10-27 | an empty item list is not rejected: it builds a request with no line items and the reply depends only on the provider |
| CheckoutSession.SnapshotKeepsUnique | app/api/create-checkout-session/route.ts:34-39 | a cart with unique ids gives a snapshot with unique product ids |
| Seo.BaseUrl | lib/seo.ts:16 | never empty; the environment value when it is set and non-empty, else the fixed default URL |
| Seo.PageUrl | lib/seo.ts:25 | starts with the base URL; is the base URL without a canonical path, else the base followed by exactly that path |
| Seo.GenerateMetadata | lib/seo.ts:15-48 | title and description copied to page, Open Graph and Twitter; Open Graph URL and canonical link are the same page URL; no images without `ogImage`, else one 1200×630 image with alt = title whose URL is also the Twitter image; type defaults to `website` |
| Seo.PriceDigits | lib/seo.ts:65 | keeps exactly the digits, dots and commas of the input, and nothing else |
| Seo.GenerateServiceSchema | lib/seo.ts:50-70 | no offer without a starting price; otherwise the price filtered to digits, dots and commas in `USD`; provider URL is the base URL; URL is base + `/services/` + slug |
| Seo.GenerateCaseStudySchema | lib/seo.ts:72-98 | image present exactly when a featured image is, resized; dates copied; author without URL, publisher with the base URL; `@id` is base + `/case-studies/` + slug |
| Seo.GenerateOrganizationSchema | lib/seo.ts:100-119 | URL is the base URL; name, description, country, contact type and language are the fixed values |
| Seo.ListItems | lib/seo.ts:127-132 | one list item per crumb, in order, at position index + 1, with the crumb's name and the base URL followed by its path |
| Seo.GenerateBreadcrumbSchema | lib/seo.ts:121-134 | the breadcrumb list has one item per input, positions 1..n, each item URL base + the crumb's path |
| Seo.PriceDigitsIdempotent | lib/seo.ts:65 | filtering a filtered price changes nothing |
| Seo.PriceDigitsKeepsClean | lib/seo.ts:65 | a string made only of digits, dots and commas is returned unchanged |
| Seo.PriceDigitsConcat | lib/seo.ts:65 | the filter works character by character: filtering a concatenation concatenates the filtered parts |
| Seo.BreadcrumbPositionsConsecutive | lib/seo.ts:127-132 | the first position is 1 and each following one is one more than the one before |
| Seo.UrlsShareBase | lib/seo.ts:16-134 | every page URL the builders emit starts with the same base URL: the canonical and Open Graph URL, the service URL, the case-study `@id`, the organization URL and each breadcrumb item (image URLs are excluded) |

## Left out

- Local storage, `JSON.parse`/`JSON.stringify` and the `cartUpdated` window event are browser I/O. Storage is the field `stored`, serialisation is the identity, and the event is not modelled.
- Prices are JavaScript floating-point numbers in dollars (`Math.round(price * 100)`, the dollar `price` in the snapshot). The model uses integer cents throughout, so the rounding is the identity and the snapshot price is in cents.
- Quantities are JavaScript numbers (lib/cart.ts:14, lib/cart.ts:44, app/api/create-checkout-session/route.ts:24); the model makes them integers, so fractional quantities and `NaN` are not captured. With `NaN`, `quantity <= 0` is false, so `updateCartItemQuantity` would store `NaN` as the quantity.
- The `console.error` logging of the caught error in the checkout route is console output and is not modelled; only the 500 reply is.
- A posted body that parses but holds malformed items (no `product`, no `metadata`) makes `items.map` throw; the model has no untyped items, so this case is part of `body = None`.
- The `stripe.checkout.sessions.create` call, its payment-mode semantics and the session object are external; only the request handed to it and its success or failure are modelled.
- The `useCart` hook that the cart page and the navigation import is not part of this model.
- `app/api/process-order/route.ts` is not part of this model. It reads `metadata.cart`, while the session creator writes `metadata.items`, and it records a `Paid` order without checking the payment status.
- The React pages and components, `app/sitemap.ts` (clock and date parsing) and `app/robots.ts` (a constant record) are not part of this model.
- `generateMetadata` ignores `publishedTime`, `modifiedTime` and `author`; the model carries them in its input and ignores them the same way.
- The `'@type'` constants of the schema.org records (`Service`, `Offer`, `Article`, `Organization`, `WebPage`, `PostalAddress`, `ContactPoint`, `ListItem`, `BreadcrumbList`) are fixed by the record kind and are not stored as fields.
