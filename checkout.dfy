/**
 * The checkout-session endpoint of app/api/create-checkout-session/route.ts:
 * the mapping from the posted cart items to the payment provider's line items,
 * the metadata snapshot and the redirect URLs, and the catch-all error reply.
 * The provider itself is a parameter: a function from the request to the new
 * session's id, or `None` when the call throws.
 */
module CheckoutSession {
  import opened Optional
  import opened Cart

  const Currency: string := "usd"
  const ImageQuery: string := "?w=500&h=500&fit=crop&auto=format,compress"
  const SuccessPath: string := "/checkout/success?session_id={CHECKOUT_SESSION_ID}"
  const CancelPath: string := "/cart"
  const ErrorMessage: string := "Failed to create checkout session"

  datatype ProductData = ProductData(name: string, description: string, images: seq<string>)
  /** `unitAmount` is in minor units (cents). */
  datatype PriceData = PriceData(currency: string, productData: ProductData, unitAmount: int)
  datatype LineItem = LineItem(priceData: PriceData, quantity: int)

  /** One entry of the `metadata.items` snapshot; `price` is in cents. */
  datatype SnapshotItem = SnapshotItem(productId: string, productName: string, quantity: int, price: int)

  /** The argument handed to the provider's session-creation call. */
  datatype SessionRequest = SessionRequest(
    paymentMethodTypes: seq<string>,
    lineItems: seq<LineItem>,
    mode: string,
    successUrl: string,
    cancelUrl: string,
    metadataItems: seq<SnapshotItem>)

  datatype ResponseBody = SessionId(id: string) | Error(message: string)
  datatype Response = Response(status: int, body: ResponseBody)

  /** The product's image list for the provider: its first image, resized, when that has a URL. */
  function ProductImages(product: Product): (r: seq<string>)
    ensures |r| <= 1
    ensures r == [] <==> |product.images| == 0 || product.images[0] == ""
    ensures |r| == 1 ==> r[0] == product.images[0] + ImageQuery
  {
    if |product.images| > 0 && product.images[0] != "" then [product.images[0] + ImageQuery] else []
  }

  function LineItemFor(item: CartItem): LineItem
  {
    LineItem(
      PriceData(Currency, ProductData(item.product.name, item.product.description, ProductImages(item.product)), item.product.price),
      item.quantity)
  }

  /** `items.map(...)` building `line_items`: one per cart item, in order. */
  function LineItems(items: seq<CartItem>): (r: seq<LineItem>)
    ensures |r| == |items|
    ensures forall i :: 0 <= i < |r| ==>
      && r[i].quantity == items[i].quantity
      && r[i].priceData.currency == Currency
      && r[i].priceData.unitAmount == items[i].product.price
      && r[i].priceData.productData.name == items[i].product.name
      && r[i].priceData.productData.description == items[i].product.description
      && r[i].priceData.productData.images == ProductImages(items[i].product)
  {
    if |items| == 0 then [] else [LineItemFor(items[0])] + LineItems(items[1..])
  }

  function SnapshotFor(item: CartItem): SnapshotItem
  {
    SnapshotItem(item.product.id, item.product.name, item.quantity, item.product.price)
  }

  /** `items.map(...)` building the `metadata.items` snapshot: one per cart item, in order. */
  function Snapshot(items: seq<CartItem>): (r: seq<SnapshotItem>)
    ensures |r| == |items|
    ensures forall i :: 0 <= i < |r| ==>
      r[i] == SnapshotItem(items[i].product.id, items[i].product.name, items[i].quantity, items[i].product.price)
  {
    if |items| == 0 then [] else [SnapshotFor(items[0])] + Snapshot(items[1..])
  }

  /** The `origin` request header as the template literal prints it: a missing header reads `null`. */
  function OriginText(origin: Option<string>): string
  {
    match origin
    case None => "null"
    case Some(o) => o
  }

  /** The session-creation request built from the posted items and the request's origin header. */
  function BuildSessionRequest(items: seq<CartItem>, origin: Option<string>): (r: SessionRequest)
    ensures r.paymentMethodTypes == ["card"] && r.mode == "payment"
    ensures |r.lineItems| == |items| && |r.metadataItems| == |items|
    ensures r.lineItems == LineItems(items) && r.metadataItems == Snapshot(items)
    ensures r.successUrl == OriginText(origin) + SuccessPath
    ensures r.cancelUrl == OriginText(origin) + CancelPath
  {
    SessionRequest(["card"], LineItems(items), "payment",
      OriginText(origin) + SuccessPath, OriginText(origin) + CancelPath, Snapshot(items))
  }

  /**
   * `POST`. `body` is the `items` of the parsed request body, `None` when
   * parsing or mapping it throws; `createSession` is the provider call.
   */
  function Post(body: Option<seq<CartItem>>, origin: Option<string>, createSession: SessionRequest -> Option<string>): (r: Response)
    ensures r.status == 200 || r.status == 500
    ensures r.status == 500 <==> body.None? || createSession(BuildSessionRequest(body.value, origin)).None?
    ensures r.status == 500 ==> r.body == Error(ErrorMessage)
    ensures r.status == 200 ==> r.body == SessionId(createSession(BuildSessionRequest(body.value, origin)).value)
  {
    match body
    case None => Response(500, Error(ErrorMessage))
    case Some(items) =>
      match createSession(BuildSessionRequest(items, origin))
      case None => Response(500, Error(ErrorMessage))
      case Some(id) => Response(200, SessionId(id))
  }

  /** The snapshot and the line items describe the same items: same names, quantities and prices, position by position. */
  lemma SnapshotMatchesLineItems(items: seq<CartItem>, origin: Option<string>)
    ensures var r := BuildSessionRequest(items, origin);
      forall i :: 0 <= i < |r.lineItems| ==>
        && i < |r.metadataItems|
        && r.metadataItems[i].quantity == r.lineItems[i].quantity
        && r.metadataItems[i].productName == r.lineItems[i].priceData.productData.name
        && r.metadataItems[i].price == r.lineItems[i].priceData.unitAmount
  {
  }

  /** There is no empty-cart check: an empty item list reaches the provider with no line items. */
  lemma EmptyCartReachesProvider(origin: Option<string>, createSession: SessionRequest -> Option<string>)
    ensures BuildSessionRequest([], origin).lineItems == []
    ensures Post(Some([]), origin, createSession).status == 200 <==> createSession(BuildSessionRequest([], origin)).Some?
  {
  }

  /** A cart with unique product ids yields a snapshot with unique product ids. */
  lemma SnapshotKeepsUnique(items: seq<CartItem>)
    requires UniqueIds(items)
    ensures forall i, j :: 0 <= i < j < |items| ==> Snapshot(items)[i].productId != Snapshot(items)[j].productId
  {
  }
}
