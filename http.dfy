/** What a route handler receives and returns: the decoded access token,
    the JSON payloads it answers with, and the status code beside them. */
module Http {
  import opened Schema

  /** The claims the handlers read from a verified token: `data.id`,
      `phone` and `restaurantId`, each possibly absent. */
  datatype Claims = Claims(id: Option<string>, phone: Option<string>, restaurantId: Option<string>)

  /** The `access_token` header: absent or empty, present but failing
      verification (the decoder then yields null), or decoded. */
  datatype AccessToken = Missing | Invalid | Decoded(claims: Claims)

  /** JavaScript truthiness of an optional string: present and not empty. */
  predicate Present(v: Option<string>) {
    v.Some? && v.value != ""
  }

  /** `decoded?.data?.id` */
  function UserIdClaim(token: AccessToken): Option<string> {
    if token.Decoded? then token.claims.id else None
  }

  /** `decoded?.phone` */
  function PhoneClaim(token: AccessToken): Option<string> {
    if token.Decoded? then token.claims.phone else None
  }

  /** `decoded?.restaurantId` */
  function RestaurantClaim(token: AccessToken): Option<string> {
    if token.Decoded? then token.claims.restaurantId else None
  }

  /** An entry of the restaurant listing (`location` is sent as `address`,
      `priceLevel` as `pricelevel`). */
  datatype FormattedRestaurant = FormattedRestaurant(
    id: string, name: string, address: string, cuisine: string,
    rating: int, image: string, pricelevel: int)

  /** An entry of a restaurant's menu. */
  datatype MenuItem = MenuItem(
    id: string, name: string, description: string, price: int,
    restaurantName: string, imageUrl: Option<string>)

  /** An entry of a cart listing, keyed by the item's id; the order routes
      add the cart's id, the pending-cart route leaves it out. */
  datatype FormattedItem = FormattedItem(
    id: string, name: string, category: string, image: Option<string>,
    price: int, quantity: int, restaurentId: string, cartId: Option<string>)

  /** The message and error texts the core routes answer with. */
  datatype Msg =
    | AccessTokenRequired | InvalidAccessToken | UserIdNotInToken | PhoneNotInToken
    | RestaurantIdNotInToken | UserNotFound | UnauthorizedAccess
    | FieldsRequired | DifferentRestaurant | ItemNotFound | InvalidType
    | ItemAdded | QuantityUpdated | QuantityDecremented | ItemRemoved
    | CartNotFound | ClientNotFound | OrderPlaced | OrderCreated
    | OrderIdRequired | CartNotCancellable | OrderCancelled
    | CartIdRequired | PaymentMethodRequired | CustomerNotFound
    | CartNotCompleted | CartOfOtherCustomer | PaymentModified
    | RestaurantNotFound | NoItems
    | InternalServerError | InternalError | FetchRestaurantsFailed | FetchItemsFailed

  /** The text each message is sent as. */
  function Text(m: Msg): string {
    match m
    case AccessTokenRequired => "Access token is required"
    case InvalidAccessToken => "Invalid access token"
    case UserIdNotInToken => "User ID not found in token"
    case PhoneNotInToken => "Phone number not found in token"
    case RestaurantIdNotInToken => "Restaurant ID not found in token"
    case UserNotFound => "User not found"
    case UnauthorizedAccess => "Unauthorized access"
    case FieldsRequired => "Item ID and Restaurant ID and Type are required"
    case DifferentRestaurant => "Cart already exists for a different restaurant"
    case ItemNotFound => "Item not found"
    case InvalidType => "Invalid type. Use 'increment' or 'decrement' or 'delete."
    case ItemAdded => "Item added to cart"
    case QuantityUpdated => "Item quantity updated in cart"
    case QuantityDecremented => "Item quantity decremented in cart"
    case ItemRemoved => "Item removed from cart"
    case CartNotFound => "Cart not found"
    case ClientNotFound => "Client not found with the provided phone number"
    case OrderPlaced => "Order Placed Sucessfully."
    case OrderCreated => "Order Created Sucessfully."
    case OrderIdRequired => "Order ID is required"
    case CartNotCancellable => "Cart not found or already processed"
    case OrderCancelled => "Order cancelled successfully"
    case CartIdRequired => "Cart ID is required"
    case PaymentMethodRequired => "Payment method is required"
    case CustomerNotFound => "Customer not found"
    case CartNotCompleted => "Cart not found or not in COMPLETED status"
    case CartOfOtherCustomer => "Cart does not belong to the specified customer"
    case PaymentModified => "Payment modified successfully"
    case RestaurantNotFound => "Restaurant not found"
    case NoItems => "No items found for this restaurant"
    case InternalServerError => "Internal Server Error"
    case InternalError => "Internal server error"
    case FetchRestaurantsFailed => "Failed to fetch restaurants"
    case FetchItemsFailed => "Failed to fetch items"
  }

  /** A JSON body: `{ message }`, `{ error }` (some routes add
      `success: false`, not modelled), a listing, or the cancelled cart. */
  datatype Payload =
    | Message(message: Msg)
    | Error(error: Msg)
    | Restaurants(formatted: seq<FormattedRestaurant>)
    | Menu(menu: seq<MenuItem>)
    | CartItems(formattedItems: seq<FormattedItem>)
    | CancelledOrder(message: Msg, cart: Cart)

  datatype Response = Response(status: int, payload: Payload)

  /** The answer of a state-changing route together with the store after it. */
  datatype Outcome = Outcome(response: Response, db: Db)

  /** The result of a chain of request checks: the values they looked up, or
      the error response of the first check that failed. */
  datatype Guard<T> = Pass(value: T) | Reject(response: Response)

  function Ok(m: Msg): Response {
    Response(200, Message(m))
  }

  function Fail(status: int, m: Msg): Response {
    Response(status, Error(m))
  }
}
