/** The records of the food-ordering application's relational store.
    Every table is a sequence of rows in storage order: a query without an
    ordering clause sees the rows in that order. Prices are whole numbers of
    the smallest currency unit. */
module Schema {

  datatype Option<+T> = None | Some(value: T)

  /** The cart status column. */
  datatype Status = Pending | Ordered | Completed | Cancelled

  /** Role names as the server code compares them. The schema's role enum has
      ADMIN, MANAGER and MEMBER; order creation also compares with "USER". */
  const Admin: string := "ADMIN"
  const Manager: string := "MANAGER"
  const Member: string := "MEMBER"
  const UserRole: string := "USER"

  datatype User = User(id: string, role: string, country: string, phoneNumber: Option<string>)

  datatype Restaurant = Restaurant(
    id: string, name: string, country: string, location: string,
    cuisine: string, rating: int, image: string, priceLevel: int)

  datatype Item = Item(
    id: string, restaurantId: string, name: string, description: string,
    price: int, image: Option<string>)

  datatype Cart = Cart(
    id: string, userId: string, restaurantId: string, status: Status,
    totalPrice: int, paymentMethod: Option<string>, createdAt: int, updatedAt: int)

  /** A cart line: `price` is the line subtotal, not the unit price. */
  datatype CartLine = CartLine(id: string, cartId: string, itemId: string, quantity: int, price: int)

  datatype Db = Db(
    users: seq<User>, restaurants: seq<Restaurant>, items: seq<Item>,
    carts: seq<Cart>, lines: seq<CartLine>)

  /** No line of `lines` has id `id`. */
  ghost predicate LineIdFresh(lines: seq<CartLine>, id: string)
    decreases |lines|
  {
    |lines| == 0 || (lines[0].id != id && LineIdFresh(lines[1..], id))
  }

  /** Cart-line ids are a primary key: no line's id occurs again after it. */
  ghost predicate UniqueLineIds(lines: seq<CartLine>)
    decreases |lines|
  {
    |lines| == 0 || (LineIdFresh(lines[1..], lines[0].id) && UniqueLineIds(lines[1..]))
  }
}
