/**
 * The records of the shopping-list document: products grouped into sections,
 * the main cart keyed by product id, and the legacy named carts.
 */
module Model {
  import opened Wrappers

  /** A catalog entry; `section` is the id of the section it is shown under. */
  datatype Product = Product(id: string, name: string, section: string, icon: string, image: string, created: string)

  /** A group of products; `order` (optional) is its display rank. */
  datatype Section = Section(id: string, name: string, order: Option<int>, collapse: Option<bool>)

  /** A product in a cart, with how many to buy and whether it has been picked. */
  datatype CartItem = CartItem(id: string, quantity: int, checked: bool)

  /** The main cart: at most one entry per product id. */
  datatype MainCart = MainCart(products: map<string, CartItem>)

  /** A legacy named cart, with its items in a list. */
  datatype Cart = Cart(id: Option<string>, name: Option<string>, products: seq<CartItem>)

  /** The whole persisted document. */
  datatype Document = Document(sections: seq<Section>, products: seq<Product>, mainCart: MainCart, carts: seq<Cart>)

  /** The body of `GET /api`; `mainCart` is absent when the server leaves it out. */
  datatype ApiResponse = ApiResponse(items: seq<Product>, sections: map<string, Section>, mainCart: Option<MainCart>)

  /** A response the client can load: it carries the main cart, as the response interface declares. */
  predicate Loadable(response: ApiResponse) {
    response.mainCart.Some?
  }

  function ProductId(p: Product): string { p.id }
  function SectionId(s: Section): string { s.id }
  function ItemId(c: CartItem): string { c.id }
  function CartId(c: Cart): Option<string> { c.id }

  /** Every cart entry is stored under its own id, as `products[item.id] = item` does. */
  ghost predicate WellKeyed(cart: map<string, CartItem>) {
    forall k :: k in cart ==> cart[k].id == k
  }

  /** Upserting an entry under its own id keeps the cart well keyed. */
  lemma UpsertKeepsKeys(cart: map<string, CartItem>, item: CartItem)
    requires WellKeyed(cart)
    ensures WellKeyed(cart[item.id := item])
  {
  }

  /** The ids of a list of cart entries. */
  function Ids(items: seq<CartItem>): (r: set<string>)
    ensures forall x :: x in items ==> x.id in r
    ensures forall k :: k in r ==> exists x :: x in items && x.id == k
  {
    set x | x in items :: x.id
  }

  /** `listing` holds exactly the entries of `cart` (`Object.values(cart)`). */
  ghost predicate ListsValues(listing: seq<CartItem>, cart: map<string, CartItem>) {
    forall x :: x in listing <==> x in cart.Values
  }

  /** Removing the ids of every listed entry empties a well-keyed cart. */
  lemma RemovingListedEmpties(listing: seq<CartItem>, cart: map<string, CartItem>)
    requires WellKeyed(cart) && ListsValues(listing, cart)
    ensures cart - Ids(listing) == map[]
  {
  }
}
