/**
 * `/api/mainCart` (src/app/api/mainCart/route.ts): read the main cart, upsert
 * an entry (POST and PUT), or remove one (DELETE), after checking the id.
 */
module MainCartRoute {
  import opened Wrappers
  import opened Model
  import opened Store

  /** A parsed request body; `id` is absent when the client left it out. */
  datatype ItemBody = ItemBody(id: Option<string>, quantity: int, checked: bool)

  /** A reply: a stored or removed entry, the whole cart, or an error with its status. */
  datatype Reply = Entry(item: CartItem) | CartReply(mainCart: MainCart) | Failure(status: int, error: string)

  const BadRequest := 400
  const ServerError := 500
  const IdRequired := "Item ID is required"
  const AddFailed := "Failed to add item to cart"
  const UpdateFailed := "Failed to update item in cart"

  /** `!item.id` is false: the id is present and not empty. */
  predicate HasId(id: Option<string>) {
    id.Some? && id.value != ""
  }

  /** The entry a body describes, once its id is known. */
  function ItemOf(body: ItemBody): CartItem
    requires HasId(body.id)
  {
    CartItem(body.id.value, body.quantity, body.checked)
  }

  /**
   * The reply and the new cart for an upsert request; `body` is `None` when the
   * body cannot be parsed, which answers 500 with `failure`.
   */
  function Upsert(cart: MainCart, body: Option<ItemBody>, failure: string): (res: (Reply, MainCart))
    ensures body.None? ==> res == (Failure(ServerError, failure), cart)
    ensures body.Some? && !HasId(body.value.id) ==> res == (Failure(BadRequest, IdRequired), cart)
    ensures body.Some? && HasId(body.value.id) ==>
      var id := body.value.id.value;
      && res.0 == Entry(ItemOf(body.value))
      && id in res.1.products && res.1.products[id] == ItemOf(body.value)
      && (forall k :: k != id ==> (k in res.1.products <==> k in cart.products))
      && (forall k :: k != id && k in cart.products ==> res.1.products[k] == cart.products[k])
  {
    match body
    case None => (Failure(ServerError, failure), cart)
    case Some(b) =>
      if !HasId(b.id) then (Failure(BadRequest, IdRequired), cart)
      else
        var item := ItemOf(b);
        (Entry(item), MainCart(cart.products[item.id := item]))
  }

  /** The reply and the new cart for a removal request with query parameter `id`. */
  function Remove(cart: MainCart, id: Option<string>): (res: (Reply, MainCart))
    ensures !HasId(id) ==> res == (Failure(BadRequest, IdRequired), cart)
    ensures HasId(id) ==>
      && res.0 == Entry(CartItem(id.value, 0, false))
      && id.value !in res.1.products
      && (forall k :: k != id.value ==> (k in res.1.products <==> k in cart.products))
      && (forall k :: k != id.value && k in cart.products ==> res.1.products[k] == cart.products[k])
  {
    if !HasId(id) then (Failure(BadRequest, IdRequired), cart)
    else (Entry(CartItem(id.value, 0, false)), MainCart(cart.products - {id.value}))
  }

  /** PUT and POST change the cart identically and reply identically, except for the 500 message. */
  lemma PutIsPost(cart: MainCart, body: Option<ItemBody>)
    ensures Upsert(cart, body, UpdateFailed).1 == Upsert(cart, body, AddFailed).1
    ensures body.Some? ==> Upsert(cart, body, UpdateFailed).0 == Upsert(cart, body, AddFailed).0
  {
  }

  /** Upserting keeps a well-keyed cart well keyed. */
  lemma UpsertKeepsCartWellKeyed(cart: MainCart, body: Option<ItemBody>, failure: string)
    requires WellKeyed(cart.products)
    ensures WellKeyed(Upsert(cart, body, failure).1.products)
  {
  }

  /** Deleting right after upserting the same id leaves no entry under it. */
  lemma RemoveAfterUpsert(cart: MainCart, body: ItemBody)
    requires HasId(body.id)
    ensures var c := Upsert(cart, Some(body), AddFailed).1;
      Remove(c, body.id).1 == Remove(cart, body.id).1
  {
  }

  /** Answers with the current main cart and changes nothing. */
  method Get(store: DBHandler) returns (r: Reply)
    ensures r == CartReply(store.db.mainCart)
  {
    var cart := store.GetMainCart();
    r := CartReply(cart);
  }

  /** Shared by POST and PUT: validate the body, then store the entry and write the file. */
  method UpsertRequest(store: DBHandler, body: Option<ItemBody>, failure: string) returns (r: Reply)
    modifies store
    ensures (r, store.db.mainCart) == Upsert(old(store.db.mainCart), body, failure)
    ensures store.db == old(store.db).(mainCart := store.db.mainCart)
    ensures r.Failure? ==> store.persisted == old(store.persisted)
    ensures r.Entry? ==> store.persisted == store.db
  {
    if body.None? {
      return Failure(ServerError, failure);
    }
    if !HasId(body.value.id) {
      return Failure(BadRequest, IdRequired);
    }
    var stored := store.AddItemToCartPersisted(ItemOf(body.value));
    r := Entry(stored);
  }

  method Post(store: DBHandler, body: Option<ItemBody>) returns (r: Reply)
    modifies store
    ensures (r, store.db.mainCart) == Upsert(old(store.db.mainCart), body, AddFailed)
    ensures store.db == old(store.db).(mainCart := store.db.mainCart)
    ensures r.Failure? ==> store.persisted == old(store.persisted)
    ensures r.Entry? ==> store.persisted == store.db
  {
    r := UpsertRequest(store, body, AddFailed);
  }

  method Put(store: DBHandler, body: Option<ItemBody>) returns (r: Reply)
    modifies store
    ensures (r, store.db.mainCart) == Upsert(old(store.db.mainCart), body, UpdateFailed)
    ensures store.db == old(store.db).(mainCart := store.db.mainCart)
    ensures r.Failure? ==> store.persisted == old(store.persisted)
    ensures r.Entry? ==> store.persisted == store.db
  {
    r := UpsertRequest(store, body, UpdateFailed);
  }

  /** Removes the entry named by the `id` query parameter and echoes an emptied entry. */
  method Delete(store: DBHandler, id: Option<string>) returns (r: Reply)
    modifies store
    ensures (r, store.db.mainCart) == Remove(old(store.db.mainCart), id)
    ensures store.db == old(store.db).(mainCart := store.db.mainCart)
    ensures r.Failure? ==> store.persisted == old(store.persisted)
    ensures r.Entry? ==> store.persisted == store.db
  {
    if !HasId(id) {
      return Failure(BadRequest, IdRequired);
    }
    var removed := store.RemoveItemFromCartPersisted(CartItem(id.value, 0, false));
    r := Entry(removed);
  }
}
