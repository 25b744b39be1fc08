/**
 * The catalog page (src/app/products/page.tsx): products whose name matches
 * the search, in section order, each with the buttons that put it in the
 * main cart or change its quantity there.
 */
module CatalogPage {
  import opened Wrappers
  import opened Text
  import opened Model
  import opened Keyed
  import opened ProductOrder
  import opened Client
  import opened ClientStore

  /** The product's name includes the search text, ignoring case. */
  predicate NameMatches(p: Product, search: string) {
    Contains(Lower(p.name), Lower(search))
  }

  /** The products of `listing` (`Object.values(products)`) whose name matches, in order. */
  function FilterCatalog(listing: seq<Product>, search: string): (r: seq<Product>)
    ensures forall p :: p in r <==> p in listing && NameMatches(p, search)
  {
    Filter((p: Product) => NameMatches(p, search), listing)
  }

  /** An empty search shows every product. */
  lemma EmptySearchShowsAll(listing: seq<Product>)
    ensures FilterCatalog(listing, "") == listing
  {
    forall i | 0 <= i < |listing| ensures NameMatches(listing[i], "") {
      assert Lower("") == "";
      ContainsEmpty(Lower(listing[i].name));
    }
    FilterAll((p: Product) => NameMatches(p, ""), listing);
  }

  /** `filteredProducts`: the matching products sorted by section order, then name. */
  function Catalog(sections: map<string, Section>, listing: seq<Product>, search: string): seq<Product> {
    SortProducts(sections, FilterCatalog(listing, search))
  }

  /**
   * The catalog shows exactly the matching products, sections in ascending
   * order (999 when unknown or unset) and names ascending within one rank.
   */
  lemma CatalogSpec(sections: map<string, Section>, listing: seq<Product>, search: string)
    ensures var r := Catalog(sections, listing, search);
      && (forall p :: p in r <==> p in listing && NameMatches(p, search))
      && (forall i, j :: 0 <= i < j < |r| ==>
            && SectionOrder(sections, r[i].section) <= SectionOrder(sections, r[j].section)
            && (SectionOrder(sections, r[i].section) == SectionOrder(sections, r[j].section) ==> StrLeq(r[i].name, r[j].name)))
  {
    var filtered := FilterCatalog(listing, search);
    SortProductsOrdered(sections, filtered);
    var r := Catalog(sections, listing, search);
    forall p ensures p in r <==> p in filtered {
      assert p in r <==> p in multiset(r);
    }
  }

  /** The entry after pressing +. */
  function Incremented(x: CartItem): (r: CartItem)
    ensures r.quantity == x.quantity + 1 && r.id == x.id && r.checked == x.checked
  {
    x.(quantity := x.quantity + 1)
  }

  /** The entry after pressing −: `None` when it leaves the cart (quantity 1 or less). */
  function Decremented(x: CartItem): (r: Option<CartItem>)
    ensures r.None? <==> x.quantity <= 1
    ensures r.Some? ==> r.value.quantity == x.quantity - 1 >= 1 && r.value.id == x.id && r.value.checked == x.checked
  {
    if x.quantity <= 1 then None else Some(x.(quantity := x.quantity - 1))
  }

  /** Pressing − after + restores an entry that holds at least one. */
  lemma MinusUndoesPlus(x: CartItem)
    requires x.quantity >= 1
    ensures Decremented(Incremented(x)) == Some(x)
  {
  }

  /** The entry the add-to-cart button creates. */
  function NewEntry(p: Product): (r: CartItem)
    ensures r.id == p.id && r.quantity == 1 && !r.checked
  {
    CartItem(p.id, 1, false)
  }

  /** Every entry holds at least one. */
  ghost predicate QuantitiesPositive(cart: map<string, CartItem>) {
    forall k :: k in cart ==> cart[k].quantity >= 1
  }

  /** The cart after pressing − on product `id`. */
  function AfterMinus(cart: map<string, CartItem>, id: string): (r: map<string, CartItem>)
    requires id in cart
    ensures cart[id].quantity <= 1 ==> r == cart - {id}
    ensures cart[id].quantity > 1 ==>
      var k := cart[id].id;
      k in r && r[k].quantity == cart[id].quantity - 1 && r[k].checked == cart[id].checked
      && forall j :: j != k ==> (j in r <==> j in cart) && (j in r ==> r[j] == cart[j])
  {
    match Decremented(cart[id])
    case None => cart - {id}
    case Some(y) => cart[y.id := y]
  }

  /**
   * The +, − and add buttons keep every entry of a well-keyed cart at one or
   * more: − removes an entry rather than take it below one.
   */
  lemma ButtonsKeepQuantitiesPositive(cart: map<string, CartItem>, id: string, p: Product)
    requires WellKeyed(cart) && QuantitiesPositive(cart)
    ensures id in cart ==> QuantitiesPositive(AfterMinus(cart, id)) && WellKeyed(AfterMinus(cart, id))
    ensures id in cart ==> QuantitiesPositive(cart[id := Incremented(cart[id])])
    ensures QuantitiesPositive(cart[p.id := NewEntry(p)]) && WellKeyed(cart[p.id := NewEntry(p)])
  {
  }

  /** −: removes the entry when it holds one or less, otherwise sends it with one less. */
  method PressMinus(db: DBProvider, id: string, accepted: ApiCall -> bool)
    requires id in db.mainCart.products
    modifies db
    ensures db.mainCart.products == AfterMinus(old(db.mainCart.products), id)
    ensures db.products == old(db.products) && db.sections == old(db.sections)
    ensures db.outbox == old(db.outbox) +
      [match Decremented(old(db.mainCart.products[id])) case None => RemoveCartItemCall(id) case Some(y) => UpdateCartItemCall(y)]
    ensures db.notices == old(db.notices) +
      match Decremented(old(db.mainCart.products[id]))
      case None => FailureOnly(accepted(RemoveCartItemCall(id)), "item_remove_from_cart_failed")
      case Some(y) => FailureOnly(accepted(UpdateCartItemCall(y)), "item_update_in_cart_failed")
    ensures !db.loading
  {
    var cartItem := db.mainCart.products[id];
    if cartItem.quantity <= 1 {
      db.RemoveCartItem(id, accepted);
    } else {
      db.UpdateCartItem(cartItem.(quantity := cartItem.quantity - 1), accepted);
    }
  }

  /** +: sends the entry with one more. */
  method PressPlus(db: DBProvider, id: string, accepted: ApiCall -> bool)
    requires id in db.mainCart.products
    modifies db
    ensures var y := Incremented(old(db.mainCart.products[id]));
      && db.mainCart.products == old(db.mainCart.products)[y.id := y]
      && db.outbox == old(db.outbox) + [UpdateCartItemCall(y)]
      && db.notices == old(db.notices) + FailureOnly(accepted(UpdateCartItemCall(y)), "item_update_in_cart_failed")
    ensures db.products == old(db.products) && db.sections == old(db.sections) && !db.loading
  {
    var cartItem := db.mainCart.products[id];
    db.UpdateCartItem(cartItem.(quantity := cartItem.quantity + 1), accepted);
  }

  /** The add button, shown only for a product the cart lacks: one, unchecked. */
  method AddToCart(db: DBProvider, p: Product, accepted: ApiCall -> bool)
    requires p.id !in db.mainCart.products
    modifies db
    ensures db.mainCart.products == old(db.mainCart.products)[p.id := NewEntry(p)]
    ensures db.outbox == old(db.outbox) + [AddCartItemCall(NewEntry(p))]
    ensures db.notices == old(db.notices) + FailureOnly(accepted(AddCartItemCall(NewEntry(p))), "item_add_to_cart_failed")
    ensures db.products == old(db.products) && db.sections == old(db.sections) && !db.loading
  {
    db.AddCartItem(CartItem(p.id, 1, false), accepted);
  }

  /** Confirming the delete dialog deletes the product it was opened for. */
  method ConfirmDelete(db: DBProvider, item: Product, accepted: ApiCall -> bool)
    modifies db
    ensures db.products == old(db.products) - {item.id}
    ensures db.mainCart == CascadeDelete(old(db.mainCart), item.id)
    ensures db.sections == old(db.sections)
    ensures db.outbox == old(db.outbox)
      + (if item.id in old(db.mainCart.products) then [RemoveCartItemCall(item.id)] else [])
      + [DeleteProductCall(item)]
    ensures db.notices == old(db.notices) + [Report(accepted(DeleteProductCall(item)), "item_delete_success", "item_delete_failed")]
    ensures !db.loading
  {
    db.DeleteProduct(item, accepted);
  }
}
