/**
 * The server-side store (src/app/api/dbHandler.ts): one document held in
 * memory, written to a JSON file and read back after every change.
 */
module Store {
  import opened Wrappers
  import opened Model
  import opened Keyed

  const ProductNotFound := "product not found"
  const SectionNotFound := "section not found"
  const CartNotFound := "cart not found"
  const ItemNotFound := "item not found"

  /** An update body: `id` selects the record, every present field overwrites (`Object.assign`). */
  datatype ProductPatch = ProductPatch(id: string, name: Option<string>, section: Option<string>,
                                       icon: Option<string>, image: Option<string>, created: Option<string>)
  datatype SectionPatch = SectionPatch(id: string, name: Option<string>, order: Option<int>, collapse: Option<bool>)
  datatype CartPatch = CartPatch(id: Option<string>, name: Option<string>, products: Option<seq<CartItem>>)
  datatype ItemPatch = ItemPatch(id: Option<string>, quantity: Option<int>, checked: Option<bool>)

  /** `Object.assign(p, patch)`. */
  function MergeProduct(p: Product, patch: ProductPatch): Product {
    Product(patch.id, patch.name.GetOr(p.name), patch.section.GetOr(p.section),
            patch.icon.GetOr(p.icon), patch.image.GetOr(p.image), patch.created.GetOr(p.created))
  }

  /** `Object.assign(s, patch)`. */
  function MergeSection(s: Section, patch: SectionPatch): Section {
    Section(patch.id, patch.name.GetOr(s.name),
            if patch.order.Some? then patch.order else s.order,
            if patch.collapse.Some? then patch.collapse else s.collapse)
  }

  /** `Object.assign(cart, updates)`. */
  function MergeCart(c: Cart, patch: CartPatch): Cart {
    Cart(if patch.id.Some? then patch.id else c.id,
         if patch.name.Some? then patch.name else c.name,
         patch.products.GetOr(c.products))
  }

  /** `Object.assign(item, updates)`. */
  function MergeItem(x: CartItem, patch: ItemPatch): CartItem {
    CartItem(patch.id.GetOr(x.id), patch.quantity.GetOr(x.quantity), patch.checked.GetOr(x.checked))
  }

  /** A whole product sent as an update body, as the client does. */
  function WholeProduct(p: Product): ProductPatch {
    ProductPatch(p.id, Some(p.name), Some(p.section), Some(p.icon), Some(p.image), Some(p.created))
  }

  /** Updating with a whole product makes the stored record that product. */
  lemma MergeWholeProduct(stored: Product, p: Product)
    requires stored.id == p.id
    ensures MergeProduct(stored, WholeProduct(p)) == p
  {
  }

  /** `sections.reduce((max, s) => Math.max(max, s.order || 0), 0)`. */
  function MaxOrder(ss: seq<Section>): int {
    if ss == [] then 0
    else
      var m := MaxOrder(ss[..|ss| - 1]);
      var o := ss[|ss| - 1].order.GetOr(0);
      if m < o then o else m
  }

  /** The reduce yields 0 or the largest order present, and bounds every order. */
  lemma {:induction false} MaxOrderBounds(ss: seq<Section>)
    ensures MaxOrder(ss) >= 0
    ensures forall s :: s in ss && s.order.Some? ==> s.order.value <= MaxOrder(ss)
    ensures MaxOrder(ss) == 0 || exists s :: s in ss && s.order == Some(MaxOrder(ss))
  {
    if ss != [] {
      var init := ss[..|ss| - 1];
      MaxOrderBounds(init);
      assert ss == init + [ss[|ss| - 1]];
      if MaxOrder(ss) != 0 && MaxOrder(ss) == MaxOrder(init) {
        var s :| s in init && s.order == Some(MaxOrder(init));
        assert s in ss;
      }
    }
  }

  /** The section `createSection` stores: an unset order becomes one more than the maximum. */
  function WithDefaultOrder(ss: seq<Section>, section: Section): Section {
    if section.order.None? then section.(order := Some(MaxOrder(ss) + 1)) else section
  }

  /**
   * A new section without an order is ranked after every existing section, and
   * the first section gets 1; a given order is kept.
   */
  lemma DefaultOrderAfterAll(ss: seq<Section>, section: Section)
    ensures var stored := WithDefaultOrder(ss, section);
      && stored.order.Some?
      && (section.order.Some? ==> stored == section)
      && (section.order.None? ==>
            && stored.order.value >= 1
            && (forall s :: s in ss && s.order.Some? ==> s.order.value < stored.order.value)
            && (ss == [] ==> stored.order == Some(1)))
  {
    MaxOrderBounds(ss);
  }

  /** Sum of the quantities of a cart's items. */
  function TotalQuantity(items: seq<CartItem>): int {
    if items == [] then 0 else items[0].quantity + TotalQuantity(items[1..])
  }

  lemma {:induction false} TotalQuantityAppend(items: seq<CartItem>, x: CartItem)
    ensures TotalQuantity(items + [x]) == TotalQuantity(items) + x.quantity
  {
    if items != [] {
      assert (items + [x])[1..] == items[1..] + [x];
      TotalQuantityAppend(items[1..], x);
    }
  }

  lemma {:induction false} TotalQuantityUpdate(items: seq<CartItem>, j: int, x: CartItem)
    requires 0 <= j < |items|
    ensures TotalQuantity(items[j := x]) == TotalQuantity(items) - items[j].quantity + x.quantity
  {
    if j > 0 {
      assert items[j := x][1..] == items[1..][j - 1 := x];
      TotalQuantityUpdate(items[1..], j - 1, x);
    }
  }

  /** No two items of a list share an id. */
  predicate UniqueIds(items: seq<CartItem>) {
    forall i, j :: 0 <= i < j < |items| ==> items[i].id != items[j].id
  }

  /** `addCartItem` on a cart's list: add onto the first entry with the id, or append. */
  function AddToItems(items: seq<CartItem>, item: CartItem): seq<CartItem> {
    match FirstIndex(items, ItemId, item.id)
    case Some(j) => items[j := items[j].(quantity := items[j].quantity + item.quantity)]
    case None => items + [item]
  }

  /**
   * Adding an item adds its quantity to the cart's total, makes its id present,
   * and never creates a second entry for an id.
   */
  lemma AddToItemsSpec(items: seq<CartItem>, item: CartItem)
    ensures TotalQuantity(AddToItems(items, item)) == TotalQuantity(items) + item.quantity
    ensures Ids(AddToItems(items, item)) == Ids(items) + {item.id}
    ensures UniqueIds(items) ==> UniqueIds(AddToItems(items, item))
  {
    match FirstIndex(items, ItemId, item.id)
    case Some(j) =>
      TotalQuantityUpdate(items, j, items[j].(quantity := items[j].quantity + item.quantity));
      AddOntoEntryIds(items, j, item.quantity);
    case None =>
      TotalQuantityAppend(items, item);
      AppendNewIds(items, item);
  }

  /** Appending an item whose id is absent adds that id and keeps the ids unique. */
  lemma AppendNewIds(items: seq<CartItem>, item: CartItem)
    requires forall x :: x in items ==> x.id != item.id
    ensures Ids(items + [item]) == Ids(items) + {item.id}
    ensures UniqueIds(items) ==> UniqueIds(items + [item])
  {
  }

  /** Raising the quantity of one entry keeps the set of ids and their uniqueness. */
  lemma AddOntoEntryIds(items: seq<CartItem>, j: int, n: int)
    requires 0 <= j < |items|
    ensures var r := items[j := items[j].(quantity := items[j].quantity + n)];
      Ids(r) == Ids(items) && (UniqueIds(items) ==> UniqueIds(r))
  {
    var r := items[j := items[j].(quantity := items[j].quantity + n)];
    assert forall m :: 0 <= m < |items| ==> r[m].id == items[m].id;
    forall k | k in Ids(items) ensures k in Ids(r) {
      var x :| x in items && x.id == k;
      var m :| 0 <= m < |items| && items[m] == x;
      assert r[m].id == k;
    }
  }

  /** The position of the named cart with id `cartId` (`carts.find(c => c.id === cartId)`). */
  function FindCart(carts: seq<Cart>, cartId: string): (r: Option<nat>)
    ensures r.Some? ==> r.value < |carts| && carts[r.value].id == Some(cartId)
    ensures r.None? <==> forall c :: c in carts ==> c.id != Some(cartId)
  {
    FirstIndex(carts, CartId, Some(cartId))
  }

  /** The position of the item `itemId` in the named cart `cartId`, when both exist. */
  function FindItem(carts: seq<Cart>, cartId: string, itemId: string): (r: Option<nat>)
    ensures r.Some? ==>
      && FindCart(carts, cartId).Some?
      && r.value < |carts[FindCart(carts, cartId).value].products|
      && carts[FindCart(carts, cartId).value].products[r.value].id == itemId
    ensures r.None? <==>
      || FindCart(carts, cartId).None?
      || forall x :: x in carts[FindCart(carts, cartId).value].products ==> x.id != itemId
  {
    match FindCart(carts, cartId)
    case None => None
    case Some(i) => FirstIndex(carts[i].products, ItemId, itemId)
  }

  class DBHandler {
    /** The document in memory. */
    var db: Document
    /** What the JSON file holds. */
    ghost var persisted: Document

    /** Reads the file. */
    constructor (file: Document)
      ensures db == file && persisted == file
    {
      db := file;
      persisted := file;
    }

    /** Writes the document and reads it back; the reread returns what was written. */
    method UpdateDB()
      modifies this
      ensures db == old(db) && persisted == db
    {
      persisted := db;
    }

    method GetDB() returns (d: Document)
      ensures d == db
    {
      d := db;
    }

    /** Appends, with no check that the id is new. */
    method CreateProduct(product: Product)
      modifies this
      ensures db == old(db).(products := old(db.products) + [product])
      ensures persisted == db
    {
      db := db.(products := db.products + [product]);
      UpdateDB();
    }

    /** Merges the patch into the first product with its id, or reports it missing. */
    method UpdateProduct(patch: ProductPatch) returns (r: Result<Product>)
      modifies this
      ensures FirstIndex(old(db.products), ProductId, patch.id).None? ==>
        r == Err(ProductNotFound) && db == old(db) && persisted == old(persisted)
      ensures FirstIndex(old(db.products), ProductId, patch.id).Some? ==>
        var i := FirstIndex(old(db.products), ProductId, patch.id).value;
        && r == Ok(MergeProduct(old(db.products[i]), patch))
        && db == old(db).(products := old(db.products)[i := r.value])
        && persisted == db
    {
      var found := FirstIndex(db.products, ProductId, patch.id);
      if found.None? {
        return Err(ProductNotFound);
      }
      var merged := MergeProduct(db.products[found.value], patch);
      db := db.(products := db.products[found.value := merged]);
      UpdateDB();
      r := Ok(merged);
    }

    /** Keeps the products whose id differs. */
    method DeleteProduct(productId: string)
      modifies this
      ensures db == old(db).(products := RemoveKey(old(db.products), ProductId, productId))
      ensures persisted == db
    {
      db := db.(products := RemoveKey(db.products, ProductId, productId));
      UpdateDB();
    }

    method GetSections() returns (ss: seq<Section>)
      ensures ss == db.sections
    {
      ss := db.sections;
    }

    /** Appends the section, ranking it after all others when it has no order. */
    method CreateSection(section: Section) returns (stored: Section)
      modifies this
      ensures stored == WithDefaultOrder(old(db.sections), section)
      ensures db == old(db).(sections := old(db.sections) + [stored])
      ensures persisted == db
    {
      stored := section;
      if section.order.None? {
        var maxOrder := MaxOrder(db.sections);
        stored := section.(order := Some(maxOrder + 1));
      }
      db := db.(sections := db.sections + [stored]);
      UpdateDB();
    }

    /** Merges the patch into the first section with its id, or reports it missing. */
    method UpdateSection(patch: SectionPatch) returns (r: Result<Section>)
      modifies this
      ensures FirstIndex(old(db.sections), SectionId, patch.id).None? ==>
        r == Err(SectionNotFound) && db == old(db) && persisted == old(persisted)
      ensures FirstIndex(old(db.sections), SectionId, patch.id).Some? ==>
        var i := FirstIndex(old(db.sections), SectionId, patch.id).value;
        && r == Ok(MergeSection(old(db.sections[i]), patch))
        && db == old(db).(sections := old(db.sections)[i := r.value])
        && persisted == db
    {
      var found := FirstIndex(db.sections, SectionId, patch.id);
      if found.None? {
        return Err(SectionNotFound);
      }
      var merged := MergeSection(db.sections[found.value], patch);
      db := db.(sections := db.sections[found.value := merged]);
      UpdateDB();
      r := Ok(merged);
    }

    /** Keeps the sections whose id differs; products keep their section ids. */
    method DeleteSection(sectionId: string)
      modifies this
      ensures db == old(db).(sections := RemoveKey(old(db.sections), SectionId, sectionId))
      ensures persisted == db
    {
      db := db.(sections := RemoveKey(db.sections, SectionId, sectionId));
      UpdateDB();
    }

    method GetMainCart() returns (cart: MainCart)
      ensures cart == db.mainCart
    {
      cart := db.mainCart;
    }

    /** Stores the item under its id, as written: the file is not rewritten. */
    method AddItemToCart(item: CartItem) returns (stored: CartItem)
      modifies this
      ensures db == old(db).(mainCart := MainCart(old(db.mainCart.products)[item.id := item]))
      ensures stored == item
      ensures persisted == old(persisted)
    {
      db := db.(mainCart := MainCart(db.mainCart.products[item.id := item]));
      stored := db.mainCart.products[item.id];
    }

    /** Deletes the item's key, as written: the file is not rewritten. */
    method RemoveItemFromCart(item: CartItem) returns (removed: CartItem)
      modifies this
      ensures db == old(db).(mainCart := MainCart(old(db.mainCart.products) - {item.id}))
      ensures removed == item
      ensures persisted == old(persisted)
    {
      db := db.(mainCart := MainCart(db.mainCart.products - {item.id}));
      removed := item;
    }

    /** `AddItemToCart` followed by the write every other mutation performs. */
    method AddItemToCartPersisted(item: CartItem) returns (stored: CartItem)
      modifies this
      ensures db == old(db).(mainCart := MainCart(old(db.mainCart.products)[item.id := item]))
      ensures stored == item
      ensures persisted == db
    {
      stored := AddItemToCart(item);
      UpdateDB();
    }

    /** `RemoveItemFromCart` followed by the write every other mutation performs. */
    method RemoveItemFromCartPersisted(item: CartItem) returns (removed: CartItem)
      modifies this
      ensures db == old(db).(mainCart := MainCart(old(db.mainCart.products) - {item.id}))
      ensures removed == item
      ensures persisted == db
    {
      removed := RemoveItemFromCart(item);
      UpdateDB();
    }

    method AddNewCart(cart: Cart)
      modifies this
      ensures db == old(db).(carts := old(db.carts) + [cart])
      ensures persisted == db
    {
      db := db.(carts := db.carts + [cart]);
      UpdateDB();
    }

    /** The first named cart with id `cartId`, if any. */
    method GetCart(cartId: string) returns (cart: Option<Cart>)
      ensures cart.None? <==> forall j :: 0 <= j < |db.carts| ==> db.carts[j].id != Some(cartId)
      ensures cart.Some? ==> cart.value.id == Some(cartId)
      ensures cart.Some? ==> FindCart(db.carts, cartId).Some? && cart.value == db.carts[FindCart(db.carts, cartId).value]
    {
      var found := FindCart(db.carts, cartId);
      cart := if found.Some? then Some(db.carts[found.value]) else None;
    }

    method UpdateCart(cartId: string, updates: CartPatch) returns (r: Result<Cart>)
      modifies this
      ensures FindCart(old(db.carts), cartId).None? ==>
        r == Err(CartNotFound) && db == old(db) && persisted == old(persisted)
      ensures FindCart(old(db.carts), cartId).Some? ==>
        var i := FindCart(old(db.carts), cartId).value;
        && r == Ok(MergeCart(old(db.carts[i]), updates))
        && db == old(db).(carts := old(db.carts)[i := r.value])
        && persisted == db
    {
      var found := FindCart(db.carts, cartId);
      if found.None? {
        return Err(CartNotFound);
      }
      var merged := MergeCart(db.carts[found.value], updates);
      db := db.(carts := db.carts[found.value := merged]);
      UpdateDB();
      r := Ok(merged);
    }

    /** Adds the quantity onto an existing entry with the item's id, or appends the item. */
    method AddCartItem(cartId: string, item: CartItem) returns (r: Result<Cart>)
      modifies this
      ensures FindCart(old(db.carts), cartId).None? ==>
        r == Err(CartNotFound) && db == old(db) && persisted == old(persisted)
      ensures FindCart(old(db.carts), cartId).Some? ==>
        var i := FindCart(old(db.carts), cartId).value;
        && r == Ok(old(db.carts[i]).(products := AddToItems(old(db.carts[i].products), item)))
        && db == old(db).(carts := old(db.carts)[i := r.value])
        && persisted == db
    {
      var found := FindCart(db.carts, cartId);
      if found.None? {
        return Err(CartNotFound);
      }
      var cart := db.carts[found.value];
      var existing := FirstIndex(cart.products, ItemId, item.id);
      if existing.Some? {
        var j := existing.value;
        cart := cart.(products := cart.products[j := cart.products[j].(quantity := cart.products[j].quantity + item.quantity)]);
      } else {
        cart := cart.(products := cart.products + [item]);
      }
      db := db.(carts := db.carts[found.value := cart]);
      UpdateDB();
      r := Ok(cart);
    }

    /** Merges the updates into the first entry with `itemId`; cart or item may be missing. */
    method UpdateCartItem(cartId: string, itemId: string, updates: ItemPatch) returns (r: Result<Cart>)
      modifies this
      ensures FindCart(old(db.carts), cartId).None? ==>
        r == Err(CartNotFound) && db == old(db) && persisted == old(persisted)
      ensures FindCart(old(db.carts), cartId).Some? && FindItem(old(db.carts), cartId, itemId).None? ==>
        r == Err(ItemNotFound) && db == old(db) && persisted == old(persisted)
      ensures FindItem(old(db.carts), cartId, itemId).Some? ==>
        var i := FindCart(old(db.carts), cartId).value;
        var items := old(db.carts[i].products);
        var j := FindItem(old(db.carts), cartId, itemId).value;
        && r == Ok(old(db.carts[i]).(products := items[j := MergeItem(items[j], updates)]))
        && db == old(db).(carts := old(db.carts)[i := r.value])
        && persisted == db
    {
      var found := FindCart(db.carts, cartId);
      if found.None? {
        return Err(CartNotFound);
      }
      var cart := db.carts[found.value];
      var entry := FirstIndex(cart.products, ItemId, itemId);
      if entry.None? {
        return Err(ItemNotFound);
      }
      var j := entry.value;
      cart := cart.(products := cart.products[j := MergeItem(cart.products[j], updates)]);
      db := db.(carts := db.carts[found.value := cart]);
      UpdateDB();
      r := Ok(cart);
    }

    /** Keeps the cart's items whose id differs from `itemId`. */
    method RemoveCartItem(cartId: string, itemId: string) returns (r: Result<Cart>)
      modifies this
      ensures FindCart(old(db.carts), cartId).None? ==>
        r == Err(CartNotFound) && db == old(db) && persisted == old(persisted)
      ensures FindCart(old(db.carts), cartId).Some? ==>
        var i := FindCart(old(db.carts), cartId).value;
        && r == Ok(old(db.carts[i]).(products := RemoveKey(old(db.carts[i].products), ItemId, itemId)))
        && db == old(db).(carts := old(db.carts)[i := r.value])
        && persisted == db
    {
      var found := FindCart(db.carts, cartId);
      if found.None? {
        return Err(CartNotFound);
      }
      var cart := db.carts[found.value];
      cart := cart.(products := RemoveKey(cart.products, ItemId, itemId));
      db := db.(carts := db.carts[found.value := cart]);
      UpdateDB();
      r := Ok(cart);
    }

    /** Empties the named cart's item list. */
    method ClearCart(cartId: string) returns (r: Result<Cart>)
      modifies this
      ensures FindCart(old(db.carts), cartId).None? ==>
        r == Err(CartNotFound) && db == old(db) && persisted == old(persisted)
      ensures FindCart(old(db.carts), cartId).Some? ==>
        var i := FindCart(old(db.carts), cartId).value;
        && r == Ok(old(db.carts[i]).(products := []))
        && db == old(db).(carts := old(db.carts)[i := r.value])
        && persisted == db
    {
      var found := FindCart(db.carts, cartId);
      if found.None? {
        return Err(CartNotFound);
      }
      var cart := db.carts[found.value].(products := []);
      db := db.(carts := db.carts[found.value := cart]);
      UpdateDB();
      r := Ok(cart);
    }
  }

  /** As written, a main-cart write stays in memory only: the file still lacks it. */
  method CartWriteNotPersisted() {
    var store := new DBHandler(Document([], [], MainCart(map[]), []));
    var stored := store.AddItemToCart(CartItem("p1", 1, false));
    assert "p1" in store.db.mainCart.products;
    assert "p1" !in store.persisted.mainCart.products;
  }

  /** With the write added, the file holds the cart entry. */
  method CartWritePersisted() {
    var store := new DBHandler(Document([], [], MainCart(map[]), []));
    var stored := store.AddItemToCartPersisted(CartItem("p1", 1, false));
    assert store.persisted.mainCart.products["p1"] == CartItem("p1", 1, false);
  }
}
