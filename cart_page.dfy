/**
 * The main cart page (src/app/page.tsx): the entries matching the search,
 * unchecked ones first, then by section order and product name; checking an
 * entry off; clearing the whole cart or the checked entries.
 */
module CartPage {
  import opened Wrappers
  import opened Text
  import opened Sorting
  import opened Model
  import opened Keyed
  import opened ProductOrder
  import opened Client
  import opened ClientStore

  /** The key `products[id]?.section` gives when the product is unknown: `undefined` as a property name. */
  const UndefinedKey := "undefined"

  /** The section key an entry is looked up under. */
  function SectionKey(products: map<string, Product>, id: string): string {
    if id in products then products[id].section else UndefinedKey
  }

  /** `s.toLowerCase().includes(search.toLowerCase())`. */
  predicate Includes(s: string, search: string) {
    Contains(Lower(s), Lower(search))
  }

  /** An entry matches when its product's name, or its product's section's name, includes the search text. */
  predicate Matches(products: map<string, Product>, sections: map<string, Section>, x: CartItem, search: string) {
    || (x.id in products && Includes(products[x.id].name, search))
    || (SectionKey(products, x.id) in sections && Includes(sections[SectionKey(products, x.id)].name, search))
  }

  /** The entries of `listing` that match, in order. */
  function FilterCart(products: map<string, Product>, sections: map<string, Section>, listing: seq<CartItem>, search: string): (r: seq<CartItem>)
    ensures forall x :: x in r <==> x in listing && Matches(products, sections, x, search)
  {
    Filter((x: CartItem) => Matches(products, sections, x, search), listing)
  }

  /**
   * An empty search keeps every entry whose product is known; an entry whose
   * product is unknown is kept only through a section stored under the key
   * "undefined".
   */
  lemma EmptySearchKeepsKnown(products: map<string, Product>, sections: map<string, Section>, listing: seq<CartItem>)
    ensures forall x :: x in listing && x.id in products ==> x in FilterCart(products, sections, listing, "")
    ensures forall x :: x in FilterCart(products, sections, listing, "") ==> x.id in products || UndefinedKey in sections
  {
    forall x | x in listing && x.id in products
      ensures Matches(products, sections, x, "")
    {
      assert Lower("") == "";
      ContainsEmpty(Lower(products[x.id].name));
    }
  }

  /** The section order of an entry's product (999 when unknown). */
  function EntryOrder(products: map<string, Product>, sections: map<string, Section>, x: CartItem): int {
    SectionOrder(sections, SectionKey(products, x.id))
  }

  /** The name of an entry's product; an unknown product sorts as the empty name. */
  function EntryName(products: map<string, Product>, x: CartItem): string {
    if x.id in products then products[x.id].name else ""
  }

  /** `a` may be listed before `b`: unchecked first, then section order, then name. */
  predicate CartLeq(products: map<string, Product>, sections: map<string, Section>, a: CartItem, b: CartItem) {
    if a.checked == b.checked then
      OrderNameLeq(EntryOrder(products, sections, a), EntryName(products, a), EntryOrder(products, sections, b), EntryName(products, b))
    else !a.checked
  }

  function CartRel(products: map<string, Product>, sections: map<string, Section>): (CartItem, CartItem) -> bool {
    (a: CartItem, b: CartItem) => CartLeq(products, sections, a, b)
  }

  lemma CartRelIsTotalPreorder(products: map<string, Product>, sections: map<string, Section>)
    ensures TotalPreorder(CartRel(products, sections))
  {
    var leq := CartRel(products, sections);
    forall a: CartItem, b: CartItem ensures leq(a, b) || leq(b, a) {
      OrderNameTotal(EntryOrder(products, sections, a), EntryName(products, a), EntryOrder(products, sections, b), EntryName(products, b));
    }
    forall a: CartItem, b: CartItem, c: CartItem | leq(a, b) && leq(b, c) ensures leq(a, c) {
      if a.checked == b.checked == c.checked {
        OrderNameTransitive(EntryOrder(products, sections, a), EntryName(products, a), EntryOrder(products, sections, b), EntryName(products, b),
                            EntryOrder(products, sections, c), EntryName(products, c));
      }
    }
  }

  /**
   * The cart comparator as written. With equal status: the section-order
   * difference, and on a tie `products[a.id]?.name.localeCompare(products[b.id]?.name) || 0`.
   * An unknown `a` stops the `?.` chain (`undefined || 0`, a tie); a known
   * `a` against an unknown `b` compares with the string "undefined".
   */
  function CartCompareAsWritten(products: map<string, Product>, sections: map<string, Section>, a: CartItem, b: CartItem): int {
    if a.checked == b.checked then
      var diff := EntryOrder(products, sections, a) - EntryOrder(products, sections, b);
      if diff != 0 then diff
      else if a.id !in products then 0
      else StrCompare(products[a.id].name, if b.id in products then products[b.id].name else UndefinedKey)
    else if a.checked then 1 else -1
  }

  /**
   * An entry whose product is unknown makes the comparator as written
   * asymmetric: a known "zebra" sorts after it, yet it ties with "zebra".
   */
  lemma CartCompareAsWrittenAsymmetric()
    ensures var products := map["p" := Product("p", "zebra", "s", "", "", "")];
      var a := CartItem("p", 1, false);
      var b := CartItem("gone", 1, false);
      CartCompareAsWritten(products, map[], a, b) > 0 && CartCompareAsWritten(products, map[], b, a) == 0
  {
    var z, u := "zebra", UndefinedKey;
    assert !StrLeq(z, u) by {
      assert z[0] > u[0];
    }
  }

  /**
   * For entries whose products are known, the corrected order is exactly the
   * comparator as written: `a` may precede `b` iff the comparison is at most 0.
   */
  lemma CartCorrectedAgreesOnKnown(products: map<string, Product>, sections: map<string, Section>, a: CartItem, b: CartItem)
    requires a.id in products && b.id in products
    ensures CartCompareAsWritten(products, sections, a, b) <= 0 <==> CartLeq(products, sections, a, b)
  {
  }

  /** `sortedProducts`: the filtered entries in listing order. */
  function SortCart(products: map<string, Product>, sections: map<string, Section>, filtered: seq<CartItem>): (r: seq<CartItem>)
    ensures multiset(r) == multiset(filtered)
  {
    SortBy(CartRel(products, sections), filtered)
  }

  /**
   * The sorted entries are a permutation of the filtered ones; every unchecked
   * entry precedes every checked one, and entries with the same status come
   * by section order, then by name.
   */
  lemma SortCartOrdered(products: map<string, Product>, sections: map<string, Section>, filtered: seq<CartItem>)
    ensures multiset(SortCart(products, sections, filtered)) == multiset(filtered)
    ensures var r := SortCart(products, sections, filtered);
      forall i, j :: 0 <= i < j < |r| ==>
        && (r[i].checked ==> r[j].checked)
        && (r[i].checked == r[j].checked ==>
              && EntryOrder(products, sections, r[i]) <= EntryOrder(products, sections, r[j])
              && (EntryOrder(products, sections, r[i]) == EntryOrder(products, sections, r[j]) ==> StrLeq(EntryName(products, r[i]), EntryName(products, r[j]))))
  {
    CartRelIsTotalPreorder(products, sections);
    SortBySorted(CartRel(products, sections), filtered);
  }

  /** `checkedItems`: the checked entries, in order. */
  function CheckedItems(sorted: seq<CartItem>): (r: seq<CartItem>)
    ensures forall x :: x in r <==> x in sorted && x.checked
  {
    Filter((x: CartItem) => x.checked, sorted)
  }

  /** In a list where nothing unchecked follows a checked entry, the checked entries are a suffix. */
  lemma {:induction false} CheckedSuffix(s: seq<CartItem>)
    requires forall i, j :: 0 <= i < j < |s| && s[i].checked ==> s[j].checked
    ensures exists k :: 0 <= k <= |s| && (forall i :: 0 <= i < k ==> !s[i].checked) && CheckedItems(s) == s[k..]
  {
    if s == [] {
      assert CheckedItems(s) == s[0..];
    } else if s[0].checked {
      FilterAll((x: CartItem) => x.checked, s);
      assert CheckedItems(s) == s[0..];
    } else {
      CheckedSuffix(s[1..]);
      var k :| 0 <= k <= |s[1..]| && (forall i :: 0 <= i < k ==> !s[1..][i].checked) && CheckedItems(s[1..]) == s[1..][k..];
      assert CheckedItems(s) == CheckedItems(s[1..]);
      assert s[1..][k..] == s[k + 1..];
      assert forall i :: 0 <= i < k + 1 ==> !s[i].checked by {
        forall i | 0 <= i < k + 1 ensures !s[i].checked {
          if i > 0 {
            assert s[i] == s[1..][i - 1];
          }
        }
      }
    }
  }

  /** `checkedItems` is exactly the tail of `sortedProducts` after its unchecked entries. */
  lemma CheckedItemsAreSuffix(products: map<string, Product>, sections: map<string, Section>, filtered: seq<CartItem>)
    ensures var r := SortCart(products, sections, filtered);
      exists k :: 0 <= k <= |r| && (forall i :: 0 <= i < k ==> !r[i].checked) && CheckedItems(r) == r[k..]
  {
    SortCartOrdered(products, sections, filtered);
    CheckedSuffix(SortCart(products, sections, filtered));
  }

  /** The ids `clearCheckedItems` removes. */
  /** `checkedItems` as the page computes it: the checked entries of the sorted, filtered cart. */
  function CheckedShown(products: map<string, Product>, sections: map<string, Section>, listing: seq<CartItem>, search: string): seq<CartItem> {
    CheckedItems(SortCart(products, sections, FilterCart(products, sections, listing, search)))
  }

  function ClearedByCheck(products: map<string, Product>, sections: map<string, Section>, listing: seq<CartItem>, search: string): set<string> {
    Ids(CheckedShown(products, sections, listing, search))
  }

  /**
   * In a well-keyed cart, `clearCheckedItems` removes an entry exactly when it
   * is checked and matches the search: unchecked entries stay.
   */
  lemma {:induction false} ClearedByCheckSpec(products: map<string, Product>, sections: map<string, Section>, cart: map<string, CartItem>, listing: seq<CartItem>, search: string)
    requires WellKeyed(cart) && ListsValues(listing, cart)
    ensures forall k :: k in cart ==>
      (k in ClearedByCheck(products, sections, listing, search) <==> cart[k].checked && Matches(products, sections, cart[k], search))
  {
    var filtered := FilterCart(products, sections, listing, search);
    var sorted := SortCart(products, sections, filtered);
    SortCartOrdered(products, sections, filtered);
    forall k | k in cart
      ensures k in ClearedByCheck(products, sections, listing, search) <==> cart[k].checked && Matches(products, sections, cart[k], search)
    {
      assert cart[k] in cart.Values;
      if cart[k].checked && Matches(products, sections, cart[k], search) {
        assert cart[k] in filtered;
        assert cart[k] in multiset(sorted);
        assert cart[k] in CheckedItems(sorted);
      }
      if k in ClearedByCheck(products, sections, listing, search) {
        var x :| x in CheckedItems(sorted) && x.id == k;
        assert x in multiset(filtered);
        assert x in listing && x in cart.Values;
        assert x == cart[k];
      }
    }
  }

  /** The entry with `checked` flipped. */
  function Toggled(item: CartItem): (r: CartItem)
    ensures r.checked == !item.checked && r.id == item.id && r.quantity == item.quantity
  {
    item.(checked := !item.checked)
  }

  /** Toggling twice restores the entry. */
  lemma ToggledTwice(item: CartItem)
    ensures Toggled(Toggled(item)) == item
  {
  }

  /** One removal call per entry, in order. */
  function RemovalCalls(items: seq<CartItem>): (r: seq<ApiCall>)
    ensures |r| == |items|
  {
    if items == [] then [] else RemovalCalls(items[..|items| - 1]) + [RemoveCartItemCall(items[|items| - 1].id)]
  }

  /** The `i`-th call removes the `i`-th entry's id. */
  lemma {:induction false} RemovalCallsAt(items: seq<CartItem>, i: int)
    requires 0 <= i < |items|
    ensures RemovalCalls(items)[i] == RemoveCartItemCall(items[i].id)
  {
    if i < |items| - 1 {
      RemovalCallsAt(items[..|items| - 1], i);
    }
  }

  /** The failure notifications of those removals. */
  function RemovalNotices(items: seq<CartItem>, accepted: ApiCall -> bool): seq<Notice> {
    if items == [] then []
    else RemovalNotices(items[..|items| - 1], accepted)
         + FailureOnly(accepted(RemoveCartItemCall(items[|items| - 1].id)), "item_remove_from_cart_failed")
  }

  /** What one more removal adds to the calls, the notices and the removed ids. */
  lemma RemovalStep(items: seq<CartItem>, i: int, accepted: ApiCall -> bool, cart: map<string, CartItem>)
    requires 0 <= i < |items|
    ensures RemovalCalls(items[..i + 1]) == RemovalCalls(items[..i]) + [RemoveCartItemCall(items[i].id)]
    ensures RemovalNotices(items[..i + 1], accepted)
      == RemovalNotices(items[..i], accepted) + FailureOnly(accepted(RemoveCartItemCall(items[i].id)), "item_remove_from_cart_failed")
    ensures (cart - Ids(items[..i])) - {items[i].id} == cart - Ids(items[..i + 1])
  {
    assert items[..i + 1][..i] == items[..i];
    assert Ids(items[..i + 1]) == Ids(items[..i]) + {items[i].id};
  }

  /** The removal of `items[i]`, after those before it. */
  method RemoveNext(db: DBProvider, items: seq<CartItem>, i: int, accepted: ApiCall -> bool,
                    ghost cart0: map<string, CartItem>, ghost outbox0: seq<ApiCall>, ghost notices0: seq<Notice>)
    requires 0 <= i < |items|
    requires db.mainCart == MainCart(cart0 - Ids(items[..i]))
    requires db.outbox == outbox0 + RemovalCalls(items[..i])
    requires db.notices == notices0 + RemovalNotices(items[..i], accepted)
    modifies db
    ensures db.mainCart == MainCart(cart0 - Ids(items[..i + 1]))
    ensures db.outbox == outbox0 + RemovalCalls(items[..i + 1])
    ensures db.notices == notices0 + RemovalNotices(items[..i + 1], accepted)
    ensures db.products == old(db.products) && db.sections == old(db.sections) && !db.loading
  {
    RemovalStep(items, i, accepted, cart0);
    db.RemoveCartItem(items[i].id, accepted);
  }

  /** `for (const item of items) await removeCartItem(item.id)`. */
  method RemoveEach(db: DBProvider, items: seq<CartItem>, accepted: ApiCall -> bool)
    modifies db
    ensures db.mainCart == MainCart(old(db.mainCart.products) - Ids(items))
    ensures db.products == old(db.products) && db.sections == old(db.sections)
    ensures db.outbox == old(db.outbox) + RemovalCalls(items)
    ensures db.notices == old(db.notices) + RemovalNotices(items, accepted)
    ensures db.loading == (old(db.loading) && items == [])
  {
    ghost var cart0, outbox0, notices0 := db.mainCart.products, db.outbox, db.notices;
    assert items[..0] == [];
    var i := 0;
    while i < |items|
      invariant 0 <= i <= |items|
      invariant db.mainCart == MainCart(cart0 - Ids(items[..i]))
      invariant db.products == old(db.products) && db.sections == old(db.sections)
      invariant db.outbox == outbox0 + RemovalCalls(items[..i])
      invariant db.notices == notices0 + RemovalNotices(items[..i], accepted)
      invariant db.loading == (old(db.loading) && i == 0)
    {
      RemoveNext(db, items, i, accepted, cart0, outbox0, notices0);
      i := i + 1;
    }
    assert items[..i] == items;
  }

  /** Removes every entry of the cart; in a well-keyed cart nothing is left. */
  method ClearCart(db: DBProvider, listing: seq<CartItem>, accepted: ApiCall -> bool)
    requires ListsValues(listing, db.mainCart.products)
    modifies db
    ensures db.mainCart == MainCart(old(db.mainCart.products) - Ids(listing))
    ensures WellKeyed(old(db.mainCart.products)) ==> db.mainCart.products == map[]
    ensures db.products == old(db.products) && db.sections == old(db.sections)
    ensures db.outbox == old(db.outbox) + RemovalCalls(listing)
    ensures db.notices == old(db.notices) + RemovalNotices(listing, accepted)
    ensures db.loading == (old(db.loading) && listing == [])
  {
    if WellKeyed(db.mainCart.products) {
      RemovingListedEmpties(listing, db.mainCart.products);
    }
    RemoveEach(db, listing, accepted);
  }

  /** Removes the checked entries that the current search shows. */
  method ClearCheckedItems(db: DBProvider, listing: seq<CartItem>, search: string, accepted: ApiCall -> bool)
    requires ListsValues(listing, db.mainCart.products)
    modifies db
    ensures db.mainCart == MainCart(old(db.mainCart.products) - ClearedByCheck(old(db.products), old(db.sections), listing, search))
    ensures db.products == old(db.products) && db.sections == old(db.sections)
    ensures var shown := CheckedShown(old(db.products), old(db.sections), listing, search);
      && db.outbox == old(db.outbox) + RemovalCalls(shown)
      && db.notices == old(db.notices) + RemovalNotices(shown, accepted)
      && db.loading == (old(db.loading) && shown == [])
  {
    var checked := CheckedShown(db.products, db.sections, listing, search);
    RemoveEach(db, checked, accepted);
  }

  /** Sends the entry with `checked` flipped as an update. */
  method ToggleChecked(db: DBProvider, item: CartItem, accepted: ApiCall -> bool)
    modifies db
    ensures db.mainCart == MainCart(old(db.mainCart.products)[item.id := Toggled(item)])
    ensures db.outbox == old(db.outbox) + [UpdateCartItemCall(Toggled(item))]
    ensures db.notices == old(db.notices) + FailureOnly(accepted(UpdateCartItemCall(Toggled(item))), "item_update_in_cart_failed")
    ensures db.products == old(db.products) && db.sections == old(db.sections) && !db.loading
  {
    db.UpdateCartItem(Toggled(item), accepted);
  }
}
