/**
 * The client-side store (src/app/providers/DBProvider.tsx): products and
 * sections by id and the main cart. Every operation updates the local state
 * first, then calls the server, and only notifies about the outcome.
 */
module ClientStore {
  import opened Wrappers
  import opened Model
  import opened Keyed
  import opened Client

  /** Every entry of the cart names a known product. */
  ghost predicate CartWithinCatalog(products: map<string, Product>, cart: MainCart) {
    cart.products.Keys <= products.Keys
  }

  /** The cart after a product is deleted: its entry goes too, when there is one. */
  function CascadeDelete(cart: MainCart, productId: string): (r: MainCart)
    ensures productId !in r.products
    ensures forall k :: k in r.products <==> k in cart.products && k != productId
    ensures forall k :: k in r.products ==> r.products[k] == cart.products[k]
  {
    if productId in cart.products then MainCart(cart.products - {productId}) else cart
  }

  /** Deleting a product together with its cart entry keeps every cart entry pointing at a product. */
  lemma DeleteKeepsCartWithinCatalog(products: map<string, Product>, cart: MainCart, productId: string)
    requires CartWithinCatalog(products, cart)
    ensures CartWithinCatalog(products - {productId}, CascadeDelete(cart, productId))
  {
  }

  /** Creating or updating a product never takes one away from under the cart. */
  lemma UpsertKeepsCartWithinCatalog(products: map<string, Product>, cart: MainCart, p: Product)
    requires CartWithinCatalog(products, cart)
    ensures CartWithinCatalog(products[p.id := p], cart)
  {
  }

  class DBProvider {
    var products: map<string, Product>
    var sections: map<string, Section>
    var mainCart: MainCart
    var loading: bool
    /** Notifications shown, oldest first. */
    var notices: seq<Notice>
    /** Server calls made, oldest first. */
    var outbox: seq<ApiCall>

    constructor ()
      ensures products == map[] && sections == map[] && mainCart == MainCart(map[])
      ensures !loading && notices == [] && outbox == []
    {
      products := map[];
      sections := map[];
      mainCart := MainCart(map[]);
      loading := false;
      notices := [];
      outbox := [];
    }

    /** Records a call and returns whether the server accepted it. */
    method Send(call: ApiCall, accepted: ApiCall -> bool) returns (ok: bool)
      modifies this`outbox
      ensures outbox == old(outbox) + [call]
      ensures ok == accepted(call)
    {
      outbox := outbox + [call];
      ok := accepted(call);
    }

    /**
     * Replaces the state with a fetched response (`None` when the fetch
     * failed, which keeps the state): products keyed by id, the response's
     * sections and main cart.
     */
    method LoadDB(response: Option<ApiResponse>)
      requires response.Some? ==> Loadable(response.value)
      modifies this
      ensures response.None? ==> products == old(products) && sections == old(sections) && mainCart == old(mainCart)
      ensures response.Some? ==>
        && products == IndexBy(response.value.items, ProductId)
        && sections == response.value.sections
        && mainCart == response.value.mainCart.value
      ensures notices == old(notices) && outbox == old(outbox) && !loading
    {
      loading := true;
      if response.Some? {
        products := BuildIndex(response.value.items, ProductId);
        sections := response.value.sections;
        mainCart := response.value.mainCart.value;
      }
      loading := false;
    }

    method CreateProduct(product: Product, accepted: ApiCall -> bool)
      modifies this
      ensures products == old(products)[product.id := product]
      ensures sections == old(sections) && mainCart == old(mainCart)
      ensures outbox == old(outbox) + [CreateProductCall(product)]
      ensures notices == old(notices) + [Report(accepted(CreateProductCall(product)), "item_add_success", "item_add_failed")]
      ensures !loading
    {
      loading := true;
      products := products[product.id := product];
      var ok := Send(CreateProductCall(product), accepted);
      notices := notices + [Report(ok, "item_add_success", "item_add_failed")];
      loading := false;
    }

    method UpdateProduct(product: Product, accepted: ApiCall -> bool)
      modifies this
      ensures products == old(products)[product.id := product]
      ensures sections == old(sections) && mainCart == old(mainCart)
      ensures outbox == old(outbox) + [UpdateProductCall(product)]
      ensures notices == old(notices) + [Report(accepted(UpdateProductCall(product)), "item_edit_success", "item_edit_failed")]
      ensures !loading
    {
      loading := true;
      products := products[product.id := product];
      var ok := Send(UpdateProductCall(product), accepted);
      notices := notices + [Report(ok, "item_edit_success", "item_edit_failed")];
      loading := false;
    }

    /**
     * Removes the product and, when the cart holds it, its cart entry, asking
     * the server to drop that entry; a failure there is only logged.
     */
    method DeleteProduct(product: Product, accepted: ApiCall -> bool)
      modifies this
      ensures products == old(products) - {product.id}
      ensures mainCart == CascadeDelete(old(mainCart), product.id)
      ensures sections == old(sections)
      ensures outbox == old(outbox)
        + (if product.id in old(mainCart.products) then [RemoveCartItemCall(product.id)] else [])
        + [DeleteProductCall(product)]
      ensures notices == old(notices) + [Report(accepted(DeleteProductCall(product)), "item_delete_success", "item_delete_failed")]
      ensures !loading
    {
      loading := true;
      products := products - {product.id};
      if product.id in mainCart.products {
        mainCart := MainCart(mainCart.products - {product.id});
        var removed := Send(RemoveCartItemCall(product.id), accepted);
      }
      var ok := Send(DeleteProductCall(product), accepted);
      notices := notices + [Report(ok, "item_delete_success", "item_delete_failed")];
      loading := false;
    }

    method CreateSection(section: Section, accepted: ApiCall -> bool)
      modifies this
      ensures sections == old(sections)[section.id := section]
      ensures products == old(products) && mainCart == old(mainCart)
      ensures outbox == old(outbox) + [CreateSectionCall(section)]
      ensures notices == old(notices) + [Report(accepted(CreateSectionCall(section)), "section_add_success", "section_add_failed")]
      ensures !loading
    {
      loading := true;
      sections := sections[section.id := section];
      var ok := Send(CreateSectionCall(section), accepted);
      notices := notices + [Report(ok, "section_add_success", "section_add_failed")];
      loading := false;
    }

    method UpdateSection(section: Section, accepted: ApiCall -> bool)
      modifies this
      ensures sections == old(sections)[section.id := section]
      ensures products == old(products) && mainCart == old(mainCart)
      ensures outbox == old(outbox) + [UpdateSectionCall(section)]
      ensures notices == old(notices) + [Report(accepted(UpdateSectionCall(section)), "section_edit_success", "section_edit_failed")]
      ensures !loading
    {
      loading := true;
      sections := sections[section.id := section];
      var ok := Send(UpdateSectionCall(section), accepted);
      notices := notices + [Report(ok, "section_edit_success", "section_edit_failed")];
      loading := false;
    }

    /** Removes only the section's key; products keep their section ids. */
    method DeleteSection(section: Section, accepted: ApiCall -> bool)
      modifies this
      ensures sections == old(sections) - {section.id}
      ensures products == old(products) && mainCart == old(mainCart)
      ensures outbox == old(outbox) + [DeleteSectionCall(section)]
      ensures notices == old(notices) + [Report(accepted(DeleteSectionCall(section)), "section_delete_success", "section_delete_failed")]
      ensures !loading
    {
      loading := true;
      sections := sections - {section.id};
      var ok := Send(DeleteSectionCall(section), accepted);
      notices := notices + [Report(ok, "section_delete_success", "section_delete_failed")];
      loading := false;
    }

    /** Upserts the entry under its id; only a failure is notified. */
    method AddCartItem(item: CartItem, accepted: ApiCall -> bool)
      modifies this
      ensures mainCart == MainCart(old(mainCart.products)[item.id := item])
      ensures products == old(products) && sections == old(sections)
      ensures outbox == old(outbox) + [AddCartItemCall(item)]
      ensures notices == old(notices) + FailureOnly(accepted(AddCartItemCall(item)), "item_add_to_cart_failed")
      ensures !loading
    {
      loading := true;
      mainCart := MainCart(mainCart.products[item.id := item]);
      var ok := Send(AddCartItemCall(item), accepted);
      notices := notices + FailureOnly(ok, "item_add_to_cart_failed");
      loading := false;
    }

    /** The same upsert as `AddCartItem`, sent as an update. */
    method UpdateCartItem(item: CartItem, accepted: ApiCall -> bool)
      modifies this
      ensures mainCart == MainCart(old(mainCart.products)[item.id := item])
      ensures products == old(products) && sections == old(sections)
      ensures outbox == old(outbox) + [UpdateCartItemCall(item)]
      ensures notices == old(notices) + FailureOnly(accepted(UpdateCartItemCall(item)), "item_update_in_cart_failed")
      ensures !loading
    {
      loading := true;
      mainCart := MainCart(mainCart.products[item.id := item]);
      var ok := Send(UpdateCartItemCall(item), accepted);
      notices := notices + FailureOnly(ok, "item_update_in_cart_failed");
      loading := false;
    }

    /** Deletes only the key `itemId` (nothing when absent); only a failure is notified. */
    method RemoveCartItem(itemId: string, accepted: ApiCall -> bool)
      modifies this
      ensures mainCart == MainCart(old(mainCart.products) - {itemId})
      ensures products == old(products) && sections == old(sections)
      ensures outbox == old(outbox) + [RemoveCartItemCall(itemId)]
      ensures notices == old(notices) + FailureOnly(accepted(RemoveCartItemCall(itemId)), "item_remove_from_cart_failed")
      ensures !loading
    {
      loading := true;
      mainCart := MainCart(mainCart.products - {itemId});
      var ok := Send(RemoveCartItemCall(itemId), accepted);
      notices := notices + FailureOnly(ok, "item_remove_from_cart_failed");
      loading := false;
    }
  }
}
