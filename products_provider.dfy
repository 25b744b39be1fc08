/**
 * The older client-side store (src/app/Providers/ProductsProvider.tsx): the
 * products as a list and the sections by id, updated locally before the
 * server call.
 */
module ProductsState {
  import opened Wrappers
  import opened Model
  import opened Keyed
  import opened Client

  class ProductsProvider {
    var products: seq<Product>
    var sections: map<string, Section>
    var loading: bool
    /** Notifications shown, oldest first. */
    var notices: seq<Notice>
    /** Server calls made, oldest first. */
    var outbox: seq<ApiCall>

    constructor ()
      ensures products == [] && sections == map[] && !loading && notices == [] && outbox == []
    {
      products := [];
      sections := map[];
      loading := false;
      notices := [];
      outbox := [];
    }

    /** Records a call and returns whether the server accepted it. */
    method Send(call: ApiCall, accepted: ApiCall -> bool) returns (ok: bool)
      modifies this`outbox
      ensures outbox == old(outbox) + [call]
      ensures ok == accepted(call)
    {
      outbox := outbox + [call];
      ok := accepted(call);
    }

    /** Takes the response's list and sections as they are; a failed fetch keeps the state. */
    method LoadDB(response: Option<ApiResponse>)
      modifies this
      ensures response.None? ==> products == old(products) && sections == old(sections)
      ensures response.Some? ==> products == response.value.items && sections == response.value.sections
      ensures notices == old(notices) && outbox == old(outbox) && !loading
    {
      loading := true;
      if response.Some? {
        products := response.value.items;
        sections := response.value.sections;
      }
      loading := false;
    }

    /** Appends, even when a product with the same id is already listed. */
    method CreateProduct(product: Product, accepted: ApiCall -> bool)
      modifies this
      ensures products == old(products) + [product]
      ensures |products| == |old(products)| + 1
      ensures sections == old(sections)
      ensures outbox == old(outbox) + [CreateProductCall(product)]
      ensures notices == old(notices) + [Report(accepted(CreateProductCall(product)), "item_add_success", "item_add_failed")]
      ensures !loading
    {
      loading := true;
      products := products + [product];
      var ok := Send(CreateProductCall(product), accepted);
      notices := notices + [Report(ok, "item_add_success", "item_add_failed")];
      loading := false;
    }

    /** Replaces every listed product with the same id, in place. */
    method UpdateProduct(product: Product, accepted: ApiCall -> bool)
      modifies this
      ensures products == ReplaceKey(old(products), ProductId, product)
      ensures |products| == |old(products)|
      ensures forall i :: 0 <= i < |products| ==>
        products[i] == if old(products)[i].id == product.id then product else old(products)[i]
      ensures sections == old(sections)
      ensures outbox == old(outbox) + [UpdateProductCall(product)]
      ensures notices == old(notices) + [Report(accepted(UpdateProductCall(product)), "item_edit_success", "item_edit_failed")]
      ensures !loading
    {
      loading := true;
      forall i | 0 <= i < |products| {
        ReplaceKeyAt(products, ProductId, product, i);
      }
      products := ReplaceKey(products, ProductId, product);
      var ok := Send(UpdateProductCall(product), accepted);
      notices := notices + [Report(ok, "item_edit_success", "item_edit_failed")];
      loading := false;
    }

    /** Keeps the products whose id differs, in their order. */
    method DeleteProduct(product: Product, accepted: ApiCall -> bool)
      modifies this
      ensures products == RemoveKey(old(products), ProductId, product.id)
      ensures forall p :: p in products <==> p in old(products) && p.id != product.id
      ensures sections == old(sections)
      ensures outbox == old(outbox) + [DeleteProductCall(product)]
      ensures notices == old(notices) + [Report(accepted(DeleteProductCall(product)), "item_delete_success", "item_delete_failed")]
      ensures !loading
    {
      loading := true;
      products := RemoveKey(products, ProductId, product.id);
      var ok := Send(DeleteProductCall(product), accepted);
      notices := notices + [Report(ok, "item_delete_success", "item_delete_failed")];
      loading := false;
    }

    method CreateSection(section: Section, accepted: ApiCall -> bool)
      modifies this
      ensures sections == old(sections)[section.id := section]
      ensures products == old(products)
      ensures outbox == old(outbox) + [CreateSectionCall(section)]
      ensures notices == old(notices) + [Report(accepted(CreateSectionCall(section)), "section_add_success", "section_add_failed")]
      ensures !loading
    {
      loading := true;
      sections := sections[section.id := section];
      var ok := Send(CreateSectionCall(section), accepted);
      notices := notices + [Report(ok, "section_add_success", "section_add_failed")];
      loading := false;
    }

    method UpdateSection(section: Section, accepted: ApiCall -> bool)
      modifies this
      ensures sections == old(sections)[section.id := section]
      ensures products == old(products)
      ensures outbox == old(outbox) + [UpdateSectionCall(section)]
      ensures notices == old(notices) + [Report(accepted(UpdateSectionCall(section)), "section_edit_success", "section_edit_failed")]
      ensures !loading
    {
      loading := true;
      sections := sections[section.id := section];
      var ok := Send(UpdateSectionCall(section), accepted);
      notices := notices + [Report(ok, "section_edit_success", "section_edit_failed")];
      loading := false;
    }

    method DeleteSection(section: Section, accepted: ApiCall -> bool)
      modifies this
      ensures sections == old(sections) - {section.id}
      ensures products == old(products)
      ensures outbox == old(outbox) + [DeleteSectionCall(section)]
      ensures notices == old(notices) + [Report(accepted(DeleteSectionCall(section)), "section_delete_success", "section_delete_failed")]
      ensures !loading
    {
      loading := true;
      sections := sections - {section.id};
      var ok := Send(DeleteSectionCall(section), accepted);
      notices := notices + [Report(ok, "section_delete_success", "section_delete_failed")];
      loading := false;
    }
  }
}
