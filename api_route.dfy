/**
 * `GET /api` (src/app/api/route.ts): the sections indexed by id, and the
 * catalog sorted in place in the store, in one response.
 */
module AggregateRoute {
  import opened Wrappers
  import opened Sorting
  import opened Text
  import opened Model
  import opened Keyed
  import opened ProductOrder
  import opened Store

  /** A response: the aggregate body with status 200, or an error message with status 404. */
  datatype Response = Ok200(body: ApiResponse) | NotFound404(error: string)

  const NoItemsFound := "No items found"

  /** The body as written: the items and the sections map, without the main cart. */
  function BodyAsWritten(items: seq<Product>, sections: map<string, Section>): ApiResponse {
    ApiResponse(items, sections, None)
  }

  /** The body the response interface declares, carrying the main cart the client reads. */
  function Body(items: seq<Product>, sections: map<string, Section>, mainCart: MainCart): ApiResponse {
    ApiResponse(items, sections, Some(mainCart))
  }

  /** The body as written never carries the main cart; the declared body always does. */
  lemma BodyAsWrittenNotLoadable(items: seq<Product>, sections: map<string, Section>, mainCart: MainCart)
    ensures !Loadable(BodyAsWritten(items, sections))
    ensures Loadable(Body(items, sections, mainCart))
    ensures Body(items, sections, mainCart).mainCart.value == mainCart
  {
  }

  /** 404 exactly when there is no product list (no document); otherwise 200 with the body. */
  function Respond(items: Option<seq<Product>>, sections: map<string, Section>, mainCart: MainCart): (r: Response)
    ensures r.NotFound404? <==> items.None?
    ensures r.NotFound404? ==> r.error == NoItemsFound
    ensures r.Ok200? ==> Loadable(r.body) && r.body.items == items.value && r.body.sections == sections
  {
    match items
    case None => NotFound404(NoItemsFound)
    case Some(ps) => Ok200(Body(ps, sections, mainCart))
  }

  /**
   * Sorts the store's products in place by section order and name, and answers
   * with them, the sections map and the main cart. The file is not rewritten.
   */
  method Get(store: DBHandler) returns (r: Response)
    modifies store
    ensures store.db == old(store.db).(products := SortProducts(IndexBy(old(store.db.sections), SectionId), old(store.db.products)))
    ensures store.persisted == old(store.persisted)
    ensures r == Ok200(Body(store.db.products, IndexBy(store.db.sections, SectionId), store.db.mainCart))
    ensures multiset(r.body.items) == multiset(old(store.db.products))
  {
    var db := store.GetDB();
    var sectionsMap := BuildIndex(db.sections, SectionId);
    var items := SortProducts(sectionsMap, db.products);
    store.db := db.(products := items);
    r := Respond(Some(items), sectionsMap, db.mainCart);
  }

  /**
   * Section B (order 0) comes before section A (order 1), and within B
   * "Apple" comes before "Zed".
   */
  lemma SortScenario()
    ensures var sections := map["A" := Section("A", "A", Some(1), None), "B" := Section("B", "B", Some(0), None)];
      var p1 := Product("p1", "Zed", "B", "", "", "");
      var p2 := Product("p2", "Apple", "B", "", "", "");
      var p3 := Product("p3", "Mid", "A", "", "", "");
      SortProducts(sections, [p1, p2, p3]) == [p2, p1, p3]
  {
    var sections := map["A" := Section("A", "A", Some(1), None), "B" := Section("B", "B", Some(0), None)];
    var p1 := Product("p1", "Zed", "B", "", "", "");
    var p2 := Product("p2", "Apple", "B", "", "", "");
    var p3 := Product("p3", "Mid", "A", "", "", "");
    var leq := ProductRel(sections);
    assert StrLeq("Apple", "Zed") && !StrLeq("Zed", "Apple") by {
      assert "Apple"[0] < "Zed"[0];
    }
    assert [p1, p2, p3][1..] == [p2, p3];
    assert [p2, p3][1..] == [p3];
    assert SortBy(leq, [p3]) == [p3];
    assert SortBy(leq, [p2, p3]) == Insert(leq, p2, [p3]) == [p2, p3];
    assert Insert(leq, p1, [p2, p3]) == [p2] + Insert(leq, p1, [p3]);
    assert Insert(leq, p1, [p3]) == [p1, p3];
  }
}
