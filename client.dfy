/**
 * What the browser side sends to the server and shows to the user
 * (src/app/lib/apiClient.ts is the transport; only the calls are modelled).
 */
module Client {
  import opened Model

  /** A request to the server, one per `apiClient` function the providers and pages use. */
  datatype ApiCall =
    | CreateProductCall(product: Product)
    | UpdateProductCall(product: Product)
    | DeleteProductCall(product: Product)
    | CreateSectionCall(section: Section)
    | UpdateSectionCall(section: Section)
    | DeleteSectionCall(section: Section)
    | AddCartItemCall(item: CartItem)
    | UpdateCartItemCall(item: CartItem)
    | RemoveCartItemCall(id: string)

  datatype NoticeKind = Success | Failure

  /** A notification, by its dictionary key. */
  datatype Notice = Notice(key: string, kind: NoticeKind)

  /** The notification shown after a call that reports both outcomes. */
  function Report(ok: bool, success: string, failure: string): (n: Notice)
    ensures n.kind == Success <==> ok
    ensures n.key == (if ok then success else failure)
  {
    if ok then Notice(success, Success) else Notice(failure, Failure)
  }

  /** The notifications after a call that reports only its failure. */
  function FailureOnly(ok: bool, failure: string): (ns: seq<Notice>)
    ensures ok <==> ns == []
    ensures !ok ==> ns == [Notice(failure, Failure)]
  {
    if ok then [] else [Notice(failure, Failure)]
  }
}
