/**
 * The `quickmemo://` links the widgets open: `quickmemo://open` brings the
 * app forward and `quickmemo://add?category=…` opens the memo editor on a
 * category. A link is given already split into scheme, host and query
 * items; percent-decoding (`removingPercentEncoding`, which fails on a
 * malformed escape) is passed in.
 */
module DeepLink {
  import opened Wrappers
  import opened Seqs

  const Scheme: string := "quickmemo"

  datatype QueryItem = QueryItem(name: string, value: Option<string>)

  /** The parts of a URL the handler looks at; `queryItems` is `None` when the URL has no query. */
  datatype Url = Url(scheme: Option<string>, host: Option<string>, queryItems: Option<seq<QueryItem>>)

  datatype DeepLinkAction = OpenApp | AddMemo(category: string)

  function NamedCategory(): QueryItem -> bool { (q: QueryItem) => q.name == "category" }

  /**
   * The category an `add` link carries: the value of the first `category`
   * item, decoded. A later `category` item is not consulted when the first
   * has no value or does not decode.
   */
  function CategoryOf(url: Url, decode: string -> Option<string>): (r: Option<string>)
    ensures r.Some? ==> url.queryItems.Some?
                        && FirstWhere(url.queryItems.value, NamedCategory()).Some?
                        && FirstWhere(url.queryItems.value, NamedCategory()).value.value.Some?
                        && decode(FirstWhere(url.queryItems.value, NamedCategory()).value.value.value) == r
    ensures url.queryItems.Some? && FirstWhere(url.queryItems.value, NamedCategory()).Some?
            && FirstWhere(url.queryItems.value, NamedCategory()).value.value.Some?
            ==> r == decode(FirstWhere(url.queryItems.value, NamedCategory()).value.value.value)
    ensures url.queryItems.None? ==> r.None?
    ensures url.queryItems.Some? && (forall q :: q in url.queryItems.value ==> q.name != "category") ==> r.None?
  {
    if url.queryItems.None? then None
    else match FirstWhere(url.queryItems.value, NamedCategory())
      case None => None
      case Some(item) =>
        if item.value.None? then None else decode(item.value.value)
  }

  class DeepLinkManager {
    var pendingAction: Option<DeepLinkAction>

    constructor ()
      ensures pendingAction.None?
    {
      pendingAction := None;
    }

    /**
     * `handleURL`: only `quickmemo` links are acted on; `open` asks for the
     * app, `add` with a usable category asks for the editor, anything else
     * leaves the pending action as it was.
     */
    method HandleUrl(url: Url, decode: string -> Option<string>)
      modifies this
      ensures url.scheme != Some(Scheme) ==> pendingAction == old(pendingAction)
      ensures url.scheme == Some(Scheme) && url.host == Some("open") ==> pendingAction == Some(OpenApp)
      ensures url.scheme == Some(Scheme) && url.host == Some("add") ==>
                pendingAction == if CategoryOf(url, decode).Some? then Some(AddMemo(CategoryOf(url, decode).value))
                                 else old(pendingAction)
      ensures url.host != Some("open") && url.host != Some("add") ==> pendingAction == old(pendingAction)
      ensures pendingAction != old(pendingAction) ==> url.scheme == Some(Scheme)
    {
      if url.scheme != Some(Scheme) {
        return;
      }
      if url.host == Some("open") {
        pendingAction := Some(OpenApp);
      } else if url.host == Some("add") {
        var category := CategoryOf(url, decode);
        if category.Some? {
          pendingAction := Some(AddMemo(category.value));
        }
      }
    }

    /** `clearPendingAction`. */
    method ClearPendingAction()
      modifies this
      ensures pendingAction.None?
    {
      pendingAction := None;
    }
  }
}
