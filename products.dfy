/** The catalog view: the product list and its debounced search, and the
    guards of add-to-cart. The pure transitions over ViewState say what each
    handler does; the class ProductsView carries the same state in fields
    that its methods update, and each method is proved to follow its
    transition. The HTTP replies, the token and the firing of the debounce
    timer are inputs. */
module Products {
  import opened Effects

  datatype Product = Product(id: string, name: string, category: string, cost: int, rating: int, image: string)

  /** One entry of the server-held cart. */
  datatype CartEntry = CartEntry(productId: string, qty: int)

  /** One line of the client's cart view. Its other display fields come from
      generateCartItemsFrom in Cart.js, which is not part of this model; what
      the catalog reads of a line is its productId. */
  datatype LineItem = LineItem(productId: string, qty: int)

  /** generateCartItemsFrom(cartData, products), left uninterpreted. Its first
      argument is None where the JavaScript passes `undefined` or `null`. */
  type Reconciler = (Option<seq<CartEntry>>, seq<Product>) -> seq<LineItem>

  /** The requests the view sends to the backend. */
  datatype Request =
    | GetProducts
    | SearchProducts(text: string)
    | GetCart(token: string)
    | PostCart(token: string, productId: string, qty: int)

  /** Everything the view holds, plus a record of what it sent and showed.
      `pendingSearch` stands for the one debounce timer: the text it will
      search for when it fires, or None when no timer is pending. */
  datatype ViewState = ViewState(
    products: seq<Product>,
    filteredProducts: seq<Product>,
    search: string,
    items: seq<LineItem>,
    isLoading: bool,
    pendingSearch: Option<string>,
    requests: seq<Request>,
    notices: seq<Notice>)

  const Initial := ViewState([], [], "", [], false, None, [], [])

  const LoginFirstMessage := "Login to add an item to the Cart"
  const AlreadyInCartMessage :=
    "Item already in cart. Use the cart sidebar to update quantity or remove item."
  const PostCartDownMessage :=
    "Could not fetch products. Check that the backend is running, reachable and returns valid JSON."
  const GetCartDownMessage :=
    "Could not fetch cart details. Check that the backend is running, reachable and returns valid JSON."

  /** The token read from local storage counts only when it is truthy:
      missing (null) and the empty string both mean "not logged in". */
  predicate HasToken(token: Option<string>): (r: bool)
    ensures token == None ==> !r
    ensures token == Some("") ==> !r
    ensures token.Some? && |token.value| > 0 ==> r
  {
    token.Some? && token.value != ""
  }

  /** Some line of the cart is for product `id`. */
  predicate InCart(items: seq<LineItem>, id: string) {
    exists i :: 0 <= i < |items| && items[i].productId == id
  }

  /** isItemInCart: a scan of the lines that stops at the first match. */
  method IsItemInCart(items: seq<LineItem>, productId: string) returns (found: bool)
    ensures found <==> InCart(items, productId)
    ensures items == [] ==> !found
  {
    if |items| > 0 {
      var i := 0;
      while i < |items|
        invariant 0 <= i <= |items|
        invariant forall j :: 0 <= j < i ==> items[j].productId != productId
      {
        if items[i].productId == productId {
          return true;
        }
        i := i + 1;
      }
    }
    return false;
  }

  /** performAPICall up to its await: the spinner is on and GET /products is sent. */
  function ApiCallStarted(s: ViewState): (t: ViewState)
    ensures t.isLoading
    ensures t.requests == s.requests + [GetProducts]
    ensures t.(isLoading := s.isLoading, requests := s.requests) == s
  {
    s.(isLoading := true, requests := s.requests + [GetProducts])
  }

  /** performAPICall after its await. A list replaces both the catalog and the
      displayed set. A rejection with a response keeps both and shows the
      server's message (the `sucess` misspelling makes its guard always true).
      A rejection without a response throws before `setLoading(false)`. */
  function ApiCallCompleted(s: ViewState, reply: Reply<seq<Product>>): (t: ViewState)
    ensures reply.Ok? ==> t.products == reply.data && t.filteredProducts == reply.data
    ensures reply.Failed? ==> t.products == s.products && t.filteredProducts == s.filteredProducts
    ensures reply.Ok? ==> t.notices == s.notices
    ensures reply.Failed? && reply.response.Some? ==>
      t.notices == s.notices + [Notice(reply.response.value.message, Error)]
    ensures reply != Failed(None) ==> !t.isLoading
    ensures reply == Failed(None) ==> t == s
    ensures t.(products := s.products, filteredProducts := s.filteredProducts,
               isLoading := s.isLoading, notices := s.notices) == s
  {
    match reply
    case Ok(list) => s.(products := list, filteredProducts := list, isLoading := false)
    case Failed(Some(r)) => s.(notices := s.notices + [Notice(r.message, Error)], isLoading := false)
    case Failed(None) => s
  }

  /** The search box's onChange: the box shows the text, and debounceSearch
      cancels the pending timer, if any, and starts one for this text. No
      request is sent yet. */
  function SearchTyped(s: ViewState, text: string): (t: ViewState)
    ensures t.pendingSearch == Some(text) && t.search == text
    ensures t.requests == s.requests
    ensures t.(search := s.search, pendingSearch := s.pendingSearch) == s
  {
    s.(search := text, pendingSearch := Some(text))
  }

  /** The pending debounce timer fires: performSearch runs for the text it
      carries, up to its await. With no pending timer nothing happens. */
  function DebounceElapsed(s: ViewState): (t: ViewState)
    ensures s.pendingSearch.Some? ==>
      && t.requests == s.requests + [SearchProducts(s.pendingSearch.value)]
      && t.isLoading && t.pendingSearch == None
    ensures s.pendingSearch == None ==> t == s
    ensures t.(isLoading := s.isLoading, pendingSearch := s.pendingSearch, requests := s.requests) == s
  {
    match s.pendingSearch
    case None => s
    case Some(text) => s.(pendingSearch := None, isLoading := true,
                          requests := s.requests + [SearchProducts(text)])
  }

  /** performSearch after its await. A list replaces the displayed set; a 404
      empties it; any other status keeps it; no snackbar is shown. A rejection
      without a response throws before `setLoading(false)`. */
  function SearchCompleted(s: ViewState, reply: Reply<seq<Product>>): (t: ViewState)
    ensures reply.Ok? ==> t.filteredProducts == reply.data
    ensures reply.Failed? && reply.response.Some? ==>
      t.filteredProducts == if reply.response.value.status == 404 then [] else s.filteredProducts
    ensures reply != Failed(None) ==> !t.isLoading
    ensures reply == Failed(None) ==> t == s
    ensures t.notices == s.notices && t.products == s.products
    ensures t.(filteredProducts := s.filteredProducts, isLoading := s.isLoading) == s
  {
    match reply
    case Ok(list) => s.(filteredProducts := list, isLoading := false)
    case Failed(Some(r)) =>
      s.(filteredProducts := if r.status == 404 then [] else s.filteredProducts, isLoading := false)
    case Failed(None) => s
  }

  /** The cart effect, run whenever the catalog changes: fetchCart(token) up
      to its await. With no token fetchCart returns at once and sends
      nothing, but the promise chain still runs: the lines are rebuilt from no
      cart data. */
  function CartFetchStarted(s: ViewState, token: Option<string>, rec: Reconciler): (t: ViewState)
    ensures !HasToken(token) ==> t.requests == s.requests && t.items == rec(None, s.products)
    ensures HasToken(token) ==> t.requests == s.requests + [GetCart(token.value)] && t.items == s.items
    ensures t.(items := s.items, requests := s.requests) == s
  {
    if !HasToken(token) then s.(items := rec(None, s.products))
    else s.(requests := s.requests + [GetCart(token.value)])
  }

  /** fetchCart after its await, and the rest of the chain. The cart data, or
      null on any failure, is reconciled with the catalog into the lines. A
      failure shows the server's message for a 400, the generic message
      otherwise. */
  function CartFetchCompleted(s: ViewState, reply: Reply<seq<CartEntry>>, rec: Reconciler): (t: ViewState)
    ensures reply.Ok? ==> t.items == rec(Some(reply.data), s.products) && t.notices == s.notices
    ensures reply.Failed? ==> t.items == rec(None, s.products)
    ensures reply.Failed? ==>
      t.notices == s.notices +
        [if reply.response.Some? && reply.response.value.status == 400
         then Notice(reply.response.value.message, Error)
         else Notice(GetCartDownMessage, Error)]
    ensures t.(items := s.items, notices := s.notices) == s
  {
    match reply
    case Ok(entries) => s.(items := rec(Some(entries), s.products))
    case Failed(response) =>
      var notice :=
        if response.Some? && response.value.status == 400 then Notice(response.value.message, Error)
        else Notice(GetCartDownMessage, Error);
      s.(items := rec(None, s.products), notices := s.notices + [notice])
  }

  /** Whether addToCart gets past its two guards and posts. */
  predicate AddToCartSends(s: ViewState, token: Option<string>, productId: string, preventDuplicate: bool) {
    HasToken(token) && !(preventDuplicate && InCart(s.items, productId))
  }

  /** addToCart, with the reply to its POST /cart as an input that is read only
      when the request is sent. No token: a warning and no request. The
      duplicate guard, when asked for and the product already has a line: a
      warning and no request. Otherwise the request is sent; a reply replaces
      the lines by the reconciled server cart, a failure keeps them and shows
      the server's message, or the generic one when there was no response. */
  function CartAdded(s: ViewState, token: Option<string>, productId: string, qty: int,
                     preventDuplicate: bool, reply: Reply<seq<CartEntry>>, rec: Reconciler): (t: ViewState)
    ensures AddToCartSends(s, token, productId, preventDuplicate) ==>
      t.requests == s.requests + [PostCart(token.value, productId, qty)]
    ensures !AddToCartSends(s, token, productId, preventDuplicate) ==>
      t.requests == s.requests && t.items == s.items
    ensures !HasToken(token) ==> t.notices == s.notices + [Notice(LoginFirstMessage, Warning)]
    ensures HasToken(token) && preventDuplicate && InCart(s.items, productId) ==>
      t.notices == s.notices + [Notice(AlreadyInCartMessage, Warning)]
    ensures AddToCartSends(s, token, productId, preventDuplicate) && reply.Ok? ==>
      t.items == rec(Some(reply.data), s.products) && t.notices == s.notices
    ensures AddToCartSends(s, token, productId, preventDuplicate) && reply.Failed? ==>
      && t.items == s.items
      && t.notices == s.notices +
        [if reply.response.Some? then Notice(reply.response.value.message, Error)
         else Notice(PostCartDownMessage, Error)]
    ensures t.(items := s.items, requests := s.requests, notices := s.notices) == s
  {
    if !HasToken(token) then
      s.(notices := s.notices + [Notice(LoginFirstMessage, Warning)])
    else if preventDuplicate && InCart(s.items, productId) then
      s.(notices := s.notices + [Notice(AlreadyInCartMessage, Warning)])
    else
      var sent := s.(requests := s.requests + [PostCart(token.value, productId, qty)]);
      match reply
      case Ok(entries) => sent.(items := rec(Some(entries), s.products))
      case Failed(Some(r)) => sent.(notices := s.notices + [Notice(r.message, Error)])
      case Failed(None) => sent.(notices := s.notices + [Notice(PostCartDownMessage, Error)])
  }

  /** The catalog's "add to cart" button: one unit, duplicates refused. */
  function CatalogAdd(s: ViewState, token: Option<string>, productId: string,
                      reply: Reply<seq<CartEntry>>, rec: Reconciler): (t: ViewState)
    ensures HasToken(token) && !InCart(s.items, productId) ==>
      t.requests == s.requests + [PostCart(token.value, productId, 1)]
    ensures !HasToken(token) ==> t.requests == s.requests
  {
    CartAdded(s, token, productId, 1, true, reply, rec)
  }

  /** A product that already has a line is never posted again from the catalog. */
  lemma CatalogAddNeverDuplicates(s: ViewState, token: Option<string>, productId: string,
                                  reply: Reply<seq<CartEntry>>, rec: Reconciler)
    requires InCart(s.items, productId)
    ensures CatalogAdd(s, token, productId, reply, rec).requests == s.requests
    ensures CatalogAdd(s, token, productId, reply, rec).items == s.items
  {
  }

  /** Without the duplicate guard (the cart's quantity buttons) a logged-in
      user's request is sent even for a product already in the cart. */
  lemma QuantityChangeSendsEvenIfInCart(s: ViewState, token: Option<string>, productId: string,
                                        qty: int, reply: Reply<seq<CartEntry>>, rec: Reconciler)
    requires HasToken(token) && InCart(s.items, productId)
    ensures CartAdded(s, token, productId, qty, false, reply, rec).requests ==
      s.requests + [PostCart(token.value, productId, qty)]
  {
  }

  /** The things that happen to the view. */
  datatype Event =
    | LoadProducts
    | ProductsReply(products: Reply<seq<Product>>)
    | TypeSearch(text: string)
    | TimerFires
    | SearchReply(results: Reply<seq<Product>>)
    | RefreshCart(token: Option<string>)
    | CartReply(cart: Reply<seq<CartEntry>>)
    | AddToCart(token: Option<string>, productId: string, qty: int, preventDuplicate: bool,
                posted: Reply<seq<CartEntry>>)

  function Step(s: ViewState, e: Event, rec: Reconciler): ViewState {
    match e
    case LoadProducts => ApiCallStarted(s)
    case ProductsReply(reply) => ApiCallCompleted(s, reply)
    case TypeSearch(text) => SearchTyped(s, text)
    case TimerFires => DebounceElapsed(s)
    case SearchReply(reply) => SearchCompleted(s, reply)
    case RefreshCart(token) => CartFetchStarted(s, token, rec)
    case CartReply(reply) => CartFetchCompleted(s, reply, rec)
    case AddToCart(token, id, qty, prevent, reply) => CartAdded(s, token, id, qty, prevent, reply, rec)
  }

  /** The state after a sequence of events. */
  function Run(s: ViewState, es: seq<Event>, rec: Reconciler): ViewState
    decreases |es|
  {
    if es == [] then s else Run(Step(s, es[0], rec), es[1..], rec)
  }

  /** Running two sequences one after the other is running their concatenation. */
  lemma {:induction false} RunAppend(s: ViewState, a: seq<Event>, b: seq<Event>, rec: Reconciler)
    ensures Run(s, a + b, rec) == Run(Run(s, a, rec), b, rec)
    decreases |a|
  {
    if a == [] {
      assert a + b == b;
    } else {
      assert (a + b)[0] == a[0];
      assert (a + b)[1..] == a[1..] + b;
      RunAppend(Step(s, a[0], rec), a[1..], b, rec);
    }
  }

  /** One search-box change per text, in order. */
  function Typing(texts: seq<string>): (es: seq<Event>)
    ensures |es| == |texts|
    ensures forall i :: 0 <= i < |texts| ==> es[i] == TypeSearch(texts[i])
  {
    if texts == [] then [] else [TypeSearch(texts[0])] + Typing(texts[1..])
  }

  /** Keystrokes in quick succession send no request and leave exactly one
      pending search, for the latest text. */
  lemma {:induction false} TypingKeepsOnlyLatest(s: ViewState, texts: seq<string>, rec: Reconciler)
    requires |texts| > 0
    ensures Run(s, Typing(texts), rec) ==
      s.(search := texts[|texts| - 1], pendingSearch := Some(texts[|texts| - 1]))
    decreases |texts|
  {
    var es := Typing(texts);
    assert es[0] == TypeSearch(texts[0]);
    if |texts| == 1 {
      assert es[1..] == [];
    } else {
      assert es[1..] == Typing(texts[1..]);
      TypingKeepsOnlyLatest(SearchTyped(s, texts[0]), texts[1..], rec);
    }
  }

  /** Any number of keystrokes followed by the quiet period send exactly one
      search request, carrying the last text typed. */
  lemma DebounceSendsOneSearch(s: ViewState, texts: seq<string>, rec: Reconciler)
    requires |texts| > 0
    ensures Run(s, Typing(texts) + [TimerFires], rec).requests ==
      s.requests + [SearchProducts(texts[|texts| - 1])]
    ensures Run(s, Typing(texts) + [TimerFires], rec).pendingSearch == None
  {
    RunAppend(s, Typing(texts), [TimerFires], rec);
    TypingKeepsOnlyLatest(s, texts, rec);
  }

  /** The view as a component: fields for its state, methods for its handlers. */
  class ProductsView {
    const reconcile: Reconciler
    var products: seq<Product>
    var filteredProducts: seq<Product>
    var search: string
    var items: seq<LineItem>
    var isLoading: bool
    var pendingSearch: Option<string>
    var requests: seq<Request>
    var notices: seq<Notice>

    function State(): ViewState
      reads this
    {
      ViewState(products, filteredProducts, search, items, isLoading, pendingSearch, requests, notices)
    }

    constructor (reconcile: Reconciler)
      ensures this.reconcile == reconcile && State() == Initial
    {
      this.reconcile := reconcile;
      products, filteredProducts, search, items := [], [], "", [];
      isLoading, pendingSearch, requests, notices := false, None, [], [];
    }

    method PerformAPICall()
      modifies this
      ensures State() == ApiCallStarted(old(State()))
    {
      isLoading := true;
      requests := requests + [GetProducts];
    }

    method PerformAPICallCompleted(reply: Reply<seq<Product>>)
      modifies this
      ensures State() == ApiCallCompleted(old(State()), reply)
    {
      match reply
      case Ok(list) =>
        products := list;
        filteredProducts := list;
        isLoading := false;
      case Failed(Some(r)) =>
        notices := notices + [Notice(r.message, Error)];
        isLoading := false;
      case Failed(None) =>
    }

    /** debounceSearch: the previous timer is cancelled and a new one set. */
    method DebounceSearch(text: string)
      modifies this
      ensures pendingSearch == Some(text)
      ensures State() == old(State()).(pendingSearch := Some(text))
    {
      pendingSearch := Some(text);
    }

    /** The search box's onChange handler. */
    method OnSearchChange(text: string)
      modifies this
      ensures State() == SearchTyped(old(State()), text)
    {
      search := text;
      DebounceSearch(text);
    }

    /** The debounce timer fires and calls performSearch. */
    method TimerFired()
      modifies this
      ensures State() == DebounceElapsed(old(State()))
    {
      if pendingSearch.Some? {
        var text := pendingSearch.value;
        pendingSearch := None;
        PerformSearch(text);
      }
    }

    /** performSearch up to its await. */
    method PerformSearch(text: string)
      modifies this
      ensures State() == old(State()).(isLoading := true, requests := old(requests) + [SearchProducts(text)])
    {
      isLoading := true;
      requests := requests + [SearchProducts(text)];
    }

    method PerformSearchCompleted(reply: Reply<seq<Product>>)
      modifies this
      ensures State() == SearchCompleted(old(State()), reply)
    {
      match reply
      case Ok(list) =>
        filteredProducts := list;
        isLoading := false;
      case Failed(Some(r)) =>
        if r.status == 404 {
          filteredProducts := [];
        }
        isLoading := false;
      case Failed(None) =>
    }

    method FetchCart(token: Option<string>)
      modifies this
      ensures State() == CartFetchStarted(old(State()), token, reconcile)
    {
      if !HasToken(token) {
        items := reconcile(None, products);
        return;
      }
      requests := requests + [GetCart(token.value)];
    }

    method FetchCartCompleted(reply: Reply<seq<CartEntry>>)
      modifies this
      ensures State() == CartFetchCompleted(old(State()), reply, reconcile)
    {
      match reply
      case Ok(entries) =>
        items := reconcile(Some(entries), products);
      case Failed(response) =>
        if response.Some? && response.value.status == 400 {
          notices := notices + [Notice(response.value.message, Error)];
        } else {
          notices := notices + [Notice(GetCartDownMessage, Error)];
        }
        items := reconcile(None, products);
    }

    method AddToCart(token: Option<string>, productId: string, qty: int,
                     preventDuplicate: bool, reply: Reply<seq<CartEntry>>)
      modifies this
      ensures State() == CartAdded(old(State()), token, productId, qty, preventDuplicate, reply, reconcile)
    {
      if !HasToken(token) {
        notices := notices + [Notice(LoginFirstMessage, Warning)];
        return;
      }
      var duplicate := false;
      if preventDuplicate {
        duplicate := IsItemInCart(items, productId);
      }
      if duplicate {
        notices := notices + [Notice(AlreadyInCartMessage, Warning)];
        return;
      }
      requests := requests + [PostCart(token.value, productId, qty)];
      match reply
      case Ok(entries) =>
        items := reconcile(Some(entries), products);
      case Failed(Some(r)) =>
        notices := notices + [Notice(r.message, Error)];
      case Failed(None) =>
        notices := notices + [Notice(PostCartDownMessage, Error)];
    }

    /** The handler a product card's button gets. */
    method AddFromCatalog(token: Option<string>, productId: string, reply: Reply<seq<CartEntry>>)
      modifies this
      ensures State() == CatalogAdd(old(State()), token, productId, reply, reconcile)
    {
      AddToCart(token, productId, 1, true, reply);
    }
  }
}
