/**
 * The shared HTTP client of lib/api.ts: the endpoint table, the bearer-token
 * writer `setAuthToken`, and the request and response interceptors.
 *
 * What the client keeps between requests (the `Authorization` entry of the
 * client's common default headers, the browser's `localStorage`, and the
 * location a full-page navigation was sent to) is a value, `ClientState`,
 * with one pure transition per operation; the class `ApiClient` holds it in
 * fields and its methods are proved to make those transitions. Server
 * answers are inputs (`Outcome`), never computed.
 */
module Api {
  import opened Wrappers
  import opened JsText
  import opened Json

  /** The localStorage keys the storefront uses. */
  const TokenKey := "token"
  const UserKey := "user"

  // ---------------------------------------------------------------------------
  // Endpoint table
  // ---------------------------------------------------------------------------

  datatype Verb = Get | Post | Put | Delete

  datatype Route = Route(verb: Verb, path: string)

  /** One helper of `authAPI`, `categoriesAPI`, `productsAPI`, `cartAPI` or `ordersAPI`, with its path ids. */
  datatype Endpoint =
    | AuthRegister | AuthLogin | AuthLogout | AuthGetUser
    | CategoriesGetAll | CategoriesGetById(id: int)
    | ProductsGetAll | ProductsGetById(id: int) | ProductsGetByCategory(categoryId: int)
    | CartGet | CartAdd | CartUpdate(id: int) | CartRemove(id: int) | CartClear
    | OrdersGetAll | OrdersGetById(id: int) | OrdersCreate

  /** The id at the end of a path that starts with `prefix`. */
  function IdAfter(prefix: string, path: string): Option<int>
    requires prefix <= path
  {
    ParseInt(path[|prefix|..])
  }

  /** Which helper a verb and path belong to: the inverse of the endpoint table. */
  function ParseRoute(r: Route): Option<Endpoint>
  {
    var p := r.path;
    match r.verb
    case Post =>
      if p == "/register" then Some(AuthRegister)
      else if p == "/login" then Some(AuthLogin)
      else if p == "/logout" then Some(AuthLogout)
      else if p == "/cart/add" then Some(CartAdd)
      else if p == "/orders" then Some(OrdersCreate)
      else None
    case Get =>
      if p == "/user" then Some(AuthGetUser)
      else if p == "/categories" then Some(CategoriesGetAll)
      else if p == "/products" then Some(ProductsGetAll)
      else if p == "/cart" then Some(CartGet)
      else if p == "/orders" then Some(OrdersGetAll)
      else if "/categories/" <= p then
        (match IdAfter("/categories/", p) case Some(id) => Some(CategoriesGetById(id)) case None => None)
      else if "/products/category/" <= p then
        (match IdAfter("/products/category/", p) case Some(id) => Some(ProductsGetByCategory(id)) case None => None)
      else if "/products/" <= p then
        (match IdAfter("/products/", p) case Some(id) => Some(ProductsGetById(id)) case None => None)
      else if "/orders/" <= p then
        (match IdAfter("/orders/", p) case Some(id) => Some(OrdersGetById(id)) case None => None)
      else None
    case Put =>
      if "/cart/" <= p then
        (match IdAfter("/cart/", p) case Some(id) => Some(CartUpdate(id)) case None => None)
      else None
    case Delete =>
      if p == "/cart" then Some(CartClear)
      else if "/cart/" <= p then
        (match IdAfter("/cart/", p) case Some(id) => Some(CartRemove(id)) case None => None)
      else None
  }

  /** A path made of `prefix` and a rendered id reads back as that id. */
  lemma IdAfterRendered(prefix: string, id: int)
    ensures prefix <= prefix + IntToString(id)
    ensures IdAfter(prefix, prefix + IntToString(id)) == Some(id)
  {
    assert (prefix + IntToString(id))[|prefix|..] == IntToString(id);
    IntToStringRoundTrip(id);
  }

  /** The endpoint table: each helper's fixed verb and path, with its id interpolated. */
  function RouteOf(e: Endpoint): (r: Route)
    ensures |r.path| > 1 && r.path[0] == '/'
  {
    match e
    case AuthRegister => Route(Post, "/register")
    case AuthLogin => Route(Post, "/login")
    case AuthLogout => Route(Post, "/logout")
    case AuthGetUser => Route(Get, "/user")
    case CategoriesGetAll => Route(Get, "/categories")
    case CategoriesGetById(id) => Route(Get, "/categories/" + IntToString(id))
    case ProductsGetAll => Route(Get, "/products")
    case ProductsGetById(id) => Route(Get, "/products/" + IntToString(id))
    case ProductsGetByCategory(categoryId) => Route(Get, "/products/category/" + IntToString(categoryId))
    case CartGet => Route(Get, "/cart")
    case CartAdd => Route(Post, "/cart/add")
    case CartUpdate(id) => Route(Put, "/cart/" + IntToString(id))
    case CartRemove(id) => Route(Delete, "/cart/" + IntToString(id))
    case CartClear => Route(Delete, "/cart")
    case OrdersGetAll => Route(Get, "/orders")
    case OrdersGetById(id) => Route(Get, "/orders/" + IntToString(id))
    case OrdersCreate => Route(Post, "/orders")
  }

  /** The table reads back to the helper that produced it. */
  lemma RouteOfParses(e: Endpoint)
    ensures ParseRoute(RouteOf(e)) == Some(e)
  {
    match e
    case CategoriesGetById(id) => CategoryByIdParses(id);
    case ProductsGetById(id) => ProductByIdParses(id);
    case ProductsGetByCategory(id) => ProductsByCategoryParses(id);
    case CartUpdate(id) => CartItemParses(id);
    case CartRemove(id) => CartItemParses(id);
    case OrdersGetById(id) => OrderByIdParses(id);
    case _ =>
  }

  lemma CategoryByIdParses(id: int)
    ensures ParseRoute(Route(Get, "/categories/" + IntToString(id))) == Some(CategoriesGetById(id))
  {
    IdAfterRendered("/categories/", id);
  }

  lemma ProductByIdParses(id: int)
    ensures ParseRoute(Route(Get, "/products/" + IntToString(id))) == Some(ProductsGetById(id))
  {
    var p := "/products/" + IntToString(id);
    IdAfterRendered("/products/", id);
    assert p[1] != "/categories/"[1];
    assert p[10] != "/products/category/"[10];
  }

  lemma ProductsByCategoryParses(id: int)
    ensures ParseRoute(Route(Get, "/products/category/" + IntToString(id))) == Some(ProductsGetByCategory(id))
  {
    var p := "/products/category/" + IntToString(id);
    IdAfterRendered("/products/category/", id);
    assert p[1] != "/categories/"[1];
  }

  lemma CartItemParses(id: int)
    ensures ParseRoute(Route(Put, "/cart/" + IntToString(id))) == Some(CartUpdate(id))
    ensures ParseRoute(Route(Delete, "/cart/" + IntToString(id))) == Some(CartRemove(id))
  {
    IdAfterRendered("/cart/", id);
  }

  lemma OrderByIdParses(id: int)
    ensures ParseRoute(Route(Get, "/orders/" + IntToString(id))) == Some(OrdersGetById(id))
  {
    var p := "/orders/" + IntToString(id);
    IdAfterRendered("/orders/", id);
    assert p[1] != "/categories/"[1];
    assert p[1] != "/products/"[1];
  }

  /** Two helpers never share a verb and a path. */
  lemma RouteOfInjective(e1: Endpoint, e2: Endpoint)
    requires RouteOf(e1) == RouteOf(e2)
    ensures e1 == e2
  {
    RouteOfParses(e1);
    RouteOfParses(e2);
  }

  // ---------------------------------------------------------------------------
  // Requests and server outcomes
  // ---------------------------------------------------------------------------

  /** A request config as the interceptors see it; `headers` is the config's optional header bag. */
  datatype Request = Request(
    route: Route,
    params: seq<(string, string)>,
    headers: Option<map<string, string>>,
    body: Option<Json>)

  /** The `Authorization` header a request carries, if any. */
  function AuthorizationOf(r: Request): Option<string>
  {
    if r.headers.Some? && "Authorization" in r.headers.value then Some(r.headers.value["Authorization"]) else None
  }

  /** `error.response`: the status and the `message` / `errors` of the response body, each possibly absent. */
  datatype ErrorResponse = ErrorResponse(
    status: Option<int>,
    message: Option<string>,
    errors: Option<seq<(string, seq<string>)>>)

  /**
   * A rejected request: whether it is an `AxiosError`, the server's response
   * (absent on a network failure) and the error's own `message`.
   */
  datatype HttpError = HttpError(isAxiosError: bool, response: Option<ErrorResponse>, message: Option<string>)

  /** What the server (or the network) answers to one request. */
  datatype Outcome<+T> = Ok(body: T) | Fail(error: HttpError)

  /** `error.response?.status`. */
  function StatusOf(e: HttpError): Option<int>
  {
    if e.response.Some? then e.response.value.status else None
  }

  /** `error.response?.data?.message`. */
  function ServerMessage(e: HttpError): Option<string>
  {
    if e.response.Some? then e.response.value.message else None
  }

  /** A failure whose response has status 401. */
  predicate IsUnauthorized<T>(o: Outcome<T>)
  {
    o.Fail? && StatusOf(o.error) == Some(401)
  }

  // ---------------------------------------------------------------------------
  // The client's state
  // ---------------------------------------------------------------------------

  /** A present, non-empty string: what JavaScript treats as truthy among `string | null | undefined`. */
  predicate NonEmpty(s: Option<string>)
  {
    s.Some? && s.value != ""
  }

  /**
   * What the client keeps between requests: the `Authorization` entry of
   * the client's common default headers, the browser's `localStorage`, and
   * where a full-page navigation was sent, if anywhere.
   */
  datatype ClientState = ClientState(
    authHeader: Option<string>,
    storage: map<string, string>,
    navigatedTo: Option<string>)

  /** The bearer header that the token stored in `storage` calls for, if a non-empty one is stored. */
  function StoredBearer(storage: map<string, string>): (h: Option<string>)
    ensures h.Some? <==> TokenKey in storage && storage[TokenKey] != ""
    ensures h.Some? ==> h.value == "Bearer " + storage[TokenKey]
  {
    if TokenKey in storage && storage[TokenKey] != "" then Some("Bearer " + storage[TokenKey]) else None
  }

  /**
   * The default header is never stale: when it is set, it is the one the
   * stored token calls for. (It may be missing while a token is stored:
   * after a reload, until the next `setAuthToken`.)
   */
  predicate Coherent(c: ClientState)
  {
    c.authHeader.Some? ==> c.authHeader == StoredBearer(c.storage)
  }

  /** The two copies of the token agree exactly. */
  predicate Synced(c: ClientState)
  {
    c.authHeader == StoredBearer(c.storage)
  }

  /** localStorage after `setAuthToken(token)`: the token stored under "token", or that key removed. */
  function TokenWritten(storage: map<string, string>, token: Option<string>): (s: map<string, string>)
    ensures NonEmpty(token) ==> TokenKey in s && s[TokenKey] == token.value
    ensures !NonEmpty(token) ==> TokenKey !in s
    ensures forall k | k != TokenKey :: (k in s <==> k in storage) && (k in s ==> s[k] == storage[k])
  {
    if NonEmpty(token) then storage[TokenKey := token.value] else storage - {TokenKey}
  }

  /**
   * `setAuthToken(token)`: a non-empty token becomes the default bearer
   * header and localStorage['token']; `null` or `""` removes both. The two
   * copies agree afterwards, and nothing else changes.
   */
  function WithToken(c: ClientState, token: Option<string>): (d: ClientState)
    ensures d.storage == TokenWritten(c.storage, token)
    ensures d.authHeader == (if NonEmpty(token) then Some("Bearer " + token.value) else None)
    ensures Synced(d) && Coherent(d)
    ensures d.navigatedTo == c.navigatedTo
  {
    if NonEmpty(token) then
      ClientState(Some("Bearer " + token.value), c.storage[TokenKey := token.value], c.navigatedTo)
    else
      ClientState(None, c.storage - {TokenKey}, c.navigatedTo)
  }

  /** Setting the same token twice leaves the client as setting it once. */
  lemma WithTokenIdempotent(c: ClientState, token: Option<string>)
    ensures WithToken(WithToken(c, token), token) == WithToken(c, token)
  {
  }

  /** `localStorage.setItem(key, value)`. Writing any key but "token" keeps the client coherent. */
  function WithItem(c: ClientState, key: string, value: string): (d: ClientState)
    ensures key in d.storage && d.storage[key] == value
    ensures forall k | k != key :: (k in d.storage <==> k in c.storage) && (k in d.storage ==> d.storage[k] == c.storage[k])
    ensures d.authHeader == c.authHeader && d.navigatedTo == c.navigatedTo
    ensures key != TokenKey && Coherent(c) ==> Coherent(d)
  {
    c.(storage := c.storage[key := value])
  }

  /**
   * The response interceptor, run on every answer before the caller sees
   * it. A success passes through. A failure with status 401 clears the
   * token (header and storage) and the stored user and sends the window to
   * `/login`; every failure is then rejected again with the same error.
   */
  function AfterResponse<T>(c: ClientState, server: Outcome<T>): (d: ClientState)
    ensures !IsUnauthorized(server) ==> d == c
    ensures IsUnauthorized(server) ==>
              && d.authHeader == None && d.navigatedTo == Some("/login")
              && TokenKey !in d.storage && UserKey !in d.storage
              && forall k | k != TokenKey && k != UserKey ::
                   (k in d.storage <==> k in c.storage) && (k in d.storage ==> d.storage[k] == c.storage[k])
    ensures Coherent(c) ==> Coherent(d)
  {
    if IsUnauthorized(server) then
      var d := WithToken(c, None);
      d.(storage := d.storage - {UserKey}, navigatedTo := Some("/login"))
    else c
  }

  /** After a 401 no request carries a token, whatever the client held before. */
  lemma UnauthorizedLogsOut<T>(c: ClientState, server: Outcome<T>)
    requires IsUnauthorized(server)
    ensures StoredBearer(AfterResponse(c, server).storage) == None
    ensures AuthorizationOf(Send(AfterResponse(c, server), ProductsGetAll, [], None)) == None
  {
  }

  // ---------------------------------------------------------------------------
  // Sending a request
  // ---------------------------------------------------------------------------

  /** The client's default headers as a request starts with them. */
  function DefaultHeaders(c: ClientState): (h: map<string, string>)
    ensures "Content-Type" in h && h["Content-Type"] == "application/json"
    ensures "Authorization" in h <==> c.authHeader.Some?
    ensures c.authHeader.Some? ==> h["Authorization"] == c.authHeader.value
  {
    var base := map["Content-Type" := "application/json"];
    if c.authHeader.Some? then base["Authorization" := c.authHeader.value] else base
  }

  /**
   * The request interceptor: with a non-empty stored token and a header
   * bag, the request's `Authorization` is overwritten with that token's
   * bearer header; otherwise the config passes through untouched. It reads
   * localStorage, never the default header.
   */
  function InterceptRequest(c: ClientState, config: Request): (r: Request)
    ensures r.route == config.route && r.params == config.params && r.body == config.body
    ensures r.headers.Some? <==> config.headers.Some?
    ensures StoredBearer(c.storage).Some? && config.headers.Some? ==>
              AuthorizationOf(r) == StoredBearer(c.storage)
              && forall k | k != "Authorization" ::
                   (k in r.headers.value <==> k in config.headers.value)
                   && (k in r.headers.value ==> r.headers.value[k] == config.headers.value[k])
    ensures StoredBearer(c.storage).None? || config.headers.None? ==> r == config
  {
    var bearer := StoredBearer(c.storage);
    if bearer.Some? && config.headers.Some? then
      config.(headers := Some(config.headers.value["Authorization" := bearer.value]))
    else config
  }

  /**
   * What leaves the browser for one helper call: the default headers are
   * merged in, then the request interceptor runs. While the client is
   * coherent, the request carries exactly the stored token's bearer header,
   * or none when no token is stored.
   */
  function Send(c: ClientState, e: Endpoint, params: seq<(string, string)>, body: Option<Json>): (r: Request)
    ensures r.route == RouteOf(e) && r.params == params && r.body == body
    ensures r.headers.Some? && "Content-Type" in r.headers.value
    ensures StoredBearer(c.storage).Some? ==> AuthorizationOf(r) == StoredBearer(c.storage)
    ensures Coherent(c) ==> AuthorizationOf(r) == StoredBearer(c.storage)
  {
    InterceptRequest(c, Request(RouteOf(e), params, Some(DefaultHeaders(c)), body))
  }

  /**
   * A session end to end: once a token is set every request carries it, and
   * once it is cleared no request carries one.
   */
  lemma TokenLifecycle(c: ClientState, token: string, e: Endpoint)
    requires token != ""
    ensures AuthorizationOf(Send(WithToken(c, Some(token)), e, [], None)) == Some("Bearer " + token)
    ensures AuthorizationOf(Send(WithToken(WithToken(c, Some(token)), None), e, [], None)) == None
  {
  }

  // ---------------------------------------------------------------------------
  // The client object
  // ---------------------------------------------------------------------------

  /** The module's axios instance together with the browser state it touches. */
  class ApiClient {
    var authHeader: Option<string>
    var storage: map<string, string>
    var navigatedTo: Option<string>

    /**
     * A page load: the module creates the client with no default
     * `Authorization`, over whatever localStorage kept from earlier visits.
     */
    constructor (restored: map<string, string>)
      ensures State() == ClientState(None, restored, None)
      ensures Valid()
    {
      authHeader := None;
      storage := restored;
      navigatedTo := None;
    }

    function State(): ClientState
      reads this
    {
      ClientState(authHeader, storage, navigatedTo)
    }

    /** The default header and the stored token agree; every operation of the client keeps this. */
    ghost predicate Valid()
      reads this
    {
      Coherent(State())
    }

    /** `setAuthToken`. */
    method SetAuthToken(token: Option<string>)
      modifies this
      ensures State() == WithToken(old(State()), token)
      ensures Valid()
    {
      if NonEmpty(token) {
        authHeader := Some("Bearer " + token.value);
        storage := storage[TokenKey := token.value];
      } else {
        authHeader := None;
        storage := storage - {TokenKey};
      }
    }

    /** `localStorage.setItem(key, value)`. */
    method SetItem(key: string, value: string)
      modifies this
      ensures State() == WithItem(old(State()), key, value)
      ensures key != TokenKey && old(Valid()) ==> Valid()
    {
      storage := storage[key := value];
    }

    /** A request goes out: the answer the server gives is an input, and it passes the response interceptor. */
    method Dispatch<T>(server: Outcome<T>) returns (r: Outcome<T>)
      modifies this
      ensures r == server
      ensures State() == AfterResponse(old(State()), server)
      ensures old(Valid()) ==> Valid()
    {
      if IsUnauthorized(server) {
        SetAuthToken(None);
        storage := storage - {UserKey};
        navigatedTo := Some("/login");
      }
      r := server;
    }
  }
}
