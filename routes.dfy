/** The two routers: which middleware runs before which handler, for the
    product and payment endpoints and for the auth, profile and order
    endpoints. */
module Routes {
  import opened Common
  import opened UserModel
  import opened AuthMiddleware

  datatype Verb = Get | Post | Put | Delete

  datatype Handler =
    | CreateProduct | GetAllProducts | GetSingleProduct | GetPhoto | DeleteProduct
    | UpdateProduct | ProductFilters | ProductCount | ProductList | SearchProduct
    | RelatedProducts | ProductCategory | BraintreeToken | BraintreePayment
    | Register | Login | ForgotPassword | Test | UserAuth | AdminAuth | Profile
    | BuyerOrders | AllOrders | OrderStatus

  /** One `router.<verb>(path, ...middleware, handler)` registration. */
  datatype Endpoint = Endpoint(verb: Verb, path: string, chain: seq<Middleware>, handler: Handler)

  /** The product router, in registration order. */
  const ProductRoutes: seq<Endpoint> := [
    Endpoint(Post, "/create-product", [SignIn, Admin, ParseForm], CreateProduct),
    Endpoint(Get, "/get-all-products", [], GetAllProducts),
    Endpoint(Get, "/get-single-product/:slug", [], GetSingleProduct),
    Endpoint(Get, "/get-photo/:pid", [], GetPhoto),
    Endpoint(Delete, "/delete-product/:pid", [SignIn, Admin], DeleteProduct),
    Endpoint(Put, "/update-product/:pid", [SignIn, Admin, ParseForm], UpdateProduct),
    Endpoint(Post, "/product-filters", [], ProductFilters),
    Endpoint(Get, "/product-count", [], ProductCount),
    Endpoint(Get, "/products-list/:page", [], ProductList),
    Endpoint(Get, "/search-product/:keyword", [], SearchProduct),
    Endpoint(Get, "/related-products/:pid/:cid", [], RelatedProducts),
    Endpoint(Get, "/product-category/:slug", [], ProductCategory),
    Endpoint(Get, "/braintree/get-token", [], BraintreeToken),
    Endpoint(Post, "/braintree/payment", [SignIn], BraintreePayment)
  ]

  /** The auth router, in registration order. */
  const AuthRoutes: seq<Endpoint> := [
    Endpoint(Post, "/register", [], Register),
    Endpoint(Post, "/login", [], Login),
    Endpoint(Post, "/forgot-password", [], ForgotPassword),
    Endpoint(Get, "/test", [SignIn, Admin], Test),
    Endpoint(Get, "/user-auth", [SignIn], UserAuth),
    Endpoint(Get, "/admin-auth", [SignIn, Admin], AdminAuth),
    Endpoint(Put, "/profile", [SignIn], Profile),
    Endpoint(Get, "/orders", [SignIn], BuyerOrders),
    Endpoint(Get, "/all-orders", [SignIn, Admin], AllOrders),
    Endpoint(Put, "/order-status/:orderId", [SignIn, Admin], OrderStatus)
  ]

  /** requireSignIn, then isAdmin, then at most the form parser. */
  predicate AdminChain(chain: seq<Middleware>) {
    |chain| >= 2 && chain[0] == SignIn && chain[1] == Admin
    && forall k :: 2 <= k < |chain| ==> chain[k] == ParseForm
  }

  /** The first registration for `verb` and the registered path pattern
      `path`, compared as strings. No two patterns of the same verb overlap
      in either router, so this is the registration Express dispatches to. */
  function Lookup(table: seq<Endpoint>, verb: Verb, path: string): (r: Option<Endpoint>)
    ensures r.Some? ==> r.value in table && r.value.verb == verb && r.value.path == path
    ensures r.None? ==> forall e :: e in table ==> !(e.verb == verb && e.path == path)
  {
    if table == [] then None
    else if table[0].verb == verb && table[0].path == path then Some(table[0])
    else Lookup(table[1..], verb, path)
  }

  predicate ProductAdminHandler(h: Handler) {
    h == CreateProduct || h == DeleteProduct || h == UpdateProduct
  }

  predicate AuthAdminHandler(h: Handler) {
    h == Test || h == AdminAuth || h == AllOrders || h == OrderStatus
  }

  predicate AuthSignedInHandler(h: Handler) {
    h == UserAuth || h == Profile || h == BuyerOrders
  }

  /** Creating, deleting and updating products sit behind requireSignIn and
      then isAdmin, with the form parser only after both; payment needs a
      signed-in user only; every other product endpoint is public. */
  predicate ProductGuarded(e: Endpoint) {
    && (ProductAdminHandler(e.handler) <==> AdminChain(e.chain))
    && (e.handler == BraintreePayment <==> e.chain == [SignIn])
    && (!ProductAdminHandler(e.handler) && e.handler != BraintreePayment <==> e.chain == [])
  }

  /** register, login and forgot-password are public; user-auth, profile and
      orders need a signed-in user; test, admin-auth, all-orders and
      order-status need requireSignIn and then isAdmin. */
  predicate AuthGuarded(e: Endpoint) {
    && (AuthAdminHandler(e.handler) <==> e.chain == [SignIn, Admin])
    && (AuthSignedInHandler(e.handler) <==> e.chain == [SignIn])
    && (!AuthAdminHandler(e.handler) && !AuthSignedInHandler(e.handler) <==> e.chain == [])
  }

  lemma ProductRouteGuards()
    ensures forall i :: 0 <= i < |ProductRoutes| ==> ProductGuarded(ProductRoutes[i])
  {
  }

  lemma AuthRouteGuards()
    ensures forall i :: 0 <= i < |AuthRoutes| ==> AuthGuarded(AuthRoutes[i])
  {
  }

  /** In every chain of both routers requireSignIn precedes isAdmin. */
  lemma SignInPrecedesAdmin()
    ensures forall i :: 0 <= i < |ProductRoutes| ==> SignInBeforeAdmin(ProductRoutes[i].chain)
    ensures forall i :: 0 <= i < |AuthRoutes| ==> SignInBeforeAdmin(AuthRoutes[i].chain)
  {
    assert [SignIn, Admin][..1] == [SignIn];
    assert [SignIn, Admin, ParseForm][..1] == [SignIn];
  }

  /** No two endpoints of a router share a verb and a path, so every
      registration is the one Express dispatches to. */
  lemma RoutesDistinct()
    ensures forall i, j :: 0 <= i < j < |ProductRoutes| ==>
      (ProductRoutes[i].verb, ProductRoutes[i].path) != (ProductRoutes[j].verb, ProductRoutes[j].path)
    ensures forall i, j :: 0 <= i < j < |AuthRoutes| ==>
      (AuthRoutes[i].verb, AuthRoutes[i].path) != (AuthRoutes[j].verb, AuthRoutes[j].path)
  {
  }

  /** Express dispatches every registered verb and path to its own
      registration. */
  lemma {:induction false} DispatchReachesEveryRoute()
    ensures forall i :: 0 <= i < |ProductRoutes| ==>
      Lookup(ProductRoutes, ProductRoutes[i].verb, ProductRoutes[i].path) == Some(ProductRoutes[i])
    ensures forall i :: 0 <= i < |AuthRoutes| ==>
      Lookup(AuthRoutes, AuthRoutes[i].verb, AuthRoutes[i].path) == Some(AuthRoutes[i])
  {
    RoutesDistinct();
    forall i | 0 <= i < |ProductRoutes|
      ensures Lookup(ProductRoutes, ProductRoutes[i].verb, ProductRoutes[i].path) == Some(ProductRoutes[i])
    {
      LookupFindsFirst(ProductRoutes, i);
    }
    forall i | 0 <= i < |AuthRoutes|
      ensures Lookup(AuthRoutes, AuthRoutes[i].verb, AuthRoutes[i].path) == Some(AuthRoutes[i])
    {
      LookupFindsFirst(AuthRoutes, i);
    }
  }

  /** In a table where no earlier entry shares its verb and path, an entry is
      what the lookup finds. */
  lemma {:induction false} LookupFindsFirst(table: seq<Endpoint>, i: nat)
    requires i < |table|
    requires forall j :: 0 <= j < i ==>
      (table[j].verb, table[j].path) != (table[i].verb, table[i].path)
    ensures Lookup(table, table[i].verb, table[i].path) == Some(table[i])
    decreases i
  {
    if i > 0 {
      assert (table[0].verb, table[0].path) != (table[i].verb, table[i].path);
      LookupFindsFirst(table[1..], i - 1);
    }
  }

  /** A fresh request reaches the handler of an admin endpoint of either
      router only with a token that verifies for a stored user of role 1. */
  lemma {:induction false} AdminEndpointsOnlyForAdmins(e: Endpoint, req: Request,
                                                       verify: string -> Verdict, users: seq<User>)
    requires e in ProductRoutes + AuthRoutes && Admin in e.chain
    requires req.user.None?
    requires RunChain(e.chain, req, verify, users).Next?
    ensures verify(req.authorization).Verified?
    ensures AdminUser(users, verify(req.authorization).claims.id)
    ensures RunChain(e.chain, req, verify, users).req.user == Some(verify(req.authorization).claims)
  {
    ProductRouteGuards();
    AuthRouteGuards();
    assert e.chain[0] == SignIn;
    ChainGuards(e.chain, req, verify, users);
  }

  /** On no endpoint of either router does isAdmin read `_id` of a missing
      `req.user`. */
  lemma {:induction false} NoEndpointChecksAnonymousAdmin(e: Endpoint, req: Request,
                                                          verify: string -> Verdict, users: seq<User>)
    requires e in ProductRoutes + AuthRoutes
    ensures RunChain(e.chain, req, verify, users) != Halt(Crash(TypeError("_id")))
  {
    SignInPrecedesAdmin();
    NoAnonymousAdminCheck(e.chain, req, verify, users);
  }
}
