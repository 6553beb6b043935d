/** Route gating of the storefront: the administrator guard (AdminRoute),
    the route table of the application and the way the guards nest in it.
    The authentication guard (PrivateRoute) is not part of this model: its
    decision enters as a parameter, either admitting the child or showing a
    view of its own. */
module Routing {
  import opened Wrappers
  import opened Text

  datatype Screen =
    | ProductListScreen
    | LoginScreen
    | RegisterScreen
    | ProductDetailScreen(id: string)
    | CartScreen
    | OrdersScreen
    | AdminPanelScreen

  /** What ends up on the screen. */
  datatype View =
    | Pending                              // a loading placeholder
    | Redirect(to: string, replace: bool)  // <Navigate to=… replace />
    | Page(screen: Screen)

  /** AdminRoute: a placeholder while the session loads, then a redirect
      home for a non-administrator, else the children. */
  function AdminRoute(loading: bool, isAdmin: bool, children: View): View {
    if loading then Pending
    else if !isAdmin then Redirect("/", true)
    else children
  }

  /** The guard's three outcomes; the children show exactly when the
      session has loaded and the user is an administrator. */
  lemma AdminRouteOutcomes(loading: bool, isAdmin: bool, children: View)
    ensures loading ==> AdminRoute(loading, isAdmin, children) == Pending
    ensures !loading && !isAdmin ==> AdminRoute(loading, isAdmin, children) == Redirect("/", true)
    ensures !loading && isAdmin ==> AdminRoute(loading, isAdmin, children) == children
    ensures children.Page? ==>
              (AdminRoute(loading, isAdmin, children) == children <==> !loading && isAdmin)
  {
  }

  /** An element of the route table. */
  datatype Element =
    | Show(screen: Screen)
    | Private(child: Element)   // <PrivateRoute>
    | AdminOnly(child: Element) // <AdminRoute>
    | NavigateHome              // <Navigate to="/" replace />

  /** What the guards see: the decision of PrivateRoute (None: it admits
      its child) and the session's loading and admin flags. */
  datatype Guards = Guards(privateGate: Option<View>, loading: bool, isAdmin: bool)

  function Render(e: Element, g: Guards): View {
    match e
    case Show(s) => Page(s)
    case Private(c) => if g.privateGate.Some? then g.privateGate.value else Render(c, g)
    case AdminOnly(c) => AdminRoute(g.loading, g.isAdmin, Render(c, g))
    case NavigateHome => Redirect("/", true)
  }

  /** The path's segments as the route patterns compare them: routes
      match without regard to case (React Router's default, caseSensitive
      unset), so a segment is compared in lower case. */
  function LowerSegments(path: seq<string>): seq<string> {
    seq(|path|, i requires 0 <= i < |path| => ToLower(path[i]))
  }

  /** The route table, on the path's non-empty segments; the first route
      that matches wins. The static segments match in any case; the
      product id is passed on as written. */
  function RouteOf(path: seq<string>): Element {
    var low := LowerSegments(path);
    if low == [] then Show(ProductListScreen)
    else if low == ["login"] then Show(LoginScreen)
    else if low == ["register"] then Show(RegisterScreen)
    else if |low| == 2 && low[0] == "product" then Show(ProductDetailScreen(path[1]))
    else if low == ["cart"] then Private(Show(CartScreen))
    else if low == ["orders"] then Private(Show(OrdersScreen))
    else if low[0] == "admin" then Private(AdminOnly(Show(AdminPanelScreen)))
    else NavigateHome
  }

  /** The catalogue, the sign-in and sign-up forms and a product page show
      whatever the guards would decide. */
  lemma PublicRoutes(path: seq<string>, g: Guards)
    requires var low := LowerSegments(path);
             low == [] || low == ["login"] || low == ["register"] || (|low| == 2 && low[0] == "product")
    ensures Render(RouteOf(path), g).Page?
    ensures Render(RouteOf(path), g) == Render(RouteOf(path), Guards(Some(Pending), true, false))
  {
  }

  /** The cart and the order history pass the authentication guard only. */
  lemma PrivateRoutes(path: seq<string>, g: Guards)
    requires LowerSegments(path) == ["cart"] || LowerSegments(path) == ["orders"]
    ensures g.privateGate.Some? ==> Render(RouteOf(path), g) == g.privateGate.value
    ensures g.privateGate.None? ==>
              Render(RouteOf(path), g) == Page(if LowerSegments(path) == ["cart"] then CartScreen else OrdersScreen)
  {
  }

  /** "admin" differs from every earlier route's first segment in its first
      letter, so a path under /admin reaches the administrator's route. */
  lemma AdminFirst(low: seq<string>)
    requires |low| > 0 && low[0] == "admin"
    ensures low != ["login"] && low != ["register"] && low != ["cart"] && low != ["orders"]
    ensures !(|low| == 2 && low[0] == "product")
  {
    assert low[0][0] == 'a';
  }

  /** Under /admin the authentication guard decides first; only when it
      admits does the administrator guard decide. */
  lemma AdminRoutes(path: seq<string>, g: Guards)
    requires |path| > 0 && ToLower(path[0]) == "admin"
    ensures g.privateGate.Some? ==> Render(RouteOf(path), g) == g.privateGate.value
    ensures g.privateGate.None? ==>
              Render(RouteOf(path), g) == AdminRoute(g.loading, g.isAdmin, Page(AdminPanelScreen))
  {
    AdminFirst(LowerSegments(path));
    assert RouteOf(path) == Private(AdminOnly(Show(AdminPanelScreen)));
    assert Render(Show(AdminPanelScreen), g) == Page(AdminPanelScreen);
  }

  /** The administration panel shows only to a loaded administrator that
      the authentication guard admitted, whatever the path. */
  lemma AdminPanelGated(path: seq<string>, g: Guards)
    requires g.privateGate.Some? ==> !g.privateGate.value.Page?
    requires Render(RouteOf(path), g) == Page(AdminPanelScreen)
    ensures g.privateGate.None? && !g.loading && g.isAdmin
    ensures |path| > 0 && ToLower(path[0]) == "admin"
  {
  }

  /** Every other path redirects home, replacing the history entry: its
      segments, in any case, name none of the routes. */
  lemma UnknownPathsRedirect(path: seq<string>, g: Guards)
    requires RouteOf(path) == NavigateHome
    ensures Render(RouteOf(path), g) == Redirect("/", true)
    ensures var low := LowerSegments(path);
            && low != [] && low != ["login"] && low != ["register"] && low != ["cart"] && low != ["orders"]
            && !(|low| == 2 && low[0] == "product") && low[0] != "admin"
  {
  }

  /** Case does not matter to the route table: lower-casing the path picks
      the same route, and only the product id passed on is lower-cased too. */
  lemma {:induction false} RoutesIgnoreCase(path: seq<string>)
    ensures RouteOf(LowerSegments(path))
         == (match RouteOf(path)
             case Show(ProductDetailScreen(id)) => Show(ProductDetailScreen(ToLower(id)))
             case e => e)
  {
    var low := LowerSegments(path);
    forall i | 0 <= i < |path| ensures LowerSegments(low)[i] == low[i] {
      ToLowerIdempotent(path[i]);
    }
    assert LowerSegments(low) == low;
  }

  /** "/Cart" and "/ADMIN/users" reach the cart and the administration
      panel as their lower-case spellings do. */
  lemma MixedCaseExamples()
    ensures RouteOf(["Cart"]) == Private(Show(CartScreen))
    ensures RouteOf(["ADMIN", "users"]) == Private(AdminOnly(Show(AdminPanelScreen)))
    ensures RouteOf(["Product", "7"]) == Show(ProductDetailScreen("7"))
  {
    assert ToLower("Cart") == "cart";
    assert LowerSegments(["Cart"]) == ["cart"];
    var admin := LowerSegments(["ADMIN", "users"]);
    assert admin[0] == "admin";
    AdminFirst(admin);
    assert ToLower("Product") == "product" && ToLower("7") == "7";
    assert LowerSegments(["Product", "7"]) == ["product", "7"];
  }

  /** The session provider renders its children only once loading is over
      (and the start-up fetch never turns it back on). */
  function UnderProvider(loading: bool, children: View): View {
    if loading then Pending else children
  }

  /** So the administrator guard's own placeholder never shows inside the
      application: under the provider, the guard sees loading off. */
  lemma AdminPlaceholderUnreachable(path: seq<string>, g: Guards)
    ensures UnderProvider(g.loading, Render(RouteOf(path), g))
         == UnderProvider(g.loading, Render(RouteOf(path), g.(loading := false)))
  {
  }
}
