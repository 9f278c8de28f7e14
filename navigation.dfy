/**
 * The routes the router registers and the result every screen handler
 * produces: a navigation to a route, an error message shown to the user,
 * or nothing at all.
 */
module Navigation {

  /** One value per registered path; NotFound is the catch-all route. */
  datatype Route =
    | Welcome
    | MedicationType
    | OtcCatalog
    | Address
    | Insurance
    | Medications
    | Delivery
    | Summary
    | Settings
    | NotFound

  /** What a handler does: go to a route, report an error, or nothing. */
  datatype Outcome = Navigate(to: Route) | Error(msg: string) | NoOp

  /** The path string registered for each route. */
  function Path(r: Route): string
  {
    match r
    case Welcome => "/"
    case MedicationType => "/medication-type"
    case OtcCatalog => "/otc-catalog"
    case Address => "/address"
    case Insurance => "/insurance"
    case Medications => "/medications"
    case Delivery => "/delivery"
    case Summary => "/summary"
    case Settings => "/settings"
    case NotFound => "*"
  }

  /** The home link of every screen: the route registered at the root path. */
  function Home(): (o: Outcome)
    ensures o.Navigate? && Path(o.to) == "/"
  {
    Navigate(Welcome)
  }

  /** The route the router selects for a path; unlisted paths fall through to NotFound. */
  function RouteOf(path: string): (r: Route)
    ensures r != NotFound ==> Path(r) == path
    ensures r == NotFound <==> forall q :: q != NotFound ==> Path(q) != path
  {
    if path == "/" then Welcome
    else if path == "/medication-type" then MedicationType
    else if path == "/otc-catalog" then OtcCatalog
    else if path == "/address" then Address
    else if path == "/insurance" then Insurance
    else if path == "/medications" then Medications
    else if path == "/delivery" then Delivery
    else if path == "/summary" then Summary
    else if path == "/settings" then Settings
    else NotFound
  }

  /** Every route is reached through its own path, so no two routes share a path. */
  lemma RouteOfPath(r: Route)
    ensures RouteOf(Path(r)) == r
  {
  }

  lemma PathInjective(r: Route, q: Route)
    requires Path(r) == Path(q)
    ensures r == q
  {
    RouteOfPath(r);
    RouteOfPath(q);
  }
}
