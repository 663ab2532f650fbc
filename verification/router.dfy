/**
 * The app's REST routes (`enum APIRouter`) and the URL parts each route
 * maps to. Every part is a total function of the route.
 */
module Router {
  import opened Text

  datatype Route =
    | GetAuthorities
    | GetRatings
    | GetEstablishments(authorityId: int)
    | GetProducts

  /** A `URLQueryItem`; the router always supplies a value. */
  datatype QueryItem = QueryItem(name: string, value: string)

  const FoodRatingsHost := "api.ratings.food.gov.uk"
  const ProductsHost := "davnopora.fun"

  function Host(route: Route): string {
    match route
    case GetAuthorities | GetRatings | GetEstablishments(_) => FoodRatingsHost
    case GetProducts => ProductsHost
  }

  function Scheme(route: Route): string {
    "https"
  }

  function Path(route: Route): string {
    match route
    case GetAuthorities => "/authorities/basic"
    case GetRatings => "/ratings"
    case GetEstablishments(_) => "/establishments"
    case GetProducts => "/kir/food"
  }

  function Method(route: Route): string {
    "GET"
  }

  function Parameters(route: Route): seq<QueryItem> {
    match route
    case GetAuthorities | GetRatings | GetProducts => []
    case GetEstablishments(authorityId) => [QueryItem("localAuthorityId", DecimalString(authorityId))]
  }

  /** Two routes are of the same enum case (associated values ignored). */
  predicate SameCase(r1: Route, r2: Route) {
    && r1.GetAuthorities? == r2.GetAuthorities?
    && r1.GetRatings? == r2.GetRatings?
    && r1.GetEstablishments? == r2.GetEstablishments?
    && r1.GetProducts? == r2.GetProducts?
  }

  /** Every route is fetched with GET over HTTPS. */
  lemma SchemeAndMethodAreFixed(route: Route)
    ensures Scheme(route) == "https"
    ensures Method(route) == "GET"
  {
  }

  /** Only the products route goes to the products host; the rest go to the food-ratings API. */
  lemma HostByRoute(route: Route)
    ensures Host(route) == ProductsHost <==> route.GetProducts?
    ensures Host(route) == FoodRatingsHost <==> !route.GetProducts?
  {
  }

  /** The path identifies the route's case: equal paths exactly for equal cases. */
  lemma PathIdentifiesCase(r1: Route, r2: Route)
    ensures Path(r1) == Path(r2) <==> SameCase(r1, r2)
  {
  }

  /** Only the establishments route carries a query, and it is one `localAuthorityId` item. */
  lemma ParametersByRoute(route: Route)
    ensures Parameters(route) == [] <==> !route.GetEstablishments?
    ensures route.GetEstablishments? ==>
      && |Parameters(route)| == 1
      && Parameters(route)[0].name == "localAuthorityId"
      && ParseDecimal(Parameters(route)[0].value) == route.authorityId
  {
    if route.GetEstablishments? {
      DecimalRoundTrip(route.authorityId);
    }
  }

  /** Distinct authority ids give distinct queries. */
  lemma EstablishmentsQueryInjective(a: int, b: int)
    ensures Parameters(GetEstablishments(a)) == Parameters(GetEstablishments(b)) ==> a == b
  {
    if Parameters(GetEstablishments(a)) == Parameters(GetEstablishments(b)) {
      assert Parameters(GetEstablishments(a))[0].value == Parameters(GetEstablishments(b))[0].value;
      DecimalStringInjective(a, b);
    }
  }
}
