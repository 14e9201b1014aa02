/**
 * AuthHttpRouter (HttpServices/AuthHttpRouter.swift): the two requests of the authentication
 * API and, for each, the pieces a request is built from: base URL, path, HTTP method,
 * headers, query parameters and JSON body.
 */
module Router {
  import opened Wrappers
  import opened Models

  datatype AuthHttpRouter = SignUp(user: AuthModel) | ValidateEmail(email: string)

  /** Alamofire's HTTPMethod values. */
  datatype HttpMethod = Connect | Delete | Get | Head | Options | Patch | Post | Put | Trace

  datatype HttpHeader = HttpHeader(name: string, value: string)

  const BaseUrl := "https://letscodeeasy.com/groceryapi/public/api"
  const SignUpPath := "register"
  const ValidateEmailPath := "validate/email"
  /** The header name carries a trailing colon, exactly as written in the router. */
  const ContentTypeName := "Content-Type:"
  const JsonContentType := "application/json; charset=UTF-8"

  /** The same host and prefix for every route. */
  function BaseUrlString(route: AuthHttpRouter): (url: string)
    ensures url == BaseUrl
  {
    BaseUrl
  }

  /** Each route has its own non-empty path; the router's `default: ""` arm never applies. */
  function Path(route: AuthHttpRouter): (path: string)
    ensures path != ""
    ensures path == SignUpPath <==> route.SignUp?
    ensures path == ValidateEmailPath <==> route.ValidateEmail?
  {
    match route
    case SignUp(_) => SignUpPath
    case ValidateEmail(_) => ValidateEmailPath
  }

  /** Both routes are POSTs; the router's `default: .get` arm never applies. */
  function Method(route: AuthHttpRouter): (m: HttpMethod)
    ensures m == Post && m != Get
  {
    match route
    case SignUp(_) => Post
    case ValidateEmail(_) => Post
  }

  /** Exactly one header, the JSON content type, on every route. */
  function Headers(route: AuthHttpRouter): (h: Option<seq<HttpHeader>>)
    ensures h.Some? && |h.value| == 1
    ensures h.value[0].name == ContentTypeName && h.value[0].value == JsonContentType
  {
    match route
    case SignUp(_) => Some([HttpHeader(ContentTypeName, JsonContentType)])
    case ValidateEmail(_) => Some([HttpHeader(ContentTypeName, JsonContentType)])
  }

  /** No route carries URL parameters. */
  function Parameters(route: AuthHttpRouter): (p: Option<map<string, Json>>)
    ensures p.None?
  {
    None
  }

  /**
   * The JSON body: the user record for sign-up, a one-key object `{"email": ...}` for
   * email validation.
   */
  function Body(route: AuthHttpRouter): (body: Json)
    ensures body.JObject?
    ensures route.SignUp? ==> body == EncodeAuthModel(route.user)
    ensures route.ValidateEmail? ==> body.fields.Keys == {EmailKey} && body.fields[EmailKey] == JString(route.email)
  {
    match route
    case SignUp(user) => EncodeAuthModel(user)
    case ValidateEmail(email) => JObject(map[EmailKey := JString(email)])
  }

  /** Everything the router contributes to one HTTP request. */
  datatype RequestDescriptor = RequestDescriptor(
    baseUrl: string,
    path: string,
    httpMethod: HttpMethod,
    headers: Option<seq<HttpHeader>>,
    parameters: Option<map<string, Json>>,
    body: Json)

  function Describe(route: AuthHttpRouter): (d: RequestDescriptor)
    ensures d.baseUrl == BaseUrl && d.httpMethod == Post && d.parameters.None?
    ensures d.headers == Some([HttpHeader(ContentTypeName, JsonContentType)])
  {
    RequestDescriptor(BaseUrlString(route), Path(route), Method(route), Headers(route), Parameters(route), Body(route))
  }

  /**
   * How a receiver tells the routes apart: by path, then by reading the body.
   * Used as the inverse of Describe.
   */
  function RouteOf(d: RequestDescriptor): (r: Option<AuthHttpRouter>)
    ensures r.Some? ==> d.path == Path(r.value)
  {
    if d.path == SignUpPath then
      match DecodeAuthModel(d.body)
      case None => None
      case Some(user) => Some(SignUp(user))
    else if d.path == ValidateEmailPath then
      match StringMember(if d.body.JObject? then d.body.fields else map[], EmailKey)
      case None => None
      case Some(email) => Some(ValidateEmail(email))
    else None
  }

  /** The request descriptor determines the route and its payload completely. */
  lemma RouteOfDescribe(route: AuthHttpRouter)
    ensures RouteOf(Describe(route)) == Some(route)
  {
    match route
    case SignUp(user) => AuthModelRoundTrip(user);
    case ValidateEmail(email) =>
  }

  /** Two routes that build the same request are the same route. */
  lemma DescribeInjective(r1: AuthHttpRouter, r2: AuthHttpRouter)
    requires Describe(r1) == Describe(r2)
    ensures r1 == r2
  {
    RouteOfDescribe(r1);
    RouteOfDescribe(r2);
  }
}
