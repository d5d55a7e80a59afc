/** The request/response surface of app.py with Flask left out: the session
    value each request carries, the outcome each route produces, and the
    `unauthorized` handler that `@login_required` falls back to
    (app.py:23-27). */
module Http {
  import opened Wrappers
  import opened Text
  import opened Models

  datatype Verb = Get | Post

  /** What the signed session cookie says about the requester. */
  datatype Session = Anonymous | Authenticated(userId: int)

  /** Where a redirect points: the listing, the login page with its `next`
      hint, or a URL taken from the request. */
  datatype Target = IndexPage | LoginPage(next: Option<string>) | Url(url: string)

  /** The templates the web routes render, with what each is given. */
  datatype View =
    | IndexView(products: seq<Product>)
    | LoginView
    | RegisterView
    | ProductForm(action: string, product: Option<Product>)

  datatype Body =
    | Empty
    | Html(view: View, flashes: seq<string>)
    | JsonObject(fields: Dict)
    | JsonArray(items: seq<Dict>)

  datatype Response = Response(status: nat, body: Body, location: Option<Target>)

  /** `redirect(...)`: Flask's default 302 Found. */
  function Redirect(t: Target): (r: Response)
    ensures r.status == 302 && r.location == Some(t)
  {
    Response(302, Empty, Some(t))
  }

  function Page(v: View, flashes: seq<string>): (r: Response)
    ensures r.status == 200 && r.body.Html? && r.body.view == v && r.location.None?
  {
    Response(200, Html(v, flashes), None)
  }

  /** `get_or_404`. */
  const NotFound := Response(404, Empty, None)
  /** A `request.form[key]` with the key missing (BadRequestKeyError). */
  const BadRequest := Response(400, Empty, None)
  /** An exception the application does not catch: a JSON `KeyError`, a
      `ValueError` from `float()`/`int()`, an `IntegrityError` at commit. */
  const ServerError := Response(500, Empty, None)

  const ApiPrefix := "/api/"
  const UnauthorizedJson: Dict := map["error" := JStr("Unauthorized")]

  /** `unauthorized()` (app.py:23-27): API paths get a JSON 401, every other
      path a redirect to the login page whose `next` is the requested URL. */
  function Unauthorized(path: string, url: string): (r: Response)
    ensures StartsWith(path, ApiPrefix) ==>
              r.status == 401 && r.body == JsonObject(UnauthorizedJson) && r.location.None?
    ensures !StartsWith(path, ApiPrefix) ==>
              r.status == 302 && r.location == Some(LoginPage(Some(url)))
  {
    if StartsWith(path, ApiPrefix) then Response(401, JsonObject(UnauthorizedJson), None)
    else Redirect(LoginPage(Some(url)))
  }

  /** `@login_required`: nothing when the requester is logged in, otherwise
      the response that ends the request before the view runs. */
  function Gate(loggedIn: bool, path: string, url: string): (r: Option<Response>)
    ensures r.None? <==> loggedIn
    ensures r.Some? ==> r.value == Unauthorized(path, url)
  {
    if loggedIn then None else Some(Unauthorized(path, url))
  }

  // The paths of the gated routes, as `request.path` holds them.

  const LogoutPath := "/logout"
  const AddPath := "/add"
  function EditPath(id: nat): string { "/edit/" + Decimal(id) }
  function DeletePath(id: nat): string { "/delete/" + Decimal(id) }
  const ApiProductsPath := "/api/products"
  function ApiProductPath(id: nat): string { "/api/products/" + Decimal(id) }

  /** Every gated API route answers an anonymous request with the JSON 401. */
  lemma ApiRoutesGet401(id: nat, url: string)
    ensures Unauthorized(ApiProductsPath, url).status == 401
    ensures Unauthorized(ApiProductPath(id), url).status == 401
    ensures Unauthorized(ApiProductPath(id), url).body == JsonObject(UnauthorizedJson)
  {
  }

  /** Every gated web route answers an anonymous request with a redirect to
      the login page carrying the requested URL. */
  lemma WebRoutesRedirectToLogin(id: nat, url: string)
    ensures Unauthorized(LogoutPath, url) == Redirect(LoginPage(Some(url)))
    ensures Unauthorized(AddPath, url) == Redirect(LoginPage(Some(url)))
    ensures Unauthorized(EditPath(id), url) == Redirect(LoginPage(Some(url)))
    ensures Unauthorized(DeletePath(id), url) == Redirect(LoginPage(Some(url)))
  {
    assert LogoutPath[1] == 'l' && AddPath[1] == 'a' && AddPath[2] == 'd';
    assert EditPath(id)[1] == 'e';
    assert DeletePath(id)[1] == 'd';
  }
}
