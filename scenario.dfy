/** What a caller can conclude from the route contracts alone: the
    register / create / logout / list / delete walk-through of the catalogue,
    and the protection checks of test_app.py. */
module Scenario {
  import opened Wrappers
  import opened Models
  import opened Store
  import opened Listing
  import opened Http
  import opened Forms
  import opened App

  const Widget := Product(1, "Widget", None, "W1", 9.99, 5, None, None, None, None)
  const WidgetJson: Dict := map["name" := JStr("Widget"), "sku" := JStr("W1"),
                                "price" := JNum(9.99), "stock_quantity" := JInt(5)]

  lemma WidgetJsonCreatesWidget()
    ensures ApiNewProduct(1, WidgetJson) == Some(Widget)
    ensures ApiNewProduct(2, WidgetJson).Some? && ApiNewProduct(2, WidgetJson).value.sku == "W1"
  {
  }

  /** A create that sends `"stock_quantity": null` stores the column
      default 0, while an update that sends it fails the NOT NULL column. */
  lemma NullStockOnCreateAndUpdate()
    ensures ApiNewProduct(1, WidgetJson["stock_quantity" := JNull]) == Some(Widget.(stockQuantity := 0))
    ensures ApiMerge(Widget, map["stock_quantity" := JNull]).None?
  {
  }

  /** Registering logs the new user in. */
  method RegisterAlice(h: Hasher, co: Coercions, salt: string) returns (c: Catalog, s: Session)
    ensures c.Valid() && c.products == [] && c.nextProductId == 1 && |c.users| == 1 && c.hasher == h
    ensures c.users[0].id == 1 && c.users[0].username == "alice"
    ensures c.users[0].passwordHash == Some(GeneratePasswordHash(h, "pw1", salt))
    ensures s == Authenticated(1) && c.LoggedIn(s) && fresh(c)
  {
    c := new Catalog(h, co);
    var r;
    r, s := c.Register(Anonymous, Post, map["username" := "alice", "password" := "pw1"], salt);
    assert r == Redirect(IndexPage);
  }

  /** The API creates the product with id 1; a second create with the same
      sku commits nothing. */
  method CreateWidget(c: Catalog, s: Session, url: string)
    requires c.Valid() && c.products == [] && c.nextProductId == 1 && c.LoggedIn(s)
    modifies c
    ensures c.Valid() && c.products == [Widget] && c.users == old(c.users)
  {
    WidgetJsonCreatesWidget();
    var r := c.ApiCreateProduct(s, WidgetJson, url);
    assert r.status == 201 && r.body == JsonObject(ToDict(Widget));
    assert c.products == [Widget];
    r := c.ApiCreateProduct(s, WidgetJson, url);
    assert r == ServerError && c.products == [Widget];
  }

  /** Logged out, the catalogue still lists, but neither surface writes. */
  method AnonymousCannotWrite(c: Catalog, url: string)
    requires c.Valid() && c.products == [Widget]
    modifies c
    ensures c.Valid() && c.products == [Widget] && c.users == old(c.users)
  {
    var r := c.ApiGetProducts(None);
    assert r.body == JsonArray([ToDict(Widget)]);
    r := c.ApiDeleteProduct(Anonymous, 1, url);
    ApiRoutesGet401(1, url);
    assert r.status == 401 && c.products == [Widget];
    r := c.AddProduct(Anonymous, Get, map[], url);
    WebRoutesRedirectToLogin(1, url);
    assert r == Redirect(LoginPage(Some(url))) && c.products == [Widget];
  }

  /** Logging back in follows `next`; the delete then succeeds once. */
  method LoginAndDelete(c: Catalog, salt: string, url: string)
    requires c.Valid() && c.products == [Widget] && |c.users| == 1
    requires c.users[0].id == 1 && c.users[0].username == "alice"
    requires c.users[0].passwordHash == Some(GeneratePasswordHash(c.hasher, "pw1", salt))
    modifies c
  {
    var r, s := c.Login(Anonymous, Post, map["username" := "alice", "password" := "pw1"], Some("/add"));
    assert c.CredentialsMatch("alice", "pw1");
    assert s == Authenticated(1) && r == Redirect(Url("/add"));
    r := c.ApiDeleteProduct(s, 1, url);
    assert r.status == 204 && c.products == [];
    r := c.ApiDeleteProduct(s, 1, url);
    assert r == NotFound;
    r := c.ApiGetProducts(None);
    assert r.body == JsonArray([]);
  }

  /** The whole walk-through, from an empty database to an empty listing. */
  method Walkthrough(h: Hasher, co: Coercions, salt: string, url: string) {
    var c, s := RegisterAlice(h, co, salt);
    CreateWidget(c, s, url);
    var _, s2 := c.Logout(s, url);
    assert s2 == Anonymous;
    AnonymousCannotWrite(c, url);
    LoginAndDelete(c, salt, url);
  }
}
