/** The route handlers of app.py over one catalogue: the product table, the
    user table and the counters that issue fresh ids. Each request gets the
    session explicitly and the handlers that log in or out return the new
    one. Read routes take no session at all: nothing gates them. */
module App {
  import opened Wrappers
  import opened Text
  import opened Models
  import opened Store
  import opened Listing
  import opened Http
  import opened Forms

  /** `User.query.filter_by(username=name).first()`. */
  function FindUserByName(us: seq<User>, name: string): (r: Option<nat>)
    ensures r.Some? ==> r.value < |us| && us[r.value].username == name
    ensures r.None? <==> forall i :: 0 <= i < |us| ==> us[i].username != name
  {
    FirstWhere(us, (u: User) => u.username == name)
  }

  /** `db.session.get(User, id)`, as the `user_loader` uses it (app.py:29-31). */
  function FindUserById(us: seq<User>, id: int): (r: Option<nat>)
    ensures r.Some? ==> r.value < |us| && us[r.value].id == id
    ensures r.None? <==> forall i :: 0 <= i < |us| ==> us[i].id != id
  {
    FirstWhere(us, (u: User) => u.id == id)
  }

  /** `redirect(next_page or url_for('index'))`: an empty `next` counts as
      none. */
  function AfterLogin(next: Option<string>): (t: Target)
    ensures next.Some? && next.value != "" ==> t == Url(next.value)
    ensures next.None? || next == Some("") ==> t == IndexPage
  {
    if next.Some? && next.value != "" then Url(next.value) else IndexPage
  }

  /** `[p.to_dict() for p in products]`. */
  function Serialise(ps: seq<Product>): (r: seq<Dict>)
    ensures |r| == |ps|
    ensures forall k :: 0 <= k < |ps| ==> r[k] == ToDict(ps[k])
  {
    if |ps| == 0 then [] else [ToDict(ps[0])] + Serialise(ps[1..])
  }

  /** The assignments of app.py:177-185, `column = data.get(key, column)`
      one after another. A value its column cannot store makes the commit
      fail, so the result is then nothing. */
  method AssignFromJson(p0: Product, data: Dict) returns (r: Option<Product>)
    ensures r == ApiMerge(p0, data)
  {
    var p := p0;
    var name := Merge(data, "name", AsText, p.name);
    if name.None? { return None; }
    p := p.(name := name.value);
    var description := Merge(data, "description", AsOptText, p.description);
    if description.None? { return None; }
    p := p.(description := description.value);
    var sku := Merge(data, "sku", AsText, p.sku);
    if sku.None? { return None; }
    p := p.(sku := sku.value);
    var price := Merge(data, "price", AsNumber, p.price);
    if price.None? { return None; }
    p := p.(price := price.value);
    var stock := Merge(data, "stock_quantity", AsInteger, p.stockQuantity);
    if stock.None? { return None; }
    p := p.(stockQuantity := stock.value);
    var category := Merge(data, "category", AsOptText, p.category);
    if category.None? { return None; }
    p := p.(category := category.value);
    var imageUrl := Merge(data, "image_url", AsOptText, p.imageUrl);
    if imageUrl.None? { return None; }
    p := p.(imageUrl := imageUrl.value);
    var dimensions := Merge(data, "dimensions", AsOptText, p.dimensions);
    if dimensions.None? { return None; }
    p := p.(dimensions := dimensions.value);
    var weight := Merge(data, "weight", AsOptNumber, p.weight);
    if weight.None? { return None; }
    p := p.(weight := weight.value);
    return Some(p);
  }

  const InvalidLogin := "Invalid username or password"
  const UsernameTaken := "Username already exists"

  class Catalog {
    /** The `product` table, in id order. */
    var products: seq<Product>
    /** The `user` table, in id order. */
    var users: seq<User>
    var nextProductId: int
    var nextUserId: int
    /** werkzeug's key derivation, and Python's `float()`/`int()`. */
    const hasher: Hasher
    const coercions: Coercions

    ghost predicate Valid()
      reads this, users
    {
      && ValidStore(products, nextProductId) && nextProductId >= 1
      && nextUserId >= 1
      && (forall i, j :: 0 <= i < j < |users| ==> users[i].id < users[j].id)
      && (forall i, j :: 0 <= i < j < |users| ==> users[i].username != users[j].username)
      && (forall i :: 0 <= i < |users| ==> 1 <= users[i].id < nextUserId)
      && (forall i :: 0 <= i < |users| ==> users[i].passwordHash.Some?)
    }

    /** `db.create_all()` on an empty database. */
    constructor (hasher: Hasher, coercions: Coercions)
      ensures Valid()
      ensures products == [] && users == []
      ensures this.hasher == hasher && this.coercions == coercions
      ensures nextProductId == 1 && nextUserId == 1
    {
      products, users := [], [];
      nextProductId, nextUserId := 1, 1;
      this.hasher, this.coercions := hasher, coercions;
    }

    /** `current_user.is_authenticated`: the session names a stored user. A
        session naming no stored user loads as anonymous. */
    function LoggedIn(session: Session): (b: bool)
      reads this
      ensures b <==> session.Authenticated? && exists i :: 0 <= i < |users| && users[i].id == session.userId
    {
      session.Authenticated? && FindUserById(users, session.userId).Some?
    }

    /** The login form names a stored user and `check_password` accepts the
        password (app.py:56-58). */
    function CredentialsMatch(username: string, password: string): (b: bool)
      reads this, users
      ensures b ==> exists i :: 0 <= i < |users| && users[i].username == username
                      && users[i].passwordHash.Some? && users[i].CheckPassword(hasher, password)
      ensures Valid() ==>
                (b <==> exists i :: 0 <= i < |users| && users[i].username == username
                          && users[i].CheckPassword(hasher, password))
    {
      var k := FindUserByName(users, username);
      k.Some? && users[k.value].passwordHash.Some? && users[k.value].CheckPassword(hasher, password)
    }

    // The three commits the handlers make on the product table.

    /** `db.session.add(p)` and commit: the record gets the next id. */
    method Insert(p: Product)
      requires Valid() && p.id == nextProductId && SkuOwner(products, p.sku).None?
      modifies this
      ensures Valid()
      ensures products == old(products) + [p] && nextProductId == old(nextProductId) + 1
      ensures users == old(users) && nextUserId == old(nextUserId)
    {
      InsertKeepsValid(products, nextProductId, p);
      products := products + [p];
      nextProductId := nextProductId + 1;
    }

    /** Commit of a record changed in place. */
    method Replace(i: nat, p: Product)
      requires Valid() && i < |products| && p.id == products[i].id
      requires SkuOwner(products, p.sku).None? || SkuOwner(products, p.sku) == Some(i)
      modifies this
      ensures Valid()
      ensures products == old(products)[i := p]
      ensures users == old(users) && nextUserId == old(nextUserId) && nextProductId == old(nextProductId)
    {
      ReplaceKeepsValid(products, nextProductId, i, p);
      products := products[i := p];
    }

    /** `db.session.delete(product)` and commit. */
    method Remove(i: nat)
      requires Valid() && i < |products|
      modifies this
      ensures Valid()
      ensures products == RemoveAt(old(products), i)
      ensures users == old(users) && nextUserId == old(nextUserId) && nextProductId == old(nextProductId)
    {
      RemoveKeepsValid(products, nextProductId, i);
      products := RemoveAt(products, i);
    }

    /** `index` (app.py:36-46): the listing, filtered by `?search=`. */
    function Index(search: Option<string>): (r: Response)
      reads this
      ensures r.status == 200 && r.location.None?
      ensures r.body == Html(IndexView(Search(products, search)), [])
    {
      Page(IndexView(Search(products, search)), [])
    }

    /** `api_get_products` (app.py:141-151): the same filter, serialised. */
    function ApiGetProducts(search: Option<string>): (r: Response)
      reads this
      ensures r.status == 200 && r.location.None? && r.body.JsonArray?
      ensures var found := Search(products, search);
              |r.body.items| == |found|
              && forall k :: 0 <= k < |found| ==> r.body.items[k] == ToDict(found[k])
    {
      Response(200, JsonArray(Serialise(Search(products, search))), None)
    }

    /** `login` (app.py:48-64). The session becomes the user's exactly when
        the username exists and the password checks; a logged-in requester
        is sent to the listing. */
    method Login(session: Session, verb: Verb, form: Form, next: Option<string>)
      returns (r: Response, s: Session)
      requires Valid()
      ensures LoggedIn(session) ==> r == Redirect(IndexPage) && s == session
      ensures !LoggedIn(session) && verb == Get ==> r == Page(LoginView, []) && s == session
      ensures !LoggedIn(session) && verb == Post && !("username" in form && "password" in form) ==>
                r == BadRequest && s == session
      ensures !LoggedIn(session) && verb == Post && "username" in form && "password" in form ==>
                if CredentialsMatch(form["username"], form["password"])
                then s == Authenticated(users[FindUserByName(users, form["username"]).value].id)
                     && LoggedIn(s) && r == Redirect(AfterLogin(next))
                else s == session && r == Page(LoginView, [InvalidLogin])
    {
      if LoggedIn(session) {
        return Redirect(IndexPage), session;
      }
      s := session;
      if verb == Post {
        if "username" !in form || "password" !in form {
          return BadRequest, session;
        }
        var username, password := form["username"], form["password"];
        var k := FindUserByName(users, username);
        if k.Some? && users[k.value].CheckPassword(hasher, password) {
          s := Authenticated(users[k.value].id);
          r := Redirect(AfterLogin(next));
          return;
        }
        return Page(LoginView, [InvalidLogin]), session;
      }
      r := Page(LoginView, []);
    }

    /** `register` (app.py:66-85). A taken username adds nobody and leaves
        the session as it was; otherwise one user with a fresh id and the
        hash of the password is added and the session becomes that user. */
    method Register(session: Session, verb: Verb, form: Form, salt: string)
      returns (r: Response, s: Session)
      requires Valid()
      modifies this
      ensures Valid()
      ensures products == old(products) && nextProductId == old(nextProductId)
      ensures old(LoggedIn(session)) ==>
                r == Redirect(IndexPage) && s == session && users == old(users) && nextUserId == old(nextUserId)
      ensures !old(LoggedIn(session)) && verb == Get ==>
                r == Page(RegisterView, []) && s == session && users == old(users) && nextUserId == old(nextUserId)
      ensures !old(LoggedIn(session)) && verb == Post && !("username" in form && "password" in form) ==>
                r == BadRequest && s == session && users == old(users) && nextUserId == old(nextUserId)
      ensures !old(LoggedIn(session)) && verb == Post && "username" in form && "password" in form
              && FindUserByName(old(users), form["username"]).Some? ==>
                r == Page(RegisterView, [UsernameTaken]) && s == session
                && users == old(users) && nextUserId == old(nextUserId)
      ensures !old(LoggedIn(session)) && verb == Post && "username" in form && "password" in form
              && FindUserByName(old(users), form["username"]).None? ==>
                && |users| == |old(users)| + 1 && users[..|old(users)|] == old(users)
                && fresh(users[|old(users)|])
                && users[|old(users)|].id == old(nextUserId)
                && users[|old(users)|].username == form["username"]
                && users[|old(users)|].passwordHash == Some(GeneratePasswordHash(hasher, form["password"], salt))
                && nextUserId == old(nextUserId) + 1
                && s == Authenticated(old(nextUserId)) && LoggedIn(s)
                && r == Redirect(IndexPage)
    {
      if LoggedIn(session) {
        return Redirect(IndexPage), session;
      }
      s := session;
      if verb == Post {
        if "username" !in form || "password" !in form {
          return BadRequest, session;
        }
        var username, password := form["username"], form["password"];
        if FindUserByName(users, username).Some? {
          return Page(RegisterView, [UsernameTaken]), session;
        }
        var user := new User(nextUserId, username);
        user.SetPassword(hasher, password, salt);
        users := users + [user];
        nextUserId := nextUserId + 1;
        assert users[|users| - 1] == user;
        s := Authenticated(user.id);
        return Redirect(IndexPage), s;
      }
      r := Page(RegisterView, []);
    }

    /** `logout` (app.py:87-91): gated; ends the session. */
    method Logout(session: Session, url: string) returns (r: Response, s: Session)
      requires Valid()
      ensures LoggedIn(session) ==> r == Redirect(IndexPage) && s == Anonymous
      ensures !LoggedIn(session) ==> r == Unauthorized(LogoutPath, url) && s == session
    {
      var gate := Gate(LoggedIn(session), LogoutPath, url);
      if gate.Some? {
        return gate.value, session;
      }
      return Redirect(IndexPage), Anonymous;
    }

    /** `add_product` (app.py:93-111). */
    method AddProduct(session: Session, verb: Verb, form: Form, url: string) returns (r: Response)
      requires Valid()
      modifies this
      ensures Valid()
      ensures users == old(users) && nextUserId == old(nextUserId)
      ensures !LoggedIn(session) ==>
                r == Unauthorized(AddPath, url) && products == old(products) && nextProductId == old(nextProductId)
      ensures LoggedIn(session) && verb == Get ==>
                r == Page(ProductForm("Add", None), []) && products == old(products) && nextProductId == old(nextProductId)
      ensures LoggedIn(session) && verb == Post && FormError(form, coercions).Some? ==>
                r == Response(FormError(form, coercions).value, Empty, None)
                && products == old(products) && nextProductId == old(nextProductId)
      ensures LoggedIn(session) && verb == Post && FormError(form, coercions).None?
              && SkuOwner(old(products), form["sku"]).Some? ==>
                r == ServerError && products == old(products) && nextProductId == old(nextProductId)
      ensures LoggedIn(session) && verb == Post && FormError(form, coercions).None?
              && SkuOwner(old(products), form["sku"]).None? ==>
                r == Redirect(IndexPage)
                && products == old(products) + [FormProduct(old(nextProductId), form, coercions)]
                && nextProductId == old(nextProductId) + 1
    {
      var gate := Gate(LoggedIn(session), AddPath, url);
      if gate.Some? {
        return gate.value;
      }
      if verb == Get {
        return Page(ProductForm("Add", None), []);
      }
      var error := FormError(form, coercions);
      if error.Some? {
        return Response(error.value, Empty, None);
      }
      var p := FormProduct(nextProductId, form, coercions);
      if SkuOwner(products, p.sku).Some? {
        return ServerError;
      }
      Insert(p);
      r := Redirect(IndexPage);
    }

    /** `edit_product` (app.py:113-130): the columns are assigned one after
        another from the form and committed together; any failure on the way
        commits nothing. */
    method EditProduct(session: Session, verb: Verb, id: nat, form: Form, url: string) returns (r: Response)
      requires Valid()
      modifies this
      ensures Valid()
      ensures users == old(users) && nextUserId == old(nextUserId) && nextProductId == old(nextProductId)
      ensures !LoggedIn(session) ==> r == Unauthorized(EditPath(id), url) && products == old(products)
      ensures LoggedIn(session) && FindIndex(old(products), id).None? ==> r == NotFound && products == old(products)
      ensures LoggedIn(session) && FindIndex(old(products), id).Some? ==>
                var i := FindIndex(old(products), id).value;
                && (verb == Get ==> r == Page(ProductForm("Edit", Some(old(products)[i])), []) && products == old(products))
                && (verb == Post && FormError(form, coercions).Some? ==>
                      r == Response(FormError(form, coercions).value, Empty, None) && products == old(products))
                && (verb == Post && FormError(form, coercions).None? && SkuOwner(old(products), form["sku"]).Some?
                    && SkuOwner(old(products), form["sku"]) != Some(i) ==>
                      r == ServerError && products == old(products))
                && (verb == Post && FormError(form, coercions).None?
                    && (SkuOwner(old(products), form["sku"]).None? || SkuOwner(old(products), form["sku"]) == Some(i)) ==>
                      r == Redirect(IndexPage) && products == old(products)[i := FormProduct(id, form, coercions)])
    {
      var gate := Gate(LoggedIn(session), EditPath(id), url);
      if gate.Some? {
        return gate.value;
      }
      var found := FindIndex(products, id);
      if found.None? {
        return NotFound;
      }
      var i := found.value;
      var p := products[i];
      if verb == Get {
        return Page(ProductForm("Edit", Some(p)), []);
      }
      if "name" !in form { return BadRequest; }
      p := p.(name := form["name"]);
      p := p.(description := FormGet(form, "description"));
      if "sku" !in form { return BadRequest; }
      p := p.(sku := form["sku"]);
      if "price" !in form { return BadRequest; }
      var price := coercions.toFloat(form["price"]);
      if price.None? { return ServerError; }
      p := p.(price := price.value);
      if "stock_quantity" !in form { return BadRequest; }
      var stock := coercions.toInt(form["stock_quantity"]);
      if stock.None? { return ServerError; }
      p := p.(stockQuantity := stock.value);
      p := p.(category := FormGet(form, "category"));
      p := p.(imageUrl := FormGet(form, "image_url"));
      p := p.(dimensions := FormGet(form, "dimensions"));
      var weight := FormGet(form, "weight");
      if weight.Some? && weight.value != "" {
        var w := coercions.toFloat(weight.value);
        if w.None? { return ServerError; }
        p := p.(weight := Some(w.value));
      } else {
        p := p.(weight := None);
      }
      assert p == FormProduct(id, form, coercions);
      var owner := SkuOwner(products, p.sku);
      if owner.Some? && owner.value != i {
        return ServerError;
      }
      Replace(i, p);
      r := Redirect(IndexPage);
    }

    /** `delete_product` (app.py:132-138). */
    method DeleteProduct(session: Session, id: nat, url: string) returns (r: Response)
      requires Valid()
      modifies this
      ensures Valid()
      ensures users == old(users) && nextUserId == old(nextUserId) && nextProductId == old(nextProductId)
      ensures !LoggedIn(session) ==> r == Unauthorized(DeletePath(id), url) && products == old(products)
      ensures LoggedIn(session) && FindIndex(old(products), id).None? ==> r == NotFound && products == old(products)
      ensures LoggedIn(session) && FindIndex(old(products), id).Some? ==>
                r == Redirect(IndexPage) && products == RemoveAt(old(products), FindIndex(old(products), id).value)
    {
      var gate := Gate(LoggedIn(session), DeletePath(id), url);
      if gate.Some? {
        return gate.value;
      }
      var found := FindIndex(products, id);
      if found.None? {
        return NotFound;
      }
      Remove(found.value);
      r := Redirect(IndexPage);
    }

    /** `api_create_product` (app.py:153-170): 201 with the new record's
        `to_dict`. */
    method ApiCreateProduct(session: Session, data: Dict, url: string) returns (r: Response)
      requires Valid()
      modifies this
      ensures Valid()
      ensures users == old(users) && nextUserId == old(nextUserId)
      ensures !LoggedIn(session) ==>
                r == Unauthorized(ApiProductsPath, url) && products == old(products) && nextProductId == old(nextProductId)
      ensures LoggedIn(session) && ApiNewProduct(old(nextProductId), data).None? ==>
                r == ServerError && products == old(products) && nextProductId == old(nextProductId)
      ensures LoggedIn(session) && ApiNewProduct(old(nextProductId), data).Some? ==>
                var p := ApiNewProduct(old(nextProductId), data).value;
                if SkuOwner(old(products), p.sku).Some?
                then r == ServerError && products == old(products) && nextProductId == old(nextProductId)
                else r == Response(201, JsonObject(ToDict(p)), None)
                     && products == old(products) + [p] && nextProductId == old(nextProductId) + 1
    {
      var gate := Gate(LoggedIn(session), ApiProductsPath, url);
      if gate.Some? {
        return gate.value;
      }
      var made := ApiNewProduct(nextProductId, data);
      if made.None? {
        return ServerError;
      }
      var p := made.value;
      if SkuOwner(products, p.sku).Some? {
        return ServerError;
      }
      Insert(p);
      r := Response(201, JsonObject(ToDict(p)), None);
    }

    /** `api_update_product` (app.py:172-188): each column is assigned
        `data.get(key, current)` in turn, then everything is committed. */
    method ApiUpdateProduct(session: Session, id: nat, data: Dict, url: string) returns (r: Response)
      requires Valid()
      modifies this
      ensures Valid()
      ensures users == old(users) && nextUserId == old(nextUserId) && nextProductId == old(nextProductId)
      ensures !LoggedIn(session) ==> r == Unauthorized(ApiProductPath(id), url) && products == old(products)
      ensures LoggedIn(session) && FindIndex(old(products), id).None? ==> r == NotFound && products == old(products)
      ensures LoggedIn(session) && FindIndex(old(products), id).Some? ==>
                var i := FindIndex(old(products), id).value;
                var merged := ApiMerge(old(products)[i], data);
                if merged.None? || (SkuOwner(old(products), merged.value.sku).Some?
                                    && SkuOwner(old(products), merged.value.sku) != Some(i))
                then r == ServerError && products == old(products)
                else r == Response(200, JsonObject(ToDict(merged.value)), None)
                     && products == old(products)[i := merged.value]
    {
      var gate := Gate(LoggedIn(session), ApiProductPath(id), url);
      if gate.Some? {
        return gate.value;
      }
      var found := FindIndex(products, id);
      if found.None? {
        return NotFound;
      }
      var i := found.value;
      var merged := AssignFromJson(products[i], data);
      // The commit: a value its column cannot store, or a taken sku, fails it.
      if merged.None? {
        return ServerError;
      }
      var p := merged.value;
      var owner := SkuOwner(products, p.sku);
      if owner.Some? && owner.value != i {
        return ServerError;
      }
      Replace(i, p);
      r := Response(200, JsonObject(ToDict(p)), None);
    }

    /** `api_delete_product` (app.py:190-196): 204 with an empty body. */
    method ApiDeleteProduct(session: Session, id: nat, url: string) returns (r: Response)
      requires Valid()
      modifies this
      ensures Valid()
      ensures users == old(users) && nextUserId == old(nextUserId) && nextProductId == old(nextProductId)
      ensures !LoggedIn(session) ==> r == Unauthorized(ApiProductPath(id), url) && products == old(products)
      ensures LoggedIn(session) && FindIndex(old(products), id).None? ==> r == NotFound && products == old(products)
      ensures LoggedIn(session) && FindIndex(old(products), id).Some? ==>
                r == Response(204, Empty, None) && products == RemoveAt(old(products), FindIndex(old(products), id).value)
    {
      var gate := Gate(LoggedIn(session), ApiProductPath(id), url);
      if gate.Some? {
        return gate.value;
      }
      var found := FindIndex(products, id);
      if found.None? {
        return NotFound;
      }
      Remove(found.value);
      r := Response(204, Empty, None);
    }
  }
}
