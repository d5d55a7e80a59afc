# HADproducts catalogue — a Dafny model

HADproducts is a small Flask product catalogue. Anyone may list and search
products, on a rendered page (`/`) or as JSON (`/api/products`). Logged-in
users may add, edit and delete products, through web forms or the JSON API.
Users register and log in with a username and a password, which is stored
only as a salted hash.

This project models the state machine that sits under the framework calls.
It has one `Catalog` object holding the product table and the user table.
Each route handler works on that object. The session (`Anonymous` or
`Authenticated(userId)`) is passed into each request explicitly, and the
handlers that log a user in or out return the new session. Every handler
returns a `Response`: a status, a body kind (empty, a page with its view and
flash messages, a JSON object or a JSON array) and an optional redirect
target.

Layout, one module per file:

- `wrappers.dfy` — `Option`.
- `text.dfy` — `startswith`, substring containment, `str.replace(old, new, 1)`, decimal ids.
- `models.dfy` — models.py: the `Product` record, `to_dict` and its inverse, password hashing, the `User` class.
- `store.dfy` — the product table's invariant (ascending fresh ids, unique `sku`), lookup and removal.
- `listing.dfy` — the `?search=` filter.
- `http.dfy` — sessions, responses, the `unauthorized` handler and the `@login_required` gate.
- `config.dfy` — the `DATABASE_URL` default and the `postgres://` rewrite.
- `forms.dfy` — reading a product from the web form and from a JSON body.
- `app.dfy` — the `Catalog` class and its route handlers.
- `scenario.dfy` — client methods that walk through register, create, logout, list and delete using only the contracts.

Modelling choices:

- The model follows the code's error behaviour. A missing `request.form[...]` key gives 400. Every exception the code does not catch gives 500: a JSON `KeyError`, a `ValueError` from `float()`/`int()`, or an `IntegrityError` at commit (a duplicate `sku`, or a null in a NOT NULL column). The code catches none of these.
- Web forms are read in the order Python evaluates them: name, sku, price, stock_quantity, then the optional fields. So `FormError` picks 400 or 500 according to which failure comes first.
- Stored columns are typed. A non-nullable column therefore never holds null. An API value of the wrong kind for its column makes the commit fail, with no change. The one exception is a null `stock_quantity` in an API create: the INSERT leaves it out, so the column default 0 is stored (models.py:28). An API update that sends a null `stock_quantity` writes the NULL and fails.
- Each table issues ids from a counter, so a new id is always fresh. Flask's `<int:id>` converter only matches non-negative numbers, so route ids are `nat`.
- Registration does not reject an empty username, because the code does not check for one.
- After an API create, `to_dict` reports the price as a float (`JNum`) even when the request sent an integer. This is because the record is reloaded after the commit.

## Model

| member | source | states |
|---|---|---|
| `Text.Contains` | app.py:40-43 | `contains` is true exactly when the term occurs at some position of the string |
| `Text.ReplaceFirst` | app.py:12 | with no occurrence the string is unchanged; otherwise exactly the first occurrence is spliced out and replaced |
| `Text.Decimal` | app.py:113 | `<int:id>` writes an id as a non-empty string of digits with no leading zero, which reads back as that id |
| `Text.DecimalInjective` | app.py:113 | distinct ids give distinct path segments (a consequence of the read-back) |
| `Config.DatabaseUrl` | app.py:9-12 | with no `DATABASE_URL` set, the local SQLite URL is used; a set URL is used as given, except that a leading `postgres://` becomes `postgresql://` |
| `Config.NormalizeDatabaseUrl` | app.py:11-12 | the URL changes exactly when it starts with `postgres://`; then only that prefix becomes `postgresql://` and the rest is kept |
| `Config.RewriteIdempotent` | app.py:11-12 | applying the rewrite twice equals applying it once |
| `Models.NewProduct` | models.py:22-32 | every given field is kept, and a `stock_quantity` of None becomes the column default 0 |
| `Models.ToDict` | models.py:34-46 | exactly the ten column keys, each holding that column's value (null for an empty nullable column) |
| `Models.FromDict` | models.py:34-46 | a dictionary reads back as a product only when it has all ten keys |
| `Models.DictRoundTrip` | models.py:34-46 | reading back `to_dict(p)` gives `p`, so serialisation loses nothing |
| `Models.ToDictInjective` | models.py:34-46 | two records with the same serialisation are equal |
| `Models.GeneratePasswordHash` | models.py:17 | the stored hash records the salt it was made with |
| `Models.CheckPasswordHash` | models.py:20 | a check passes exactly when the stored hash is what `generate_password_hash` makes from that password with the stored salt |
| `Models.HashThenCheck` | models.py:16-20 | a hash accepts its own password, and rejects any password with a different digest |
| `Models.User.constructor` | models.py:11-14 | a new user has its id and username and no password hash yet |
| `Models.User.SetPassword` | models.py:16-17 | stores the generated hash rather than the password, and afterwards `check_password(p)` holds |
| `Models.User.CheckPassword` | models.py:19-20 | true exactly when the stored hash is what `set_password` would store for that password with the stored salt |
| `Store.FirstWhere` | app.py:56 | `.first()`: the first position satisfying the condition, with none before it, or none when no element satisfies it |
| `Store.FindIndex` | app.py:116 | `get_or_404`: where the record with that id is, or none when no record has that id |
| `Store.SkuOwner` | models.py:26 | the record that already holds a `sku`, or none when the `sku` is unused |
| `Store.RemoveAt` | app.py:136 | deleting takes exactly one record out |
| `Store.NextIdIsFresh` | app.py:108-109 | the id a create assigns names no existing record |
| `Store.IdNamesOneRecord` | models.py:23 | in a valid table an id names at most one record |
| `Store.InsertKeepsValid` | app.py:108-109 | adding a record with the next id and an unused `sku` keeps ids fresh and ascending and `sku`s unique |
| `Store.ReplaceKeepsValid` | app.py:128 | overwriting a record in place, with a `sku` that is unused or its own, keeps the table valid |
| `Store.RemoveKeepsValid` | app.py:136-137 | deleting keeps the table valid and removes exactly the record with that id; every other record stays |
| `Listing.Filter` | app.py:40-43 | the result holds exactly the records whose name contains the term or whose non-null category does |
| `Listing.Search` | app.py:38-45 | an absent or empty term lists everything; any other term gives exactly the matching records |
| `Listing.FilterKeepsOrder` | app.py:143-150 | filtering keeps the table's id order, so no record appears twice and the listing order is kept |
| `Listing.AscendingDeterminedByMembers` | app.py:143-150 | two id-ordered listings with the same members are equal |
| `Listing.SearchCharacterised` | app.py:143-150 | the search result is the one id-ordered list holding exactly the matching records |
| `Http.Unauthorized` | app.py:23-27 | for an `/api/` path: 401 with `{'error': 'Unauthorized'}`; for any other path: a redirect to login with `next` set to the requested URL |
| `Http.Gate` | app.py:87-88 | `@login_required` lets the request through exactly when the requester is logged in; otherwise it returns the `unauthorized` response |
| `Http.ApiRoutesGet401` | app.py:153-154 | an anonymous request to the gated API routes gets the JSON 401 |
| `Http.WebRoutesRedirectToLogin` | app.py:93-94 | an anonymous request to `/logout`, `/add`, `/edit/<id>` or `/delete/<id>` is redirected to login with `next` |
| `Forms.FormWeight` | app.py:106 | an absent or empty weight is null; any other weight must parse as a float |
| `Forms.FormError` | app.py:97-107 | the form succeeds exactly when all required keys are present and the numbers parse; a missing name, sku or price is 400; otherwise the first failure in evaluation order decides, so a bad price is 500 even when stock_quantity is missing; with all keys present it is never 400 |
| `Forms.FormProduct` | app.py:118-126 | full replacement: name, sku, price and stock come from the form; description, category, image_url and dimensions are the form's value or null; weight is null when absent or empty, and otherwise `float(weight)` |
| `Forms.ApiNewProduct` | app.py:157-167 | a record is created exactly when the four required keys are present and every supplied value fits its column on insert, where a null `stock_quantity` is accepted; it gets the given id |
| `Forms.ApiNewProductStores` | app.py:157-167 | the created record holds every supplied value, 0 for a null `stock_quantity`, and null in each omitted nullable column |
| `Forms.ApiMerge` | app.py:177-185 | an update succeeds exactly when every supplied value fits its column, and it keeps the id |
| `Forms.ApiMergeStores` | app.py:177-185 | every key that is present sets its column to the supplied value |
| `Forms.ApiMergeKeepsOmitted` | app.py:177-185 | every one of the nine columns whose key is absent keeps its prior value |
| `App.FindUserByName` | app.py:56 | `filter_by(username=...).first()`: a user with exactly that username, or none when there is no such user |
| `App.FindUserById` | app.py:29-31 | `load_user`: the user with that id, or none |
| `App.AfterLogin` | app.py:60-61 | after login, go to a non-empty `next`, otherwise to the listing |
| `App.Serialise` | app.py:151 | one `to_dict` per listed product, in the same order |
| `App.AssignFromJson` | app.py:177-185 | applying the nine `data.get(key, current)` assignments in turn gives exactly the merged record, or nothing when a value cannot be stored |
| `App.Catalog.LoggedIn` | app.py:29-31 | `current_user.is_authenticated`: true exactly when the session names the id of a stored user; a session naming no stored user loads as anonymous |
| `App.Catalog.CredentialsMatch` | app.py:56-58 | `user and user.check_password(password)`: a match means a stored user with that username accepts the password; in a valid catalogue, where usernames are unique, the converse holds too |
| `App.Catalog.constructor` | app.py:33-34 | an empty, valid catalogue with both id counters at 1 |
| `App.Catalog.Insert` | app.py:168-169 | the commit of a new record appends exactly it and advances the id counter; the table stays valid |
| `App.Catalog.Replace` | app.py:187 | the commit of an edited record replaces exactly that position; the table stays valid |
| `App.Catalog.Remove` | app.py:194-195 | the commit of a delete removes exactly that position; the table stays valid |
| `App.Catalog.Index` | app.py:36-46 | 200, rendering the search result; no session is needed |
| `App.Catalog.ApiGetProducts` | app.py:141-151 | 200 with the `to_dict` of each search result, in order; no session is needed |
| `App.Catalog.Login` | app.py:48-64 | the session becomes the user's exactly when a user with that username exists and the password checks; otherwise login is re-rendered with the error and the session is unchanged; a logged-in requester is redirected home |
| `App.Catalog.Register` | app.py:66-85 | a taken username adds nobody and leaves the session unchanged; otherwise exactly one user is added, with a fresh id and the password's hash, and the session becomes that user; usernames stay unique |
| `App.Catalog.Logout` | app.py:87-91 | gated; the session becomes anonymous |
| `App.Catalog.AddProduct` | app.py:93-111 | gated; a form error or a taken `sku` changes nothing; otherwise exactly the form's record is appended with a fresh id |
| `App.Catalog.EditProduct` | app.py:113-130 | gated; an unknown id is 404 with no change; a valid form replaces exactly that record with the form's record; other records stay |
| `App.Catalog.DeleteProduct` | app.py:132-138 | gated; an unknown id is 404 with no change; otherwise exactly that record is removed |
| `App.Catalog.ApiCreateProduct` | app.py:153-170 | gated (401); a bad body or a taken `sku` changes nothing; otherwise one record with a fresh id is appended and 201 returns its `to_dict` |
| `App.Catalog.ApiUpdateProduct` | app.py:172-188 | gated (401); an unknown id is 404 with no change; otherwise the record becomes the merge of the body into it, with the id and every other record unchanged |
| `App.Catalog.ApiDeleteProduct` | app.py:190-196 | gated (401); an unknown id is 404 with no change; otherwise exactly that record is removed, with 204 |
| `Scenario.NullStockOnCreateAndUpdate` | app.py:162 | a create with a null `stock_quantity` stores 0; an update with a null `stock_quantity` is refused |
| `Scenario.RegisterAlice` | app.py:75-83 | registering on an empty catalogue creates user 1 and logs it in |
| `Scenario.CreateWidget` | test_app.py:58-70 | an API create gives record 1; a second create with the same `sku` changes nothing |
| `Scenario.AnonymousCannotWrite` | test_app.py:72-90 | logged out, the listing still shows the product, and API and web writes are refused without change |

## Left out

- Flask plumbing is not modelled: request parsing, template rendering, how `flash` stores messages across requests, `jsonify` encoding, and building the strings of `url_for`/`redirect`. Redirect targets are symbolic: the listing page, the login page with `next`, or a URL.
- Request-body decoding is not modelled: a body that is not JSON, is malformed, or is not a JSON object. The model receives the decoded object.
- SQLAlchemy sessions, transactions and `db.create_all` are not modelled. A commit is modelled as atomic: it either succeeds or changes nothing. Concurrent requests are out of scope.
- SQL `LIKE` details are not modelled: backend-dependent case folding, and `%`/`_` acting as wildcards. `contains` is plain substring search.
- Column length limits (`String(80)` and so on) are not modelled, because SQLite does not enforce them.
- How the database converts JSON values of the wrong kind (booleans, arrays, floats into the integer column) is not modelled. Any such value makes the commit fail.
- Float arithmetic is not modelled. Prices and weights are reals. `float()` and `int()` on form strings are partial functions handed to the catalogue: they either succeed or fail.
- werkzeug's hashing is not modelled. Key derivation is an abstract function. The random salt is a parameter of `Register`.
- Environment variables are not read. `DATABASE_URL` is a parameter of `Config.DatabaseUrl`. `SECRET_KEY`, `app.run` and the test fixture's in-memory database are left out.
- Flask-Login behaviour not covered: the `OPTIONS` exemption in `login_required`, the `LOGIN_DISABLED` switch, and session expiry.
- Integer width is not modelled. `id` and `stock_quantity` are unbounded integers. The database's `Integer` column is 64-bit on SQLite and 32-bit on PostgreSQL. A value outside that range makes the commit raise, so the code answers 500 with no change, while the model stores the value.
- Row order: the code sets no ORDER BY. The model lists records in id order, as SQLite's rowid scan does, and `Listing.SearchCharacterised` is stated for that order. PostgreSQL may list an edited record after records with higher ids.
- Id reuse is not modelled. SQLite can give a new row the id of a deleted last row; the model's counter never reuses an id, so only freshness is claimed.
- Models.User.CheckPassword: requires a stored hash. werkzeug raises an error without one, and the application only checks stored users, which always have a hash.
