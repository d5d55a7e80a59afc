/** How the routes read a product out of a request: the web form
    (app.py:97-107, 118-126) with Python's `float()`/`int()` coercions, and
    the JSON body of the API (app.py:157-167, 177-185), whose values the
    columns store as they come. */
module Forms {
  import opened Wrappers
  import opened Models

  /** `float(s)` and `int(s)` on a form string: the value, or nothing where
      Python raises `ValueError`. */
  datatype Coercions = Coercions(toFloat: string -> Option<real>, toInt: string -> Option<int>)

  /** `request.form`. */
  type Form = map<string, string>

  /** `request.form.get(key)`. */
  function FormGet(form: Form, key: string): Option<string> {
    if key in form then Some(form[key]) else None
  }

  /** The fields both create routes read with `[...]`, which fail when absent. */
  const RequiredKeys: set<string> := {"name", "sku", "price", "stock_quantity"}

  /** The nullable columns, which `.get` reads as null when absent. */
  const OptionalKeys: set<string> := {"description", "category", "image_url", "dimensions", "weight"}

  /** `float(w) if w else None` for `w = request.form.get('weight')`: an
      absent or empty weight is null, any other must parse. */
  function FormWeight(form: Form, co: Coercions): (r: Option<Option<real>>)
    ensures ("weight" !in form || form["weight"] == "") ==> r == Some(None)
    ensures "weight" in form && form["weight"] != "" ==>
              (r.None? <==> co.toFloat(form["weight"]).None?)
              && (r.Some? ==> r.value.Some? && co.toFloat(form["weight"]) == Some(r.value.value))
  {
    var w := FormGet(form, "weight");
    if w.None? || w.value == "" then Some(None)
    else match co.toFloat(w.value)
      case None => None
      case Some(x) => Some(Some(x))
  }

  /** The form yields a product: every required key present and every
      numeric field parses. */
  predicate FormAccepted(form: Form, co: Coercions) {
    && RequiredKeys <= form.Keys
    && co.toFloat(form["price"]).Some?
    && co.toInt(form["stock_quantity"]).Some?
    && FormWeight(form, co).Some?
  }

  /** The status of the first failure met while reading the form, in the
      order Python evaluates it: name, sku, price, stock_quantity, then the
      optional fields. A missing key met first is a 400, a failed conversion
      met first a 500: a bad price answers 500 even when stock_quantity is
      also missing. */
  function FormError(form: Form, co: Coercions): (r: Option<nat>)
    ensures r.None? <==> FormAccepted(form, co)
    ensures r.Some? ==> r.value == 400 || r.value == 500
    ensures RequiredKeys <= form.Keys ==> r != Some(400)
    ensures r == Some(400) ==> !(RequiredKeys <= form.Keys)
    ensures "name" !in form || "sku" !in form || "price" !in form ==> r == Some(400)
    ensures {"name", "sku", "price"} <= form.Keys && co.toFloat(form["price"]).None? ==> r == Some(500)
    ensures {"name", "sku", "price"} <= form.Keys && co.toFloat(form["price"]).Some? && "stock_quantity" !in form ==>
              r == Some(400)
  {
    if "name" !in form || "sku" !in form || "price" !in form then Some(400)
    else if co.toFloat(form["price"]).None? then Some(500)
    else if "stock_quantity" !in form then Some(400)
    else if co.toInt(form["stock_quantity"]).None? then Some(500)
    else if FormWeight(form, co).None? then Some(500)
    else None
  }

  /** The record a valid form describes. Every column comes from the form:
      the optional text columns are whatever the form holds or null, so this
      is a full replacement of whatever the record held before. */
  function FormProduct(id: int, form: Form, co: Coercions): (p: Product)
    requires FormAccepted(form, co)
    ensures p.id == id && p.name == form["name"] && p.sku == form["sku"]
    ensures co.toFloat(form["price"]) == Some(p.price)
    ensures co.toInt(form["stock_quantity"]) == Some(p.stockQuantity)
    ensures p.description == FormGet(form, "description") && p.category == FormGet(form, "category")
    ensures p.imageUrl == FormGet(form, "image_url") && p.dimensions == FormGet(form, "dimensions")
    ensures p.weight.None? <==> "weight" !in form || form["weight"] == ""
    ensures "weight" in form && form["weight"] != "" ==> co.toFloat(form["weight"]) == p.weight
  {
    Product(id, form["name"], FormGet(form, "description"), form["sku"],
            co.toFloat(form["price"]).value, co.toInt(form["stock_quantity"]).value,
            FormGet(form, "category"), FormGet(form, "image_url"),
            FormGet(form, "dimensions"), FormWeight(form, co).value)
  }

  /** A value the column `key` can store; keys that are not columns (and
      `id`, which no route reads from the body) are ignored. */
  predicate ColumnAccepts(key: string, v: JsonValue) {
    if key == "name" || key == "sku" then AsText(v).Some?
    else if key == "description" || key == "category" || key == "image_url" || key == "dimensions"
    then AsOptText(v).Some?
    else if key == "price" then AsNumber(v).Some?
    else if key == "stock_quantity" then AsInteger(v).Some?
    else if key == "weight" then AsOptNumber(v).Some?
    else true
  }

  /** Every supplied value fits its column, so the commit does not fail on
      a type or a NOT NULL constraint. */
  predicate PayloadAccepted(data: Dict) {
    forall k :: k in data ==> ColumnAccepts(k, data[k])
  }

  /** A value an INSERT can store in column `key`. It differs from an UPDATE
      in one place: a null `stock_quantity` is left out of the INSERT, and
      the column default fills it in. */
  predicate InsertAccepts(key: string, v: JsonValue) {
    if key == "stock_quantity" then AsOptInteger(v).Some? else ColumnAccepts(key, v)
  }

  predicate InsertPayloadAccepted(data: Dict) {
    forall k :: k in data ==> InsertAccepts(k, data[k])
  }

  /** The record `p` holds in column `key` the value `v` stores there. */
  predicate Holds(p: Product, key: string, v: JsonValue) {
    if key == "name" then AsText(v) == Some(p.name)
    else if key == "sku" then AsText(v) == Some(p.sku)
    else if key == "description" then AsOptText(v) == Some(p.description)
    else if key == "category" then AsOptText(v) == Some(p.category)
    else if key == "image_url" then AsOptText(v) == Some(p.imageUrl)
    else if key == "dimensions" then AsOptText(v) == Some(p.dimensions)
    else if key == "price" then AsNumber(v) == Some(p.price)
    else if key == "stock_quantity" then AsInteger(v) == Some(p.stockQuantity)
    else if key == "weight" then AsOptNumber(v) == Some(p.weight)
    else true
  }

  /** `data[key]`: absent is a failure. */
  function Required<T>(data: Dict, key: string, coerce: JsonValue -> Option<T>): Option<T> {
    if key in data then coerce(data[key]) else None
  }

  /** `data.get(key)`: absent is null. */
  function Optional<T>(data: Dict, key: string, coerce: JsonValue -> Option<Option<T>>): Option<Option<T>> {
    if key in data then coerce(data[key]) else Some(None)
  }

  /** `data.get(key, prior)`: absent keeps the prior value. */
  function Merge<T>(data: Dict, key: string, coerce: JsonValue -> Option<T>, prior: T): Option<T> {
    if key in data then coerce(data[key]) else Some(prior)
  }

  /** The record `api_create_product` commits (app.py:157-167), or nothing
      when a required key is missing or a value does not fit its column. A
      null `stock_quantity` takes the column default through `NewProduct`. */
  function ApiNewProduct(id: int, data: Dict): (r: Option<Product>)
    ensures r.Some? <==> RequiredKeys <= data.Keys && InsertPayloadAccepted(data)
    ensures r.Some? ==> r.value.id == id
  {
    var name, description := Required(data, "name", AsText), Optional(data, "description", AsOptText);
    var sku, price := Required(data, "sku", AsText), Required(data, "price", AsNumber);
    var stock, category := Required(data, "stock_quantity", AsOptInteger), Optional(data, "category", AsOptText);
    var imageUrl, dimensions := Optional(data, "image_url", AsOptText), Optional(data, "dimensions", AsOptText);
    var weight := Optional(data, "weight", AsOptNumber);
    if name.Some? && description.Some? && sku.Some? && price.Some? && stock.Some?
       && category.Some? && imageUrl.Some? && dimensions.Some? && weight.Some?
    then Some(NewProduct(id, name.value, description.value, sku.value, price.value, stock.value,
                         category.value, imageUrl.value, dimensions.value, weight.value))
    else None
  }

  /** The record `api_update_product` commits (app.py:177-185): each column
      takes the supplied value when its key is present and keeps its prior
      value otherwise; nothing when a supplied value does not fit. */
  function ApiMerge(p: Product, data: Dict): (r: Option<Product>)
    ensures r.Some? <==> PayloadAccepted(data)
    ensures r.Some? ==> r.value.id == p.id
  {
    var name, description := Merge(data, "name", AsText, p.name), Merge(data, "description", AsOptText, p.description);
    var sku, price := Merge(data, "sku", AsText, p.sku), Merge(data, "price", AsNumber, p.price);
    var stock := Merge(data, "stock_quantity", AsInteger, p.stockQuantity);
    var category := Merge(data, "category", AsOptText, p.category);
    var imageUrl := Merge(data, "image_url", AsOptText, p.imageUrl);
    var dimensions := Merge(data, "dimensions", AsOptText, p.dimensions);
    var weight := Merge(data, "weight", AsOptNumber, p.weight);
    if name.Some? && description.Some? && sku.Some? && price.Some? && stock.Some?
       && category.Some? && imageUrl.Some? && dimensions.Some? && weight.Some?
    then Some(Product(p.id, name.value, description.value, sku.value, price.value, stock.value,
                      category.value, imageUrl.value, dimensions.value, weight.value))
    else None
  }

  /** An API update leaves every column whose key the body omits as it was. */
  lemma ApiMergeKeepsOmitted(p: Product, data: Dict)
    requires PayloadAccepted(data)
    ensures var q := ApiMerge(p, data).value;
      && ("name" !in data ==> q.name == p.name)
      && ("description" !in data ==> q.description == p.description)
      && ("sku" !in data ==> q.sku == p.sku)
      && ("price" !in data ==> q.price == p.price)
      && ("stock_quantity" !in data ==> q.stockQuantity == p.stockQuantity)
      && ("category" !in data ==> q.category == p.category)
      && ("image_url" !in data ==> q.imageUrl == p.imageUrl)
      && ("dimensions" !in data ==> q.dimensions == p.dimensions)
      && ("weight" !in data ==> q.weight == p.weight)
  {
  }

  /** A created record holds every supplied value in its column, 0 for a
      null `stock_quantity`, and null in every nullable column the body
      leaves out. */
  lemma ApiNewProductStores(id: int, data: Dict)
    requires ApiNewProduct(id, data).Some?
    ensures forall k :: k in data && k != "stock_quantity" ==> Holds(ApiNewProduct(id, data).value, k, data[k])
    ensures data["stock_quantity"] == JNull ==> ApiNewProduct(id, data).value.stockQuantity == 0
    ensures data["stock_quantity"] != JNull ==>
              Holds(ApiNewProduct(id, data).value, "stock_quantity", data["stock_quantity"])
    ensures forall k :: k in OptionalKeys && k !in data ==> Holds(ApiNewProduct(id, data).value, k, JNull)
  {
  }

  /** An updated record holds every supplied value in its column. */
  lemma ApiMergeStores(p: Product, data: Dict)
    requires ApiMerge(p, data).Some?
    ensures forall k :: k in data ==> Holds(ApiMerge(p, data).value, k, data[k])
  {
  }
}
