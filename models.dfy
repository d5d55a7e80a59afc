/** The two tables of the catalogue (models.py): `Product` records, their
    JSON serialisation `to_dict`, and `User` accounts with salted password
    hashes. */
module Models {
  import opened Wrappers

  /** A JSON value as Flask decodes it from a request body or encodes it
      into a response. Booleans, arrays and objects are lumped together:
      no column of the schema accepts them. */
  datatype JsonValue = JNull | JInt(i: int) | JNum(x: real) | JStr(s: string) | JOther

  /** A JSON object. */
  type Dict = map<string, JsonValue>

  /** One row of the `product` table (models.py:22-32). The non-nullable
      columns `name`, `sku`, `price` and `stock_quantity` have plain types,
      so a stored record never holds a null in them; the nullable columns
      are `Option`s. `price` and `weight` are database floats, modelled as
      reals. */
  datatype Product = Product(
    id: int,
    name: string,
    description: Option<string>,
    sku: string,
    price: real,
    stockQuantity: int,
    category: Option<string>,
    imageUrl: Option<string>,
    dimensions: Option<string>,
    weight: Option<real>)

  /** The keys of `to_dict`, one per column. */
  const ProductKeys: set<string> :=
    {"id", "name", "description", "sku", "price", "stock_quantity",
     "category", "image_url", "dimensions", "weight"}

  /** `Product(...)` called with keyword arguments and then inserted: a
      `stock_quantity` of None is left out of the INSERT, so the column
      default 0 applies (models.py:28); every other field is kept as given. */
  function NewProduct(id: int, name: string, description: Option<string>, sku: string,
                      price: real, stockQuantity: Option<int>, category: Option<string>,
                      imageUrl: Option<string>, dimensions: Option<string>,
                      weight: Option<real>): (p: Product)
    ensures p.id == id && p.name == name && p.sku == sku && p.price == price
    ensures p.description == description && p.category == category && p.imageUrl == imageUrl
    ensures p.dimensions == dimensions && p.weight == weight
    ensures stockQuantity.None? ==> p.stockQuantity == 0
    ensures stockQuantity.Some? ==> p.stockQuantity == stockQuantity.value
  {
    Product(id, name, description, sku, price, stockQuantity.GetOr(0),
            category, imageUrl, dimensions, weight)
  }

  function TextJson(o: Option<string>): JsonValue {
    match o
    case None => JNull
    case Some(s) => JStr(s)
  }

  function NumberJson(o: Option<real>): JsonValue {
    match o
    case None => JNull
    case Some(x) => JNum(x)
  }

  /** `Product.to_dict` (models.py:34-46): exactly the ten column keys, each
      holding its column's value, null for an empty nullable column. */
  function ToDict(p: Product): (d: Dict)
    ensures d.Keys == ProductKeys
    ensures d["id"] == JInt(p.id) && d["name"] == JStr(p.name) && d["sku"] == JStr(p.sku)
    ensures d["price"] == JNum(p.price) && d["stock_quantity"] == JInt(p.stockQuantity)
    ensures d["description"] == TextJson(p.description) && d["category"] == TextJson(p.category)
    ensures d["image_url"] == TextJson(p.imageUrl) && d["dimensions"] == TextJson(p.dimensions)
    ensures d["weight"] == NumberJson(p.weight)
  {
    map["id" := JInt(p.id), "name" := JStr(p.name), "description" := TextJson(p.description),
        "sku" := JStr(p.sku), "price" := JNum(p.price), "stock_quantity" := JInt(p.stockQuantity),
        "category" := TextJson(p.category), "image_url" := TextJson(p.imageUrl),
        "dimensions" := TextJson(p.dimensions), "weight" := NumberJson(p.weight)]
  }

  // Column coercions: a JSON value a column of the given kind can store.

  /** A non-nullable text column accepts only a string. */
  function AsText(v: JsonValue): Option<string> {
    if v.JStr? then Some(v.s) else None
  }

  /** A nullable text column accepts a string or null. */
  function AsOptText(v: JsonValue): Option<Option<string>> {
    match v
    case JNull => Some(None)
    case JStr(s) => Some(Some(s))
    case _ => None
  }

  /** A non-nullable float column accepts any JSON number. */
  function AsNumber(v: JsonValue): Option<real> {
    match v
    case JInt(i) => Some(i as real)
    case JNum(x) => Some(x)
    case _ => None
  }

  /** A nullable float column accepts a number or null. */
  function AsOptNumber(v: JsonValue): Option<Option<real>> {
    match v
    case JNull => Some(None)
    case JInt(i) => Some(Some(i as real))
    case JNum(x) => Some(Some(x))
    case _ => None
  }

  /** A non-nullable integer column accepts a JSON integer. */
  function AsInteger(v: JsonValue): Option<int> {
    if v.JInt? then Some(v.i) else None
  }

  /** An integer column with a default, on insert: an integer, or null,
      which leaves the column to its default. */
  function AsOptInteger(v: JsonValue): Option<Option<int>> {
    match v
    case JNull => Some(None)
    case JInt(i) => Some(Some(i))
    case _ => None
  }

  /** Reads a serialised product back: the inverse of `to_dict`, as a client
      of the JSON interface decodes it. */
  function FromDict(d: Dict): (r: Option<Product>)
    ensures r.Some? ==> ProductKeys <= d.Keys
  {
    if !(ProductKeys <= d.Keys) then None
    else if !(d["id"].JInt? && d["stock_quantity"].JInt?) then None
    else
      var name, description, sku := AsText(d["name"]), AsOptText(d["description"]), AsText(d["sku"]);
      var price, category, imageUrl := AsNumber(d["price"]), AsOptText(d["category"]), AsOptText(d["image_url"]);
      var dimensions, weight := AsOptText(d["dimensions"]), AsOptNumber(d["weight"]);
      if name.Some? && description.Some? && sku.Some? && price.Some? && category.Some?
         && imageUrl.Some? && dimensions.Some? && weight.Some?
      then Some(Product(d["id"].i, name.value, description.value, sku.value, price.value,
                        d["stock_quantity"].i, category.value, imageUrl.value,
                        dimensions.value, weight.value))
      else None
  }

  /** `to_dict` loses nothing: the record can be read back from it. */
  lemma DictRoundTrip(p: Product)
    ensures FromDict(ToDict(p)) == Some(p)
  {
  }

  /** Two records with the same serialisation are the same record. */
  lemma ToDictInjective(p: Product, q: Product)
    requires ToDict(p) == ToDict(q)
    ensures p == q
  {
  }

  // Password hashing (werkzeug), kept abstract.

  /** A one-way key-derivation function: `derive(password, salt)`. */
  datatype Hasher = Hasher(derive: (string, string) -> string)

  /** What `generate_password_hash` stores: the salt and the derived digest,
      never the password itself. */
  datatype PasswordHash = PasswordHash(salt: string, digest: string)

  /** `generate_password_hash(password)`, with the random salt as a parameter. */
  function GeneratePasswordHash(h: Hasher, password: string, salt: string): (ph: PasswordHash)
    ensures ph.salt == salt
  {
    PasswordHash(salt, h.derive(password, salt))
  }

  /** `check_password_hash(stored, password)`: re-derive with the stored salt
      and compare digests. */
  function CheckPasswordHash(h: Hasher, stored: PasswordHash, password: string): (ok: bool)
    ensures ok <==> stored == GeneratePasswordHash(h, password, stored.salt)
  {
    h.derive(password, stored.salt) == stored.digest
  }

  /** A hash always accepts the password it was generated from; it rejects
      any other password whose digest under that salt differs. */
  lemma HashThenCheck(h: Hasher, password: string, other: string, salt: string)
    ensures CheckPasswordHash(h, GeneratePasswordHash(h, password, salt), password)
    ensures h.derive(other, salt) != h.derive(password, salt) ==>
              !CheckPasswordHash(h, GeneratePasswordHash(h, password, salt), other)
  {
  }

  /** A row of the `user` table (models.py:11-20). `id` and `username` are
      never reassigned after creation; `password_hash` is empty until
      `set_password` writes it. */
  class User {
    const id: int
    const username: string
    var passwordHash: Option<PasswordHash>

    /** `User(username=...)`, with the id the database assigns. */
    constructor (id: int, username: string)
      ensures this.id == id && this.username == username && passwordHash == None
    {
      this.id := id;
      this.username := username;
      passwordHash := None;
    }

    /** `set_password` (models.py:16-17): stores the salted hash, after which
        `check_password` accepts `password`. */
    method SetPassword(h: Hasher, password: string, salt: string)
      modifies this
      ensures passwordHash == Some(GeneratePasswordHash(h, password, salt))
      ensures CheckPassword(h, password)
    {
      passwordHash := Some(GeneratePasswordHash(h, password, salt));
    }

    /** `check_password` (models.py:19-20); werkzeug raises on a missing hash
        and the application only calls it on stored users, which have one. */
    function CheckPassword(h: Hasher, password: string): (ok: bool)
      reads this
      requires passwordHash.Some?
      ensures ok <==> passwordHash == Some(GeneratePasswordHash(h, password, passwordHash.value.salt))
    {
      CheckPasswordHash(h, passwordHash.value, password)
    }
  }
}
