/** The `product` table as the application sees it: records in id order
    (the order SQLite's rowid scan gives `Product.query.all()`, which sets
    no ORDER BY), with the invariants
    the schema declares — fresh primary keys and a unique `sku`
    (models.py:23, 26). */
module Store {
  import opened Wrappers
  import opened Models

  /** Ids strictly increase along the table, so no id occurs twice. */
  predicate IdsAscending(ps: seq<Product>) {
    forall i, j :: 0 <= i < j < |ps| ==> ps[i].id < ps[j].id
  }

  /** The `unique=True` constraint on `sku`. */
  predicate SkusUnique(ps: seq<Product>) {
    forall i, j :: 0 <= i < j < |ps| ==> ps[i].sku != ps[j].sku
  }

  /** Every stored id is positive and below the next id to be issued. */
  predicate IdsBelow(ps: seq<Product>, nextId: int) {
    forall i :: 0 <= i < |ps| ==> 1 <= ps[i].id < nextId
  }

  predicate ValidStore(ps: seq<Product>, nextId: int) {
    IdsAscending(ps) && SkusUnique(ps) && IdsBelow(ps, nextId)
  }

  /** The first position whose element satisfies `p`: what a query's
      `.first()` returns, and, where at most one row can match, `.get()`. */
  function FirstWhere<T>(s: seq<T>, p: T -> bool): (r: Option<nat>)
    ensures r.Some? ==> r.value < |s| && p(s[r.value])
    ensures r.Some? ==> forall i :: 0 <= i < r.value ==> !p(s[i])
    ensures r.None? <==> forall i :: 0 <= i < |s| ==> !p(s[i])
  {
    if |s| == 0 then None
    else if p(s[0]) then Some(0)
    else
      match FirstWhere(s[1..], p)
      case None => None
      case Some(k) => Some(k + 1)
  }

  /** `Product.query.get(id)`: the position of the record with that id. */
  function FindIndex(ps: seq<Product>, id: int): (r: Option<nat>)
    ensures r.Some? ==> r.value < |ps| && ps[r.value].id == id
    ensures r.None? <==> forall i :: 0 <= i < |ps| ==> ps[i].id != id
  {
    FirstWhere(ps, (q: Product) => q.id == id)
  }

  /** The position of the record holding `sku`, the one a new row with that
      `sku` would collide with. */
  function SkuOwner(ps: seq<Product>, sku: string): (r: Option<nat>)
    ensures r.Some? ==> r.value < |ps| && ps[r.value].sku == sku
    ensures r.None? <==> forall i :: 0 <= i < |ps| ==> ps[i].sku != sku
  {
    FirstWhere(ps, (q: Product) => q.sku == sku)
  }

  /** The table without the record at position `k` (`db.session.delete`). */
  function RemoveAt(ps: seq<Product>, k: nat): (r: seq<Product>)
    requires k < |ps|
    ensures |r| == |ps| - 1
  {
    ps[..k] + ps[k + 1..]
  }

  /** In a valid table an id names at most one record. */
  lemma IdNamesOneRecord(ps: seq<Product>, nextId: int, i: nat, j: nat)
    requires ValidStore(ps, nextId)
    requires i < |ps| && j < |ps| && ps[i].id == ps[j].id
    ensures i == j
  {
  }

  /** The next id names no record of a valid table. */
  lemma NextIdIsFresh(ps: seq<Product>, nextId: int)
    requires ValidStore(ps, nextId)
    ensures FindIndex(ps, nextId).None?
  {
  }

  /** Adding a record with the next id and an unused `sku` keeps the table
      valid. */
  lemma InsertKeepsValid(ps: seq<Product>, nextId: int, p: Product)
    requires ValidStore(ps, nextId)
    requires p.id == nextId && nextId >= 1 && SkuOwner(ps, p.sku).None?
    ensures ValidStore(ps + [p], nextId + 1)
  {
  }

  /** Overwriting the record at `k` with one of the same id, whose `sku`
      is unused or already that record's, keeps the table valid. */
  lemma ReplaceKeepsValid(ps: seq<Product>, nextId: int, k: nat, p: Product)
    requires ValidStore(ps, nextId) && k < |ps|
    requires p.id == ps[k].id
    requires SkuOwner(ps, p.sku).None? || SkuOwner(ps, p.sku) == Some(k)
    ensures ValidStore(ps[k := p], nextId)
  {
  }

  /** Removing a record keeps the table valid, and removes exactly the record
      with that id: every other record stays, in the same order. */
  lemma RemoveKeepsValid(ps: seq<Product>, nextId: int, k: nat)
    requires ValidStore(ps, nextId) && k < |ps|
    ensures ValidStore(RemoveAt(ps, k), nextId)
    ensures forall q :: q in RemoveAt(ps, k) <==> q in ps && q.id != ps[k].id
    ensures FindIndex(RemoveAt(ps, k), ps[k].id).None?
  {
  }
}
