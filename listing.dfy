/** The listing filter of `index` and `api_get_products` (app.py:38-45,
    143-150): `name.contains(term) | category.contains(term)`. */
module Listing {
  import opened Wrappers
  import opened Text
  import opened Models
  import opened Store

  /** The SQL condition for one row. A null category makes its `contains`
      test null, which the `OR` treats as false. */
  predicate Matches(p: Product, term: string) {
    Contains(p.name, term) || (p.category.Some? && Contains(p.category.value, term))
  }

  /** The rows satisfying the condition, in table order. */
  function Filter(ps: seq<Product>, term: string): (r: seq<Product>)
    ensures forall p :: p in r <==> p in ps && Matches(p, term)
    ensures |r| <= |ps|
  {
    if |ps| == 0 then []
    else if Matches(ps[0], term) then [ps[0]] + Filter(ps[1..], term)
    else Filter(ps[1..], term)
  }

  /** The query for `?search=term`: a non-empty term filters, an absent or
      empty one (`if search_query:`) lists the whole table. */
  function Search(ps: seq<Product>, term: Option<string>): (r: seq<Product>)
    ensures term.None? || term == Some("") ==> r == ps
    ensures term.Some? && term.value != "" ==>
              forall p :: p in r <==> p in ps && Matches(p, term.value)
  {
    if term.Some? && term.value != "" then Filter(ps, term.value) else ps
  }

  /** Filtering keeps the table's id order, so the result lists each record
      at most once and in the order of the unfiltered listing. */
  lemma {:induction false} FilterKeepsOrder(ps: seq<Product>, term: string)
    requires IdsAscending(ps)
    ensures IdsAscending(Filter(ps, term))
  {
    if |ps| > 0 {
      FilterKeepsOrder(ps[1..], term);
      if Matches(ps[0], term) {
        var rest := Filter(ps[1..], term);
        forall j | 0 <= j < |rest| ensures ps[0].id < rest[j].id {
          assert rest[j] in ps[1..];
        }
      }
    }
  }

  /** A sequence in id order is determined by its members. */
  lemma {:induction false} AscendingDeterminedByMembers(a: seq<Product>, b: seq<Product>)
    requires IdsAscending(a) && IdsAscending(b)
    requires forall p :: p in a <==> p in b
    ensures a == b
    decreases |a|
  {
    if |a| == 0 {
      NoMembersEmpty(b);
    } else if |b| == 0 {
      NoMembersEmpty(a);
    } else {
      assert a[0] in b && b[0] in a;
      var i :| 0 <= i < |a| && a[i] == b[0];
      var j :| 0 <= j < |b| && b[j] == a[0];
      assert i == 0 && j == 0;
      forall p ensures p in a[1..] <==> p in b[1..] {
        if p in a[1..] {
          var k :| 1 <= k < |a| && a[k] == p;
          assert p in b && p != b[0];
          var m :| 0 <= m < |b| && b[m] == p;
          assert b[1..][m - 1] == p;
        }
        if p in b[1..] {
          var k :| 1 <= k < |b| && b[k] == p;
          assert p in a && p != a[0];
          var m :| 0 <= m < |a| && a[m] == p;
          assert a[1..][m - 1] == p;
        }
      }
      AscendingDeterminedByMembers(a[1..], b[1..]);
      assert a == [a[0]] + a[1..] && b == [b[0]] + b[1..];
    }
  }

  lemma NoMembersEmpty(s: seq<Product>)
    requires forall p :: p !in s
    ensures s == []
  {
    if s != [] {
      HeadIsMember(s);
      assert false;
    }
  }

  lemma HeadIsMember(s: seq<Product>)
    requires s != []
    ensures s[0] in s
  {
  }

  /** In a valid table the search result is THE id-ordered list of the
      matching records: any id-ordered list holding exactly those equals it. */
  lemma SearchCharacterised(ps: seq<Product>, nextId: int, term: Option<string>, other: seq<Product>)
    requires ValidStore(ps, nextId)
    requires IdsAscending(other)
    requires forall p :: p in other <==> p in ps && (term.Some? && term.value != "" ==> Matches(p, term.value))
    ensures Search(ps, term) == other
  {
    if term.Some? && term.value != "" {
      FilterKeepsOrder(ps, term.value);
    }
    AscendingDeterminedByMembers(Search(ps, term), other);
  }
}
