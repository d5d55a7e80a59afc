/** String helpers with Python's and SQL's meaning: prefix test, substring
    test, first-occurrence replacement and decimal rendering of ids. */
module Text {

  /** `s.startswith(prefix)`. */
  predicate StartsWith(s: string, prefix: string) {
    |prefix| <= |s| && s[..|prefix|] == prefix
  }

  /** `t` occurs in `s` at position `i`. */
  predicate OccursAt(s: string, t: string, i: int) {
    0 <= i <= |s| - |t| && s[i..i + |t|] == t
  }

  /** Plain substring containment, the meaning given to SQL `contains`
      (`LIKE '%t%'`) in this model. */
  function Contains(s: string, t: string): (r: bool)
    ensures r <==> exists i :: OccursAt(s, t, i)
    decreases |s|
  {
    if StartsWith(s, t) then
      assert OccursAt(s, t, 0);
      true
    else if |s| == 0 then
      false
    else
      var r := Contains(s[1..], t);
      ShiftOccurrence(s, t);
      r
  }

  /** An occurrence in `s[1..]` is an occurrence in `s` one position later,
      and `s` has no occurrence at 0 when it does not start with `t`. */
  lemma ShiftOccurrence(s: string, t: string)
    requires |s| > 0 && !StartsWith(s, t)
    ensures (exists i :: OccursAt(s, t, i)) <==> (exists i :: OccursAt(s[1..], t, i))
  {
    forall i | OccursAt(s[1..], t, i) ensures OccursAt(s, t, i + 1) {
      assert s[1..][i..i + |t|] == s[i + 1..i + 1 + |t|];
    }
    forall i | OccursAt(s, t, i) ensures i >= 1 && OccursAt(s[1..], t, i - 1) {
      assert s[1..][i - 1..i - 1 + |t|] == s[i..i + |t|];
    }
  }

  /** `s.replace(pat, repl, 1)`: the first occurrence of `pat`, if any, is
      replaced by `repl`. */
  function ReplaceFirst(s: string, pat: string, repl: string): (r: string)
    ensures !Contains(s, pat) ==> r == s
    ensures Contains(s, pat) ==>
      exists i :: OccursAt(s, pat, i) && FirstOccurrence(s, pat, i)
                  && r == s[..i] + repl + s[i + |pat|..]
    decreases |s|
  {
    if StartsWith(s, pat) then
      assert OccursAt(s, pat, 0) && FirstOccurrence(s, pat, 0);
      assert s[..0] == [];
      repl + s[|pat|..]
    else if |s| == 0 then
      s
    else
      var rest := ReplaceFirst(s[1..], pat, repl);
      ReplaceFirstStep(s, pat, repl, rest);
      [s[0]] + rest
  }

  /** No occurrence of `pat` in `s` starts before `i`. */
  predicate FirstOccurrence(s: string, pat: string, i: int) {
    forall j :: 0 <= j < i ==> !OccursAt(s, pat, j)
  }

  lemma ReplaceFirstStep(s: string, pat: string, repl: string, rest: string)
    requires |s| > 0 && !StartsWith(s, pat)
    requires !Contains(s[1..], pat) ==> rest == s[1..]
    requires Contains(s[1..], pat) ==>
      exists i :: OccursAt(s[1..], pat, i) && FirstOccurrence(s[1..], pat, i)
                  && rest == s[1..][..i] + repl + s[1..][i + |pat|..]
    ensures !Contains(s, pat) ==> [s[0]] + rest == s
    ensures Contains(s, pat) ==>
      exists i :: OccursAt(s, pat, i) && FirstOccurrence(s, pat, i)
                  && [s[0]] + rest == s[..i] + repl + s[i + |pat|..]
  {
    ShiftOccurrence(s, pat);
    if Contains(s[1..], pat) {
      var i :| OccursAt(s[1..], pat, i) && FirstOccurrence(s[1..], pat, i)
               && rest == s[1..][..i] + repl + s[1..][i + |pat|..];
      ShiftFirst(s, pat, i);
      ShiftSplice(s, pat, repl, i);
    } else {
      assert [s[0]] + s[1..] == s;
    }
  }

  /** The first occurrence in `s[1..]` at `i` is the first in `s`, at `i + 1`. */
  lemma ShiftFirst(s: string, pat: string, i: int)
    requires |s| > 0 && !StartsWith(s, pat)
    requires OccursAt(s[1..], pat, i) && FirstOccurrence(s[1..], pat, i)
    ensures OccursAt(s, pat, i + 1) && FirstOccurrence(s, pat, i + 1)
  {
    assert s[1..][i..i + |pat|] == s[i + 1..i + 1 + |pat|];
    forall j | 0 <= j < i + 1 ensures !OccursAt(s, pat, j) {
      if j == 0 {
        assert s[..|pat|] == s[0..|pat|];
      } else {
        assert !OccursAt(s[1..], pat, j - 1);
        if j <= |s| - |pat| {
          assert s[1..][j - 1..j - 1 + |pat|] == s[j..j + |pat|];
        }
      }
    }
  }

  lemma ShiftSplice(s: string, pat: string, repl: string, i: int)
    requires |s| > 0 && OccursAt(s[1..], pat, i)
    ensures [s[0]] + (s[1..][..i] + repl + s[1..][i + |pat|..])
            == s[..i + 1] + repl + s[i + 1 + |pat|..]
  {
  }

  /** The decimal digit for `d`. */
  function Digit(d: nat): (c: char)
    requires d < 10
    ensures '0' <= c <= '9' && (c as int) - ('0' as int) == d
  {
    "0123456789"[d]
  }

  predicate AllDigits(s: string) {
    forall k :: 0 <= k < |s| ==> '0' <= s[k] <= '9'
  }

  /** The number a string of decimal digits denotes, most significant digit
      first: how Flask's `<int:id>` converter reads a path segment back. */
  function DecimalValue(s: string): nat
    requires AllDigits(s)
  {
    if s == [] then 0
    else 10 * DecimalValue(s[..|s| - 1]) + ((s[|s| - 1] as int) - ('0' as int))
  }

  /** `str(n)` for a non-negative integer, as Flask's `<int:id>` URL
      converter writes it into a path: a non-empty string of digits that
      reads back as `n`, with no leading zero. */
  function Decimal(n: nat): (r: string)
    ensures |r| >= 1 && AllDigits(r)
    ensures DecimalValue(r) == n
    ensures r[0] == '0' ==> n == 0
    decreases n
  {
    if n < 10 then [Digit(n)]
    else
      var r := Decimal(n / 10) + [Digit(n % 10)];
      assert r[..|r| - 1] == Decimal(n / 10);
      r
  }

  /** Distinct ids give distinct paths. */
  lemma DecimalInjective(m: nat, n: nat)
    requires Decimal(m) == Decimal(n)
    ensures m == n
  {
  }
}
