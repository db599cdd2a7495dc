/** Small functions and facts that several modules use. */
module Helpers {
  function Min(a: int, b: int): int {
    if a <= b then a else b
  }

  function Max(a: int, b: int): int {
    if a >= b then a else b
  }

  /** A product that the solver need not look into. */
  function Times(a: nat, b: nat): nat {
    a * b
  }

  /** At most `n` rows from the front. */
  function Take<T>(rows: seq<T>, n: nat): (r: seq<T>)
    ensures |r| <= n
    ensures forall x :: x in r ==> x in rows
  {
    if |rows| <= n then rows else rows[..n]
  }

  predicate OccursAt(s: string, t: string, i: int) {
    0 <= i <= |s| - |t| && s[i..i + |t|] == t
  }

  lemma NoMembers(s: set<int>)
    requires forall y :: y !in s
    ensures s == {}
  {
    assert forall y :: y in s <==> y in {};
  }

  lemma Member(s: set<int>) returns (x: int)
    requires s != {}
    ensures x in s
  {
    if forall y :: y !in s {
      NoMembers(s);
      assert false;
    }
    x :| x in s;
  }

  lemma AddShares(a: real, b: real, c: real)
    requires c != 0.0
    ensures a / c + b / c == (a + b) / c
  {
  }

  lemma DivideOrder(a: real, b: real, c: real)
    requires a <= b && c > 0.0
    ensures a / c <= b / c
  {
  }
}
