/**
  Finite sums as the model uses them: over a set of unit names (the order in
  which the program visits a dictionary does not matter for a sum of reals)
  and over the hours 1..n.
 */
module Sums {

  /** The sum of f over the names in keys. */
  ghost function Sum(keys: set<string>, f: string -> real): real
    decreases |keys|
  {
    if keys == {} then 0.0 else
      var k :| k in keys;
      f(k) + Sum(keys - {k}, f)
  }

  /** The sum may be split at any member, not only at the one Sum picks. */
  lemma {:induction false} SumPick(keys: set<string>, f: string -> real, j: string)
    requires j in keys
    ensures Sum(keys, f) == f(j) + Sum(keys - {j}, f)
    decreases |keys|
  {
    var k :| k in keys && Sum(keys, f) == f(k) + Sum(keys - {k}, f);
    if k != j {
      SumPick(keys - {k}, f, j);
      SumPick(keys - {j}, f, k);
      assert keys - {k} - {j} == keys - {j} - {k};
    }
  }

  lemma {:induction false} SumMono(keys: set<string>, f: string -> real, g: string -> real)
    requires forall k :: k in keys ==> f(k) <= g(k)
    ensures Sum(keys, f) <= Sum(keys, g)
    decreases |keys|
  {
    if keys != {} {
      var k :| k in keys;
      SumPick(keys, f, k);
      SumPick(keys, g, k);
      SumMono(keys - {k}, f, g);
    }
  }

  lemma {:induction false} SumNonNegative(keys: set<string>, f: string -> real)
    requires forall k :: k in keys ==> 0.0 <= f(k)
    ensures 0.0 <= Sum(keys, f)
    decreases |keys|
  {
    if keys != {} {
      var k :| k in keys;
      SumPick(keys, f, k);
      SumNonNegative(keys - {k}, f);
    }
  }

  lemma SumSingleton(k: string, f: string -> real)
    ensures Sum({k}, f) == f(k)
  {
    SumPick({k}, f, k);
    assert {k} - {k} == {};
  }

  /** The sum of f over the hours 1..n. */
  function SumHours(n: nat, f: int -> real): real {
    if n == 0 then 0.0 else SumHours(n - 1, f) + f(n)
  }

  lemma {:induction false} SumHoursMono(n: nat, f: int -> real, g: int -> real)
    requires forall h :: 1 <= h <= n ==> f(h) <= g(h)
    ensures SumHours(n, f) <= SumHours(n, g)
  {
    if n > 0 {
      SumHoursMono(n - 1, f, g);
    }
  }

  lemma {:induction false} SumHoursConst(n: nat, f: int -> real, c: real)
    requires forall h :: 1 <= h <= n ==> f(h) == c
    ensures SumHours(n, f) == n as real * c
  {
    if n > 0 {
      SumHoursConst(n - 1, f, c);
    }
  }
}
