/** Shared vocabulary: optional values, bytes and the error numbers the program returns negated. */
module Prelude {
  datatype Option<+T> = None | Some(value: T)

  newtype byte = x: int | 0 <= x < 256

  const EIO := 5
  const ENOENT := 2
  const EINVAL := 22

  const INT_MAX := 0x7fff_ffff
  const INT64_MAX := 0x7fff_ffff_ffff_ffff
  const NAME_MAX := 255
  const PATH_MAX := 4096

  function Min(a: int, b: int): int {
    if a <= b then a else b
  }

  function Max(a: int, b: int): int {
    if a <= b then b else a
  }

  lemma Grows(x: int, y: int, n: nat)
    requires x < y
    ensures x * n + n <= y * n
  {
    assert (x + 1) * n <= y * n;
  }

  /** Quotient and remainder are determined by the division equation. */
  lemma DivModIs(a: int, n: nat, q: int, r: nat)
    requires r < n && a == q * n + r
    ensures a / n == q && a % n == r
  {
    var q' := a / n;
    assert a == q' * n + a % n;
    if q' > q {
      Grows(q, q', n);
    } else if q' < q {
      Grows(q', q, n);
    }
  }

  function Bit(b: bool): int {
    if b then 1 else 0
  }

  /** Adding or removing one element changes the size by one, if at all. */
  lemma Card<T>(s: set<T>, x: T)
    ensures |s + {x}| == |s| + Bit(x !in s) && |s - {x}| == |s| - Bit(x in s)
  {
    if x in s {
      assert s + {x} == s;
      assert |s - {x}| == |s| - 1;
    } else {
      assert s - {x} == s;
    }
  }

  ghost predicate NoRepeats<T>(s: seq<T>) {
    forall i, j :: 0 <= i < j < |s| ==> s[i] != s[j]
  }

  /** A list without the first occurrence of `x`. */
  function RemoveFirst<T(==)>(s: seq<T>, x: T): seq<T> {
    if s == [] then [] else if s[0] == x then s[1..] else [s[0]] + RemoveFirst(s[1..], x)
  }

  lemma {:induction false} RemoveFirstIs<T>(s: seq<T>, x: T)
    requires NoRepeats(s)
    ensures NoRepeats(RemoveFirst(s, x)) && forall y :: y in RemoveFirst(s, x) <==> y in s && y != x
  {
    if s == [] {
    } else {
      assert s == [s[0]] + s[1..];
      assert NoRepeats(s[1..]) && s[0] !in s[1..];
      RemoveFirstIs(s[1..], x);
    }
  }

  /** A number that is not in use. */
  lemma {:induction false} Fresh(used: set<nat>) returns (n: nat)
    ensures forall x :: x in used ==> x < n
    decreases |used|
  {
    if used == {} {
      n := 0;
    } else {
      var x :| x in used;
      var m := Fresh(used - {x});
      n := if x < m then m else x + 1;
      assert forall y :: y in used ==> y == x || y in used - {x};
    }
  }
}
