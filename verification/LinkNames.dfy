/** Comparing and hashing link names: two names are the same link when they differ at most by one
    trailing slash, which is not a transitive relation. */
module LinkNames {
  import opened Prelude

  const SLASH: byte := 47

  /** A C string, without its terminator. */
  type CString = s: seq<byte> | (0 as byte) !in s

  /** The part of a name that strnlen(_, NAME_MAX) covers. */
  function Cap(s: CString): (r: CString)
    ensures |r| <= NAME_MAX && r <= s && (|s| <= NAME_MAX ==> r == s)
  {
    if |s| <= NAME_MAX then s else s[..NAME_MAX]
  }

  /** link_linknames_equal */
  predicate NamesEqual(a: CString, b: CString) {
    var la, lb := |Cap(a)|, |Cap(b)|;
    var longest, common := Max(la, lb), Min(la, lb);
    && longest - common <= 1
    && common > 0
    && a[..common] == b[..common]
    && (la == lb || (if la > lb then a else b)[common] == SLASH)
  }

  /** What the comparison decides: equal, or one is the other with a slash appended; never empty. */
  lemma NamesEqualMeans(a: CString, b: CString)
    ensures NamesEqual(a, b) <==>
      var x, y := Cap(a), Cap(b);
      x != [] && y != [] && (x == y || x == y + [SLASH] || y == x + [SLASH])
  {
    var x, y := Cap(a), Cap(b);
    var common := Min(|x|, |y|);
    assert a[..common] == x[..common] && b[..common] == y[..common];
    if |x| == |y| {
      assert x[..common] == x && y[..common] == y;
    } else if |x| == |y| + 1 {
      assert x == x[..common] + [x[common]] && y[..common] == y;
    } else if |y| == |x| + 1 {
      assert y == y[..common] + [y[common]] && x[..common] == x;
    }
  }

  lemma NamesEqualSymmetric(a: CString, b: CString)
    ensures NamesEqual(a, b) == NamesEqual(b, a)
  {
    NamesEqualMeans(a, b);
    NamesEqualMeans(b, a);
  }

  /** `a` ~ `a/` and `a/` ~ `a//`, but not `a` ~ `a//`. */
  lemma NotTransitive()
    ensures exists a: CString, b: CString, c: CString :: NamesEqual(a, b) && NamesEqual(b, c) && !NamesEqual(a, c)
  {
    var a: CString, b: CString, c: CString := [97], [97, SLASH], [97, SLASH, SLASH];
    assert a[..1] == b[..1] && b[..2] == c[..2];
    assert NamesEqual(a, b) && NamesEqual(b, c) && !NamesEqual(a, c);
  }

  // ----- hashing -----

  function Strip(s: seq<byte>): seq<byte> {
    if s != [] && s[|s| - 1] == SLASH then Strip(s[..|s| - 1]) else s
  }

  function HashFrom(s: seq<byte>): nat {
    if s == [] then 5381 else (HashFrom(s[..|s| - 1]) * 33 + s[|s| - 1] as int) % 0x1_0000_0000
  }

  /** The hash of a name, ignoring trailing slashes. */
  function HashOf(s: CString): nat {
    HashFrom(Strip(Cap(s)))
  }

  lemma {:induction false} StripIsPrefix(s: seq<byte>)
    ensures Strip(s) <= s
  {
    if s != [] && s[|s| - 1] == SLASH {
      StripIsPrefix(s[..|s| - 1]);
    }
  }

  /** Names that count as equal hash alike, so a probe for one meets the other. */
  lemma EqualNamesHashAlike(a: CString, b: CString)
    requires NamesEqual(a, b)
    ensures HashOf(a) == HashOf(b)
  {
    NamesEqualMeans(a, b);
    var x, y := Cap(a), Cap(b);
    if x == y + [SLASH] {
      assert x[..|x| - 1] == y;
    } else if y == x + [SLASH] {
      assert y[..|y| - 1] == x;
    }
  }

  /** link_hash_str: 32-bit arithmetic, `hash * 33 + c` with the multiplication done by shift and add. */
  method HashString(s: CString) returns (hash: nat)
    ensures hash == HashOf(s)
    ensures hash < 0x1_0000_0000
  {
    hash := 5381;
    var len := |Cap(s)|;
    ghost var all := Cap(s);
    assert all[..len] == all;
    while len > 0 && s[len - 1] == SLASH
      invariant 0 <= len <= |all|
      invariant Strip(all) == Strip(all[..len])
    {
      assert all[..len][..len - 1] == all[..len - 1];
      len := len - 1;
    }
    ghost var stripped := all[..len];
    assert Strip(all) == stripped;
    var i := 0;
    while i < len
      invariant 0 <= i <= len
      invariant hash == HashFrom(stripped[..i]) && hash < 0x1_0000_0000
    {
      assert stripped[..i + 1][..i] == stripped[..i];
      var shifted := (hash * 32) % 0x1_0000_0000;
      ShiftAdd(hash, s[i] as int);
      hash := ((shifted + hash) % 0x1_0000_0000 + s[i] as int) % 0x1_0000_0000;
      i := i + 1;
    }
    assert stripped[..len] == stripped;
  }

  lemma ShiftAdd(hash: nat, c: nat)
    ensures (((hash * 32) % 0x1_0000_0000 + hash) % 0x1_0000_0000 + c) % 0x1_0000_0000 == (hash * 33 + c) % 0x1_0000_0000
  {
  }

  // ----- masking -----

  /** Bitwise and. */
  function And(a: nat, b: nat): nat {
    if a == 0 || b == 0 then 0
    else (if a % 2 == 1 && b % 2 == 1 then 1 else 0) + 2 * And(a / 2, b / 2)
  }

  predicate IsPow2(n: nat) {
    n == 1 || (n > 0 && n % 2 == 0 && IsPow2(n / 2))
  }

  /** Masking with a power of two less one is the remainder. */
  lemma {:induction false} MaskIsMod(a: nat, n: nat)
    requires IsPow2(n)
    ensures And(a, n - 1) == a % n
  {
    if n > 1 && a > 0 {
      var m := n / 2;
      MaskIsMod(a / 2, m);
      AndHalves(a, m);
      HalfMod(a, m);
      assert n == 2 * m;
    }
  }

  lemma AndHalves(a: nat, m: nat)
    requires a > 0 && m > 0
    ensures And(a, 2 * m - 1) == a % 2 + 2 * And(a / 2, m - 1)
  {
    assert (2 * m - 1) / 2 == m - 1 && (2 * m - 1) % 2 == 1;
  }

  lemma HalfMod(a: nat, m: nat)
    requires m > 0
    ensures a % (2 * m) == a % 2 + 2 * ((a / 2) % m)
  {
    var q, r := (a / 2) / m, (a / 2) % m;
    assert a / 2 == q * m + r;
    assert a == 2 * (q * m + r) + a % 2;
    assert a == q * (2 * m) + (2 * r + a % 2);
    DivModIs(a, 2 * m, q, 2 * r + a % 2);
  }

  /** Two known values: the hash of "a" is 177670, that of "ab", with any number of slashes behind, 5863208. */
  lemma KnownHashes(n: nat)
    requires n <= 253
    ensures HashOf([97]) == 177670 && HashOf([97, 98] + seq(n, _ => SLASH)) == 5863208
  {
    StripSlashes([97, 98], n);
    assert HashFrom([97]) == 177670 by {
      assert [97][..0] == [];
    }
    assert [97, 98][..1] == [97];
  }

  lemma {:induction false} StripSlashes(s: seq<byte>, n: nat)
    requires s != [] && s[|s| - 1] != SLASH
    ensures Strip(s + seq(n, _ => SLASH)) == s
  {
    var t := s + seq(n, _ => SLASH);
    if n > 0 {
      StripSlashes(s, n - 1);
      assert t[..|t| - 1] == s + seq(n - 1, _ => SLASH);
    } else {
      assert t == s;
    }
  }
}
