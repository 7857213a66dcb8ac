/** Fixed-width little-endian integers, as fread and fwrite of a C integer store them. */
module LittleEndian {
  import opened Prelude

  function Range(k: nat): (n: nat)
    ensures n > 0
  {
    if k == 0 then 1 else 256 * Range(k - 1)
  }

  function Le(n: nat, k: nat): (r: seq<byte>)
    ensures |r| == k
  {
    if k == 0 then [] else [(n % 256) as byte] + Le(n / 256, k - 1)
  }

  function FromLe(s: seq<byte>): (n: nat)
    ensures n < Range(|s|)
  {
    if s == [] then 0 else s[0] as int + 256 * FromLe(s[1..])
  }

  lemma {:induction false} LeRoundTrip(n: nat, k: nat)
    requires n < Range(k)
    ensures FromLe(Le(n, k)) == n
  {
    if k > 0 {
      LeRoundTrip(n / 256, k - 1);
      assert Le(n, k)[1..] == Le(n / 256, k - 1);
    }
  }

  lemma {:induction false} LeOfFromLe(s: seq<byte>)
    ensures Le(FromLe(s), |s|) == s
  {
    if s != [] {
      LeOfFromLe(s[1..]);
      assert FromLe(s) / 256 == FromLe(s[1..]) && FromLe(s) % 256 == s[0] as int;
    }
  }

  // ----- two's complement -----

  /** The `k`-byte signed integers. */
  predicate Fits(x: int, k: nat) {
    0 - Range(k) <= 2 * x < Range(k)
  }

  function Put(x: int, k: nat): (r: seq<byte>)
    requires Fits(x, k)
    ensures |r| == k
  {
    Le(if x < 0 then x + Range(k) else x, k)
  }

  function Get(s: seq<byte>): (x: int)
    requires s != []
    ensures Fits(x, |s|)
  {
    var n := FromLe(s);
    if 2 * n < Range(|s|) then n else n - Range(|s|)
  }

  lemma PutGet(x: int, k: nat)
    requires k > 0 && Fits(x, k)
    ensures Get(Put(x, k)) == x
  {
    LeRoundTrip(if x < 0 then x + Range(k) else x, k);
  }

  lemma GetPut(s: seq<byte>)
    requires s != []
    ensures Put(Get(s), |s|) == s
  {
    LeOfFromLe(s);
  }

  lemma Widths()
    ensures Range(4) == 0x1_0000_0000 && Range(8) == 0x1_0000_0000_0000_0000
  {
    assert Range(1) == 0x100 && Range(2) == 0x1_0000 && Range(3) == 0x100_0000;
    assert Range(5) == 256 * Range(4) && Range(6) == 256 * Range(5) && Range(7) == 256 * Range(6);
  }

  // ----- the bytes of a field -----

  /** Byte `i` of the `w`-byte two's complement form of `x`, the least significant one first. */
  function ByteOf(x: int, w: nat, i: nat): int {
    (if x < 0 then x + Range(w) else x) / Range(i) % 256
  }

  lemma Regroup(n: nat, b: nat, q: nat, r: nat, c: nat)
    requires n == 256 * (q * b + r) + c && r < b && c < 256
    ensures n == q * (256 * b) + (256 * r + c) && 256 * r + c < 256 * b
  {
    assert 256 * (q * b) == q * (256 * b);
  }

  lemma DivTwice(n: nat, b: nat)
    requires b > 0
    ensures n / 256 / b == n / (256 * b)
  {
    var q, r := n / 256 / b, n / 256 % b;
    DivEquation(n / 256, b);
    Regroup(n, b, q, r, n % 256);
    DivModIs(n, 256 * b, q, 256 * r + n % 256);
  }

  lemma DivEquation(n: nat, b: nat)
    requires b > 0
    ensures n == n / b * b + n % b
  {
  }

  lemma {:induction false} LeByte(n: nat, k: nat, i: nat)
    requires i < k
    ensures Le(n, k)[i] as int == n / Range(i) % 256
    decreases i
  {
    if i > 0 {
      LeByte(n / 256, k - 1, i - 1);
      DivTwice(n, Range(i - 1));
    }
  }

  lemma PutByte(x: int, k: nat, i: nat)
    requires Fits(x, k) && i < k
    ensures Put(x, k)[i] as int == ByteOf(x, k, i)
  {
    LeByte(if x < 0 then x + Range(k) else x, k, i);
  }
}
