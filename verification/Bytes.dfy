/** Bytes, and the numbers they spell in big-endian order. */
module Bytes {

  type Byte = x: int | 0 <= x < 256

  function Power(k: nat): (r: nat)
    ensures r > 0
  {
    if k == 0 then 1 else 256 * Power(k - 1)
  }

  function FromBytes(s: seq<Byte>): nat
  {
    if s == [] then 0 else FromBytes(s[..|s| - 1]) * 256 + s[|s| - 1]
  }

  /** The k lowest bytes. */
  function ToBytes(n: nat, k: nat): (r: seq<Byte>)
    ensures |r| == k
  {
    if k == 0 then [] else ToBytes(n / 256, k - 1) + [n % 256]
  }

  lemma ModSplit(n: nat, p: nat)
    requires p > 0
    ensures n / 256 % p * 256 + n % 256 == n % (256 * p)
  {
    var q, r := n / 256, n % 256;
    var a, b := q / p, q % p;
    assert n == 256 * (p * a + b) + r == (256 * p) * a + (256 * b + r);
    assert 0 <= 256 * b + r < 256 * p;
    ModIs(n, 256 * p, a, 256 * b + r);
  }

  lemma MulMonotone(m: nat, a: nat, b: nat)
    ensures a <= b ==> m * a <= m * b
  {
  }

  lemma ModIs(n: nat, m: nat, a: nat, r: nat)
    requires m > 0 && n == m * a + r && r < m
    ensures n % m == r
  {
    var q := n / m;
    assert n == m * q + n % m;
    MulMonotone(m, q + 1, a);
    MulMonotone(m, a + 1, q);
    assert m * (q + 1) == m * q + m && m * (a + 1) == m * a + m;
  }

  /** What k bytes keep of a number. */
  lemma {:induction false} BytesKeep(n: nat, k: nat)
    ensures FromBytes(ToBytes(n, k)) == n % Power(k)
  {
    if k > 0 {
      BytesKeep(n / 256, k - 1);
      ModSplit(n, Power(k - 1));
      assert ToBytes(n, k)[..k - 1] == ToBytes(n / 256, k - 1);
    }
  }

  lemma BytesBack(n: nat, k: nat)
    requires n < Power(k)
    ensures FromBytes(ToBytes(n, k)) == n
  {
    BytesKeep(n, k);
  }

  /** Bytes of the same length that spell the same number are the same. */
  lemma {:induction false} BytesInjective(s: seq<Byte>, t: seq<Byte>)
    requires |s| == |t| && FromBytes(s) == FromBytes(t)
    ensures s == t
  {
    if s != [] {
      BytesInjective(s[..|s| - 1], t[..|t| - 1]);
      assert s == s[..|s| - 1] + [s[|s| - 1]] && t == t[..|t| - 1] + [t[|t| - 1]];
    }
  }
}
