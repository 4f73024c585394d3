/** Bytes and big-endian numbers, as both wire formats use them. */
module Bytes {

  type Byte = b: int | 0 <= b < 256
  type Word = w: int | 0 <= w < 0x1_0000_0000

  function Pow256(n: nat): (p: nat)
    ensures p >= 1
  {
    if n == 0 then 1 else 256 * Pow256(n - 1)
  }

  lemma {:induction false} WordSize()
    ensures Pow256(4) == 0x1_0000_0000
  {
    assert Pow256(2) == 0x1_0000;
  }

  /** The low `n` bytes of `w`, most significant first. */
  function BigEndian(w: nat, n: nat): (r: seq<Byte>)
    ensures |r| == n
  {
    if n == 0 then [] else BigEndian(w / 256, n - 1) + [w % 256]
  }

  function FromBigEndian(b: seq<Byte>): nat {
    if b == [] then 0 else FromBigEndian(b[..|b| - 1]) * 256 + b[|b| - 1] as int
  }

  lemma {:induction false} BigEndianRoundTrip(w: nat, n: nat)
    requires w < Pow256(n)
    ensures FromBigEndian(BigEndian(w, n)) == w
  {
    if n > 0 {
      var r := BigEndian(w, n);
      assert r[..n - 1] == BigEndian(w / 256, n - 1) && r[n - 1] == w % 256;
      BigEndianRoundTrip(w / 256, n - 1);
    }
  }

  lemma {:induction false} FromBigEndianBound(b: seq<Byte>)
    ensures FromBigEndian(b) < Pow256(|b|)
  {
    if b != [] {
      FromBigEndianBound(b[..|b| - 1]);
    }
  }

  /** The 32-bit word that four bytes spell. */
  function WordOf(b: seq<Byte>): (w: Word)
    requires |b| == 4
    ensures w == FromBigEndian(b)
  {
    FromBigEndianBound(b);
    WordSize();
    FromBigEndian(b)
  }

  lemma {:induction false} WordRoundTrip(w: Word)
    ensures WordOf(BigEndian(w, 4)) == w
  {
    WordSize();
    BigEndianRoundTrip(w, 4);
  }

  /** The bytes of a number, the most significant one first. */
  lemma {:induction false} BigEndianAt(w: nat, n: nat, k: nat)
    requires k < n
    ensures BigEndian(w, n)[k] == (w / Pow256(n - 1 - k)) % 256
    decreases n
  {
    if k == n - 1 {
      assert Pow256(0) == 1;
    } else {
      BigEndianAt(w / 256, n - 1, k);
      assert BigEndian(w, n)[k] == BigEndian(w / 256, n - 1)[k];
      DivideTwice(w, Pow256(n - 2 - k));
    }
  }

  lemma {:induction false} DivideTwice(w: nat, p: nat)
    requires p > 0
    ensures (w / 256) / p == w / (256 * p)
  {
    var q, r := w / 256, w % 256;
    var c, s := q / p, q % p;
    assert w == 256 * q + r && q == p * c + s;
    assert 256 * (p * c + s) == (256 * p) * c + 256 * s;
    var t := 256 * s + r;
    assert w == (256 * p) * c + t && t < 256 * p;
    QuotientIs(w, 256 * p, c, t);
  }

  lemma {:induction false} QuotientIs(x: nat, d: nat, c: nat, t: nat)
    requires t < d && x == d * c + t
    ensures x / d == c
  {
    var e, s := x / d, x % d;
    assert x == d * e + s;
    assert d * (e - c) == t - s;
    assert e - c >= 1 ==> d * (e - c) >= d;
    assert e - c <= -1 ==> d * (e - c) + d <= 0;
  }

  /** The four bytes of a word. */
  lemma {:induction false} WordBytes(w: Word)
    ensures BigEndian(w, 4) == [w / 16777216, w / 65536 % 256, w / 256 % 256, w % 256]
  {
    BigEndianAt(w, 4, 0);
    BigEndianAt(w, 4, 1);
    BigEndianAt(w, 4, 2);
    BigEndianAt(w, 4, 3);
    assert Pow256(0) == 1 && Pow256(1) == 256 && Pow256(2) == 65536 && Pow256(3) == 16777216;
  }
}
