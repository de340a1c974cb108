/**
 Byte strings: the lexicographic order of byte slices, big-endian integers,
 and the UTF-8 test that separates text from bytes.
 */
module Bytes {

  type byte = n: nat | n < 256

  type Bytes = seq<byte>

  type u64 = n: nat | n < 0x1_0000_0000_0000_0000

  /** The longest allocation a slice can have; every length fits an i64. */
  const MAX_LEN := 0x7fff_ffff_ffff_ffff

  datatype Option<+T> = None | Some(value: T)

  // ── Lexicographic order ──────────────────────────────────────────────

  predicate Below(a: Bytes, b: Bytes) {
    b != [] && (a == [] || a[0] < b[0] || (a[0] == b[0] && Below(a[1..], b[1..])))
  }

  lemma {:induction false} BelowIsTotal(a: Bytes, b: Bytes)
    ensures a == b || Below(a, b) || Below(b, a)
  {
    if a != [] && b != [] && a[0] == b[0] {
      BelowIsTotal(a[1..], b[1..]);
      assert a == [a[0]] + a[1..] && b == [b[0]] + b[1..];
    }
  }

  lemma {:induction false} BelowIsTransitive(a: Bytes, b: Bytes, c: Bytes)
    requires Below(a, b) && Below(b, c)
    ensures Below(a, c)
  {
    if a != [] && a[0] == b[0] == c[0] {
      BelowIsTransitive(a[1..], b[1..], c[1..]);
    }
  }

  lemma {:induction false} BelowIsIrreflexive(a: Bytes)
    ensures !Below(a, a)
  {
    if a != [] {
      BelowIsIrreflexive(a[1..]);
    }
  }

  // ── Big-endian integers ──────────────────────────────────────────────

  function Pow256(k: nat): (r: nat)
    ensures r > 0
  {
    if k == 0 then 1 else 256 * Pow256(k - 1)
  }

  /** The `k` low-order bytes of `n`, most significant first. */
  function ToBigEndian(n: nat, k: nat): (r: Bytes)
    ensures |r| == k
  {
    if k == 0 then [] else ToBigEndian(n / 256, k - 1) + [n % 256]
  }

  function FromBigEndian(s: Bytes): (r: nat)
    ensures r < Pow256(|s|)
  {
    if s == [] then 0 else 256 * FromBigEndian(s[..|s| - 1]) + s[|s| - 1]
  }

  lemma {:induction false} FromToBigEndian(n: nat, k: nat)
    requires n < Pow256(k)
    ensures FromBigEndian(ToBigEndian(n, k)) == n
  {
    if k != 0 {
      FromToBigEndian(n / 256, k - 1);
      assert ToBigEndian(n, k)[..k - 1] == ToBigEndian(n / 256, k - 1);
    }
  }

  lemma {:induction false} ToFromBigEndian(s: Bytes)
    ensures ToBigEndian(FromBigEndian(s), |s|) == s
  {
    if s != [] {
      var front := s[..|s| - 1];
      ToFromBigEndian(front);
      assert s == front + [s[|s| - 1]];
      assert FromBigEndian(s) / 256 == FromBigEndian(front);
      assert FromBigEndian(s) % 256 == s[|s| - 1];
    }
  }

  /** Big-endian reading of equally long strings is injective. */
  lemma BigEndianInjective(a: Bytes, b: Bytes)
    requires |a| == |b| && FromBigEndian(a) == FromBigEndian(b)
    ensures a == b
  {
    ToFromBigEndian(a);
    ToFromBigEndian(b);
  }

  /** Comparing equally long arrays is comparing the numbers they spell. */
  lemma {:induction false} BigEndianOrder(a: Bytes, b: Bytes)
    requires |a| == |b|
    ensures Below(a, b) <==> FromBigEndian(a) < FromBigEndian(b)
  {
    if a == b {
      BelowIsIrreflexive(a);
    } else {
      var a', b' := a[..|a| - 1], b[..|b| - 1];
      assert a == a' + [a[|a| - 1]] && b == b' + [b[|b| - 1]];
      BigEndianOrder(a', b');
      BelowSnoc(a', b', a[|a| - 1], b[|b| - 1]);
      if FromBigEndian(a') == FromBigEndian(b') {
        BigEndianInjective(a', b');
      }
    }
  }

  lemma {:induction false} BelowSnoc(a: Bytes, b: Bytes, x: byte, y: byte)
    requires |a| == |b|
    ensures Below(a + [x], b + [y]) <==> (Below(a, b) || (a == b && x < y))
  {
    if a != [] {
      BelowSnoc(a[1..], b[1..], x, y);
      assert (a + [x])[1..] == a[1..] + [x] && (b + [y])[1..] == b[1..] + [y];
      assert a == [a[0]] + a[1..] && b == [b[0]] + b[1..];
    }
  }

  // ── UTF-8 ────────────────────────────────────────────────────────────

  predicate Continues(b: byte) { 0x80 <= b <= 0xbf }

  /** Length of the well-formed code unit sequence `s` starts with, 0 if none. */
  function ScalarLength(s: Bytes): (n: nat)
    ensures n <= |s| && (n == 0 || s != [])
  {
    if s == [] then 0
    else if s[0] <= 0x7f then 1
    else if |s| >= 2 && 0xc2 <= s[0] <= 0xdf && Continues(s[1]) then 2
    else if |s| >= 3 && 0xe0 <= s[0] <= 0xef && Continues(s[1]) && Continues(s[2])
            && (s[0] == 0xe0 ==> s[1] >= 0xa0) && (s[0] == 0xed ==> s[1] <= 0x9f) then 3
    else if |s| >= 4 && 0xf0 <= s[0] <= 0xf4 && Continues(s[1]) && Continues(s[2]) && Continues(s[3])
            && (s[0] == 0xf0 ==> s[1] >= 0x90) && (s[0] == 0xf4 ==> s[1] <= 0x8f) then 4
    else 0
  }

  predicate IsUtf8(s: Bytes)
    decreases |s|
  {
    s == [] || (var n := ScalarLength(s); n > 0 && IsUtf8(s[n..]))
  }
}
