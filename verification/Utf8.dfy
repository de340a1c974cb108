/**
 What counts as text: exactly the byte strings that spell a sequence of Unicode scalar
 values, each in the form of section 3 of RFC 3629.
 */
module Utf8 {
  import opened Bytes

  /** Code points but the surrogates. */
  predicate IsScalar(c: nat) { c < 0xd800 || 0xe000 <= c < 0x11_0000 }

  function EncScalar(c: nat): (s: Bytes)
    requires IsScalar(c)
    ensures 1 <= |s| <= 4
  {
    if c < 0x80 then [c]
    else if c < 0x800 then [0xc0 + c / 64, 0x80 + c % 64]
    else if c < 0x1_0000 then [0xe0 + c / 4096, 0x80 + c / 64 % 64, 0x80 + c % 64]
    else [0xf0 + c / 26_2144, 0x80 + c / 4096 % 64, 0x80 + c / 64 % 64, 0x80 + c % 64]
  }

  predicate AllScalars(cs: seq<nat>) { forall i | 0 <= i < |cs| :: IsScalar(cs[i]) }

  function EncScalars(cs: seq<nat>): Bytes
    requires AllScalars(cs)
  {
    if cs == [] then [] else EncScalar(cs[0]) + EncScalars(cs[1..])
  }

  function Two(a: int, b: int): int { (a - 0xc0) * 64 + (b - 0x80) }

  function Three(a: int, b: int, c: int): int { (a - 0xe0) * 4096 + (b - 0x80) * 64 + (c - 0x80) }

  function Four(a: int, b: int, c: int, d: int): int {
    (a - 0xf0) * 26_2144 + (b - 0x80) * 4096 + (c - 0x80) * 64 + (d - 0x80)
  }

  lemma TwoSpell(a: int, b: int)
    requires 0xc2 <= a <= 0xdf && 0x80 <= b <= 0xbf
    ensures var n := Two(a, b); 0x80 <= n < 0x800 && 0xc0 + n / 64 == a && 0x80 + n % 64 == b
  {
  }

  lemma ThreeSpell(a: int, b: int, c: int)
    requires 0xe0 <= a <= 0xef && 0x80 <= b <= 0xbf && 0x80 <= c <= 0xbf
    requires (a == 0xe0 ==> b >= 0xa0) && (a == 0xed ==> b <= 0x9f)
    ensures var n := Three(a, b, c);
            && 0x800 <= n < 0x1_0000 && (n < 0xd800 || 0xe000 <= n)
            && 0xe0 + n / 4096 == a && 0x80 + n / 64 % 64 == b && 0x80 + n % 64 == c
  {
    var n := Three(a, b, c);
    assert n / 64 == (a - 0xe0) * 64 + (b - 0x80);
    assert n / 4096 == a - 0xe0;
  }

  lemma FourSpell(a: int, b: int, c: int, d: int)
    requires 0xf0 <= a <= 0xf4 && 0x80 <= b <= 0xbf && 0x80 <= c <= 0xbf && 0x80 <= d <= 0xbf
    requires (a == 0xf0 ==> b >= 0x90) && (a == 0xf4 ==> b <= 0x8f)
    ensures var n := Four(a, b, c, d);
            && 0x1_0000 <= n < 0x11_0000
            && 0xf0 + n / 26_2144 == a && 0x80 + n / 4096 % 64 == b && 0x80 + n / 64 % 64 == c && 0x80 + n % 64 == d
  {
    var n := Four(a, b, c, d);
    assert n / 64 == (a - 0xf0) * 4096 + (b - 0x80) * 64 + (c - 0x80);
    assert n / 4096 == (a - 0xf0) * 64 + (b - 0x80);
    assert n / 26_2144 == a - 0xf0;
  }

  /** A well-formed start spells some scalar value. */
  lemma StartSpells(s: Bytes) returns (c: nat)
    requires ScalarLength(s) > 0
    ensures IsScalar(c) && s[..ScalarLength(s)] == EncScalar(c)
  {
    var n := ScalarLength(s);
    if n == 1 {
      c := s[0];
    } else if n == 2 {
      TwoSpell(s[0], s[1]);
      c := Two(s[0], s[1]);
    } else if n == 3 {
      ThreeSpell(s[0], s[1], s[2]);
      c := Three(s[0], s[1], s[2]);
    } else {
      FourSpell(s[0], s[1], s[2], s[3]);
      c := Four(s[0], s[1], s[2], s[3]);
    }
    hide Two, Three, Four;
  }

  lemma SpelledStarts(c: nat, s: Bytes)
    requires IsScalar(c) && EncScalar(c) <= s
    ensures ScalarLength(s) == |EncScalar(c)|
  {
    var e := EncScalar(c);
    assert forall i | 0 <= i < |e| :: s[i] == e[i];
  }

  lemma {:induction false} TextSpells(s: Bytes) returns (cs: seq<nat>)
    requires IsUtf8(s)
    ensures AllScalars(cs) && s == EncScalars(cs)
    decreases |s|
  {
    hide ScalarLength, EncScalar;
    cs := [];
    if s != [] {
      var n := ScalarLength(s);
      var c := StartSpells(s);
      var rest := TextSpells(s[n..]);
      cs := [c] + rest;
      assert cs[1..] == rest && s == s[..n] + s[n..];
    }
  }

  lemma {:induction false} SpelledIsText(cs: seq<nat>)
    requires AllScalars(cs)
    ensures IsUtf8(EncScalars(cs))
  {
    hide ScalarLength, EncScalar;
    if cs != [] {
      var s, e := EncScalars(cs), EncScalar(cs[0]);
      SpelledIsText(cs[1..]);
      SpelledStarts(cs[0], s);
      assert s[|e|..] == EncScalars(cs[1..]);
    }
  }

  /** A byte string is text exactly when it spells some scalar values. */
  lemma TextIsSpelled(s: Bytes)
    ensures IsUtf8(s) <==> exists cs :: AllScalars(cs) && s == EncScalars(cs)
  {
    if IsUtf8(s) {
      var cs := TextSpells(s);
    }
    if cs :| AllScalars(cs) && s == EncScalars(cs) {
      SpelledIsText(cs);
    }
  }
}
