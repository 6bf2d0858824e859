/** Big numbers as byte vectors and as compact targets (src/bignum.h: setvch, getvch,
    SetCompact, GetCompact). The byte format of BN_bn2mpi is big endian with the sign in the
    top bit; its four length bytes are left out. */
module Bignum {
  import opened Radix

  function Abs(x: int): nat { if x < 0 then -x else x }

  /** The bytes of a number with room for the sign bit. */
  function Magnitude(a: nat): (r: seq<nat>)
    ensures Below(256, r) && (r != [] ==> r[0] < 128) && (r == [] <==> a == 0)
  {
    var d := Digits(256, a);
    if d != [] && d[0] >= 128 then [0] + d else d
  }

  /** BN_bn2mpi. */
  function Mpi(x: int): (r: seq<nat>)
    ensures Below(256, r)
  {
    var m := Magnitude(Abs(x));
    if x < 0 then m[0 := m[0] + 128] else m
  }

  /** BN_mpi2bn. */
  function FromMpi(s: seq<nat>): int {
    if s == [] then 0 else if s[0] >= 128 then 0 - Value(256, s[0 := s[0] - 128]) else Value(256, s)
  }

  lemma MagnitudeValue(a: nat)
    ensures Value(256, Magnitude(a)) == a
  {
    ValueOfDigits(256, a);
    ZeroFirst(Digits(256, a));
  }

  /** The byte format loses nothing. */
  lemma MpiRoundTrip(x: int)
    ensures FromMpi(Mpi(x)) == x
  {
    MagnitudeValue(Abs(x));
    var m := Magnitude(Abs(x));
    if x < 0 { assert m[0 := m[0] + 128][0 := m[0]] == m; }
  }

  function Reverse(s: seq<nat>): (r: seq<nat>)
    ensures |r| == |s| && forall i :: 0 <= i < |s| ==> r[i] == s[|s| - 1 - i]
  {
    seq(|s|, i requires 0 <= i < |s| => s[|s| - 1 - i])
  }

  lemma ReverseTwice(s: seq<nat>)
    ensures Reverse(Reverse(s)) == s
  {}

  function GetVch(x: int): seq<nat> { Reverse(Mpi(x)) }

  function SetVch(v: seq<nat>): int { FromMpi(Reverse(v)) }

  lemma VchRoundTrip(x: int)
    ensures SetVch(GetVch(x)) == x
  {
    ReverseTwice(Mpi(x));
    MpiRoundTrip(x);
  }

  // ---------------------------------------------------------------- compact form

  function ByteAt(s: seq<nat>, i: nat): nat { if i < |s| then s[i] else 0 }

  function GetCompact(x: int): nat {
    var m := Mpi(x);
    |m| % 256 * 0x1000000 + ByteAt(m, 0) * 0x10000 + ByteAt(m, 1) * 0x100 + ByteAt(m, 2)
  }

  /** The bytes that SetCompact builds. */
  function CompactBytes(c: nat): seq<nat> {
    var nSize := c / 0x1000000 % 256;
    seq(nSize, i requires 0 <= i < nSize =>
      if i == 0 then c / 0x10000 % 256 else if i == 1 then c / 0x100 % 256 else if i == 2 then c % 256 else 0)
  }

  function SetCompact(c: nat): int { FromMpi(CompactBytes(c)) }

  lemma CompactParts(n: nat, a: nat, b: nat, c: nat)
    requires n < 256 && a < 256 && b < 256 && c < 256
    ensures var x := n * 0x1000000 + a * 0x10000 + b * 0x100 + c;
      x / 0x1000000 % 256 == n && x / 0x10000 % 256 == a && x / 0x100 % 256 == b && x % 256 == c
  {
    var x := n * 0x1000000 + a * 0x10000 + b * 0x100 + c;
    assert x / 0x100 == n * 0x10000 + a * 0x100 + b;
    assert x / 0x10000 == n * 0x100 + a;
    assert x / 0x1000000 == n;
  }

  /** What is left of the bytes of a number in compact form. */
  function Top(m: seq<nat>): (r: seq<nat>)
    ensures |r| == |m|
  {
    if |m| <= 3 then m else m[..3] + Zeros(|m| - 3)
  }

  lemma CompactKeepsTop(x: nat)
    requires |Mpi(x)| < 256
    ensures CompactBytes(GetCompact(x)) == Top(Mpi(x))
  {
    var m := Mpi(x);
    CompactParts(|m|, ByteAt(m, 0), ByteAt(m, 1), ByteAt(m, 2));
  }

  /** `m` is how some positive number is written. */
  predicate Canonical(m: seq<nat>) {
    && m != [] && Below(256, m) && m[0] < 128
    && (m[0] == 0 ==> |m| > 1 && m[1] >= 128)
  }

  lemma MpiCanonical(x: nat)
    requires x > 0
    ensures Canonical(Mpi(x)) && Value(256, Mpi(x)) == x
  {
    MagnitudeValue(x);
  }

  lemma ZeroFirst(d: seq<nat>)
    ensures Value(256, [0] + d) == Value(256, d)
  {
    ValueConcat(256, [0], d);
    ValueZeros(256, 1);
    assert Zeros(1) == [0];
  }

  lemma CanonicalMagnitude(m: seq<nat>)
    requires Canonical(m)
    ensures Value(256, m) > 0 && Magnitude(Value(256, m)) == m
  {
    var d := if m[0] == 0 then m[1..] else m;
    if m[0] == 0 {
      ZeroFirst(d);
      assert m == [0] + d;
    }
    DigitsOfValue(256, d);
    ValuePositive(256, d);
  }

  lemma CanonicalMpi(m: seq<nat>)
    requires Canonical(m)
    ensures Value(256, m) > 0 && FromMpi(m) == Value(256, m) && Mpi(Value(256, m)) == m
  {
    CanonicalMagnitude(m);
  }

  /** Three bytes of a canonical form are at least 2^15. */
  lemma TopIsLarge(m: seq<nat>)
    requires Canonical(m) && |m| >= 3
    ensures Value(256, m[..3]) >= 0x8000
  {
    assert m[..3][..2] == m[..2] && m[..2][..1] == m[..1] && m[..1][..0] == [];
    assert Value(256, m[..1]) == m[0];
    assert Value(256, m[..2]) == m[0] * 256 + m[1];
    assert Value(256, m[..3]) == (m[0] * 256 + m[1]) * 256 + m[2];
  }

  /** The loss of the compact form, for the number written as `m`. */
  lemma TopValue(m: seq<nat>)
    requires Canonical(m)
    ensures Canonical(Top(m))
    ensures var x, y := Value(256, m), Value(256, Top(m)); 0 < y <= x && (x - y) * 0x8000 < x
  {
    CanonicalMpi(m);
    if |m| > 3 {
      var v, p := Value(256, m[..3]), Pow(256, |m| - 3);
      assert m == m[..3] + m[3..];
      ValueConcat(256, m[..3], m[3..]);
      ValueConcat(256, m[..3], Zeros(|m| - 3));
      ValueZeros(256, |m| - 3);
      ValueBound(256, m[3..]);
      TopIsLarge(m);
      Scale(0x8000, v, p);
    }
    CanonicalMpi(Top(m));
  }

  /** The compact form of a positive number is positive, not larger, loses less than a
      2^-15 part, and encodes to itself. */
  lemma CompactRound(x: nat)
    requires x > 0 && |Mpi(x)| < 256
    ensures var y := SetCompact(GetCompact(x));
      0 < y <= x && (x - y) * 0x8000 < x && GetCompact(y) == GetCompact(x) && SetCompact(GetCompact(y)) == y
  {
    var m := Mpi(x);
    MpiCanonical(x);
    CompactKeepsTop(x);
    TopValue(m);
    CanonicalMpi(Top(m));
  }

  /** What compact bits stand for: a mantissa of three bytes times a power of 256. */
  lemma SetCompactIs(nSize: nat, mantissa: nat)
    requires 3 <= nSize < 256 && mantissa < 0x80_0000
    ensures SetCompact(nSize * 0x1000000 + mantissa) == mantissa * Pow(256, nSize - 3)
  {
    var a, b, c := mantissa / 0x10000, mantissa / 0x100 % 0x100, mantissa % 0x100;
    CompactParts(nSize, a, b, c);
    assert CompactBytes(nSize * 0x1000000 + mantissa) == [a, b, c] + Zeros(nSize - 3);
    ThreeBytes(a, b, c);
    ValueConcat(256, [a, b, c], Zeros(nSize - 3));
    ValueZeros(256, nSize - 3);
  }

  lemma ThreeBytes(a: nat, b: nat, c: nat)
    ensures Value(256, [a, b, c]) == a * 0x10000 + b * 0x100 + c
  {
    var s := [a, b, c];
    assert s[..2][..1] == s[..1] && s[..1][..0] == [];
    assert Value(256, s[..1]) == a && Value(256, s[..2]) == a * 256 + b;
  }
}
