/** Base58 (src/base58.h: EncodeBase58, DecodeBase58, EncodeBase58Check, DecodeBase58Check). */
module Base58 {
  import opened Basics
  import opened Radix
  import opened Bignum

  /** pszBase58[d], by the runs of the alphabet: 1-9, A-H, J-N, P-Z, a-k, m-z. */
  function Char(d: nat): char
    requires d < 58
  {
    if d < 9 then '1' + d as char
    else if d < 17 then 'A' + (d - 9) as char
    else if d < 22 then 'J' + (d - 17) as char
    else if d < 33 then 'P' + (d - 22) as char
    else if d < 44 then 'a' + (d - 33) as char
    else 'm' + (d - 44) as char
  }

  /** strchr in the alphabet. */
  function DigitOf(c: char): (r: Option<nat>)
    ensures r.Some? ==> r.value < 58
  {
    if '1' <= c <= '9' then Some((c - '1') as nat)
    else if 'A' <= c <= 'H' then Some((c - 'A') as nat + 9)
    else if 'J' <= c <= 'N' then Some((c - 'J') as nat + 17)
    else if 'P' <= c <= 'Z' then Some((c - 'P') as nat + 22)
    else if 'a' <= c <= 'k' then Some((c - 'a') as nat + 33)
    else if 'm' <= c <= 'z' then Some((c - 'm') as nat + 44)
    else None
  }

  predicate IsSpace(c: char) { c == ' ' || '\t' <= c <= '\r' }

  lemma DigitOfChar(d: nat)
    requires d < 58
    ensures DigitOf(Char(d)) == Some(d) && !IsSpace(Char(d)) && (Char(d) == '1' <==> d == 0)
  {}

  /** Digits as a string. */
  function Chars(d: seq<nat>): (r: string)
    requires Below(58, d)
    ensures |r| == |d|
  {
    seq(|d|, i requires 0 <= i < |d| => Char(d[i]))
  }

  // ---------------------------------------------------------------- encoding

  /** One '1' per leading zero byte, then the number in base 58. */
  function Encoded(bytes: seq<nat>): string {
    Chars(Zeros(Lead(bytes)) + Digits(58, Value(256, bytes)))
  }

  /** The little endian bytes with an extra zero are the number, never a negative one. */
  lemma ExtraZero(bytes: seq<nat>)
    ensures SetVch(Reverse(bytes) + [0]) == Value(256, bytes)
  {
    assert Reverse(Reverse(bytes) + [0]) == [0] + bytes;
    ZeroFirst(bytes);
  }

  function ReverseString(s: string): (r: string)
    ensures |r| == |s| && forall i :: 0 <= i < |s| ==> r[i] == s[|s| - 1 - i]
  {
    seq(|s|, i requires 0 <= i < |s| => s[|s| - 1 - i])
  }

  lemma {:induction false} LeadIs(s: seq<nat>, n: nat)
    requires n <= |s| && (forall i :: 0 <= i < n ==> s[i] == 0) && (n < |s| ==> s[n] != 0)
    ensures Lead(s) == n
  {
    if n > 0 { LeadIs(s[1..], n - 1); }
  }

  /** The division loop: least significant digit first. */
  method DivideOut(v: nat) returns (str: string)
    ensures str == ReverseString(Chars(Digits(58, v)))
  {
    var bn := v;
    str := "";
    ghost var tail: seq<nat> := [];
    assert Digits(58, v) + tail == Digits(58, v);
    while bn > 0
      invariant Below(58, tail) && Digits(58, bn) + tail == Digits(58, v)
      invariant str == ReverseString(Chars(tail))
    {
      Quotient(bn, 58);
      var c := bn % 58;
      assert Digits(58, bn) + tail == Digits(58, bn / 58) + ([c] + tail);
      PushDigit(c, tail);
      tail := [c] + tail;
      bn := bn / 58;
      str := str + [Char(c)];
    }
    assert tail == Digits(58, v);
  }

  lemma PushDigit(c: nat, tail: seq<nat>)
    requires c < 58 && Below(58, tail)
    ensures Below(58, [c] + tail) && ReverseString(Chars([c] + tail)) == ReverseString(Chars(tail)) + [Char(c)]
  {}

  /** One base58 zero per leading zero byte. */
  method PushZeros(bytes: seq<nat>, str0: string, ghost d: seq<nat>) returns (str: string)
    requires Below(58, d) && str0 == ReverseString(Chars(d))
    ensures str == ReverseString(Chars(Zeros(Lead(bytes)) + d))
  {
    str := str0;
    assert Zeros(0) + d == d;
    var n := 0;
    while n < |bytes| && bytes[n] == 0
      invariant 0 <= n <= |bytes| && forall i :: 0 <= i < n ==> bytes[i] == 0
      invariant str == ReverseString(Chars(Zeros(n) + d))
    {
      PushDigit(0, Zeros(n) + d);
      assert Zeros(n + 1) + d == [0] + (Zeros(n) + d);
      str := str + [Char(0)];
      n := n + 1;
    }
    LeadIs(bytes, n);
  }

  method EncodeBase58(bytes: seq<nat>) returns (str: string)
    ensures str == Encoded(bytes)
  {
    var bn := SetVch(Reverse(bytes) + [0]);
    ExtraZero(bytes);
    str := DivideOut(bn);
    str := PushZeros(bytes, str, Digits(58, bn));
    ReverseStringTwice(Encoded(bytes));
    str := ReverseString(str);
  }

  lemma ReverseStringTwice(s: string)
    ensures ReverseString(ReverseString(s)) == s
  {}

  // ---------------------------------------------------------------- decoding

  function SkipSpace(s: string): string { if s != [] && IsSpace(s[0]) then SkipSpace(s[1..]) else s }

  /** The value of the digits up to the first other character, and what follows. */
  function ReadDigits(s: string, v: nat): (nat, string) {
    if s == [] || DigitOf(s[0]).None? then (v, s) else ReadDigits(s[1..], v * 58 + DigitOf(s[0]).value)
  }

  function Ones(s: string): nat { if s != [] && s[0] == '1' then 1 + Ones(s[1..]) else 0 }

  /** c_str(): the string up to an embedded NUL. */
  function CString(s: string): string { if s == [] || s[0] == '\0' then [] else [s[0]] + CString(s[1..]) }

  /** Spaces around the digits are skipped; anything else is an error. */
  function Decoded(str: string): Option<seq<nat>> {
    var s := SkipSpace(CString(str));
    var (v, rest) := ReadDigits(s, 0);
    if SkipSpace(rest) != [] then None else Some(Zeros(Ones(s)) + Digits(256, v))
  }

  method Skip(s: string) returns (r: string)
    ensures r == SkipSpace(s)
  {
    r := s;
    while r != [] && IsSpace(r[0])
      invariant SkipSpace(r) == SkipSpace(s)
      decreases |r|
    {
      r := r[1..];
    }
  }

  /** Trimming the sign byte leaves the digits of the number. */
  lemma TrimSign(v: nat)
    ensures var t := GetVch(v);
      Digits(256, v) == Reverse(if |t| >= 2 && t[|t| - 1] == 0 && t[|t| - 2] >= 0x80 then t[..|t| - 1] else t)
  {
    var t, d := GetVch(v), Digits(256, v);
    if d != [] && d[0] >= 128 {
      assert Mpi(v) == [0] + d;
      assert Reverse(t[..|t| - 1]) == d;
    } else {
      assert Mpi(v) == d;
      ReverseTwice(d);
    }
  }

  /** The multiplication loop. */
  method ReadNumber(s: string) returns (bn: nat, p: string)
    ensures (bn, p) == ReadDigits(s, 0)
  {
    bn, p := 0, s;
    while p != [] && DigitOf(p[0]).Some?
      invariant ReadDigits(p, bn) == ReadDigits(s, 0)
      decreases |p|
    {
      bn := bn * 58 + DigitOf(p[0]).value;
      p := p[1..];
    }
  }

  method CountOnes(s: string) returns (n: nat)
    ensures n == Ones(s)
  {
    n := 0;
    var q := s;
    while q != [] && q[0] == '1'
      invariant n + Ones(q) == Ones(s)
      decreases |q|
    {
      n := n + 1;
      q := q[1..];
    }
  }

  method DecodeBase58(str: string) returns (ok: bool, ret: seq<nat>)
    ensures ok <==> Decoded(str).Some?
    ensures ok ==> ret == Decoded(str).value
  {
    ok, ret := false, [];
    var s := Skip(CString(str));
    var bn, p := ReadNumber(s);
    p := Skip(p);
    if p != [] {
      return;
    }
    var vchTmp := GetVch(bn);
    TrimSign(bn);
    if |vchTmp| >= 2 && vchTmp[|vchTmp| - 1] == 0 && vchTmp[|vchTmp| - 2] >= 0x80 {
      vchTmp := vchTmp[..|vchTmp| - 1];
    }
    var nLeadingZeros := CountOnes(s);
    ok, ret := true, Zeros(nLeadingZeros) + Reverse(vchTmp);
  }

  // ---------------------------------------------------------------- round trips

  lemma {:induction false} ReadChars(d: seq<nat>, v: nat)
    requires Below(58, d)
    ensures ReadDigits(Chars(d), v) == (v * Pow(58, |d|) + Value(58, d), [])
    decreases |d|
  {
    if d != [] {
      DigitOfChar(d[0]);
      assert Chars(d)[1..] == Chars(d[1..]);
      ReadChars(d[1..], v * 58 + d[0]);
      assert d == [d[0]] + d[1..];
      ValueConcat(58, [d[0]], d[1..]);
      assert Value(58, [d[0]]) == d[0] by { assert [d[0]][..0] == []; }
      PowFirst(58, |d| - 1);
      Distribute(v, 58, d[0], Pow(58, |d| - 1));
    }
  }

  lemma Distribute(v: nat, b: nat, d: nat, p: nat)
    ensures (v * b + d) * p == v * (b * p) + d * p
  {}

  lemma {:induction false} PowFirst(b: nat, n: nat)
    ensures Pow(b, n + 1) == b * Pow(b, n)
  {
    if n > 0 { PowFirst(b, n - 1); }
  }

  lemma {:induction false} OnesOfChars(n: nat, d: seq<nat>)
    requires Below(58, d) && (d != [] ==> d[0] != 0)
    ensures Ones(Chars(Zeros(n) + d)) == n
  {
    var s := Chars(Zeros(n) + d);
    if n == 0 {
      assert Zeros(0) + d == d;
      if d != [] { DigitOfChar(d[0]); }
    } else {
      OnesOfChars(n - 1, d);
      DigitOfChar(0);
      assert s[1..] == Chars(Zeros(n - 1) + d);
    }
  }

  lemma {:induction false} CharsAreWhole(d: seq<nat>)
    requires Below(58, d)
    ensures CString(Chars(d)) == Chars(d)
    decreases |d|
  {
    if d != [] {
      CharsAreWhole(d[1..]);
      assert Chars(d)[1..] == Chars(d[1..]);
    }
  }

  /** Decoding undoes encoding, leading zeros included. */
  lemma Base58RoundTrip(bytes: seq<nat>)
    requires Below(256, bytes)
    ensures Decoded(Encoded(bytes)) == Some(bytes)
  {
    hide Value, Digits, Lead, CString, ReadDigits, Ones;
    var v := Value(256, bytes);
    var d := Zeros(Lead(bytes)) + Digits(58, v);
    var s := Chars(d);
    if s != [] { DigitOfChar(d[0]); }
    CharsAreWhole(d);
    assert SkipSpace(s) == s;
    ReadChars(d, 0);
    ValueConcat(58, Zeros(Lead(bytes)), Digits(58, v));
    ValueZeros(58, Lead(bytes));
    ValueOfDigits(58, v);
    OnesOfChars(Lead(bytes), Digits(58, v));
    DigitsAndZeros(256, bytes);
  }

  /** The digits that a string starts with. */
  function DigitsOf(s: string): (d: seq<nat>)
    ensures Below(58, d)
  {
    if s == [] || DigitOf(s[0]).None? then [] else [DigitOf(s[0]).value] + DigitsOf(s[1..])
  }

  lemma CharOfDigit(c: char)
    requires DigitOf(c).Some?
    ensures Char(DigitOf(c).value) == c
  {}

  lemma {:induction false} DigitsArePrefix(s: string)
    ensures |DigitsOf(s)| <= |s| && s[..|DigitsOf(s)|] == Chars(DigitsOf(s))
    decreases |s|
  {
    hide Char, DigitOf;
    var d := DigitsOf(s);
    if d == [] {
      assert s[..0] == "" && Chars(d) == "";
    } else {
      CharOfDigit(s[0]);
      assert d[1..] == DigitsOf(s[1..]);
      DigitsArePrefix(s[1..]);
      assert Chars(d) == [s[0]] + Chars(d[1..]);
      assert s[..|d|] == [s[0]] + s[1..][..|d| - 1];
    }
  }

  lemma {:induction false} OnesAreLead(s: string)
    ensures Ones(s) == Lead(DigitsOf(s))
    decreases |s|
  {
    hide Char, DigitOf, Chars;
    DigitOfOne();
    if s != [] && DigitOf(s[0]).Some? {
      CharOfDigit(s[0]);
      DigitOfChar(DigitOf(s[0]).value);
      assert DigitsOf(s)[1..] == DigitsOf(s[1..]);
      OnesAreLead(s[1..]);
    }
  }

  lemma DigitOfOne()
    ensures DigitOf('1') == Some(0)
  {}

  lemma {:induction false} ReadIs(s: string, v: nat)
    ensures |DigitsOf(s)| <= |s|
    ensures ReadDigits(s, v) == (ReadDigits(Chars(DigitsOf(s)), v).0, s[|DigitsOf(s)|..])
    decreases |s|
  {
    hide Char, DigitOf;
    var d := DigitsOf(s);
    if d == [] {
      assert s[0..] == s && Chars(d) == "";
    } else {
      DigitOfChar(d[0]);
      assert d[1..] == DigitsOf(s[1..]);
      ReadIs(s[1..], v * 58 + d[0]);
      assert Chars(d)[1..] == Chars(d[1..]);
      assert s[|d|..] == s[1..][|d| - 1..];
    }
  }

  /** Zeros and the digits of a number: the zeros are the leading ones. */
  lemma {:induction false} LeadOfZeros(n: nat, d: seq<nat>)
    requires d != [] ==> d[0] != 0
    ensures Lead(Zeros(n) + d) == n
  {
    if n == 0 {
      assert Zeros(0) + d == d;
    } else {
      LeadOfZeros(n - 1, d);
      assert (Zeros(n) + d)[1..] == Zeros(n - 1) + d;
    }
  }

  /** Encoding undoes decoding: whatever decodes is, between its spaces, the encoding of the result. */
  lemma DecodeEncode(str: string)
    requires Decoded(str).Some?
    ensures Encoded(Decoded(str).value) == Chars(DigitsOf(SkipSpace(CString(str))))
    ensures var s, e := SkipSpace(CString(str)), Encoded(Decoded(str).value);
      e <= s && SkipSpace(s[|e|..]) == []
  {
    var s := SkipSpace(CString(str));
    var d := DigitsOf(s);
    ReadIs(s, 0);
    OnesAreLead(s);
    DigitsArePrefix(s);
    ReadChars(d, 0);
    var v, bytes := Value(58, d), Decoded(str).value;
    assert bytes == Zeros(Lead(d)) + Digits(256, v);
    LeadOfZeros(Lead(d), Digits(256, v));
    ValueConcat(256, Zeros(Lead(d)), Digits(256, v));
    ValueZeros(256, Lead(d));
    ValueOfDigits(256, v);
    DigitsAndZeros(58, d);
  }

  /** So a string of digits is the encoding of what it decodes to, and two of them never decode to
      the same bytes. */
  lemma DigitStringRoundTrip(d: seq<nat>)
    requires Below(58, d)
    ensures Decoded(Chars(d)).Some? && Encoded(Decoded(Chars(d)).value) == Chars(d)
  {
    CharsAreWhole(d);
    if d != [] { DigitOfChar(d[0]); }
    ReadChars(d, 0);
    DecodeEncode(Chars(d));
    DigitsOfChars(d);
  }

  lemma {:induction false} DigitsOfChars(d: seq<nat>)
    requires Below(58, d)
    ensures DigitsOf(Chars(d)) == d
    decreases |d|
  {
    if d != [] {
      DigitOfChar(d[0]);
      DigitsOfChars(d[1..]);
      assert Chars(d)[1..] == Chars(d[1..]) && d == [d[0]] + d[1..];
    }
  }

  /** The string with a checksum `check` of four bytes at the end. */
  function EncodedCheck(check: seq<nat> -> seq<nat>, v: seq<nat>): string { Encoded(v + check(v)) }

  function DecodedCheck(check: seq<nat> -> seq<nat>, str: string): Option<seq<nat>> {
    var d := Decoded(str);
    if d.None? || |d.value| < 4 then None
    else
      var n := |d.value| - 4;
      if check(d.value[..n]) != d.value[n..] then None else Some(d.value[..n])
  }

  method DecodeBase58Check(check: seq<nat> -> seq<nat>, str: string) returns (ok: bool, ret: seq<nat>)
    ensures ok <==> DecodedCheck(check, str).Some?
    ensures ret == if ok then DecodedCheck(check, str).value else []
  {
    ok, ret := DecodeBase58(str);
    if !ok {
      return false, [];
    }
    if |ret| < 4 || check(ret[..|ret| - 4]) != ret[|ret| - 4..] {
      return false, [];
    }
    ret := ret[..|ret| - 4];
  }

  lemma CheckRoundTrip(check: seq<nat> -> seq<nat>, v: seq<nat>)
    requires Below(256, v) && |check(v)| == 4 && Below(256, check(v))
    ensures DecodedCheck(check, EncodedCheck(check, v)) == Some(v)
  {
    Base58RoundTrip(v + check(v));
    assert (v + check(v))[..|v|] == v && (v + check(v))[|v|..] == check(v);
  }
}
