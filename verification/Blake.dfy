/** Buffering, counter and padding of BLAKE-384 and BLAKE-512 (src/blake.c: blake64_init,
    blake64, blake64_close). The compression function is a parameter; it gets the state, a
    block of 128 bytes and the 128-bit counter T1:T0. */
module Blake {

  type Byte = bv8
  type Words = seq<nat>
  type Compress = (Words, seq<Byte>, nat) -> Words

  const M64: nat := 0x1_0000_0000_0000_0000
  const M128: nat := 0x1_0000_0000_0000_0000_0000_0000_0000_0000
  const BLOCK: nat := 128
  const WORD_SIZE: nat := 8

  // ---------------------------------------------------------------- absorbing bytes

  /** H, the counter, and the bytes in the buffer. */
  datatype State = State(h: Words, t0: nat, t1: nat, pend: seq<Byte>) {
    predicate Ok() { t0 < M64 && t1 < M64 && |pend| < BLOCK }
    function T(): nat { t1 * M64 + t0 }
  }

  function Init(iv: Words): State { State(iv, 0, 0, []) }

  /** Compress one full block. */
  function Absorb(C: Compress, st: State, block: seq<Byte>): (r: State)
    requires st.Ok()
    ensures r.Ok()
  {
    var t0 := (st.t0 + 1024) % M64;
    var t1 := if t0 < 1024 then (st.t1 + 1) % M64 else st.t1;
    State(C(st.h, block, t1 * M64 + t0), t0, t1, [])
  }

  /** What feeding `d` makes of a state. */
  function Feed(C: Compress, st: State, d: seq<Byte>): (r: State)
    requires st.Ok()
    ensures r.Ok()
    decreases |d|
  {
    var k := BLOCK - |st.pend|;
    if |d| < k then st.(pend := st.pend + d)
    else Feed(C, Absorb(C, st, st.pend + d[..k]), d[k..])
  }

  /** Feeding in two chunks is feeding at once. */
  lemma {:induction false} FeedConcat(C: Compress, st: State, a: seq<Byte>, b: seq<Byte>)
    requires st.Ok()
    ensures Feed(C, Feed(C, st, a), b) == Feed(C, st, a + b)
    decreases |a|
  {
    var k := BLOCK - |st.pend|;
    if |a| >= k {
      assert (a + b)[..k] == a[..k] && (a + b)[k..] == a[k..] + b;
      FeedConcat(C, Absorb(C, st, st.pend + a[..k]), a[k..], b);
    } else if |a| + |b| >= k {
      var j := k - |a|;
      assert st.pend + a + b[..j] == st.pend + (a + b)[..k];
      assert (a + b)[k..] == b[j..];
    } else {
      assert st.pend + a + b == st.pend + (a + b);
    }
  }

  function Flatten(chunks: seq<seq<Byte>>): seq<Byte> {
    if chunks == [] then [] else chunks[0] + Flatten(chunks[1..])
  }

  function FeedAll(C: Compress, st: State, chunks: seq<seq<Byte>>): State
    requires st.Ok()
    decreases |chunks|
  {
    if chunks == [] then st else FeedAll(C, Feed(C, st, chunks[0]), chunks[1..])
  }

  /** Feeding in any chunks is feeding at once. */
  lemma {:induction false} ChunksDoNotMatter(C: Compress, st: State, chunks: seq<seq<Byte>>)
    requires st.Ok()
    ensures FeedAll(C, st, chunks) == Feed(C, st, Flatten(chunks))
    decreases |chunks|
  {
    if chunks == [] {
      assert st.pend + [] == st.pend;
    } else {
      ChunksDoNotMatter(C, Feed(C, st, chunks[0]), chunks[1..]);
      FeedConcat(C, st, chunks[0], Flatten(chunks[1..]));
    }
  }

  // ---------------------------------------------------------------- the specification

  /** Compress a list of blocks, each with its counter. */
  function Fold(C: Compress, h: Words, blocks: seq<(seq<Byte>, nat)>): Words {
    if blocks == [] then h
    else var last := blocks[|blocks| - 1]; C(Fold(C, h, blocks[..|blocks| - 1]), last.0, last.1)
  }

  function Low128(x: nat): nat { x % M128 }

  lemma Low128Add(x: nat, y: nat)
    ensures Low128(Low128(x) + y) == Low128(x + y)
  {}

  /** The first `q` blocks of a message, each with the number of message bits so far. */
  function FullBlocks(m: seq<Byte>, q: nat): seq<(seq<Byte>, nat)>
    requires BLOCK * q <= |m|
  {
    seq(q, i requires 0 <= i < q => (m[BLOCK * i..BLOCK * i + BLOCK], Low128(1024 * (i + 1))))
  }

  lemma TickIs(t0: nat, t1: nat)
    requires t0 < M64 && t1 < M64 && t0 % 1024 == 0
    ensures var t0' := (t0 + 1024) % M64;
      var t1' := if t0' < 1024 then (t1 + 1) % M64 else t1;
      t0' % 1024 == 0 && t1' * M64 + t0' == Low128(t1 * M64 + t0 + 1024)
  {
    if t0 + 1024 < M64 {
      assert (t0 + 1024) % M64 == t0 + 1024;
      assert t1 * M64 + t0 + 1024 < M128;
    } else {
      assert t0 + 1024 == M64;
      assert t1 * M64 + t0 + 1024 == (t1 + 1) * M64;
    }
  }

  /** The state after a message of `q` full blocks and less than a block more. */
  ghost predicate Fed(C: Compress, iv: Words, m: seq<Byte>, q: nat, st: State) {
    && BLOCK * q <= |m| < BLOCK * q + BLOCK && st.Ok()
    && st.h == Fold(C, iv, FullBlocks(m, q))
    && st.T() == Low128(1024 * q) && st.t0 % 1024 == 0
    && st.pend == m[BLOCK * q..]
  }

  lemma FullBlocksPrefix(m: seq<Byte>, m': seq<Byte>, q: nat)
    requires BLOCK * q <= |m| <= |m'| && m'[..|m|] == m
    ensures FullBlocks(m', q) == FullBlocks(m, q)
  {
    forall i | 0 <= i < q ensures FullBlocks(m', q)[i] == FullBlocks(m, q)[i] {
      var a := BLOCK * i;
      assert m'[..|m|][a..a + BLOCK] == m'[a..a + BLOCK];
    }
  }

  lemma FullBlocksSnoc(m: seq<Byte>, q: nat)
    requires BLOCK * q + BLOCK == |m|
    ensures FullBlocks(m, q + 1) == FullBlocks(m[..BLOCK * q], q) + [(m[BLOCK * q..], Low128(1024 * (q + 1)))]
  {
    FullBlocksPrefix(m[..BLOCK * q], m, q);
    var all := FullBlocks(m, q + 1);
    assert all[..q] == FullBlocks(m, q);
    assert m[BLOCK * q..BLOCK * q + BLOCK] == m[BLOCK * q..];
    assert all[q] == (m[BLOCK * q..], Low128(1024 * (q + 1)));
    assert all == all[..q] + [all[q]];
  }

  lemma FoldSnoc(C: Compress, h: Words, blocks: seq<(seq<Byte>, nat)>, b: seq<Byte>, t: nat)
    ensures Fold(C, h, blocks + [(b, t)]) == C(Fold(C, h, blocks), b, t)
  {
    assert (blocks + [(b, t)])[..|blocks|] == blocks;
  }

  lemma AbsorbCounts(C: Compress, st: State, block: seq<Byte>, q: nat)
    requires st.Ok() && st.T() == Low128(1024 * q) && st.t0 % 1024 == 0
    ensures var r := Absorb(C, st, block);
      r.T() == Low128(1024 * (q + 1)) && r.t0 % 1024 == 0 && r.h == C(st.h, block, Low128(1024 * (q + 1)))
  {
    TickIs(st.t0, st.t1);
    Low128Add(1024 * q, 1024);
  }

  lemma FedBlock(C: Compress, iv: Words, m: seq<Byte>, q: nat, st: State)
    requires BLOCK * q + BLOCK == |m| && Fed(C, iv, m[..BLOCK * q], q, st)
    ensures Fed(C, iv, m, q + 1, Absorb(C, st, m[BLOCK * q..]))
  {
    AbsorbCounts(C, st, m[BLOCK * q..], q);
    FullBlocksSnoc(m, q);
    FoldSnoc(C, iv, FullBlocks(m[..BLOCK * q], q), m[BLOCK * q..], Low128(1024 * (q + 1)));
  }

  lemma FeedNothing(C: Compress, st: State)
    requires st.Ok()
    ensures Feed(C, st, []) == st
  {
    assert st.pend + [] == st.pend;
  }

  lemma FeedOne(C: Compress, st: State, b: seq<Byte>)
    requires st.Ok() && |st.pend| + |b| == BLOCK
    ensures Feed(C, st, b) == Absorb(C, st, st.pend + b)
  {
    var k := BLOCK - |st.pend|;
    assert b[..k] == b && b[k..] == [];
    FeedNothing(C, Absorb(C, st, st.pend + b));
  }

  lemma {:induction false} FedBlocks(C: Compress, iv: Words, m: seq<Byte>, q: nat)
    requires |m| == BLOCK * q
    ensures Fed(C, iv, m, q, Feed(C, Init(iv), m))
    decreases q
  {
    if q == 0 {
      assert m == [];
    } else {
      var k := q - 1;
      var a, b := m[..BLOCK * k], m[BLOCK * k..];
      FedBlocks(C, iv, a, k);
      FeedConcat(C, Init(iv), a, b);
      assert a + b == m;
      FeedOne(C, Feed(C, Init(iv), a), b);
      assert [] + b == b;
      FedBlock(C, iv, m, k, Feed(C, Init(iv), a));
    }
  }

  /** Feeding a whole message compresses its full blocks, each with the number of message
      bits so far as its counter, and keeps the rest. */
  lemma FedIs(C: Compress, iv: Words, m: seq<Byte>)
    ensures Fed(C, iv, m, |m| / BLOCK, Feed(C, Init(iv), m))
  {
    var q := |m| / BLOCK;
    var a, b := m[..BLOCK * q], m[BLOCK * q..];
    FedBlocks(C, iv, a, q);
    FeedConcat(C, Init(iv), a, b);
    assert a + b == m;
    FullBlocksPrefix(a, m, q);
  }

  // ---------------------------------------------------------------- bits

  function Falses(k: nat): seq<bool> { seq(k, i => false) }

  /** The bits of a byte, most significant first. */
  function ByteBits(b: Byte): seq<bool> {
    seq(8, i requires 0 <= i < 8 => b & Marker(i) != 0)
  }

  function Bits(s: seq<Byte>): seq<bool> {
    if s == [] then [] else ByteBits(s[0]) + Bits(s[1..])
  }

  lemma {:induction false} BitsConcat(a: seq<Byte>, b: seq<Byte>)
    ensures Bits(a + b) == Bits(a) + Bits(b)
  {
    if a == [] {
      assert a + b == b;
    } else {
      BitsConcat(a[1..], b);
      assert (a + b)[1..] == a[1..] + b && (a + b)[0] == a[0];
      Assoc(ByteBits(a[0]), Bits(a[1..]), Bits(b));
    }
  }

  lemma Assoc<T>(x: seq<T>, y: seq<T>, z: seq<T>)
    ensures x + (y + z) == (x + y) + z
  {}

  lemma {:induction false} BitsLength(s: seq<Byte>)
    ensures |Bits(s)| == 8 * |s|
  {
    if s != [] { BitsLength(s[1..]); }
  }

  function Zeros(k: nat): seq<Byte> { seq(k, i => 0) }

  lemma {:induction false} BitsZeros(k: nat)
    ensures Bits(Zeros(k)) == Falses(8 * k)
  {
    if k > 0 {
      BitsZeros(k - 1);
      assert Zeros(k)[1..] == Zeros(k - 1);
      assert ByteBits(0) == Falses(8);
      assert Falses(8 * k) == Falses(8) + Falses(8 * (k - 1));
    }
  }

  // ---------------------------------------------------------------- padding

  /** 0x80 >> n. */
  function Marker(n: nat): bv8
    requires n < 8
  {
    [0x80, 0x40, 0x20, 0x10, 0x08, 0x04, 0x02, 0x01][n]
  }

  function LastByte(ub: Byte, n: nat): Byte
    requires n < 8
  {
    var z := Marker(n);
    (ub & (0 - z)) | z
  }

  ghost predicate OneBit(z: bv8) { z != 0 && z & (z - 1) == 0 }

  lemma Masked(ub: bv8, z: bv8, m: bv8)
    requires OneBit(z) && OneBit(m)
    ensures ((ub & (0 - z)) | z) & m != 0 <==> if m > z then ub & m != 0 else m == z
  {}

  lemma MarkerOrder(n: nat, i: nat)
    requires n < 8 && i < 8
    ensures OneBit(Marker(n)) && (i < n <==> Marker(i) > Marker(n)) && (i == n <==> Marker(i) == Marker(n))
  {}

  /** Bit `i` of the last byte. */
  lemma LastByteBit(ub: Byte, n: nat, i: nat)
    requires n < 8 && i < 8
    ensures ByteBits(LastByte(ub, n))[i] == if i < n then ByteBits(ub)[i] else i == n
  {
    MarkerOrder(n, i);
    MarkerOrder(i, n);
    Masked(ub, Marker(n), Marker(i));
  }

  /** The first n bits of `ub`, a one, and zeros. */
  lemma LastByteBits(ub: Byte, n: nat)
    requires n < 8
    ensures ByteBits(LastByte(ub, n)) == ByteBits(ub)[..n] + [true] + Falses(7 - n)
  {
    var l, r := ByteBits(LastByte(ub, n)), ByteBits(ub)[..n] + [true] + Falses(7 - n);
    forall i | 0 <= i < 8 ensures l[i] == r[i] { LastByteBit(ub, n, i); }
  }

  lemma OrOneBits(b: Byte)
    ensures ByteBits(b | 1) == ByteBits(b)[..7] + [true]
  {
    var l, r := ByteBits(b | 1), ByteBits(b)[..7] + [true];
    forall i: nat | i < 8 ensures l[i] == r[i] { MarkerOrder(i, 7); OrOneMask(b, Marker(i)); }
  }

  lemma OrOneMask(b: bv8, m: bv8)
    requires OneBit(m)
    ensures (b | 1) & m != 0 <==> m == 1 || b & m != 0
  {}

  /** `x` in `k` bytes, most significant first. */
  function Enc(x: nat, k: nat): (r: seq<Byte>)
    ensures |r| == k
  {
    if k == 0 then [] else Enc(x / 256, k - 1) + [(x % 256) as bv8]
  }

  /** A 64-bit word. */
  function Word(x: nat): (r: seq<Byte>)
    ensures |r| == 8
  {
    Enc(x, WORD_SIZE)
  }

  /** The 128-bit length: the high and the low word. */
  function Len(x: nat): (r: seq<Byte>)
    ensures |r| == 16
  {
    Word(x / M64) + Word(x % M64)
  }

  /** The last byte gets a final one for BLAKE-512. */
  function MarkEnd(s: seq<Byte>, wide: bool): (r: seq<Byte>)
    requires s != []
    ensures |r| == |s|
  {
    if wide then s[|s| - 1 := s[|s| - 1] | 1] else s
  }

  /** One padding block is enough. */
  predicate Short(r: nat, n: nat) { 8 * r + n <= 894 }

  /** What comes between the `r` message bytes of the last block and the length. */
  function Tail(r: nat, ub: Byte, n: nat, wide: bool): (t: seq<Byte>)
    requires r < BLOCK && n < 8
    ensures |t| == if Short(r, n) then 112 - r else 240 - r
  {
    if Short(r, n) then MarkEnd([LastByte(ub, n)] + Zeros(111 - r), wide)
    else [LastByte(ub, n)] + Zeros(127 - r) + MarkEnd(Zeros(112), wide)
  }

  lemma DropLast<T>(x: seq<T>, a: T, y: seq<T>, b: T)
    requires x + [a] == y + [b]
    ensures x == y && a == b
  {
    assert (x + [a])[|x|] == a && (y + [b])[|y|] == b;
    assert (x + [a])[..|x|] == x && (y + [b])[..|y|] == y;
  }

  lemma MarkByte(x: Byte, wide: bool)
    requires !ByteBits(x)[7]
    ensures ByteBits(x) == ByteBits(x)[..7] + [false]
    ensures ByteBits(if wide then x | 1 else x) == ByteBits(x)[..7] + [wide]
  {
    OrOneBits(x);
    assert ByteBits(x) == ByteBits(x)[..7] + [ByteBits(x)[7]];
  }

  lemma BitsSnoc(a: seq<Byte>, x: Byte)
    ensures Bits(a + [x]) == Bits(a) + ByteBits(x)
  {
    BitsConcat(a, [x]);
    BitsOne(x);
  }

  lemma EndBit(a: seq<bool>, x: seq<bool>, front: seq<bool>)
    requires x != [] && a + x == front + [false]
    ensures !x[|x| - 1] && a + x[..|x| - 1] == front
  {
    assert x == x[..|x| - 1] + [x[|x| - 1]];
    Assoc(a, x[..|x| - 1], [x[|x| - 1]]);
    DropLast(a + x[..|x| - 1], x[|x| - 1], front, false);
  }

  /** Marking the end of bytes whose last bit is zero. */
  lemma MarkEndBits(s: seq<Byte>, front: seq<bool>, wide: bool)
    requires s != [] && Bits(s) == front + [false]
    ensures Bits(MarkEnd(s, wide)) == front + [wide]
  {
    var a, x := s[..|s| - 1], s[|s| - 1];
    assert s == a + [x];
    BitsSnoc(a, x);
    EndBit(Bits(a), ByteBits(x), front);
    MarkedBits(a, x, wide);
    Assoc(Bits(a), ByteBits(x)[..7], [wide]);
  }

  lemma MarkedBits(a: seq<Byte>, x: Byte, wide: bool)
    requires !ByteBits(x)[7]
    ensures Bits(MarkEnd(a + [x], wide)) == Bits(a) + (ByteBits(x)[..7] + [wide])
  {
    var y := if wide then x | 1 else x;
    assert MarkEnd(a + [x], wide) == a + [y];
    BitsSnoc(a, y);
    MarkByte(x, wide);
  }

  lemma BitsOne(x: Byte)
    ensures Bits([x]) == ByteBits(x)
  {
    assert [x][1..] == [];
  }

  lemma FallsConcat(a: nat, b: nat)
    ensures Falses(a) + Falses(b) == Falses(a + b)
  {}

  /** The bits of the last message byte with the padding bytes after it. */
  lemma HeadBits(ub: Byte, n: nat, k: nat)
    requires n < 8
    ensures Bits([LastByte(ub, n)] + Zeros(k)) == ByteBits(ub)[..n] + [true] + Falses(7 - n + 8 * k)
  {
    BitsConcat([LastByte(ub, n)], Zeros(k));
    BitsOne(LastByte(ub, n));
    LastByteBits(ub, n);
    BitsZeros(k);
    FallsConcat(7 - n, 8 * k);
    Assoc(ByteBits(ub)[..n] + [true], Falses(7 - n), Falses(8 * k));
  }

  /** The number of zero bits. */
  function Gap(r: nat, n: nat): nat
    requires r < BLOCK && n < 8
  {
    if Short(r, n) then 894 - (8 * r + n) else 1918 - (8 * r + n)
  }

  lemma ShortBits(r: nat, ub: Byte, n: nat, wide: bool)
    requires r < BLOCK && n < 8 && Short(r, n)
    ensures Bits(Tail(r, ub, n, wide)) == ByteBits(ub)[..n] + [true] + Falses(Gap(r, n)) + [wide]
  {
    var s, front := [LastByte(ub, n)] + Zeros(111 - r), ByteBits(ub)[..n] + [true];
    HeadBits(ub, n, 111 - r);
    assert 7 - n + 8 * (111 - r) == Gap(r, n) + 1;
    FallsConcat(Gap(r, n), 1);
    assert Falses(1) == [false];
    Assoc(front, Falses(Gap(r, n)), [false]);
    MarkEndBits(s, front + Falses(Gap(r, n)), wide);
  }

  lemma LongBits(r: nat, ub: Byte, n: nat, wide: bool)
    requires r < BLOCK && n < 8 && !Short(r, n)
    ensures Bits(Tail(r, ub, n, wide)) == ByteBits(ub)[..n] + [true] + Falses(Gap(r, n)) + [wide]
  {
    HeadBits(ub, n, 127 - r);
    EmptyBlockBits(wide);
    JoinBits([LastByte(ub, n)] + Zeros(127 - r), MarkEnd(Zeros(112), wide), Tail(r, ub, n, wide),
      ByteBits(ub)[..n] + [true], 7 - n + 8 * (127 - r), Gap(r, n), [wide]);
  }

  lemma JoinBits(s: seq<Byte>, e: seq<Byte>, t: seq<Byte>, front: seq<bool>, a: nat, g: nat, w: seq<bool>)
    requires Bits(s) == front + Falses(a) && Bits(e) == Falses(895) + w && t == s + e && g == a + 895
    ensures Bits(t) == front + Falses(g) + w
  {
    BitsConcat(s, e);
    JoinFalses(front, a, 895, w);
  }

  lemma JoinFalses(front: seq<bool>, a: nat, b: nat, w: seq<bool>)
    ensures (front + Falses(a)) + (Falses(b) + w) == front + Falses(a + b) + w
  {
    FallsConcat(a, b);
    assert (front + Falses(a)) + (Falses(b) + w) == front + (Falses(a) + Falses(b)) + w;
  }

  lemma EmptyBlockBits(wide: bool)
    ensures Bits(MarkEnd(Zeros(112), wide)) == Falses(895) + [wide]
  {
    BitsZeros(112);
    FallsConcat(895, 1);
    assert Falses(1) == [false];
    MarkEndBits(Zeros(112), Falses(895), wide);
  }

  /** The message bits: whole bytes, then the first n bits of `ub`. */
  function MessageBits(m: seq<Byte>, ub: Byte, n: nat): seq<bool>
    requires n < 8
  {
    Bits(m) + ByteBits(ub)[..n]
  }

  /** The padded message. */
  function Padded(m: seq<Byte>, ub: Byte, n: nat, wide: bool): seq<Byte>
    requires n < 8
  {
    m + (Tail(|m| % BLOCK, ub, n, wide) + Len(Low128(8 * |m| + n)))
  }

  /** A one, k zeros, and the final bit. */
  function Pad(k: nat, wide: bool): seq<bool> { [true] + Falses(k) + [wide] }

  lemma TailBits(r: nat, ub: Byte, n: nat, wide: bool)
    requires r < BLOCK && n < 8
    ensures Bits(Tail(r, ub, n, wide)) == ByteBits(ub)[..n] + Pad(Gap(r, n), wide)
  {
    if Short(r, n) { ShortBits(r, ub, n, wide); } else { LongBits(r, ub, n, wide); }
    FourParts(ByteBits(ub)[..n], [true], Falses(Gap(r, n)), [wide]);
  }

  lemma FourParts<T>(a: seq<T>, b: seq<T>, c: seq<T>, d: seq<T>)
    ensures a + b + c + d == a + (b + c + d)
  {}

  lemma PadJoin(m: seq<Byte>, t: seq<Byte>, l: seq<Byte>, x: seq<bool>, y: seq<bool>)
    requires Bits(t) == x + y
    ensures Bits(m + (t + l)) == Bits(m) + x + y + Bits(l)
  {
    BitsConcat(m, t + l);
    BitsConcat(t, l);
    FourParts(Bits(m), x, y, Bits(l));
    Assoc(x, y, Bits(l));
  }

  /** Section 2.2.3 of the SHA-3 proposal BLAKE: a one, then the fewest zeros that bring the
      length to 895 modulo 1024, then a one (a zero for BLAKE-384), then the length. */
  lemma PaddingIsRight(m: seq<Byte>, ub: Byte, n: nat, wide: bool)
    requires n < 8
    ensures var k := Gap(|m| % BLOCK, n); var msg := MessageBits(m, ub, n);
      && Bits(Padded(m, ub, n, wide)) == msg + Pad(k, wide) + Bits(Len(Low128(|msg|)))
      && (|msg| + 1 + k) % 1024 == 895 && k < 1024
  {
    var r := |m| % BLOCK;
    TailBits(r, ub, n, wide);
    PadJoin(m, Tail(r, ub, n, wide), Len(Low128(8 * |m| + n)), ByteBits(ub)[..n], Pad(Gap(r, n), wide));
    BitsLength(m);
    GapIsRight(|m|, n);
  }

  lemma GapIsRight(len: nat, n: nat)
    requires n < 8
    ensures var k := Gap(len % BLOCK, n); (8 * len + n + 1 + k) % 1024 == 895 && k < 1024
  {
    assert 8 * len == 1024 * (len / BLOCK) + 8 * (len % BLOCK);
  }

  // ---------------------------------------------------------------- closing

  /** The padding blocks for a state, without their counters. */
  function Closing(st: State, ub: Byte, n: nat, wide: bool): (r: seq<Byte>)
    requires |st.pend| < BLOCK && n < 8
    ensures |r| == if Short(|st.pend|, n) then BLOCK else 2 * BLOCK
  {
    st.pend + (Tail(|st.pend|, ub, n, wide) + Len(st.T() + 8 * |st.pend| + n))
  }

  /** The number of message bits up to the end of the block, 0 if the block has none. */
  function LastCount(st: State, n: nat): nat {
    if |st.pend| == 0 && n == 0 then 0 else st.T() + 8 * |st.pend| + n
  }

  /** What closing makes of the state. */
  function Finish(C: Compress, st: State, ub: Byte, n: nat, wide: bool): Words
    requires |st.pend| < BLOCK && n < 8
  {
    var p := Closing(st, ub, n, wide);
    if Short(|st.pend|, n) then C(st.h, p, LastCount(st, n))
    else C(C(st.h, p[..BLOCK], LastCount(st, n)), p[BLOCK..], 0)
  }

  /** The counter of block `i` of a padded message of `L` message bits. */
  function Counter(i: nat, L: nat): nat {
    if L <= 1024 * i then 0 else if L < 1024 * (i + 1) then Low128(L) else Low128(1024 * (i + 1))
  }

  function CountedBlocks(p: seq<Byte>, q: nat, L: nat): seq<(seq<Byte>, nat)>
    requires |p| == BLOCK * q
  {
    seq(q, i requires 0 <= i < q => (p[BLOCK * i..BLOCK * i + BLOCK], Counter(i, L)))
  }

  lemma CountedSnoc(p: seq<Byte>, q: nat, L: nat)
    requires |p| == BLOCK * q + BLOCK
    ensures CountedBlocks(p, q + 1, L) == CountedBlocks(p[..BLOCK * q], q, L) + [(p[BLOCK * q..], Counter(q, L))]
  {
    var all, init := CountedBlocks(p, q + 1, L), CountedBlocks(p[..BLOCK * q], q, L);
    forall i | 0 <= i < q ensures all[i] == init[i] {
      var a := BLOCK * i;
      assert p[..BLOCK * q][a..a + BLOCK] == p[a..a + BLOCK];
    }
    assert p[BLOCK * q..BLOCK * q + BLOCK] == p[BLOCK * q..];
  }

  lemma FullAreCounted(m: seq<Byte>, q: nat, L: nat)
    requires BLOCK * q <= |m| && 1024 * q <= L
    ensures CountedBlocks(m[..BLOCK * q], q, L) == FullBlocks(m, q)
  {
    forall i | 0 <= i < q ensures CountedBlocks(m[..BLOCK * q], q, L)[i] == FullBlocks(m, q)[i] {
      var a := BLOCK * i;
      assert m[..BLOCK * q][a..a + BLOCK] == m[a..a + BLOCK];
    }
  }

  lemma Low128Near(q: nat, x: nat)
    requires x < 1024
    ensures Low128(1024 * q) + x == Low128(1024 * q + x)
  {
    assert M128 == 1024 * (M128 / 1024);
    var j, k := q % (M128 / 1024), q / (M128 / 1024);
    assert q == (M128 / 1024) * k + j;
    assert 1024 * q == M128 * k + 1024 * j;
    LowIs(k, 1024 * j);
    LowIs(k, 1024 * j + x);
  }

  lemma LowIs(k: nat, x: nat)
    requires x < M128
    ensures Low128(M128 * k + x) == x
  {}

  lemma OneMore(C: Compress, iv: Words, a: seq<Byte>, c: seq<Byte>, q: nat, L: nat)
    requires |a| == BLOCK * q && |c| == BLOCK
    ensures Fold(C, iv, CountedBlocks(a + c, q + 1, L)) == C(Fold(C, iv, CountedBlocks(a, q, L)), c, Counter(q, L))
  {
    CountedSnoc(a + c, q, L);
    assert (a + c)[..BLOCK * q] == a && (a + c)[BLOCK * q..] == c;
    FoldSnoc(C, iv, CountedBlocks(a, q, L), c, Counter(q, L));
  }

  /** The number of blocks of the padded message. */
  function BlockCount(len: nat, n: nat): nat { len / BLOCK + if Short(len % BLOCK, n) then 1 else 2 }

  lemma CloseShort(C: Compress, iv: Words, a: seq<Byte>, q: nat, L: nat, st: State, ub: Byte, n: nat, wide: bool)
    requires n < 8 && |st.pend| < BLOCK && |a| == BLOCK * q && Short(|st.pend|, n)
    requires st.h == Fold(C, iv, CountedBlocks(a, q, L)) && LastCount(st, n) == Counter(q, L)
    ensures Finish(C, st, ub, n, wide) == Fold(C, iv, CountedBlocks(a + Closing(st, ub, n, wide), q + 1, L))
  {
    OneMore(C, iv, a, Closing(st, ub, n, wide), q, L);
  }

  lemma CloseLong(C: Compress, iv: Words, a: seq<Byte>, q: nat, L: nat, st: State, ub: Byte, n: nat, wide: bool)
    requires n < 8 && |st.pend| < BLOCK && |a| == BLOCK * q && !Short(|st.pend|, n)
    requires st.h == Fold(C, iv, CountedBlocks(a, q, L)) && LastCount(st, n) == Counter(q, L) && Counter(q + 1, L) == 0
    ensures Finish(C, st, ub, n, wide) == Fold(C, iv, CountedBlocks(a + Closing(st, ub, n, wide), q + 2, L))
  {
    var c := Closing(st, ub, n, wide);
    OneMore(C, iv, a, c[..BLOCK], q, L);
    OneMore(C, iv, a + c[..BLOCK], c[BLOCK..], q + 1, L);
    assert c == c[..BLOCK] + c[BLOCK..];
    Assoc(a, c[..BLOCK], c[BLOCK..]);
  }

  lemma PaddedIs(m: seq<Byte>, st: State, q: nat, ub: Byte, n: nat, wide: bool)
    requires n < 8 && q == |m| / BLOCK && st.pend == m[BLOCK * q..] && st.T() + 8 * |st.pend| + n == Low128(8 * |m| + n)
    ensures Padded(m, ub, n, wide) == m[..BLOCK * q] + Closing(st, ub, n, wide)
    ensures |Padded(m, ub, n, wide)| == BLOCK * BlockCount(|m|, n)
  {
    var t := Tail(|m| % BLOCK, ub, n, wide) + Len(Low128(8 * |m| + n));
    assert m == m[..BLOCK * q] + st.pend;
    Assoc(m[..BLOCK * q], st.pend, t);
  }

  /** Hashing a message of whole bytes and n more bits compresses exactly the blocks of the
      padded message, each with the number of message bits so far or 0 if it has none. */
  lemma DigestIsRight(C: Compress, iv: Words, m: seq<Byte>, ub: Byte, n: nat, wide: bool)
    requires n < 8
    ensures var p := Padded(m, ub, n, wide); var k := BlockCount(|m|, n);
      |p| == BLOCK * k && Finish(C, Feed(C, Init(iv), m), ub, n, wide) == Fold(C, iv, CountedBlocks(p, k, 8 * |m| + n))
  {
    FedIs(C, iv, m);
    FedFinish(C, iv, m, |m| / BLOCK, Feed(C, Init(iv), m), ub, n, wide);
  }

  lemma FedCounts(C: Compress, iv: Words, m: seq<Byte>, q: nat, st: State, n: nat)
    requires Fed(C, iv, m, q, st) && n < 8
    ensures q == |m| / BLOCK && |st.pend| == |m| % BLOCK && 1024 * q <= 8 * |m| + n
    ensures st.T() + 8 * |st.pend| + n == Low128(8 * |m| + n)
    ensures LastCount(st, n) == Counter(q, 8 * |m| + n) && Counter(q + 1, 8 * |m| + n) == 0
  {
    var r := |m| - BLOCK * q;
    assert 8 * |m| + n == 1024 * q + (8 * r + n) && 8 * r + n < 1024;
    Low128Near(q, 8 * r + n);
  }

  lemma FedFinish(C: Compress, iv: Words, m: seq<Byte>, q: nat, st: State, ub: Byte, n: nat, wide: bool)
    requires Fed(C, iv, m, q, st) && n < 8
    ensures var p := Padded(m, ub, n, wide); var k := BlockCount(|m|, n);
      |p| == BLOCK * k && Finish(C, st, ub, n, wide) == Fold(C, iv, CountedBlocks(p, k, 8 * |m| + n))
  {
    var L := 8 * |m| + n;
    FedCounts(C, iv, m, q, st, n);
    PaddedIs(m, st, q, ub, n, wide);
    FullAreCounted(m, q, L);
    if Short(|st.pend|, n) {
      CloseShort(C, iv, m[..BLOCK * q], q, L, st, ub, n, wide);
    } else {
      CloseLong(C, iv, m[..BLOCK * q], q, L, st, ub, n, wide);
    }
  }

  // ---------------------------------------------------------------- sph_blake_big_context

  /** Overwrite `u` from `at` on, as memset and the encoders do. */
  function Put(u: seq<Byte>, at: nat, d: seq<Byte>): (r: seq<Byte>)
    requires at + |d| <= |u|
    ensures |r| == |u|
  {
    u[..at] + d + u[at + |d|..]
  }

  /** The length words behind the padding. */
  function PutLength(u: seq<Byte>, th: nat, tl: nat): (r: seq<Byte>)
    requires |u| == BLOCK
    ensures |r| == BLOCK
  {
    Put(Put(u, 112, Word(th)), 120, Word(tl))
  }

  lemma PutTwice(u: seq<Byte>, a: seq<Byte>, b: seq<Byte>, r: nat)
    requires |u| == BLOCK && r <= 112 && |a| == 8 && |b| == 8
    ensures Put(Put(u, 112, a), 120, b)[r..] == u[r..112] + (a + b)
  {}

  lemma PutLengthIs(u: seq<Byte>, th: nat, tl: nat, r: nat)
    requires |u| == BLOCK && r <= 112
    ensures PutLength(u, th, tl)[r..] == u[r..112] + (Word(th) + Word(tl))
  {
    PutTwice(u, Word(th), Word(tl), r);
  }

  lemma LengthIs(st: State, n: nat)
    requires st.Ok() && n < 8 && st.t0 % 1024 == 0
    ensures Word(st.t1) + Word(st.t0 + 8 * |st.pend| + n) == Len(st.T() + 8 * |st.pend| + n)
  {
    var lo := st.t0 + 8 * |st.pend| + n;
    assert st.t0 <= M64 - 1024 && lo < M64;
    assert (st.t1 * M64 + lo) / M64 == st.t1 && (st.t1 * M64 + lo) % M64 == lo;
  }

  /** The local buffer with the last byte and zeros up to `to`. */
  function PutPadding(u0: seq<Byte>, r: nat, b: Byte, to: nat): (u: seq<Byte>)
    requires |u0| == BLOCK && r < to <= BLOCK
    ensures |u| == BLOCK
  {
    Put(Put(u0, r, [b]), r + 1, Zeros(to - 1 - r))
  }

  lemma PutPaddingIs(u0: seq<Byte>, r: nat, b: Byte, to: nat)
    requires |u0| == BLOCK && r < to <= BLOCK
    ensures PutPadding(u0, r, b, to)[r..to] == [b] + Zeros(to - 1 - r)
  {}

  /** u.buf[111] |= 1, for BLAKE-512. */
  function PutFlag(u: seq<Byte>, wide: bool): (r: seq<Byte>)
    requires |u| == BLOCK
    ensures |r| == BLOCK
  {
    if wide then u[111 := u[111] | 1] else u
  }

  lemma PutFlagIs(u: seq<Byte>, r: nat, wide: bool)
    requires |u| == BLOCK && r < 112
    ensures PutFlag(u, wide)[r..112] == MarkEnd(u[r..112], wide)
  {}

  /** The padding that closing feeds, one block. */
  lemma ShortBuffer(f: seq<Byte>, st: State, ub: Byte, n: nat, wide: bool)
    requires st.Ok() && n < 8 && st.t0 % 1024 == 0 && Short(|st.pend|, n)
    requires |f| == BLOCK && f[|st.pend|..112] == Tail(|st.pend|, ub, n, wide)
    ensures st.pend + PutLength(f, st.t1, st.t0 + 8 * |st.pend| + n)[|st.pend|..] == Closing(st, ub, n, wide)
  {
    hide Tail, Len, Word, PutLength;
    var r := |st.pend|;
    LengthIs(st, n);
    PutLengthIs(f, st.t1, st.t0 + 8 * r + n, r);
    SameEnd(st.pend, PutLength(f, st.t1, st.t0 + 8 * r + n)[r..], f[r..112], Len(st.T() + 8 * r + n),
      Closing(st, ub, n, wide));
  }

  lemma SameEnd<T>(p: seq<T>, u: seq<T>, t: seq<T>, l: seq<T>, c: seq<T>)
    requires u == t + l && c == p + (t + l)
    ensures p + u == c
  {}

  lemma ShortTail(u0: seq<Byte>, r: nat, ub: Byte, n: nat, wide: bool)
    requires n < 8 && |u0| == BLOCK && r < BLOCK && Short(r, n)
    ensures PutFlag(PutPadding(u0, r, LastByte(ub, n), 112), wide)[r..112] == Tail(r, ub, n, wide)
  {
    PutPaddingIs(u0, r, LastByte(ub, n), 112);
    PutFlagIs(PutPadding(u0, r, LastByte(ub, n), 112), r, wide);
  }

  lemma LongTail(st: State, ub: Byte, n: nat, wide: bool)
    requires |st.pend| < BLOCK && n < 8 && !Short(|st.pend|, n)
    ensures Closing(st, ub, n, wide)[..BLOCK] == st.pend + ([LastByte(ub, n)] + Zeros(127 - |st.pend|))
    ensures Closing(st, ub, n, wide)[BLOCK..] == MarkEnd(Zeros(112), wide) + Len(st.T() + 8 * |st.pend| + n)
  {
    SplitAt(st.pend, [LastByte(ub, n)] + Zeros(127 - |st.pend|), MarkEnd(Zeros(112), wide),
      Len(st.T() + 8 * |st.pend| + n), BLOCK);
  }

  lemma SplitAt<T>(p: seq<T>, a: seq<T>, m: seq<T>, l: seq<T>, k: nat)
    requires k == |p| + |a|
    ensures (p + ((a + m) + l))[..k] == p + a && (p + ((a + m) + l))[k..] == m + l
  {
    assert p + ((a + m) + l) == (p + a) + (m + l);
  }

  /** The padding that closing feeds, first of two blocks. */
  lemma LongBuffer(u0: seq<Byte>, st: State, ub: Byte, n: nat, wide: bool)
    requires st.Ok() && n < 8 && |u0| == BLOCK && !Short(|st.pend|, n)
    ensures var r := |st.pend|;
      st.pend + PutPadding(u0, r, LastByte(ub, n), BLOCK)[r..] == Closing(st, ub, n, wide)[..BLOCK]
  {
    PutPaddingIs(u0, |st.pend|, LastByte(ub, n), BLOCK);
    LongTail(st, ub, n, wide);
  }

  /** The padding that closing feeds, second of two blocks. */
  lemma SecondBuffer(u: seq<Byte>, st: State, ub: Byte, n: nat, wide: bool)
    requires st.Ok() && n < 8 && |u| == BLOCK && st.t0 % 1024 == 0 && !Short(|st.pend|, n)
    ensures PutLength(PutFlag(Put(u, 0, Zeros(112)), wide), st.t1, st.t0 + 8 * |st.pend| + n)
      == Closing(st, ub, n, wide)[BLOCK..]
  {
    var v := Put(u, 0, Zeros(112));
    assert v[0..112] == Zeros(112);
    PutFlagIs(v, 0, wide);
    PutLengthIs(PutFlag(v, wide), st.t1, st.t0 + 8 * |st.pend| + n, 0);
    LengthIs(st, n);
    LongTail(st, ub, n, wide);
    var w := PutLength(PutFlag(v, wide), st.t1, st.t0 + 8 * |st.pend| + n);
    assert w[0..] == w;
  }

  /** The counter that closing sets before it feeds the padding. */
  function Preset(st: State, n: nat): (nat, nat)
    requires st.Ok()
  {
    var bitLen := 8 * |st.pend| + n;
    if bitLen == 0 then (M64 - 1024, M64 - 1)
    else if st.t0 == 0 then ((M64 - 1024 + bitLen) % M64, (st.t1 + M64 - 1) % M64)
    else ((st.t0 + M64 - (1024 - bitLen)) % M64, st.t1)
  }

  /** After the preset, the counter of the next compression is the number of message bits. */
  lemma PresetIsRight(C: Compress, st: State, n: nat, block: seq<Byte>)
    requires st.Ok() && n < 8 && st.t0 % 1024 == 0
    ensures var (t0, t1) := Preset(st, n);
      t0 < M64 && t1 < M64 && Absorb(C, st.(t0 := t0, t1 := t1), block).h == C(st.h, block, LastCount(st, n))
  {
    var bitLen := 8 * |st.pend| + n;
    var (t0, t1) := Preset(st, n);
    if bitLen != 0 {
      if st.t0 == 0 {
        assert t0 == M64 - 1024 + bitLen;
        assert (t0 + 1024) % M64 == bitLen;
        assert (t1 + 1) % M64 == st.t1;
      } else {
        assert st.t0 >= 1024 && st.t0 <= M64 - 1024;
        assert t0 == st.t0 - (1024 - bitLen);
        assert (t0 + 1024) % M64 == st.t0 + bitLen;
      }
    }
  }

  /** The second padding block has no message bits. */
  lemma SecondIsZero(C: Compress, h: Words, block: seq<Byte>)
    ensures Absorb(C, State(h, M64 - 1024, M64 - 1, []), block).h == C(h, block, 0)
  {}

  class BigContext {
    const C: Compress
    const buf: array<Byte>
    var ptr: nat
    var h: Words
    var t0: nat
    var t1: nat

    ghost predicate Valid()
      reads this, buf
    {
      buf.Length == BLOCK && ptr < BLOCK && t0 < M64 && t1 < M64
    }

    ghost function Abs(): State
      reads this, buf
      requires Valid()
    {
      State(h, t0, t1, buf[..ptr])
    }

    /** blake64_init. */
    constructor (C: Compress, iv: Words)
      ensures Valid() && Abs() == Init(iv) && this.C == C && fresh(buf)
    {
      this.C := C;
      buf := new Byte[BLOCK];
      ptr, h, t0, t1 := 0, iv, 0, 0;
    }

    /** memcpy into the buffer. */
    method Copy(at: nat, d: seq<Byte>)
      requires at + |d| <= buf.Length
      modifies buf
      ensures buf[..at + |d|] == old(buf[..at]) + d
    {
      for i := 0 to |d|
        invariant buf[..at + i] == old(buf[..at]) + d[..i]
      {
        buf[at + i] := d[i];
        assert buf[..at + i + 1] == buf[..at + i] + [d[i]];
        assert d[..i + 1] == d[..i] + [d[i]];
      }
      assert d[..|d|] == d;
    }

    /** The counter step and COMPRESS64, with the buffer full. */
    method Full(ghost st: State)
      requires buf.Length == BLOCK && st.Ok() && st.h == h && st.t0 == t0 && st.t1 == t1
      modifies this
      ensures Valid() && Abs() == Absorb(C, st, old(buf[..]))
    {
      t0 := (t0 + 1024) % M64;
      if t0 < 1024 {
        t1 := (t1 + 1) % M64;
      }
      h := C(h, buf[..], t1 * M64 + t0);
      ptr := 0;
    }

    /** One round of the loop of blake64. */
    method Some(data: seq<Byte>) returns (rest: seq<Byte>)
      requires Valid() && data != []
      modifies this, buf
      ensures Valid() && |rest| < |data| && Feed(C, Abs(), rest) == Feed(C, old(Abs()), data)
    {
      ghost var st := Abs();
      var clen := if BLOCK - ptr > |data| then |data| else BLOCK - ptr;
      rest := data[clen..];
      Copy(ptr, data[..clen]);
      if ptr + clen == BLOCK {
        assert buf[..] == buf[..BLOCK] == st.pend + data[..clen];
        Full(st);
      } else {
        assert data[..clen] == data;
        ptr := ptr + clen;
        FeedNothing(C, Abs());
      }
    }

    /** blake64: feed data. */
    method Update(data: seq<Byte>)
      requires Valid()
      modifies this, buf
      ensures Valid() && Abs() == Feed(C, old(Abs()), data)
    {
      if |data| < BLOCK - ptr {
        Copy(ptr, data);
        ptr := ptr + |data|;
        return;
      }
      var rest := data;
      while |rest| > 0
        invariant Valid() && Feed(C, Abs(), rest) == Feed(C, old(Abs()), data)
        decreases |rest|
      {
        rest := Some(rest);
      }
      FeedNothing(C, Abs());
    }

    /** blake64_close, up to the output of H. `u` is the local buffer, whatever it holds at
        first. */
    method Close(ub: Byte, n: nat, wide: bool, u0: seq<Byte>)
      requires Valid() && n < 8 && |u0| == BLOCK && t0 % 1024 == 0
      modifies this, buf
      ensures Valid() && h == Finish(C, old(Abs()), ub, n, wide)
    {
      ghost var st := Abs();
      var r, bitLen := ptr, 8 * ptr + n;
      var tl, th := t0 + bitLen, t1;
      if r == 0 && n == 0 {
        t0, t1 := M64 - 1024, M64 - 1;
      } else if t0 == 0 {
        t0, t1 := (M64 - 1024 + bitLen) % M64, (t1 + M64 - 1) % M64;
      } else {
        t0 := (t0 + M64 - (1024 - bitLen)) % M64;
      }
      assert (t0, t1) == Preset(st, n) && Abs() == st.(t0 := t0, t1 := t1);
      if bitLen <= 894 {
        CloseInOne(st, ub, n, wide, u0, th, tl);
      } else {
        CloseInTwo(st, ub, n, wide, u0, th, tl);
      }
    }

    /** The state is `st` but for the preset counter. */
    ghost predicate IsPreset(st: State, n: nat)
      reads this, buf
    {
      Valid() && st.Ok() && st.t0 % 1024 == 0 && (t0, t1) == Preset(st, n) && Abs() == st.(t0 := t0, t1 := t1)
    }

    method CloseInOne(ghost st: State, ub: Byte, n: nat, wide: bool, u0: seq<Byte>, th: nat, tl: nat)
      requires n < 8 && |u0| == BLOCK && IsPreset(st, n) && Short(ptr, n) && th == st.t1 && tl == st.t0 + 8 * ptr + n
      modifies this, buf
      ensures Valid() && h == Finish(C, st, ub, n, wide)
    {
      ghost var st1 := Abs();
      var f := PutFlag(PutPadding(u0, ptr, LastByte(ub, n), 112), wide);
      var u := PutLength(f, th, tl);
      ShortTail(u0, ptr, ub, n, wide);
      ShortBuffer(f, st, ub, n, wide);
      PresetIsRight(C, st, n, Closing(st, ub, n, wide));
      FillUp(u[ptr..]);
    }

    /** Feed as much as the buffer has room for. */
    method FillUp(d: seq<Byte>)
      requires Valid() && ptr + |d| == BLOCK
      modifies this, buf
      ensures Valid() && Abs() == Absorb(C, old(Abs()), old(Abs()).pend + d)
    {
      FeedOne(C, Abs(), d);
      Update(d);
    }

    method CloseInTwo(ghost st: State, ub: Byte, n: nat, wide: bool, u0: seq<Byte>, th: nat, tl: nat)
      requires n < 8 && |u0| == BLOCK && IsPreset(st, n) && !Short(ptr, n) && th == st.t1 && tl == st.t0 + 8 * ptr + n
      modifies this, buf
      ensures Valid() && h == Finish(C, st, ub, n, wide)
    {
      var u := PutPadding(u0, ptr, LastByte(ub, n), BLOCK);
      LongBuffer(u0, st, ub, n, wide);
      PresetIsRight(C, st, n, Closing(st, ub, n, wide)[..BLOCK]);
      FillUp(u[ptr..]);
      SecondBuffer(u, st, ub, n, wide);
      SecondBlock(PutLength(PutFlag(Put(u, 0, Zeros(112)), wide), th, tl));
    }

    method SecondBlock(u: seq<Byte>)
      requires Valid() && ptr == 0 && |u| == BLOCK
      modifies this, buf
      ensures Valid() && h == C(old(h), u, 0)
    {
      t0, t1 := M64 - 1024, M64 - 1;
      SecondIsZero(C, h, u);
      assert [] + u == u;
      FillUp(u);
    }
  }
}
