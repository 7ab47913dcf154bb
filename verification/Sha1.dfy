/** The streaming SHA-1 of src/lifo/demo/sha1.c, on a little-endian machine and without SHA1HANDSOFF, against the
    definition in FIPS 180-1. */
module Sha1 {
  type Byte = bv8
  type Word = bv32

  // ----- FIPS 180-1 ------------------------------------------------------------------------------

  /** Section 3: the circular left shift. */
  function Rol1(x: Word): Word { (x << 1) | (x >> 31) }

  function Rol5(x: Word): Word { (x << 5) | (x >> 27) }

  function Rol30(x: Word): Word { (x << 30) | (x >> 2) }

  /** Section 5. */
  function Choose(b: Word, c: Word, d: Word): Word { (b & c) | (!b & d) }

  function Parity(b: Word, c: Word, d: Word): Word { b ^ c ^ d }

  function Majority(b: Word, c: Word, d: Word): Word { (b & c) | (b & d) | (c & d) }

  function F(t: nat, b: Word, c: Word, d: Word): Word {
    if t < 20 then Choose(b, c, d) else if t < 40 then Parity(b, c, d) else if t < 60 then Majority(b, c, d) else Parity(b, c, d)
  }

  /** Section 6. */
  function K(t: nat): Word {
    if t < 20 then 0x5A827999 else if t < 40 then 0x6ED9EBA1 else if t < 60 then 0x8F1BBCDC else 0xCA62C1D6
  }

  /** Section 7: the registers A to E, or the words H0 to H4. */
  datatype Registers = Registers(a: Word, b: Word, c: Word, d: Word, e: Word)

  const INITIAL: Registers := Registers(0x67452301, 0xEFCDAB89, 0x98BADCFE, 0x10325476, 0xC3D2E1F0)

  /** Section 7, step b: the schedule of 80 words. */
  function W(ws: seq<Word>, t: nat): Word
    requires |ws| == 16
  {
    if t < 16 then ws[t] else Rol1(W(ws, t - 3) ^ W(ws, t - 8) ^ W(ws, t - 14) ^ W(ws, t - 16))
  }

  /** Section 7, step d. */
  function Temp(a5: Word, f: Word, e: Word, w: Word, k: Word): Word { a5 + f + e + w + k }

  function Round(r: Registers, w: Word, t: nat): Registers {
    Registers(Temp(Rol5(r.a), F(t, r.b, r.c, r.d), r.e, w, K(t)), r.a, Rol30(r.b), r.c, r.d)
  }

  function Rounds(r: Registers, ws: seq<Word>, t: nat): Registers
    requires |ws| == 16
  {
    if t == 0 then r else Round(Rounds(r, ws, t - 1), W(ws, t - 1), t - 1)
  }

  function Sum(r: Registers, q: Registers): Registers {
    Registers(r.a + q.a, r.b + q.b, r.c + q.c, r.d + q.d, r.e + q.e)
  }

  function BigEndian(b0: Byte, b1: Byte, b2: Byte, b3: Byte): Word {
    ((b0 as Word) << 24) | ((b1 as Word) << 16) | ((b2 as Word) << 8) | (b3 as Word)
  }

  function Words(block: seq<Byte>): (ws: seq<Word>)
    requires |block| == 64
    ensures |ws| == 16
  {
    seq(16, (i: nat) requires i < 16 => BigEndian(block[4 * i], block[4 * i + 1], block[4 * i + 2], block[4 * i + 3]))
  }

  function Compress(h: Registers, block: seq<Byte>): Registers
    requires |block| == 64
  {
    Sum(h, Rounds(h, Words(block), 80))
  }

  /** Section 7 over all blocks of a padded message, or over the full blocks of one still to be padded. */
  function HashBlocks(m: seq<Byte>): Registers
    requires |m| % 64 == 0
  {
    if |m| == 0 then INITIAL else Compress(HashBlocks(m[..|m| - 64]), m[|m| - 64..])
  }

  function Zeros(n: nat): seq<Byte> { seq(n, _ => 0) }

  /** The number of zero bytes of the padding: the least that leaves 8 bytes of the last block. */
  function ZeroCount(n: nat): (z: nat)
    ensures z < 64 && (n + 1 + z) % 64 == 56
  {
    (119 - n % 64) % 64
  }

  function LengthBytes(bits: nat): (s: seq<Byte>)
    ensures |s| == 8
  {
    [ByteOf(bits / 0x100_0000_0000_0000), ByteOf(bits / 0x1_0000_0000_0000), ByteOf(bits / 0x100_0000_0000), ByteOf(bits / 0x1_0000_0000),
     ByteOf(bits / 0x100_0000), ByteOf(bits / 0x1_0000), ByteOf(bits / 0x100), ByteOf(bits)]
  }

  function ByteOf(n: nat): Byte { (n % 256) as Byte }

  /** Section 4, with the length to be written given apart. */
  function Padded(m: seq<Byte>, bits: nat): (p: seq<Byte>)
    ensures |p| % 64 == 0
  {
    m + [0x80] + Zeros(ZeroCount(|m|)) + LengthBytes(bits)
  }

  function WordBytes(w: Word): seq<Byte> {
    [((w >> 24) & 0xFF) as Byte, ((w >> 16) & 0xFF) as Byte, ((w >> 8) & 0xFF) as Byte, (w & 0xFF) as Byte]
  }

  function Digest(h: Registers): seq<Byte> {
    WordBytes(h.a) + WordBytes(h.b) + WordBytes(h.c) + WordBytes(h.d) + WordBytes(h.e)
  }

  /** The digest of a message of fewer than 2^64 bits. */
  function Hash(m: seq<Byte>): seq<Byte> { Digest(HashBlocks(Padded(m, 8 * |m|))) }

  // ----- the round macros ------------------------------------------------------------------------

  function LittleEndian(b0: Byte, b1: Byte, b2: Byte, b3: Byte): Word {
    (b0 as Word) | ((b1 as Word) << 8) | ((b2 as Word) << 16) | ((b3 as Word) << 24)
  }

  function Rol24(x: Word): Word { (x << 24) | (x >> 8) }

  function Rol8(x: Word): Word { (x << 8) | (x >> 24) }

  function Swap(x: Word): Word { (Rol24(x) & 0xFF00FF00) | (Rol8(x) & 0x00FF00FF) }

  /** blk0 turns the word the machine loads into the one the standard means. */
  lemma SwapTurns(b0: Byte, b1: Byte, b2: Byte, b3: Byte)
    ensures Swap(LittleEndian(b0, b1, b2, b3)) == BigEndian(b0, b1, b2, b3)
  {}

  function MacroChoose(w: Word, x: Word, y: Word): Word { (w & (x ^ y)) ^ y }

  function MacroMajority(w: Word, x: Word, y: Word): Word { ((w | x) & y) | (w & x) }

  function MacroF(t: nat, w: Word, x: Word, y: Word): Word {
    if t < 20 then MacroChoose(w, x, y)
    else if t < 40 then Parity(w, x, y)
    else if t < 60 then MacroMajority(w, x, y)
    else Parity(w, x, y)
  }

  lemma ChooseAgrees(w: Word, x: Word, y: Word)
    ensures MacroChoose(w, x, y) == Choose(w, x, y)
  {
    ChooseBits(w, x, y);
  }

  lemma ChooseBits(w: Word, x: Word, y: Word)
    ensures (w & (x ^ y)) ^ y == (w & x) | (!w & y)
  {}

  lemma MajorityAgrees(w: Word, x: Word, y: Word)
    ensures MacroMajority(w, x, y) == Majority(w, x, y)
  {
    MajorityBits(w, x, y);
  }

  lemma MajorityBits(w: Word, x: Word, y: Word)
    ensures ((w | x) & y) | (w & x) == (w & x) | (w & y) | (x & y)
  {}

  lemma MacroIsF(t: nat, w: Word, x: Word, y: Word)
    ensures MacroF(t, w, x, y) == F(t, w, x, y)
  {
    hide Choose, Majority, Parity, MacroChoose, MacroMajority;
    ChooseAgrees(w, x, y);
    MajorityAgrees(w, x, y);
  }

  function MacroSum(z: Word, f: Word, word: Word, k: Word, v5: Word): Word { z + (f + word + k + v5) }

  lemma SumsAgree(z: Word, f: Word, word: Word, k: Word, v5: Word)
    ensures MacroSum(z, f, word, k, v5) == Temp(v5, f, z, word, k)
  {}

  /** R0 to R4: one round, with the registers renamed instead of moved. */
  method R(v: Word, w: Word, x: Word, y: Word, z: Word, word: Word, t: nat) returns (z': Word, w': Word)
    ensures Registers(z', v, w', x, y) == Round(Registers(v, w, x, y, z), word, t)
  {
    hide F, MacroF, K, Rol5, Rol30, Temp, MacroSum;
    MacroIsF(t, w, x, y);
    SumsAgree(z, F(t, w, x, y), word, K(t), Rol5(v));
    z' := MacroSum(z, MacroF(t, w, x, y), word, K(t), Rol5(v));
    w' := Rol30(w);
  }

  // ----- one block -------------------------------------------------------------------------------

  /** Before round t, the 16 words of the block hold the latest of the schedule, and the rest as loaded. */
  ghost predicate Rolling(l: seq<Word>, ws: seq<Word>, t: nat)
    requires |l| == |ws| == 16
  {
    && (forall k: nat {:trigger W(ws, k)} :: t <= k + 16 && k < t ==> l[k % 16] == W(ws, k))
    && (forall k :: t <= k < 16 ==> Swap(l[k]) == ws[k])
  }

  lemma RollingStep(l: seq<Word>, ws: seq<Word>, i: nat)
    requires |l| == |ws| == 16 && Rolling(l, ws, i)
    ensures Rolling(l[i % 16 := W(ws, i)], ws, i + 1)
  {
    hide Swap, W;
    forall k: nat | i + 1 <= k + 16 && k < i + 1 ensures l[i % 16 := W(ws, i)][k % 16] == W(ws, k) {
      if k < i { OtherPlace(k, i); }
    }
  }

  lemma OtherPlace(k: nat, i: nat)
    requires k < i < k + 16
    ensures k % 16 != i % 16
  {}

  /** The word that is replaced and the three others it is computed from. */
  lemma RollingNext(l: seq<Word>, ws: seq<Word>, i: nat)
    requires |l| == |ws| == 16 && Rolling(l, ws, i)
    ensures if i < 16 then Swap(l[i]) == W(ws, i)
            else Rol1(l[(i + 13) % 16] ^ l[(i + 8) % 16] ^ l[(i + 2) % 16] ^ l[i % 16]) == W(ws, i)
  {}

  lemma RollingEnds(l: seq<Word>, ws: seq<Word>)
    requires |l| == |ws| == 16 && Rolling(l, ws, 80)
    ensures l == LastWords(ws)
  {
    forall i | 0 <= i < 16 ensures l[i] == W(ws, 64 + i) { assert (64 + i) % 16 == i; }
  }

  /** The last 16 words of the schedule. */
  function LastWords(ws: seq<Word>): (l: seq<Word>)
    requires |ws| == 16
    ensures |l| == 16
  {
    seq(16, (i: nat) requires i < 16 => W(ws, 64 + i))
  }

  /** The bytes from `off` on are the words l as the machine stores them. */
  ghost predicate Stored(bytes: seq<Byte>, off: nat, l: seq<Word>)
    requires off + 4 * |l| <= |bytes|
  {
    forall i :: 0 <= i < |l| ==>
      LittleEndian(bytes[off + 4 * i], bytes[off + 4 * i + 1], bytes[off + 4 * i + 2], bytes[off + 4 * i + 3]) == l[i]
  }

  /** blk0 and blk: the next word of the schedule, computed in place. */
  method Blk(l: array<Word>, i: nat, ghost ws: seq<Word>) returns (w: Word)
    requires l.Length == |ws| == 16 && Rolling(l[..], ws, i)
    modifies l
    ensures w == W(ws, i) && Rolling(l[..], ws, i + 1)
  {
    hide Rol1, Swap, W, Rolling;
    RollingNext(l[..], ws, i);
    RollingStep(l[..], ws, i);
    ghost var was := l[..];
    w := if i < 16 then Swap(l[i]) else Rol1(l[(i + 13) % 16] ^ l[(i + 8) % 16] ^ l[(i + 2) % 16] ^ l[i % 16]);
    l[i % 16] := w;
    assert l[..] == was[i % 16 := w];
  }

  /** The 80 rounds, five at a time so that every register is back in its place. */
  method Mix(h: Registers, l: array<Word>, ghost ws: seq<Word>) returns (r: Registers)
    requires l.Length == |ws| == 16 && Rolling(l[..], ws, 0)
    modifies l
    ensures r == Rounds(h, ws, 80) && Rolling(l[..], ws, 80)
  {
    hide Rolling, Round, W;
    var a, b, c, d, e := h.a, h.b, h.c, h.d, h.e;
    for g := 0 to 16
      invariant Registers(a, b, c, d, e) == Rounds(h, ws, 5 * g) && Rolling(l[..], ws, 5 * g)
    {
      var w := Blk(l, 5 * g, ws);
      e, b := R(a, b, c, d, e, w, 5 * g);
      assert Registers(e, a, b, c, d) == Rounds(h, ws, 5 * g + 1);
      w := Blk(l, 5 * g + 1, ws);
      d, a := R(e, a, b, c, d, w, 5 * g + 1);
      assert Registers(d, e, a, b, c) == Rounds(h, ws, 5 * g + 2);
      w := Blk(l, 5 * g + 2, ws);
      c, e := R(d, e, a, b, c, w, 5 * g + 2);
      assert Registers(c, d, e, a, b) == Rounds(h, ws, 5 * g + 3);
      w := Blk(l, 5 * g + 3, ws);
      b, d := R(c, d, e, a, b, w, 5 * g + 3);
      assert Registers(b, c, d, e, a) == Rounds(h, ws, 5 * g + 4);
      w := Blk(l, 5 * g + 4, ws);
      a, c := R(b, c, d, e, a, w, 5 * g + 4);
    }
    r := Registers(a, b, c, d, e);
  }

  method Load(buffer: array<Byte>, off: nat) returns (l: array<Word>)
    requires off + 64 <= buffer.Length
    ensures fresh(l) && l.Length == 16 && Rolling(l[..], Words(buffer[off..off + 64]), 0)
  {
    hide Swap, LittleEndian, BigEndian;
    l := new Word[16];
    ghost var ws := Words(buffer[off..off + 64]);
    for i := 0 to 16
      invariant forall k :: 0 <= k < i ==> Swap(l[k]) == ws[k]
    {
      var j := off + 4 * i;
      l[i] := LittleEndian(buffer[j], buffer[j + 1], buffer[j + 2], buffer[j + 3]);
      SwapTurns(buffer[j], buffer[j + 1], buffer[j + 2], buffer[j + 3]);
    }
  }

  function Chained(state: seq<Word>): Registers
    requires |state| == 5
  {
    Registers(state[0], state[1], state[2], state[3], state[4])
  }

  /** `SHA1_Transform`: the block it is given is its workspace and is overwritten, with the last words of the schedule. */
  method Transform(state: array<Word>, buffer: array<Byte>, off: nat)
    requires state.Length == 5 && off + 64 <= buffer.Length
    modifies state, buffer
    ensures Chained(state[..]) == Compress(old(Chained(state[..])), old(buffer[off..off + 64]))
    ensures buffer[..off] == old(buffer[..off]) && buffer[off + 64..] == old(buffer[off + 64..])
    ensures Stored(buffer[..], off, LastWords(Words(old(buffer[off..off + 64]))))
  {
    hide Rounds, Rolling, Words, Sum, LastWords, Stored;
    ghost var block := buffer[off..off + 64];
    var h := Registers(state[0], state[1], state[2], state[3], state[4]);
    var l := Load(buffer, off);
    var r := Mix(h, l, Words(block));
    RollingEnds(l[..], Words(block));
    StoreBack(l, buffer, off);
    r := Sum(h, r);
    state[0], state[1], state[2], state[3], state[4] := r.a, r.b, r.c, r.d, r.e;
  }

  function LowBytes(w: Word): (Byte, Byte, Byte, Byte) {
    ((w & 0xFF) as Byte, ((w >> 8) & 0xFF) as Byte, ((w >> 16) & 0xFF) as Byte, ((w >> 24) & 0xFF) as Byte)
  }

  /** Stored and loaded again, a word is the same; and so is a word of the digest that is read big-endian. */
  lemma BytesOfWord(w: Word)
    ensures var b := LowBytes(w); LittleEndian(b.0, b.1, b.2, b.3) == w
    ensures var b := WordBytes(w); |b| == 4 && BigEndian(b[0], b[1], b[2], b[3]) == w
  {}

  /** The words and the bytes of the block are the same memory. */
  method StoreBack(l: array<Word>, buffer: array<Byte>, off: nat)
    requires l.Length == 16 && off + 64 <= buffer.Length
    modifies buffer
    ensures buffer[..off] == old(buffer[..off]) && buffer[off + 64..] == old(buffer[off + 64..])
    ensures Stored(buffer[..], off, l[..])
  {
    hide LittleEndian;
    for i := 0 to 16
      invariant buffer[..off] == old(buffer[..off]) && buffer[off + 64..] == old(buffer[off + 64..])
      invariant Stored(buffer[..], off, l[..i])
    {
      ghost var was := buffer[..];
      StoreWord(l[i], buffer, off + 4 * i);
      StoredOne(was, buffer[..], off, l[..], i);
    }
    assert l[..16] == l[..];
  }

  method StoreWord(w: Word, buffer: array<Byte>, j: nat)
    requires j + 4 <= buffer.Length
    modifies buffer
    ensures buffer[..j] == old(buffer[..j]) && buffer[j + 4..] == old(buffer[j + 4..])
    ensures LittleEndian(buffer[j], buffer[j + 1], buffer[j + 2], buffer[j + 3]) == w
  {
    hide LittleEndian, LowBytes;
    var b := LowBytes(w);
    BytesOfWord(w);
    buffer[j], buffer[j + 1], buffer[j + 2], buffer[j + 3] := b.0, b.1, b.2, b.3;
  }

  lemma StoredOne(was: seq<Byte>, now: seq<Byte>, off: nat, l: seq<Word>, i: nat)
    requires i < |l| && |was| == |now| && off + 4 * |l| <= |was| && Stored(was, off, l[..i])
    requires now[..off + 4 * i] == was[..off + 4 * i]
    requires LittleEndian(now[off + 4 * i], now[off + 4 * i + 1], now[off + 4 * i + 2], now[off + 4 * i + 3]) == l[i]
    ensures Stored(now, off, l[..i + 1])
  {
    hide LittleEndian;
    forall k | 0 <= k < i
      ensures LittleEndian(now[off + 4 * k], now[off + 4 * k + 1], now[off + 4 * k + 2], now[off + 4 * k + 3]) == l[k]
    {
      var cut := now[..off + 4 * i];
      assert cut[off + 4 * k] == was[off + 4 * k] && cut[off + 4 * k + 1] == was[off + 4 * k + 1];
      assert cut[off + 4 * k + 2] == was[off + 4 * k + 2] && cut[off + 4 * k + 3] == was[off + 4 * k + 3];
      assert l[..i][k] == l[k];
    }
  }

  // ----- the bit count ---------------------------------------------------------------------------

  const WORD: nat := 0x1_0000_0000
  const DOUBLE: nat := 0x1_0000_0000_0000_0000

  /** The two statements that add `len` bytes to the count: a 32-bit sum compared with a 64-bit product. */
  function AddLow(low: nat, len: nat): nat { (low + 8 * len) % WORD }

  function AddHigh(low: nat, high: nat, len: nat): nat {
    (high + (if AddLow(low, len) < 8 * len then 1 else 0) + len / 0x2000_0000) % WORD
  }

  /** They count exactly if and only if the update is short or its low part carries: from 2^29 bytes on the comparison
      always holds, so a carry is counted that did not happen. */
  lemma CountExact(low: nat, high: nat, len: nat)
    requires low < WORD && high < WORD && len < 0x2000_0000_0000_0000
    ensures AddHigh(low, high, len) * WORD + AddLow(low, len) == (high * WORD + low + 8 * len) % DOUBLE
            <==> len < 0x2000_0000 || low + (8 * len) % WORD >= WORD
  {
    var q, r := len / 0x2000_0000, 8 * (len % 0x2000_0000);
    assert 8 * len == q * WORD + r && (8 * len) % WORD == r;
    var carry := if low + r >= WORD then 1 else 0;
    assert AddLow(low, len) == low + r - carry * WORD by { LowPart(low, q, r); }
    SplitDouble(high + q + carry, low + r - carry * WORD);
    assert high * WORD + low + 8 * len == (high + q + carry) * WORD + (low + r - carry * WORD);
  }

  lemma LowPart(low: nat, q: nat, r: nat)
    requires low < WORD && r < WORD
    ensures (low + q * WORD + r) % WORD == low + r - if low + r >= WORD then WORD else 0
  {}

  lemma SplitDouble(h: nat, l: nat)
    requires l < WORD
    ensures (h * WORD + l) % DOUBLE == (h % WORD) * WORD + l
  {}

  /** The smallest update that is miscounted. */
  lemma LongUpdateMiscounted()
    ensures AddHigh(0, 0, 0x2000_0000) * WORD + AddLow(0, 0x2000_0000) != 8 * 0x2000_0000
  {}

  lemma LengthIsCounts(low: nat, high: nat)
    requires low < WORD && high < WORD
    ensures LengthBytes(high * WORD + low)
            == [ByteOf(high / 0x100_0000), ByteOf(high / 0x1_0000), ByteOf(high / 0x100), ByteOf(high),
                ByteOf(low / 0x100_0000), ByteOf(low / 0x1_0000), ByteOf(low / 0x100), ByteOf(low)]
  {
    hide ByteOf;
    var n := high * WORD + low;
    assert n / 0x100_0000_0000_0000 == high / 0x100_0000 && n / 0x1_0000_0000_0000 == high / 0x1_0000;
    assert n / 0x100_0000_0000 == high / 0x100 && n / WORD == high;
    SameByte(n / 0x100_0000, low / 0x100_0000, high);
    SameByte(n / 0x1_0000, low / 0x1_0000, 0x100 * high);
    SameByte(n / 0x100, low / 0x100, 0x1_0000 * high);
    SameByte(n, low, 0x100_0000 * high);
  }

  lemma SameByte(n: nat, m: nat, k: nat)
    requires n == m + 256 * k
    ensures ByteOf(n) == ByteOf(m)
  {
    assert n % 256 == m % 256 by { SameRemainder(n, m, k); }
  }

  lemma SameRemainder(n: nat, m: nat, k: nat)
    requires n == m + 256 * k
    ensures n % 256 == m % 256
  {}

  // ----- streaming -------------------------------------------------------------------------------

  function Full(n: nat): nat { n - n % 64 }

  lemma HashStep(m: seq<Byte>, k: nat)
    requires k % 64 == 0 && k + 64 <= |m|
    ensures HashBlocks(m[..k + 64]) == Compress(HashBlocks(m[..k]), m[k..k + 64])
  {
    hide Compress;
    var p := m[..k + 64];
    assert p[..|p| - 64] == m[..k] && p[|p| - 64..] == m[k..k + 64];
  }

  lemma SameBlock(n: nat, len: nat)
    requires n % 64 + len < 64
    ensures Full(n + len) == Full(n) && (n + len) % 64 == n % 64 + len
  {}

  lemma FullIs(n: nat)
    ensures Full(n) == n - n % 64 && Full(n) % 64 == 0 && (n + 64 - n % 64) % 64 == 0
  {}

  lemma LastBlock(n: nat, len: nat)
    requires n % 64 == 0 && len < 64
    ensures Full(n + len) == n
  {}

  lemma BufferedBytes(n: nat)
    ensures (8 * n) % WORD / 8 % 64 == n % 64
  {}

  /** Only the bytes from a to b may differ. */
  ghost predicate Spared(was: seq<Byte>, now: seq<Byte>, a: int, b: int) {
    0 <= a <= b <= |was| == |now| && now[..a] == was[..a] && now[b..] == was[b..]
  }

  lemma SparedAll(was: seq<Byte>, a: nat)
    requires a <= |was|
    ensures Spared(was, was, a, a)
  {}

  lemma SparedMore(was: seq<Byte>, mid: seq<Byte>, now: seq<Byte>, a: nat, b: nat, c: nat)
    requires Spared(was, mid, a, b) && Spared(mid, now, b, c)
    ensures Spared(was, now, a, c)
  {
    assert now[..a] == now[..b][..a] && mid[..a] == mid[..b][..a];
    assert was[c..] == was[b..][c - b..] && mid[c..] == mid[b..][c - b..];
  }

  class Context {
    const state: array<Word>
    const buffer: array<Byte>
    var low: nat
    var high: nat
    ghost var msg: seq<Byte>

    /** The full blocks of the message are hashed, the rest is in the buffer, and its length modulo 2^32 bits in `low`. */
    ghost predicate Streams()
      reads this, state, buffer
    {
      && state.Length == 5 && buffer.Length == 64 && low < WORD && high < WORD
      && low == (8 * |msg|) % WORD
      && buffer[..|msg| % 64] == msg[Full(|msg|)..]
      && Chained(state[..]) == HashBlocks(msg[..Full(|msg|)])
    }

    ghost predicate Counts()
      reads this
    {
      high * WORD + low == 8 * |msg|
    }

    constructor ()
      ensures Streams() && Counts() && msg == [] && fresh(state) && fresh(buffer)
    {
      state := new Word[5];
      buffer := new Byte[64];
      low, high, msg := 0, 0, [];
      new;
      state[0], state[1], state[2], state[3], state[4] := 0x67452301, 0xEFCDAB89, 0x98BADCFE, 0x10325476, 0xC3D2E1F0;
    }

    /** memcpy into the buffer. */
    method Copy(at: nat, data: array<Byte>, from: nat, n: nat)
      requires at + n <= buffer.Length && from + n <= data.Length && data != buffer
      modifies buffer
      ensures buffer[..at] == old(buffer[..at]) && buffer[at..at + n] == data[from..from + n]
    {
      for i := 0 to n
        invariant buffer[..at] == old(buffer[..at]) && buffer[at..at + i] == data[from..from + i]
      {
        buffer[at + i] := data[from + i];
        assert buffer[at..at + i + 1] == buffer[at..at + i] + [data[from + i]];
      }
    }

    /** `SHA1_Update`: whatever the cut, the message grows by the data.  Of the data, the whole blocks that are
        hashed in place are overwritten, and nothing else. */
    method Update(data: array<Byte>, len: nat)
      requires Streams() && len <= data.Length && len < 0x2000_0000_0000_0000 && data != buffer
      modifies this, state, buffer, data
      ensures Streams() && msg == old(msg) + old(data[..len])
      ensures low == AddLow(old(low), len) && high == AddHigh(old(low), old(high), len)
      ensures var j := |old(msg)| % 64;
              if j + len < 64 then data[..] == old(data[..]) else Spared(old(data[..]), data[..], 64 - j, len - |msg| % 64)
    {
      hide HashBlocks, Compress, Chained, Spared;
      ghost var m0, all := msg, msg + data[..len];
      var j := low / 8 % 64;
      assert j == |m0| % 64 by { BufferedBytes(|m0|); }
      assert AddLow(low, len) == (8 * |all|) % WORD;
      assert all[Full(|m0|)..|m0|] == m0[Full(|m0|)..] && all[..Full(|m0|)] == m0[..Full(|m0|)];
      assert data[..len] == all[|m0|..];
      low, high := AddLow(low, len), AddHigh(low, high, len);
      Feed(j, data, len, all);
      msg := all;
    }

    /** The data go through the buffer and, block by block, into the state. */
    method Feed(j: nat, data: array<Byte>, len: nat, ghost all: seq<Byte>)
      requires state.Length == 5 && buffer.Length == 64 && len <= data.Length && data != buffer
      requires len <= |all| && j == (|all| - len) % 64 && data[..len] == all[|all| - len..]
      requires buffer[..j] == all[Full(|all| - len)..|all| - len] && Chained(state[..]) == HashBlocks(all[..Full(|all| - len)])
      modifies state, buffer, data
      ensures buffer[..|all| % 64] == all[Full(|all|)..] && Chained(state[..]) == HashBlocks(all[..Full(|all|)])
      ensures if j + len < 64 then data[..] == old(data[..]) else Spared(old(data[..]), data[..], 64 - j, len - |all| % 64)
    {
      hide HashBlocks, Compress, Chained, Full, Spared;
      if j + len > 63 {
        FullIs(|all| - len);
        FullIs(|all|);
        Absorb(j, data, len, all);
        assert data[64 - j..len] == data[..len][64 - j..] == all[|all| - len..][64 - j..] == all[|all| - len + 64 - j..];
        var i := Blocks(64 - j, data, len, all);
        Copy(0, data, i, len - i);
      } else {
        SameBlock(|all| - len, len);
        Keep(j, data, len, all);
      }
    }

    /** Data that do not fill the buffer just join it. */
    method Keep(j: nat, data: array<Byte>, len: nat, ghost all: seq<Byte>)
      requires buffer.Length == 64 && len <= data.Length && data != buffer && j + len < 64 && len <= |all|
      requires j == (|all| - len) % 64 && data[..len] == all[|all| - len..] && buffer[..j] == all[Full(|all| - len)..|all| - len]
      modifies buffer
      ensures buffer[..j + len] == all[Full(|all| - len)..]
    {
      Copy(j, data, 0, len);
      assert buffer[..j + len] == buffer[..j] + buffer[j..j + len];
    }

    /** The loop over the whole blocks of the data. */
    method Blocks(start: nat, data: array<Byte>, len: nat, ghost all: seq<Byte>) returns (i: nat)
      requires state.Length == 5 && start <= len <= data.Length <= |all| + data.Length - len && (|all| - len + start) % 64 == 0
      requires Chained(state[..]) == HashBlocks(all[..|all| - len + start]) && data[start..len] == all[|all| - len + start..]
      modifies state, data
      ensures i <= len && |all| - len + i == Full(|all|) && data[i..len] == all[Full(|all|)..]
      ensures Chained(state[..]) == HashBlocks(all[..Full(|all|)])
      ensures i >= start && Spared(old(data[..]), data[..], start, i)
    {
      hide HashBlocks, Compress, Chained, Spared;
      ghost var n, was := |all| - len, data[..];
      i := start;
      SparedAll(was, start);
      while i + 63 < len
        invariant start <= i <= len && (n + i) % 64 == 0
        invariant Chained(state[..]) == HashBlocks(all[..n + i]) && data[i..len] == all[n + i..] && Spared(was, data[..], start, i)
      {
        ghost var before := data[..];
        OneBlock(i, data, len, all);
        SparedMore(was, before, data[..], start, i, i + 64);
        i := i + 64;
      }
      assert n + i == Full(|all|) by { LastBlock(n + i, len - i); }
    }

    method OneBlock(i: nat, data: array<Byte>, len: nat, ghost all: seq<Byte>)
      requires state.Length == 5 && i + 64 <= len <= data.Length && len <= |all| && (|all| - len + i) % 64 == 0
      requires Chained(state[..]) == HashBlocks(all[..|all| - len + i]) && data[i..len] == all[|all| - len + i..]
      modifies state, data
      ensures Chained(state[..]) == HashBlocks(all[..|all| - len + i + 64]) && data[i + 64..len] == all[|all| - len + i + 64..]
      ensures Spared(old(data[..]), data[..], i, i + 64)
    {
      hide HashBlocks, Compress, Chained;
      ghost var k := |all| - len + i;
      assert data[i..i + 64] == data[i..len][..64] && all[k..k + 64] == all[k..][..64];
      assert data[i + 64..len] == data[i..len][64..] && all[k + 64..] == all[k..][64..];
      HashStep(all, k);
      ghost var rest, was := data[i + 64..], data[..];
      Transform(state, data, i);
      assert data[i + 64..len] == rest[..len - i - 64];
      assert data[..][i + 64..] == rest && data[..][..i] == was[..i];
    }

    /** Filling the buffer up to a whole block and hashing it. */
    method Absorb(j: nat, data: array<Byte>, len: nat, ghost all: seq<Byte>)
      requires state.Length == 5 && buffer.Length == 64 && j < 64 && 64 - j <= len <= data.Length && data != buffer
      requires |all| >= len && (|all| - len) % 64 == j && data[..len] == all[|all| - len..]
      requires buffer[..j] == all[Full(|all| - len)..|all| - len] && Chained(state[..]) == HashBlocks(all[..Full(|all| - len)])
      modifies state, buffer
      ensures Chained(state[..]) == HashBlocks(all[..Full(|all| - len) + 64])
    {
      hide HashBlocks, Compress, Chained;
      ghost var k := Full(|all| - len);
      Copy(j, data, 0, 64 - j);
      assert buffer[0..64] == all[k..k + 64] by {
        assert buffer[0..64] == buffer[..j] + buffer[j..64];
        assert k == |all| - len - j;
        assert data[0..64 - j] == data[..len][..64 - j] && all[|all| - len..k + 64] == all[|all| - len..][..64 - j];
        assert all[k..k + 64] == all[k..|all| - len] + all[|all| - len..k + 64];
      }
      HashStep(all, k);
      Transform(state, buffer, 0);
    }

    /** The bytes of the count, most significant first. */
    method CountBytes() returns (bytes: array<Byte>)
      requires low < WORD && high < WORD
      ensures fresh(bytes) && bytes[..] == LengthBytes(high * WORD + low)
    {
      hide LengthBytes, CountByte;
      bytes := new Byte[8];
      for i := 0 to 8
        invariant forall k :: 0 <= k < i ==> bytes[k] == CountByte(low, high, k)
      {
        bytes[i] := CountByte(low, high, i);
      }
      CountBytesAre(low, high);
      assert bytes[..] == [bytes[0], bytes[1], bytes[2], bytes[3], bytes[4], bytes[5], bytes[6], bytes[7]];
    }

    /** One byte, as `SHA1_Final` feeds them. */
    method UpdateByte(b: Byte)
      requires Streams()
      modifies this, state, buffer
      ensures Streams() && msg == old(msg) + [b]
    {
      hide HashBlocks, Chained;
      var data := new Byte[1](_ => b);
      assert data[..1] == [b];
      Update(data, 1);
    }

    /** `SHA1_Final`: the digest of the message padded with the count, and of the message when the count is exact. */
    method Final() returns (digest: seq<Byte>)
      requires Streams()
      modifies this, state, buffer
      ensures digest == Digest(HashBlocks(Padded(old(msg), old(high * WORD + low))))
      ensures old(Counts()) ==> digest == Hash(old(msg))
      ensures low == high == 0 && (forall k :: 0 <= k < 5 ==> state[k] == 0) && forall k :: 0 <= k < 64 ==> buffer[k] == 0
    {
      hide HashBlocks, Digest, LengthBytes, Chained, Padded, Hash;
      ghost var m0, bits := msg, high * WORD + low;
      var bytes := CountBytes();
      Pad();
      assert bytes[..8] == bytes[..];
      Update(bytes, 8);
      assert msg == Padded(m0, bits) by { PaddedIs(m0, bits); }
      HashIs(m0);
      assert msg[..|msg|] == msg;
      digest := Digest(Chained(state[..]));
      forall k | 0 <= k < 5 { state[k] := 0; }
      forall k | 0 <= k < 64 { buffer[k] := 0; }
      low, high := 0, 0;
    }

    /** The padding loop ends, with just the zeros the standard asks for. */
    method Pad()
      requires Streams()
      modifies this, state, buffer
      ensures Streams() && msg == old(msg) + [0x80] + Zeros(ZeroCount(|old(msg)|))
    {
      hide HashBlocks, Chained, ZeroCount, Full;
      ghost var m0 := msg;
      UpdateByte(0x80);
      ghost var z: nat := 0;
      assert msg == m0 + [0x80] + Zeros(0);
      while low / 8 % 64 != 56
        invariant Streams() && z <= ZeroCount(|m0|) && msg == m0 + [0x80] + Zeros(z)
        decreases ZeroCount(|m0|) - z
      {
        BufferedBytes(|msg|);
        UpdateByte(0);
        z := z + 1;
        assert Zeros(z) == Zeros(z - 1) + [0];
      }
      BufferedBytes(|msg|);
      PaddingEnds(|m0|, z);
    }
  }

  lemma PaddedIs(m: seq<Byte>, bits: nat)
    ensures Padded(m, bits) == m + [0x80] + Zeros(ZeroCount(|m|)) + LengthBytes(bits) && |Padded(m, bits)| % 64 == 0
  {}

  lemma HashIs(m: seq<Byte>)
    ensures Hash(m) == Digest(HashBlocks(Padded(m, 8 * |m|)))
  {}

  function CountByte(low: nat, high: nat, i: nat): Byte
    requires i < 8
  {
    var w, k := if i >= 4 then low else high, 3 - i % 4;
    ByteOf(w / if k == 3 then 0x100_0000 else if k == 2 then 0x1_0000 else if k == 1 then 0x100 else 1)
  }

  lemma CountBytesAre(low: nat, high: nat)
    requires low < WORD && high < WORD
    ensures LengthBytes(high * WORD + low)
            == [CountByte(low, high, 0), CountByte(low, high, 1), CountByte(low, high, 2), CountByte(low, high, 3),
                CountByte(low, high, 4), CountByte(low, high, 5), CountByte(low, high, 6), CountByte(low, high, 7)]
  {
    hide ByteOf, LengthBytes;
    LengthIsCounts(low, high);
  }

  /** Short updates keep an exact count exact. */
  lemma CountStaysExact(low: nat, high: nat, len: nat, n: nat)
    requires low < WORD && high < WORD && high * WORD + low == 8 * n && len < 0x2000_0000 && 8 * (n + len) < DOUBLE
    ensures AddHigh(low, high, len) * WORD + AddLow(low, len) == 8 * (n + len)
  {
    hide AddHigh, AddLow;
    CountExact(low, high, len);
  }

  lemma PaddingEnds(n: nat, z: nat)
    requires z <= ZeroCount(n) && (n + 1 + z) % 64 == 56
    ensures z == ZeroCount(n)
  {}

  // ----- any cut ---------------------------------------------------------------------------------

  function Joined(chunks: seq<seq<Byte>>): seq<Byte> {
    if chunks == [] then [] else Joined(chunks[..|chunks| - 1]) + chunks[|chunks| - 1]
  }

  lemma {:induction false} JoinedGrows(chunks: seq<seq<Byte>>, i: nat)
    requires i <= |chunks|
    ensures |Joined(chunks[..i])| <= |Joined(chunks)|
  {
    if i < |chunks| {
      JoinedGrows(chunks[..|chunks| - 1], i);
      assert chunks[..|chunks| - 1][..i] == chunks[..i];
    } else {
      assert chunks[..i] == chunks;
    }
  }

  /** The streaming theorem: however a message is cut into updates of fewer than 2^29 bytes, the digest is that of
      FIPS 180-1. */
  method HashChunks(chunks: seq<seq<Byte>>) returns (digest: seq<Byte>)
    requires forall i :: 0 <= i < |chunks| ==> |chunks[i]| < 0x2000_0000
    requires 8 * |Joined(chunks)| < DOUBLE
    ensures digest == Hash(Joined(chunks))
  {
    hide HashBlocks, Chained, Hash;
    var context := new Context();
    for i := 0 to |chunks|
      invariant fresh(context) && fresh(context.state) && fresh(context.buffer)
      invariant context.Streams() && context.Counts() && context.msg == Joined(chunks[..i])
    {
      assert chunks[..i + 1][..i] == chunks[..i];
      JoinedGrows(chunks, i + 1);
      AppendChunk(context, chunks[i]);
    }
    assert chunks[..|chunks|] == chunks;
    digest := context.Final();
  }

  method AppendChunk(context: Context, chunk: seq<Byte>)
    requires context.Streams() && context.Counts() && |chunk| < 0x2000_0000 && 8 * (|context.msg| + |chunk|) < DOUBLE
    modifies context, context.state, context.buffer
    ensures context.Streams() && context.Counts() && context.msg == old(context.msg) + chunk
  {
    hide HashBlocks, Chained;
    var data := new Byte[|chunk|](k requires 0 <= k < |chunk| => chunk[k]);
    assert data[..|chunk|] == chunk;
    CountStaysExact(context.low, context.high, |chunk|, |context.msg|);
    context.Update(data, |chunk|);
  }
}
