/** SHA-1 of the update packer (`packer.cpp`), proved against FIPS 180-4. */
module Sha1 {

  type Word = bv32
  type Byte = bv8

  // ----- FIPS 180-4: functions, schedule, compression (sections 4.1.1, 4.2.1, 6.1.2)

  function Rotl(x: Word, n: Word): Word
    requires 0 < n < 32
  {
    (x << n) | (x >> (32 - n))
  }

  // Addition modulo 2^32 of two and of five words.
  function Add(x: Word, y: Word): Word { x + y }

  function Add5(x: Word, y: Word, z: Word, k: Word, w: Word): Word {
    Add(Add(Add(Add(x, y), z), k), w)
  }

  function F(t: nat, x: Word, y: Word, z: Word): Word {
    if t < 20 then (x & y) ^ (!x & z)
    else if 40 <= t < 60 then (x & y) ^ (x & z) ^ (y & z)
    else x ^ y ^ z
  }

  function K(t: nat): Word {
    if t < 20 then 0x5a827999 else if t < 40 then 0x6ed9eba1
    else if t < 60 then 0x8f1bbcdc else 0xca62c1d6
  }

  // A later schedule word from the four words it is made of.
  function Mingle(w3: Word, w8: Word, w14: Word, w16: Word): Word {
    Rotl(w3 ^ w8 ^ w14 ^ w16, 1)
  }

  // The message schedule of a block.
  function W(block: seq<Word>, t: nat): Word
    requires |block| == 16
  {
    if t < 16 then block[t]
    else Mingle(W(block, t - 3), W(block, t - 8), W(block, t - 14), W(block, t - 16))
  }

  datatype Vars = Vars(a: Word, b: Word, c: Word, d: Word, e: Word)

  // The five assignments of a round, with f_t(b, c, d), K_t and W_t as arguments.
  function Mix(v: Vars, f: Word, k: Word, w: Word): Vars {
    Vars(Add5(Rotl(v.a, 5), f, v.e, k, w), v.a, Rotl(v.b, 30), v.c, v.d)
  }

  function Round(v: Vars, t: nat, w: Word): Vars {
    Mix(v, F(t, v.b, v.c, v.d), K(t), w)
  }

  function Rounds(v: Vars, block: seq<Word>, t: nat): Vars
    requires |block| == 16
  {
    if t == 0 then v else Round(Rounds(v, block, t - 1), t - 1, W(block, t - 1))
  }

  function Compress(h: Vars, block: seq<Word>): Vars
    requires |block| == 16
  {
    var v := Rounds(h, block, 80);
    Vars(Add(h.a, v.a), Add(h.b, v.b), Add(h.c, v.c), Add(h.d, v.d), Add(h.e, v.e))
  }

  const H0 := Vars(0x67452301, 0xefcdab89, 0x98badcfe, 0x10325476, 0xc3d2e1f0)

  // ----- The packer's bit-level forms of the same functions

  function Choose(b: Word, c: Word, d: Word): Word { (b & c) | (!b & d) }

  function Majority(b: Word, c: Word, d: Word): Word { (b & c) | (b & d) | (c & d) }

  lemma BitForms(b: Word, c: Word, d: Word)
    ensures Choose(b, c, d) == (b & c) ^ (!b & d)
    ensures Majority(b, c, d) == (b & c) ^ (b & d) ^ (c & d)
  {}

  lemma ChoosePhase(v: Vars, t: nat, w: Word)
    requires t < 20
    ensures Round(v, t, w) == Mix(v, Choose(v.b, v.c, v.d), 0x5a827999, w)
  {
    BitForms(v.b, v.c, v.d);
    assert F(t, v.b, v.c, v.d) == Choose(v.b, v.c, v.d);
  }

  lemma MajorityPhase(v: Vars, t: nat, w: Word)
    requires 40 <= t < 60
    ensures Round(v, t, w) == Mix(v, Majority(v.b, v.c, v.d), 0x8f1bbcdc, w)
  {
    BitForms(v.b, v.c, v.d);
    assert F(t, v.b, v.c, v.d) == Majority(v.b, v.c, v.d);
  }

  lemma ParityPhases(v: Vars, t: nat, w: Word)
    ensures 20 <= t < 40 ==> Round(v, t, w) == Mix(v, v.b ^ v.c ^ v.d, 0x6ed9eba1, w)
    ensures 60 <= t ==> Round(v, t, w) == Mix(v, v.b ^ v.c ^ v.d, 0xca62c1d6, w)
  {}

  ghost predicate Scheduled(temp: array<Word>, block: seq<Word>, n: nat)
    requires |block| == 16
    reads temp
  {
    n <= temp.Length && forall i :: 0 <= i < n ==> temp[i] == W(block, i)
  }

  // The schedule half of `_shiftshiftswap`.
  method Extend(temp: array<Word>, ghost block: seq<Word>, round: nat)
    requires |block| == 16 && 16 <= round < 80 == temp.Length
    requires Scheduled(temp, block, round)
    modifies temp
    ensures Scheduled(temp, block, round + 1)
  {
    temp[round] := Mingle(temp[round - 3], temp[round - 8], temp[round - 14], temp[round - 16]);
  }

  method ShiftSwap(v: Vars, f: Word, k: Word, w: Word) returns (r: Vars)
    ensures r == Mix(v, f, k, w)
  {
    var a, b, c, d, e := v.a, v.b, v.c, v.d, v.e;
    var t := Add5(Rotl(a, 5), f, e, k, w);
    e := d;
    d := c;
    c := Rotl(b, 30);
    b := a;
    a := t;
    r := Vars(a, b, c, d, e);
  }

  // Rounds 0 to 19: the words of `temp` from 16 on may hold anything before.
  method EarlyRounds(v0: Vars, temp: array<Word>, ghost block: seq<Word>) returns (v: Vars)
    requires temp.Length == 80 && block == temp[..16]
    modifies temp
    ensures v == Rounds(v0, block, 20) && Scheduled(temp, block, 20)
  {
    v := v0;
    var round := 0;
    while round < 16
      invariant round <= 16 && v == Rounds(v0, block, round) && Scheduled(temp, block, 16)
    {
      ChoosePhase(v, round, temp[round]);
      v := ShiftSwap(v, Choose(v.b, v.c, v.d), 0x5a827999, temp[round]);
      round := round + 1;
    }
    while round < 20
      invariant 16 <= round <= 20 && v == Rounds(v0, block, round) && Scheduled(temp, block, round)
    {
      Extend(temp, block, round);
      ChoosePhase(v, round, temp[round]);
      v := ShiftSwap(v, Choose(v.b, v.c, v.d), 0x5a827999, temp[round]);
      round := round + 1;
    }
  }

  // Rounds 20 to 79 of `sha1PartHash`.
  method LaterRounds(start: Vars, temp: array<Word>, ghost block: seq<Word>, ghost v0: Vars) returns (v: Vars)
    requires |block| == 16 && temp.Length == 80 && Scheduled(temp, block, 20)
    requires start == Rounds(v0, block, 20)
    modifies temp
    ensures v == Rounds(v0, block, 80)
  {
    v := start;
    var round := 20;
    while round < 40
      invariant 20 <= round <= 40 && v == Rounds(v0, block, round) && Scheduled(temp, block, round)
    {
      Extend(temp, block, round);
      ParityPhases(v, round, temp[round]);
      v := ShiftSwap(v, v.b ^ v.c ^ v.d, 0x6ed9eba1, temp[round]);
      round := round + 1;
    }
    while round < 60
      invariant 40 <= round <= 60 && v == Rounds(v0, block, round) && Scheduled(temp, block, round)
    {
      Extend(temp, block, round);
      MajorityPhase(v, round, temp[round]);
      v := ShiftSwap(v, Majority(v.b, v.c, v.d), 0x8f1bbcdc, temp[round]);
      round := round + 1;
    }
    while round < 80
      invariant 60 <= round <= 80 && v == Rounds(v0, block, round) && Scheduled(temp, block, round)
    {
      Extend(temp, block, round);
      ParityPhases(v, round, temp[round]);
      v := ShiftSwap(v, v.b ^ v.c ^ v.d, 0xca62c1d6, temp[round]);
      round := round + 1;
    }
  }

  // The words of `temp` from 16 on may hold anything on entry: the result
  // depends on the first 16 alone, so no stale schedule word is ever read.
  method PartHash(sha: array<Word>, temp: array<Word>)
    requires sha.Length == 5 && temp.Length == 80 && sha != temp
    modifies sha, temp
    ensures State(sha) == Compress(old(State(sha)), old(temp[..16]))
  {
    ghost var block := temp[..16];
    ghost var v0 := State(sha);
    var v := Vars(sha[0], sha[1], sha[2], sha[3], sha[4]);
    v := EarlyRounds(v, temp, block);
    v := LaterRounds(v, temp, block, v0);
    sha[0] := Add(sha[0], v.a);
    sha[1] := Add(sha[1], v.b);
    sha[2] := Add(sha[2], v.c);
    sha[3] := Add(sha[3], v.d);
    sha[4] := Add(sha[4], v.e);
  }

  function State(sha: array<Word>): Vars
    requires sha.Length == 5
    reads sha
  {
    Vars(sha[0], sha[1], sha[2], sha[3], sha[4])
  }

  // ----- FIPS 180-4: padding and the whole hash (sections 5.1.1, 5.2.1, 5.3.1, 6.1.2)

  const TWO32 := 0x1_0000_0000

  // Four bytes as a big-endian word.
  function Word4(b0: Byte, b1: Byte, b2: Byte, b3: Byte): Word {
    ((b0 as Word) << 24) | ((b1 as Word) << 16) | ((b2 as Word) << 8) | (b3 as Word)
  }

  function Pack(bytes: seq<Byte>): (words: seq<Word>)
    requires |bytes| % 4 == 0
    ensures |words| == |bytes| / 4
  {
    seq(|bytes| / 4, i requires 0 <= i < |bytes| / 4 =>
      Word4(bytes[4 * i], bytes[4 * i + 1], bytes[4 * i + 2], bytes[4 * i + 3]))
  }

  // The number of 64-byte blocks a message is padded to.
  function Blocks(length: nat): nat { (length + 8) / 64 + 1 }

  // The message, the bit 1, and the fewest zero bits that leave 64 bits of a block free.
  function Stopped(message: seq<Byte>): (bytes: seq<Byte>)
    ensures |bytes| == 64 * Blocks(|message|) - 8 && |message| < |bytes| <= |message| + 64
  {
    message + [0x80] + seq((55 - |message|) % 64, _ => 0 as Byte)
  }

  function StoppedWords(message: seq<Byte>): (words: seq<Word>)
    ensures |words| == 16 * Blocks(|message|) - 2
  {
    FourthOf(Blocks(|message|));
    Pack(Stopped(message))
  }

  lemma FourthOf(blocks: nat)
    requires blocks > 0
    ensures (64 * blocks - 8) % 4 == 0 && (64 * blocks - 8) / 4 == 16 * blocks - 2
  {}

  // One more bit at the end of a word.
  function Push(w: Word, bit: bool): Word { (w << 1) | (if bit then 1 else 0) }

  // The low k bits of a number.
  function Binary(n: nat, k: nat): Word { if k == 0 then 0 else Push(Binary(n / 2, k - 1), n % 2 == 1) }

  // The two halves of a 64-bit number.
  function LowWord(n: nat): Word { Binary(n, 32) }

  function HighWord(n: nat): Word { Binary(n / TWO32, 32) }

  function Pow2(k: nat): nat { if k == 0 then 1 else 2 * Pow2(k - 1) }

  // k bits that are 1.
  function Ones(k: nat): Word { if k == 0 then 0 else Push(Ones(k - 1), true) }

  function And(a: Word, b: Word): Word { a & b }

  lemma AndShift(a: Word, b: Word)
    ensures (a << 1) & (b << 1) == (a & b) << 1
  {}

  lemma AndOdd(a: Word, b: Word, x: Word)
    requires x == 0 || x == 1
    ensures ((a << 1) | x) & ((b << 1) | 1) == ((a << 1) & (b << 1)) | x
  {}

  lemma AndPush(a: Word, b: Word, x: bool)
    ensures And(Push(a, x), Push(b, true)) == Push(And(a, b), x)
  {
    AndShift(a, b);
    AndOdd(a, b, if x then 1 else 0);
  }

  lemma AndZero(a: Word)
    ensures And(a, 0) == 0
  {}

  // The low bits do not depend on how many there are above them.
  lemma {:induction false} BinaryLow(n: nat, k: nat, more: nat)
    ensures And(Binary(n, k + more), Ones(k)) == Binary(n, k)
  {
    if k == 0 {
      AndZero(Binary(n, more));
    } else {
      BinaryLow(n / 2, k - 1, more);
      AndPush(Binary(n / 2, k - 1 + more), Ones(k - 1), n % 2 == 1);
    }
  }

  lemma {:induction false} OnesLow(k: nat, more: nat)
    ensures And(Ones(k + more), Ones(k)) == Ones(k)
  {
    if k == 0 {
      AndZero(Ones(more));
    } else {
      OnesLow(k - 1, more);
      AndPush(Ones(k - 1 + more), Ones(k - 1), true);
    }
  }

  lemma AndThrough(w: Word, a: Word, b: Word)
    requires And(w, a) == w && And(b, a) == a
    ensures And(w, b) == w
  {}

  lemma PushZero(w: Word, x: bool)
    requires And(w, 0x7fff_ffff) == w
    ensures Push(w, x) == 0 <==> w == 0 && !x
  {}

  lemma {:induction false} BinaryZero(n: nat, k: nat)
    requires n < Pow2(k) && k <= 32
    ensures Binary(n, k) == 0 <==> n == 0
  {
    if k > 0 {
      BinaryZero(n / 2, k - 1);
      BinaryLow(n / 2, k - 1, 0);
      OnesLow(k - 1, 32 - k);
      Ones31();
      AndThrough(Binary(n / 2, k - 1), Ones(k - 1), Ones(31));
      PushZero(Binary(n / 2, k - 1), n % 2 == 1);
    }
  }

  function PushFour(w: Word): Word { (w << 4) | 0xf }

  lemma FourOnes(w: Word)
    ensures Push(Push(Push(Push(w, true), true), true), true) == PushFour(w)
  {}

  lemma FourMore(k: nat)
    ensures Ones(k + 4) == PushFour(Ones(k))
  {
    assert Ones(k + 2) == Push(Ones(k + 1), true) && Ones(k + 4) == Push(Ones(k + 3), true);
    FourOnes(Ones(k));
  }

  lemma Ones28()
    ensures Ones(28) == 0x0fff_ffff
  {
    FourMore(0);
    FourMore(4);
    FourMore(8);
    FourMore(12);
    FourMore(16);
    FourMore(20);
    FourMore(24);
  }

  lemma Ones29()
    ensures Ones(29) == 0x1fff_ffff
  {
    Ones28();
  }

  lemma Ones31()
    ensures Ones(31) == 0x7fff_ffff
  {
    Ones29();
    assert Ones(30) == Push(Ones(29), true);
  }

  lemma Pow2More(k: nat)
    ensures Pow2(k + 4) == 16 * Pow2(k)
  {
    assert Pow2(k + 2) == 2 * Pow2(k + 1) && Pow2(k + 4) == 2 * Pow2(k + 3);
  }

  lemma Pow32()
    ensures Pow2(32) == TWO32
  {
    Pow2More(0);
    Pow2More(4);
    Pow2More(8);
    Pow2More(12);
    Pow2More(16);
    Pow2More(20);
    Pow2More(24);
    Pow2More(28);
  }

  lemma HighWordZero(n: nat)
    requires n < TWO32 * TWO32
    ensures HighWord(n) == 0 <==> n < TWO32
  {
    Pow32();
    BinaryZero(n / TWO32, 32);
  }

  function WithLength(words: seq<Word>, high: Word, low: Word): (r: seq<Word>)
    ensures |r| == |words| + 2
  {
    words + [high, low]
  }

  function Padded(message: seq<Byte>): (words: seq<Word>)
    requires 8 * |message| < TWO32 * TWO32
    ensures |words| == 16 * Blocks(|message|)
  {
    WithLength(StoppedWords(message), HighWord(8 * |message|), LowWord(8 * |message|))
  }

  // The hash value after the first n blocks.
  function HashBlocks(words: seq<Word>, n: nat): Vars
    requires 16 * n <= |words|
  {
    if n == 0 then H0
    else Compress(HashBlocks(words, n - 1), words[16 * (n - 1)..16 * n])
  }

  function ByteOf(w: Word, i: nat): Byte
    requires i < 4
  {
    ((if i == 0 then w >> 24 else if i == 1 then w >> 16 else if i == 2 then w >> 8 else w) & 0xFF) as Byte
  }

  function WordOf(v: Vars, i: nat): Word
    requires i < 5
  {
    if i == 0 then v.a else if i == 1 then v.b else if i == 2 then v.c else if i == 3 then v.d else v.e
  }

  function Digest(v: Vars): (bytes: seq<Byte>)
    ensures |bytes| == 20
  {
    seq(20, i requires 0 <= i < 20 => ByteOf(WordOf(v, i / 4), i % 4))
  }

  function Sha1(message: seq<Byte>): (digest: seq<Byte>)
    requires 8 * |message| < TWO32 * TWO32
    ensures |digest| == 20
  {
    Digest(HashBlocks(Padded(message), Blocks(|message|)))
  }

  // ----- What `hashSha1` pads with: only the low word of the bit length is written

  function PaddedLow(message: seq<Byte>): (words: seq<Word>)
    ensures |words| == 16 * Blocks(|message|)
  {
    WithLength(StoppedWords(message), 0, LowWord(8 * |message|))
  }

  lemma SameLength(words: seq<Word>, high: Word, high': Word, low: Word)
    ensures WithLength(words, high, low) == WithLength(words, high', low) <==> high == high'
  {
    assert WithLength(words, high, low)[|words|] == high && WithLength(words, high', low)[|words|] == high';
  }

  lemma LengthAgrees(words: seq<Word>, n: nat)
    requires n < TWO32 * TWO32
    ensures WithLength(words, 0, LowWord(n)) == WithLength(words, HighWord(n), LowWord(n)) <==> n < TWO32
  {
    HighWordZero(n);
    SameLength(words, 0, HighWord(n), LowWord(n));
  }

  // The packer pads as the standard does exactly for messages under 2^29 bytes.
  lemma PaddingAgrees(message: seq<Byte>)
    requires 8 * |message| < TWO32 * TWO32
    ensures PaddedLow(message) == Padded(message) <==> |message| < 0x2000_0000
  {
    LengthAgrees(StoppedWords(message), 8 * |message|);
  }

  // ----- Reading bytes into words

  function ByteAt(bytes: seq<Byte>, i: nat): Byte { if i < |bytes| then bytes[i] else 0 }

  // Word i of the bytes followed by zeros.
  function WordAt(bytes: seq<Byte>, i: nat): Word {
    Word4(ByteAt(bytes, 4 * i), ByteAt(bytes, 4 * i + 1), ByteAt(bytes, 4 * i + 2), ByteAt(bytes, 4 * i + 3))
  }

  // A byte put into the empty place i of a big-endian word.
  function Put(w: Word, b: Byte, i: nat): Word
    requires i < 4
  {
    var v := b as Word;
    w | (if i == 0 then v << 24 else if i == 1 then v << 16 else if i == 2 then v << 8 else v)
  }

  lemma Put0(b: Byte)
    ensures Put(Word4(0, 0, 0, 0), b, 0) == Word4(b, 0, 0, 0)
  {}

  lemma Put1(b0: Byte, b: Byte)
    ensures Put(Word4(b0, 0, 0, 0), b, 1) == Word4(b0, b, 0, 0)
  {}

  lemma Put2(b0: Byte, b1: Byte, b: Byte)
    ensures Put(Word4(b0, b1, 0, 0), b, 2) == Word4(b0, b1, b, 0)
  {}

  lemma Put3(b0: Byte, b1: Byte, b2: Byte, b: Byte)
    ensures Put(Word4(b0, b1, b2, 0), b, 3) == Word4(b0, b1, b2, b)
  {}

  lemma AppendByte(bytes: seq<Byte>, b: Byte, i: nat)
    ensures WordAt(bytes + [b], i) ==
      if i == |bytes| / 4 then Put(WordAt(bytes, i), b, |bytes| % 4) else WordAt(bytes, i)
  {
    if i == |bytes| / 4 {
      var b0, b1, b2 := ByteAt(bytes, 4 * i), ByteAt(bytes, 4 * i + 1), ByteAt(bytes, 4 * i + 2);
      match |bytes| % 4
      case 0 => Put0(b);
      case 1 => Put1(b0, b);
      case 2 => Put2(b0, b1, b);
      case _ => Put3(b0, b1, b2, b);
    }
  }

  // Every padded word but the last two is read from the message and its stop byte.
  lemma PaddedAt(message: seq<Byte>, i: nat)
    requires i < 16 * Blocks(|message|) - 2
    ensures PaddedLow(message)[i] == WordAt(message + [0x80], i)
  {}

  // What a block must hold for hashing it to be the next step of the standard's loop.
  ghost predicate IsBlock(message: seq<Byte>, b: nat, block: seq<Word>) {
    && b < Blocks(|message|) && |block| == 16
    && (forall i :: 0 <= i < 16 && 16 * b + i < 16 * Blocks(|message|) - 2 ==>
          block[i] == WordAt(message + [0x80], 16 * b + i))
    && (b == Blocks(|message|) - 1 ==> block[14] == 0 && block[15] == LowWord(8 * |message|))
  }

  lemma PaddedEnd(message: seq<Byte>)
    ensures var n := 16 * Blocks(|message|);
      PaddedLow(message)[n - 2] == 0 && PaddedLow(message)[n - 1] == LowWord(8 * |message|)
  {}

  lemma BlockWord(message: seq<Byte>, b: nat, block: seq<Word>, i: nat)
    requires IsBlock(message, b, block) && i < 16
    ensures PaddedLow(message)[16 * b + i] == block[i]
  {
    if 16 * b + i < 16 * Blocks(|message|) - 2 {
      PaddedAt(message, 16 * b + i);
    } else {
      PaddedEnd(message);
    }
  }

  lemma BlockOfPadded(message: seq<Byte>, b: nat, block: seq<Word>)
    requires IsBlock(message, b, block)
    ensures PaddedLow(message)[16 * b..16 * (b + 1)] == block
  {
    var words := PaddedLow(message)[16 * b..16 * (b + 1)];
    forall i | 0 <= i < 16 ensures words[i] == block[i] {
      BlockWord(message, b, block, i);
    }
  }

  lemma NextBlock(message: seq<Byte>, b: nat, block: seq<Word>)
    requires IsBlock(message, b, block)
    ensures HashBlocks(PaddedLow(message), b + 1) == Compress(HashBlocks(PaddedLow(message), b), block)
  {
    BlockOfPadded(message, b, block);
  }

  // ----- The schedule, bit by bit

  predicate Low(w: Word) { w & 1 != 0 }

  function Half(w: Word): Word { w >> 1 }

  // Bit i, counted from the low end.
  predicate BitAt(w: Word, i: nat) { if i == 0 then Low(w) else BitAt(Half(w), i - 1) }

  function Xor4(a: Word, b: Word, c: Word, d: Word): Word { a ^ b ^ c ^ d }

  lemma LowXor(a: Word, b: Word, c: Word, d: Word)
    ensures Low(Xor4(a, b, c, d)) <==> (Low(a) != Low(b)) != (Low(c) != Low(d))
  {}

  lemma HalfXor(a: Word, b: Word, c: Word, d: Word)
    ensures Half(Xor4(a, b, c, d)) == Xor4(Half(a), Half(b), Half(c), Half(d))
  {}

  lemma NextAt(w: Word, i: nat)
    requires i > 0
    ensures BitAt(w, i) <==> BitAt(Half(w), i - 1)
  {}

  // A bit of one word is odd parity of those of four others.
  predicate Parity(x: Word, a: Word, b: Word, c: Word, d: Word, i: nat, j: nat) {
    BitAt(x, i) <==> (BitAt(a, j) != BitAt(b, j)) != (BitAt(c, j) != BitAt(d, j))
  }

  lemma ParityNext(x: Word, a: Word, b: Word, c: Word, d: Word, i: nat)
    requires i > 0 && Parity(Half(x), Half(a), Half(b), Half(c), Half(d), i - 1, i - 1)
    ensures Parity(x, a, b, c, d, i, i)
  {
    NextAt(x, i);
    NextAt(a, i);
    NextAt(b, i);
    NextAt(c, i);
    NextAt(d, i);
  }

  lemma {:induction false} XorAt(x: Word, a: Word, b: Word, c: Word, d: Word, i: nat)
    requires x == Xor4(a, b, c, d)
    ensures Parity(x, a, b, c, d, i, i)
    decreases i
  {
    if i == 0 {
      LowXor(a, b, c, d);
    } else {
      HalfXor(a, b, c, d);
      XorAt(Half(x), Half(a), Half(b), Half(c), Half(d), i - 1);
      ParityNext(x, a, b, c, d, i);
    }
  }

  lemma LowRotated(x: Word)
    ensures Low(Rotl(x, 1)) <==> And(x, 0x8000_0000) != 0
  {}

  lemma HalfRotated(x: Word)
    ensures Half(Rotl(x, 1)) == And(x, 0x7fff_ffff)
  {}

  lemma HalfOnes(w: Word)
    requires And(w, 0x7fff_ffff) == w
    ensures Half(Push(w, true)) == w
  {}

  lemma HalfAnd(x: Word, m: Word)
    ensures Half(And(x, m)) == And(Half(x), Half(m))
  {}

  lemma LowAnd(x: Word, m: Word)
    ensures Low(And(x, Push(m, true))) <==> Low(x)
  {}

  // Masking out higher bits does not change a lower one.
  lemma {:induction false} MaskedAt(y: Word, x: Word, k: nat, i: nat)
    requires i < k <= 31 && y == And(x, Ones(k))
    ensures BitAt(y, i) <==> BitAt(x, i)
    decreases k
  {
    if i == 0 {
      LowAnd(x, Ones(k - 1));
    } else {
      HalfMask(k);
      HalfAnd(x, Ones(k));
      MaskedAt(Half(y), Half(x), k - 1, i - 1);
    }
  }

  lemma HalfMask(k: nat)
    requires 0 < k <= 31
    ensures Half(Ones(k)) == Ones(k - 1)
  {
    OnesLow(k - 1, 32 - k);
    Ones31();
    AndSelf(Ones(k - 1));
    AndThrough(Ones(k - 1), Ones(k - 1), Ones(31));
    HalfOnes(Ones(k - 1));
  }

  lemma AndSelf(w: Word)
    ensures And(w, w) == w
  {}

  function Right31(w: Word): Word { w >> 31 }

  lemma HighestBit(x: Word)
    ensures Low(Right31(x)) <==> And(x, 0x8000_0000) != 0
  {}

  function ShiftedRight(w: Word, k: nat): Word { if k == 0 then w else ShiftedRight(Half(w), k - 1) }

  lemma {:induction false} ShiftedAt(w: Word, k: nat)
    ensures BitAt(w, k) <==> Low(ShiftedRight(w, k))
  {
    if k > 0 {
      ShiftedAt(Half(w), k - 1);
    }
  }

  function Right4(w: Word): Word { w >> 4 }

  lemma FourHalves(w: Word)
    ensures Half(Half(Half(Half(w)))) == Right4(w)
  {}

  lemma FourRight(w: Word, k: nat)
    ensures ShiftedRight(w, k + 4) == ShiftedRight(Right4(w), k)
  {
    assert ShiftedRight(w, k + 4) == ShiftedRight(Half(w), k + 3);
    assert ShiftedRight(Half(Half(w)), k + 2) == ShiftedRight(Half(Half(Half(w))), k + 1);
    FourHalves(w);
  }

  lemma SevenRights(w: Word)
    ensures Half(Half(Half(Right4(Right4(Right4(Right4(Right4(Right4(Right4(w)))))))))) == Right31(w)
  {}

  lemma ThreeHalves(w: Word)
    ensures ShiftedRight(w, 3) == Half(Half(Half(w)))
  {
    assert ShiftedRight(Half(w), 2) == ShiftedRight(Half(Half(w)), 1);
  }

  lemma TopBit(x: Word)
    ensures BitAt(x, 31) <==> And(x, 0x8000_0000) != 0
  {
    ShiftedAt(x, 31);
    var y1 := Right4(x);
    var y2 := Right4(y1);
    var y3 := Right4(y2);
    var y4 := Right4(y3);
    var y5 := Right4(y4);
    var y6 := Right4(y5);
    FourRight(x, 27);
    FourRight(y1, 23);
    FourRight(y2, 19);
    FourRight(y3, 15);
    FourRight(y4, 11);
    FourRight(y5, 7);
    FourRight(y6, 3);
    var y7 := Right4(y6);
    ThreeHalves(y7);
    SevenRights(x);
    HighestBit(x);
  }

  lemma RotatedLow(y: Word, x: Word)
    requires y == Rotl(x, 1)
    ensures BitAt(y, 0) <==> BitAt(x, 31)
  {
    LowRotated(x);
    TopBit(x);
  }

  lemma RotatedHigh(y: Word, x: Word, h: Word, i: nat)
    requires h == Half(y) == And(x, Ones(31)) && 0 < i < 32
    ensures BitAt(y, i) <==> BitAt(x, i - 1)
  {
    NextAt(y, i);
    MaskedAt(h, x, 31, i - 1);
  }

  lemma HalfOfRotated(y: Word, x: Word)
    requires y == Rotl(x, 1)
    ensures Half(y) == And(x, Ones(31))
  {
    HalfRotated(x);
    Ones31();
  }

  // The place a bit comes from when a word is rotated by one.
  function Before(i: nat): nat { if i == 0 then 31 else i - 1 }

  lemma RotatedAt(y: Word, x: Word, i: nat)
    requires y == Rotl(x, 1) && i < 32
    ensures BitAt(y, i) <==> BitAt(x, Before(i))
  {
    if i == 0 {
      RotatedLow(y, x);
    } else {
      HalfOfRotated(y, x);
      RotatedHigh(y, x, Half(y), i);
    }
  }

  lemma MingleIs(a: Word, b: Word, c: Word, d: Word)
    ensures Mingle(a, b, c, d) == Rotl(Xor4(a, b, c, d), 1)
  {}

  lemma MingledBit(y: Word, x: Word, a: Word, b: Word, c: Word, d: Word, i: nat)
    requires y == Mingle(a, b, c, d) && x == Xor4(a, b, c, d) && i < 32
    ensures Parity(y, a, b, c, d, i, Before(i))
  {
    MingleIs(a, b, c, d);
    RotatedAt(y, x, i);
    XorAt(x, a, b, c, d, Before(i));
  }

  // A bit of a later schedule word is odd parity of the bits next to it in four earlier ones.
  lemma ScheduleBits(block: seq<Word>, t: nat, i: nat)
    requires |block| == 16 && t >= 16 && i < 32
    ensures Parity(W(block, t), W(block, t - 3), W(block, t - 8), W(block, t - 14), W(block, t - 16), i, (i + 31) % 32)
  {
    var a, b, c, d := W(block, t - 3), W(block, t - 8), W(block, t - 14), W(block, t - 16);
    MingledBit(W(block, t), Xor4(a, b, c, d), a, b, c, d, i);
  }

  // ----- The length in bits

  function Shift3(w: Word): Word { w << 3 }

  lemma PushThrice(w: Word)
    ensures Push(Push(Push(w, false), false), false) == Shift3(w)
  {}

  lemma ShiftsOut(w: Word)
    ensures Shift3(And(w, 0x1fff_ffff)) == Shift3(w)
  {}

  lemma Doubled(n: nat, k: nat)
    requires k > 0
    ensures Binary(2 * n, k) == Push(Binary(n, k - 1), false)
  {}

  // `len << 3` in 32 bits is the low word of the length in bits.
  lemma ShiftIsLow(n: nat)
    ensures Shift3(Binary(n, 32)) == LowWord(8 * n)
  {
    Doubled(4 * n, 32);
    Doubled(2 * n, 31);
    Doubled(n, 30);
    PushThrice(Binary(n, 29));
    BinaryLow(n, 29, 3);
    Ones29();
    ShiftsOut(Binary(n, 32));
  }

  // ----- `hashSha1`

  // The first 16 words of `temp` are the words of the bytes, zeros after them, from word `base` on.
  ghost predicate Holds(temp: array<Word>, bytes: seq<Byte>, base: nat)
    requires temp.Length == 80
    reads temp
  {
    forall i :: 0 <= i < 16 ==> temp[i] == WordAt(bytes, base + i)
  }

  // The inner loop that reads a full block into the first 16 words of `temp`.
  method ReadBlock(data: array<Byte>, start: nat, temp: array<Word>, ghost b: nat) returns (block: nat)
    requires start == 64 * b && start + 64 <= data.Length && temp.Length == 80
    modifies temp
    ensures block == start + 64
    ensures Holds(temp, data[..], 16 * b)
  {
    block := start;
    var end, i := start + 64, 0;
    while block < end
      invariant i <= 16 && block == start + 4 * i
      invariant forall k :: 0 <= k < i ==> temp[k] == WordAt(data[..], 16 * b + k)
    {
      temp[i] := Word4(data[block], data[block + 1], data[block + 2], data[block + 3]);
      i := i + 1;
      block := block + 4;
    }
  }

  // Clearing the first 16 words, as `memset` does twice.
  method Clear(temp: array<Word>)
    requires temp.Length == 80
    modifies temp
    ensures forall i :: 0 <= i < 16 ==> temp[i] == 0
  {
    for i := 0 to 16
      invariant forall k :: 0 <= k < i ==> temp[k] == 0
    {
      temp[i] := 0;
    }
  }

  // One byte more into `temp`.
  method PutByte(temp: array<Word>, last: nat, b: Byte, ghost bytes: seq<Byte>, ghost base: nat)
    requires temp.Length == 80 && last < 64 && |bytes| == 4 * base + last
    requires Holds(temp, bytes, base)
    modifies temp
    ensures Holds(temp, bytes + [b], base)
  {
    forall i | 0 <= i < 16
      ensures WordAt(bytes + [b], base + i) ==
        if i == last / 4 then Put(temp[last / 4], b, last % 4) else temp[i]
    {
      AppendByte(bytes, b, base + i);
    }
    temp[last / 4] := Put(temp[last / 4], b, last % 4);
  }

  // The unfinished block, byte by byte, and the stop byte after it.
  method ReadTail(data: array<Byte>, block: nat, temp: array<Word>, ghost b: nat)
    requires block == 64 * b && block <= data.Length < block + 64 && temp.Length == 80
    modifies temp
    ensures Holds(temp, data[..] + [0x80], 16 * b)
  {
    Clear(temp);
    ghost var base := 16 * b;
    var end, last := data.Length - block, 0;
    forall i | 0 <= i < 16 ensures temp[i] == WordAt(data[..block], base + i) {
      EmptyWord(data[..block], base + i);
    }
    while last < end
      invariant last <= end
      invariant Holds(temp, data[..block + last], base)
    {
      PutByte(temp, last, data[block + last], data[..block + last], base);
      assert data[..block + last + 1] == data[..block + last] + [data[block + last]];
      last := last + 1;
    }
    assert data[..block + last] == data[..];
    PutByte(temp, last, 0x80, data[..], base);
  }

  lemma EmptyWord(bytes: seq<Byte>, i: nat)
    requires |bytes| <= 4 * i
    ensures WordAt(bytes, i) == 0
  {}

  // The last block: the length goes into its last word, the one before stays zero.
  method LastBlock(ghost message: seq<Byte>, len: nat, ghost b: nat, sha: array<Word>, temp: array<Word>)
    requires len == |message| && b == Blocks(len) - 1
    requires sha.Length == 5 && temp.Length == 80 && sha != temp
    requires forall i :: 0 <= i < 14 ==> temp[i] == WordAt(message + [0x80], 16 * b + i)
    requires temp[14] == 0
    requires State(sha) == HashBlocks(PaddedLow(message), b)
    modifies sha, temp
    ensures State(sha) == HashBlocks(PaddedLow(message), b + 1)
  {
    ShiftIsLow(len);
    temp[15] := Shift3(Binary(len, 32));
    NextBlock(message, b, temp[..16]);
    PartHash(sha, temp);
  }

  // A block with the stop byte but no room for the length after it.
  method StopBlock(ghost message: seq<Byte>, ghost b: nat, sha: array<Word>, temp: array<Word>)
    requires b == Blocks(|message|) - 2
    requires sha.Length == 5 && temp.Length == 80 && sha != temp
    requires Holds(temp, message + [0x80], 16 * b)
    requires State(sha) == HashBlocks(PaddedLow(message), b)
    requires |message| < 64 * (b + 1)
    modifies sha, temp
    ensures State(sha) == HashBlocks(PaddedLow(message), b + 1)
    ensures Holds(temp, message + [0x80], 16 * (b + 1))
  {
    NextBlock(message, b, temp[..16]);
    PartHash(sha, temp);
    Clear(temp);
    forall i | 0 <= i < 16 ensures temp[i] == WordAt(message + [0x80], 16 * (b + 1) + i) {
      EmptyWord(message + [0x80], 16 * (b + 1) + i);
    }
  }

  // The one or two blocks after the full ones.
  method FinishHash(ghost message: seq<Byte>, len: nat, block: nat, sha: array<Word>, temp: array<Word>, ghost b: nat)
    requires block == 64 * b && block <= |message| == len < block + 64
    requires sha.Length == 5 && temp.Length == 80 && sha != temp
    requires Holds(temp, message + [0x80], 16 * b)
    requires State(sha) == HashBlocks(PaddedLow(message), b)
    modifies sha, temp
    ensures State(sha) == HashBlocks(PaddedLow(message), Blocks(len))
  {
    if len - block >= 56 {
      StopBlock(message, b, sha, temp);
      LastBlock(message, len, b + 1, sha, temp);
    } else {
      EmptyWord(message + [0x80], 16 * b + 14);
      LastBlock(message, len, b, sha, temp);
    }
  }

  // The full blocks of the message.
  method HashFull(data: array<Byte>, sha: array<Word>, temp: array<Word>) returns (block: nat, ghost b: nat)
    requires sha.Length == 5 && temp.Length == 80 && sha != temp
    requires State(sha) == H0
    modifies sha, temp
    ensures block == 64 * b && block <= data.Length < block + 64
    ensures State(sha) == HashBlocks(PaddedLow(data[..]), b)
  {
    ghost var message := data[..];
    var len := data.Length;
    block, b := 0, 0;
    while block + 64 <= len
      invariant block == 64 * b && block <= len
      invariant State(sha) == HashBlocks(PaddedLow(message), b)
    {
      block := ReadBlock(data, block, temp, b);
      FullBlock(message, b, temp[..16]);
      PartHash(sha, temp);
      b := b + 1;
    }
  }

  lemma FullBlock(message: seq<Byte>, b: nat, block: seq<Word>)
    requires 64 * (b + 1) <= |message| && |block| == 16
    requires forall i :: 0 <= i < 16 ==> block[i] == WordAt(message, 16 * b + i)
    ensures HashBlocks(PaddedLow(message), b + 1) == Compress(HashBlocks(PaddedLow(message), b), block)
  {
    forall i | 0 <= i < 16 ensures block[i] == WordAt(message + [0x80], 16 * b + i) {
      assert WordAt(message, 16 * b + i) == WordAt(message + [0x80], 16 * b + i);
    }
    NextBlock(message, b, block);
  }

  method WriteDigest(sha: array<Word>, dest: array<Byte>)
    requires sha.Length == 5 && 20 <= dest.Length
    modifies dest
    ensures dest[..20] == Digest(State(sha))
    ensures dest[20..] == old(dest[20..])
  {
    for i := 20 downto 0
      invariant dest[20..] == old(dest[20..])
      invariant forall k :: i <= k < 20 ==> dest[k] == ByteOf(WordOf(State(sha), k / 4), k % 4)
    {
      dest[i] := ByteOf(sha[i / 4], i % 4);
    }
  }

  // `dest` gets the digest of the message padded with the low length word only.
  // From 2^32 - 64 bytes on, `block + 64` wraps around and the loop does not end.
  method HashSha1(data: array<Byte>, dest: array<Byte>)
    requires data.Length < TWO32 - 64 && 20 <= dest.Length
    modifies dest
    ensures dest[..20] == Digest(HashBlocks(PaddedLow(old(data[..])), Blocks(data.Length)))
    ensures data.Length < 0x2000_0000 ==> dest[..20] == Sha1(old(data[..]))
    ensures dest[20..] == old(dest[20..])
  {
    ghost var message := data[..];
    var temp := new Word[80];
    var sha := new Word[5];
    sha[0], sha[1], sha[2], sha[3], sha[4] := 0x67452301, 0xefcdab89, 0x98badcfe, 0x10325476, 0xc3d2e1f0;
    var block, b := HashFull(data, sha, temp);
    ReadTail(data, block, temp, b);
    FinishHash(message, data.Length, block, sha, temp, b);
    PaddingAgrees(message);
    WriteDigest(sha, dest);
  }
}
