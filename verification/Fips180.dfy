/** SHA-256 as sections 4.1.2, 4.2.2, 5.1.1, 5.2.1, 5.3.3 and 6.2.2 of FIPS 180-4 define it,
    over messages that are whole numbers of bytes. */
module Fips180 {

  type Byte = x: int | 0 <= x < 256
  type Word = x: int | 0 <= x < 0x1_0000_0000

  const TWO_32 := 0x1_0000_0000
  const TWO_64 := 0x1_0000_0000_0000_0000

  function Pow2(n: nat): (r: nat)
    ensures r > 0
  {
    if n == 0 then 1 else 2 * Pow2(n - 1)
  }

  // Section 4.2.2.
  const K: seq<Word> := [
    0x428a2f98, 0x71374491, 0xb5c0fbcf, 0xe9b5dba5, 0x3956c25b, 0x59f111f1, 0x923f82a4, 0xab1c5ed5,
    0xd807aa98, 0x12835b01, 0x243185be, 0x550c7dc3, 0x72be5d74, 0x80deb1fe, 0x9bdc06a7, 0xc19bf174,
    0xe49b69c1, 0xefbe4786, 0x0fc19dc6, 0x240ca1cc, 0x2de92c6f, 0x4a7484aa, 0x5cb0a9dc, 0x76f988da,
    0x983e5152, 0xa831c66d, 0xb00327c8, 0xbf597fc7, 0xc6e00bf3, 0xd5a79147, 0x06ca6351, 0x14292967,
    0x27b70a85, 0x2e1b2138, 0x4d2c6dfc, 0x53380d13, 0x650a7354, 0x766a0abb, 0x81c2c92e, 0x92722c85,
    0xa2bfe8a1, 0xa81a664b, 0xc24b8b70, 0xc76c51a3, 0xd192e819, 0xd6990624, 0xf40e3585, 0x106aa070,
    0x19a4c116, 0x1e376c08, 0x2748774c, 0x34b0bcb5, 0x391c0cb3, 0x4ed8aa4a, 0x5b9cca4f, 0x682e6ff3,
    0x748f82ee, 0x78a5636f, 0x84c87814, 0x8cc70208, 0x90befffa, 0xa4506ceb, 0xbef9a3f7, 0xc67178f2
  ]

  // Section 5.3.3.
  const INITIAL_HASH: seq<Word> := [
    0x6a09e667, 0xbb67ae85, 0x3c6ef372, 0xa54ff53a, 0x510e527f, 0x9b05688c, 0x1f83d9ab, 0x5be0cd19
  ]

  // Section 3.2: the operations on 32-bit words.
  function Add(x: Word, y: Word): (r: Word)
    ensures r == x + y || r == x + y - TWO_32
  {
    (x + y) % TWO_32
  }
  function And(x: Word, y: Word): Word { ((x as bv32) & (y as bv32)) as int }
  function Or(x: Word, y: Word): Word { ((x as bv32) | (y as bv32)) as int }
  function Xor(x: Word, y: Word): Word { ((x as bv32) ^ (y as bv32)) as int }
  function Not(x: Word): Word { TWO_32 - 1 - x }
  function ShiftRight(x: Word, n: nat): Word { x / Pow2(n) % TWO_32 }
  function ShiftLeft(x: Word, n: nat): Word { x * Pow2(n) % TWO_32 }
  function RotateRight(x: Word, n: nat): Word
    requires n < 32
  {
    Or(ShiftRight(x, n), ShiftLeft(x, 32 - n))
  }

  // Section 4.1.2.
  function Ch(x: Word, y: Word, z: Word): Word { Xor(And(x, y), And(Not(x), z)) }
  function Maj(x: Word, y: Word, z: Word): Word { Xor(Xor(And(x, y), And(x, z)), And(y, z)) }
  function BigSigma0(x: Word): Word { Xor(Xor(RotateRight(x, 2), RotateRight(x, 13)), RotateRight(x, 22)) }
  function BigSigma1(x: Word): Word { Xor(Xor(RotateRight(x, 6), RotateRight(x, 11)), RotateRight(x, 25)) }
  function SmallSigma0(x: Word): Word { Xor(Xor(RotateRight(x, 7), RotateRight(x, 18)), ShiftRight(x, 3)) }
  function SmallSigma1(x: Word): Word { Xor(Xor(RotateRight(x, 17), RotateRight(x, 19)), ShiftRight(x, 10)) }

  // Section 5.2.1: a block is sixteen big-endian words.
  function BlockWord(block: seq<Byte>, t: nat): Word
    requires |block| == 64 && t < 16
  {
    Or(Or(Or(ShiftLeft(block[4 * t], 24), ShiftLeft(block[4 * t + 1], 16)),
          ShiftLeft(block[4 * t + 2], 8)), block[4 * t + 3])
  }

  // Section 6.2.2, step 1.
  function Schedule(block: seq<Byte>, t: nat): Word
    requires |block| == 64 && t < 64
  {
    if t < 16 then BlockWord(block, t)
    else Add(Add(Add(SmallSigma1(Schedule(block, t - 2)), Schedule(block, t - 7)),
                 SmallSigma0(Schedule(block, t - 15))), Schedule(block, t - 16))
  }

  datatype Vars = Vars(a: Word, b: Word, c: Word, d: Word, e: Word, f: Word, g: Word, h: Word)

  function Load(hash: seq<Word>): Vars
    requires |hash| == 8
  {
    Vars(hash[0], hash[1], hash[2], hash[3], hash[4], hash[5], hash[6], hash[7])
  }

  // Section 6.2.2, step 3.
  function Round(v: Vars, k: Word, w: Word): Vars {
    var t1 := Add(Add(Add(Add(v.h, BigSigma1(v.e)), Ch(v.e, v.f, v.g)), k), w);
    var t2 := Add(BigSigma0(v.a), Maj(v.a, v.b, v.c));
    Vars(Add(t1, t2), v.a, v.b, v.c, Add(v.d, t1), v.e, v.f, v.g)
  }

  function Rounds(hash: seq<Word>, block: seq<Byte>, t: nat): Vars
    requires |hash| == 8 && |block| == 64 && t <= 64
  {
    if t == 0 then Load(hash) else Round(Rounds(hash, block, t - 1), K[t - 1], Schedule(block, t - 1))
  }

  // Section 6.2.2, step 4.
  function Compress(hash: seq<Word>, block: seq<Byte>): (r: seq<Word>)
    requires |hash| == 8 && |block| == 64
    ensures |r| == 8
  {
    var v := Rounds(hash, block, 64);
    [Add(hash[0], v.a), Add(hash[1], v.b), Add(hash[2], v.c), Add(hash[3], v.d),
     Add(hash[4], v.e), Add(hash[5], v.f), Add(hash[6], v.g), Add(hash[7], v.h)]
  }

  /** The hash value after all blocks of `data`. */
  function Absorb(data: seq<Byte>): (r: seq<Word>)
    requires |data| % 64 == 0
    ensures |r| == 8
  {
    if |data| == 0 then INITIAL_HASH
    else Compress(Absorb(data[..|data| - 64]), data[|data| - 64..])
  }

  function Zeros(n: nat): seq<Byte> { seq(n, _ => 0) }

  /** The 64-bit big-endian form of `n`. */
  function BigEndian64(n: nat): (r: seq<Byte>)
    ensures |r| == 8
  {
    seq(8, i requires 0 <= i < 8 => n / Pow2(8 * (7 - i)) % 256)
  }

  /** Section 5.1.1. The standard covers messages below 2^64 bits; longer ones get their
      length reduced modulo 2^64, as the client's 64-bit counter does. */
  function Pad(message: seq<Byte>): (r: seq<Byte>)
    ensures |r| % 64 == 0
  {
    message + [0x80] + Zeros((55 - |message|) % 64) + BigEndian64(8 * |message| % TWO_64)
  }

  function WordBytes(w: Word): seq<Byte> {
    [ShiftRight(w, 24) % 256, ShiftRight(w, 16) % 256, ShiftRight(w, 8) % 256, w % 256]
  }

  function Serialize(words: seq<Word>): (r: seq<Byte>)
    ensures |r| == 4 * |words|
  {
    if |words| == 0 then [] else Serialize(words[..|words| - 1]) + WordBytes(words[|words| - 1])
  }

  function Sha256(message: seq<Byte>): (digest: seq<Byte>)
    ensures |digest| == 32
  {
    Serialize(Absorb(Pad(message)))
  }

  lemma AbsorbBlock(data: seq<Byte>, block: seq<Byte>)
    requires |data| % 64 == 0 && |block| == 64
    ensures |data + block| % 64 == 0
    ensures Absorb(data + block) == Compress(Absorb(data), block)
  {
    var all := data + block;
    assert all[..|all| - 64] == data && all[|all| - 64..] == block;
  }
}
