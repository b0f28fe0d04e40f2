/** src/digest.cpp: the streaming hash and the terminal digest text. */
module Digest {
  import opened Base
  import opened Fips180

  lemma SumOrder(a: Word, b: Word, c: Word, d: Word)
    ensures Add(Add(Add(a, b), c), d) == Add(Add(Add(d, c), b), a)
  {
    hide Add;
  }

  lemma ScheduleHead(block: seq<Byte>, t: nat)
    requires |block| == 64 && t < 16
    ensures Schedule(block, t)
         == Or(Or(Or(ShiftLeft(block[4 * t], 24), ShiftLeft(block[4 * t + 1], 16)),
                  ShiftLeft(block[4 * t + 2], 8)), block[4 * t + 3])
  {
    hide Or, ShiftLeft;
  }

  /** The code adds the four schedule terms in another order than section 6.2.2, step 1. */
  lemma ScheduleStep(block: seq<Byte>, t: nat)
    requires |block| == 64 && 16 <= t < 64
    ensures Schedule(block, t)
         == Add(Add(Add(Schedule(block, t - 16), SmallSigma0(Schedule(block, t - 15))),
                    Schedule(block, t - 7)), SmallSigma1(Schedule(block, t - 2)))
  {
    hide BlockWord, SmallSigma0, SmallSigma1, Add;
    SumOrder(Schedule(block, t - 16), SmallSigma0(Schedule(block, t - 15)),
             Schedule(block, t - 7), SmallSigma1(Schedule(block, t - 2)));
  }

  lemma AddModulo(a: nat, b: nat)
    ensures (a % TWO_64 + b) % TWO_64 == (a + b) % TWO_64
  {
  }

  class Sha256State {
    const state: array<Word>
    const block: array<Byte>
    var buffered: nat
    var total: nat
    ghost var message: seq<Byte>

    /** The buffer is the suffix of the message that no block has absorbed yet. */
    ghost predicate Buffers()
      reads this, state, block
    {
      && state.Length == 8 && block.Length == 64
      && buffered == |message| % 64
      && block[..buffered] == message[|message| - buffered..]
      && state[..] == Absorb(message[..|message| - buffered])
    }

    ghost predicate Valid()
      reads this, state, block
    {
      Buffers() && total == |message| % TWO_64
    }

    constructor ()
      ensures Valid() && fresh(state) && fresh(block)
      ensures message == []
    {
      state := new Word[8](i requires 0 <= i < 8 => INITIAL_HASH[i]);
      block := new Byte[64](_ => 0);
      buffered, total, message := 0, 0, [];
      new;
      assert state[..] == INITIAL_HASH;
    }

    method Expand() returns (words: array<Word>)
      requires block.Length == 64
      ensures fresh(words) && words.Length == 64
      ensures forall j :: 0 <= j < 64 ==> words[j] == Schedule(block[..], j)
    {
      hide Schedule, SmallSigma0, SmallSigma1, Add, Or, ShiftLeft;
      ghost var data := block[..];
      words := new Word[64](_ => 0);
      for index := 0 to 16
        invariant forall j :: 0 <= j < index ==> words[j] == Schedule(data, j)
      {
        ScheduleHead(data, index);
        words[index] := Or(Or(Or(ShiftLeft(block[index * 4], 24), ShiftLeft(block[index * 4 + 1], 16)),
                              ShiftLeft(block[index * 4 + 2], 8)), block[index * 4 + 3]);
      }
      for index := 16 to 64
        invariant forall j :: 0 <= j < index ==> words[j] == Schedule(data, j)
      {
        ScheduleStep(data, index);
        var s0, s1 := SmallSigma0(words[index - 15]), SmallSigma1(words[index - 2]);
        words[index] := Add(Add(Add(words[index - 16], s0), words[index - 7]), s1);
      }
    }

    method Transform()
      requires state.Length == 8 && block.Length == 64
      modifies state
      ensures state[..] == Compress(old(state[..]), block[..])
    {
      hide Schedule, Add, Ch, Maj, BigSigma0, BigSigma1;
      ghost var hash, data := state[..], block[..];
      var words := Expand();
      var a, b, c, d := state[0], state[1], state[2], state[3];
      var e, f, g, h := state[4], state[5], state[6], state[7];
      for index := 0 to 64
        invariant Vars(a, b, c, d, e, f, g, h) == Rounds(hash, data, index)
      {
        var temporary1 := Add(Add(Add(Add(h, BigSigma1(e)), Ch(e, f, g)), K[index]), words[index]);
        var temporary2 := Add(BigSigma0(a), Maj(a, b, c));
        h := g;
        g := f;
        f := e;
        e := Add(d, temporary1);
        d := c;
        c := b;
        b := a;
        a := Add(temporary1, temporary2);
      }
      state[0], state[1], state[2], state[3] := Add(state[0], a), Add(state[1], b), Add(state[2], c), Add(state[3], d);
      state[4], state[5], state[6], state[7] := Add(state[4], e), Add(state[5], f), Add(state[6], g), Add(state[7], h);
    }

    /** Copies `chunk` behind the buffered bytes and hashes the block once it is full. */
    method Fill(chunk: seq<Byte>)
      requires Buffers()
      requires 0 < |chunk| <= 64 - buffered
      modifies this`buffered, this`message, state, block
      ensures Buffers() && message == old(message) + chunk
    {
      hide Absorb, Compress;
      ghost var processed, kept := message[..|message| - buffered], block[..buffered];
      assert message == processed + kept;
      forall k | 0 <= k < |chunk| {
        block[buffered + k] := chunk[k];
      }
      assert block[..buffered + |chunk|] == kept + chunk;
      message := message + chunk;
      assert message == processed + (kept + chunk);
      buffered := buffered + |chunk|;
      assert |message| == |processed| + buffered;
      if buffered == 64 {
        assert block[..] == kept + chunk;
        AbsorbBlock(processed, kept + chunk);
        ghost var hash := state[..];
        assert hash == Absorb(processed);
        Transform();
        assert state[..] == Compress(hash, kept + chunk);
        buffered := 0;
        assert message[..|message|] == message;
        assert state[..] == Absorb(message);
        assert block[..0] == message[|message|..];
      } else {
        assert message[..|message| - buffered] == processed;
      }
    }

    /** Whatever the chunk boundaries, the buffer is the unprocessed suffix of the message. */
    method Update(input: seq<Byte>)
      requires Valid()
      modifies this, state, block
      ensures Valid() && message == old(message) + input
    {
      hide Absorb, Compress;
      AddModulo(|message|, |input|);
      total := (total + |input|) % TWO_64;
      ghost var counted := total;
      var done := 0;
      while done < |input|
        invariant done <= |input|
        invariant total == counted && Buffers()
        invariant message == old(message) + input[..done]
      {
        var copy := if |input| - done < 64 - buffered then |input| - done else 64 - buffered;
        Fill(input[done..done + copy]);
        assert input[..done + copy] == input[..done] + input[done..done + copy];
        done := done + copy;
      }
      assert input[..done] == input;
    }

    /** Zeroes the block from `from` up to `to`. */
    method ZeroFill(from: nat, to: nat)
      requires from <= to <= block.Length
      modifies block
      ensures block[..] == old(block[..from]) + Zeros(to - from) + old(block[to..])
    {
      forall k | from <= k < to {
        block[k] := 0;
      }
    }

    /** Writes the 0x80 byte; when no room for the length is left behind it, fills and hashes
        the block. `hashed` is what the hash value then covers and `stop` where the block is free. */
    method MarkEnd() returns (stop: nat, ghost hashed: seq<Byte>)
      requires Buffers()
      modifies state, block
      ensures |hashed| % 64 == 0 && state[..] == Absorb(hashed)
      ensures stop == if buffered < 56 then buffered + 1 else 0
      ensures hashed + block[..stop] == message + [0x80] + Zeros(if buffered < 56 then 0 else 63 - buffered)
    {
      hide Absorb, Compress;
      hashed := message[..|message| - buffered];
      ghost var rest := block[..buffered] + [0x80];
      assert hashed + rest == message + [0x80];
      block[buffered] := 0x80;
      stop := buffered + 1;
      assert block[..stop] == rest;
      if stop > 56 {
        ZeroFill(stop, 64);
        ghost var full := rest + Zeros(64 - stop);
        assert block[..] == full;
        AbsorbBlock(hashed, full);
        Transform();
        hashed := hashed + full;
        stop := 0;
      }
    }

    /** Appends the padding of section 5.1.1, in one block or in two, and returns the digest. */
    method Finish() returns (digest: seq<Byte>)
      requires Valid()
      modifies this, state, block
      ensures digest == Sha256(old(message))
    {
      hide Absorb, Compress, Sha256, BigEndian64;
      var bitLength := total * 8 % TWO_64;
      TimesEight(|message|);
      var stop, hashed := MarkEnd();
      ghost var head := block[..stop];
      ZeroFill(stop, 56);
      WriteLength(bitLength);
      ghost var last := head + Zeros(56 - stop) + BigEndian64(bitLength);
      assert block[..] == last;
      assert |last| == 64;
      AbsorbBlock(hashed, last);
      Transform();
      PadSplits(message, hashed, head);
      digest := WriteDigest();
      Sha256Def(message);
    }

    method WriteLength(bitLength: nat)
      requires block.Length == 64
      modifies block
      ensures block[..] == old(block[..56]) + BigEndian64(bitLength)
    {
      for index := 0 to 8
        invariant block[..56] == old(block[..56])
        invariant forall k :: 0 <= k < index ==> block[63 - k] == bitLength / Pow2(8 * k) % 256
      {
        block[63 - index] := bitLength / Pow2(index * 8) % 256;
      }
      var tail := BigEndian64(bitLength);
      assert forall i :: 0 <= i < 8 ==> tail[i] == bitLength / Pow2(8 * (7 - i)) % 256;
    }

    method WriteDigest() returns (digest: seq<Byte>)
      requires state.Length == 8
      ensures digest == Serialize(state[..])
    {
      hide ShiftRight;
      digest := [];
      for word := 0 to 8
        invariant digest == Serialize(state[..word])
      {
        ghost var start := digest;
        for byte := 0 to 4
          invariant digest == start + WordBytes(state[word])[..byte]
        {
          digest := digest + [if byte == 3 then state[word] % 256 else ShiftRight(state[word], (3 - byte) * 8) % 256];
        }
        assert state[..word + 1][..word] == state[..word];
      }
      assert state[..8] == state[..];
    }
  }

  lemma TimesEight(n: nat)
    ensures n % TWO_64 * 8 % TWO_64 == 8 * n % TWO_64
  {
  }

  lemma Sha256Def(message: seq<Byte>)
    ensures Sha256(message) == Serialize(Absorb(Pad(message)))
  {
  }

  /** The padding ends in the block of the 0x80 byte or, when fewer than nine bytes were free
      there, in one more. */
  lemma PadSplits(message: seq<Byte>, hashed: seq<Byte>, head: seq<Byte>)
    requires |hashed| % 64 == 0 && |head| <= 56
    requires var kept := |message| % 64;
             && |head| == (if kept < 56 then kept + 1 else 0)
             && hashed + head == message + [0x80] + Zeros(if kept < 56 then 0 else 63 - kept)
    ensures Pad(message) == hashed + (head + Zeros(56 - |head|) + BigEndian64(8 * |message| % TWO_64))
  {
    hide BigEndian64, Zeros;
    var kept, gap, tail := |message| % 64, (55 - |message|) % 64, BigEndian64(8 * |message| % TWO_64);
    var first, second := if kept < 56 then 0 else 63 - kept, 56 - |head|;
    assert gap == first + second by { GapSize(|message|); }
    ZerosSplit(first, second);
    assert hashed + (head + Zeros(second) + tail) == (hashed + head) + Zeros(second) + tail;
    assert message + [0x80] + Zeros(gap) == (message + [0x80] + Zeros(first)) + Zeros(second);
  }

  lemma GapSize(length: nat)
    ensures (55 - length) % 64 == if length % 64 < 56 then 55 - length % 64 else 119 - length % 64
  {
  }

  lemma ZerosSplit(a: nat, b: nat)
    ensures Zeros(a + b) == Zeros(a) + Zeros(b)
  {
  }

  function Concat(chunks: seq<seq<Byte>>): seq<Byte> {
    if |chunks| == 0 then [] else Concat(chunks[..|chunks| - 1]) + chunks[|chunks| - 1]
  }

  /** However a message is cut into updates, the streaming hash is the one-shot SHA-256. */
  method HashChunks(chunks: seq<seq<Byte>>) returns (digest: seq<Byte>)
    ensures digest == Sha256(Concat(chunks))
  {
    hide Sha256, Absorb, Compress, Pad;
    var hash := new Sha256State();
    for i := 0 to |chunks|
      invariant hash.Valid() && fresh(hash) && fresh(hash.state) && fresh(hash.block)
      invariant hash.message == Concat(chunks[..i])
    {
      hash.Update(chunks[i]);
      assert chunks[..i + 1][..i] == chunks[..i];
    }
    assert chunks[..|chunks|] == chunks;
    digest := hash.Finish();
  }

  // The digest text of a terminal message.

  const CANONICAL_SHA256_TEXT_BYTES := 71

  function HexDigit(n: nat): (c: char)
    requires n < 16
    ensures '0' <= c <= '9' || 'a' <= c <= 'f'
  {
    if n < 10 then '0' + n as char else 'a' + (n - 10) as char
  }

  function Hex(bytes: seq<Byte>): (text: string)
    ensures |text| == 2 * |bytes|
    ensures forall i :: 0 <= i < |text| ==> '0' <= text[i] <= '9' || 'a' <= text[i] <= 'f'
  {
    if |bytes| == 0 then "" else
    var last := bytes[|bytes| - 1];
    Hex(bytes[..|bytes| - 1]) + [HexDigit(last / 16), HexDigit(last % 16)]
  }

  predicate IsCanonicalSha256(value: string) {
    && |value| == CANONICAL_SHA256_TEXT_BYTES && value[..7] == "sha256:"
    && forall i :: 7 <= i < |value| ==> '0' <= value[i] <= '9' || 'a' <= value[i] <= 'f'
  }

  function Ascii(name: string): (bytes: seq<Byte>)
    ensures |bytes| == |name|
  {
    seq(|name|, i requires 0 <= i < |name| => name[i] as int % 256)
  }

  /** What is hashed: the message type's full name, one NUL byte, its deterministic encoding. */
  function Preimage(typeName: string, wire: seq<Byte>): seq<Byte> {
    Ascii(typeName) + [0] + wire
  }

  function TerminalDigest(typeName: string, wire: seq<Byte>): (text: string)
    ensures IsCanonicalSha256(text)
  {
    "sha256:" + Hex(Sha256(Preimage(typeName, wire)))
  }

  /** The bytes are formatted one by one. */
  method FormatHex(bytes: seq<Byte>) returns (text: string)
    ensures text == Hex(bytes)
  {
    text := "";
    for i := 0 to |bytes|
      invariant text == Hex(bytes[..i])
    {
      text := text + [HexDigit(bytes[i] / 16), HexDigit(bytes[i] % 16)];
      assert bytes[..i + 1][..i] == bytes[..i];
    }
    assert bytes[..|bytes|] == bytes;
  }

  /** The hash is fed the name, the separator and the encoding in three updates. */
  method HashMessage(typeName: string, wire: seq<Byte>) returns (bytes: seq<Byte>)
    ensures bytes == Sha256(Preimage(typeName, wire))
  {
    hide Sha256, Absorb, Compress, Pad, Ascii;
    var hash := new Sha256State();
    hash.Update(Ascii(typeName));
    hash.Update([0]);
    hash.Update(wire);
    assert hash.message == Preimage(typeName, wire);
    bytes := hash.Finish();
  }

  /** A message that cannot be encoded has no digest. */
  method ComputeTerminalDigest(typeName: string, encoded: Option<seq<Byte>>) returns (digest: Option<string>)
    ensures digest == if encoded.Some? then Some(TerminalDigest(typeName, encoded.value)) else None
  {
    hide Sha256, Hex, Preimage;
    if encoded.None? {
      return None;
    }
    var bytes := HashMessage(typeName, encoded.value);
    var text := FormatHex(bytes);
    digest := Some("sha256:" + text);
  }

  predicate NulFree(name: string) {
    forall i :: 0 <= i < |name| ==> 0 < name[i] as int < 256
  }

  function FirstZero(bytes: seq<Byte>): (n: nat)
    ensures n <= |bytes|
  {
    if |bytes| == 0 || bytes[0] == 0 then 0 else 1 + FirstZero(bytes[1..])
  }

  /** The separator is found again: no byte of a type name is NUL. */
  lemma {:induction false} FirstZeroEndsName(name: string, wire: seq<Byte>)
    requires NulFree(name)
    ensures FirstZero(Preimage(name, wire)) == |name|
  {
    if |name| > 0 {
      assert Preimage(name, wire)[0] == name[0] as int;
      assert Preimage(name, wire)[1..] == Preimage(name[1..], wire);
      FirstZeroEndsName(name[1..], wire);
    }
  }

  /** The name prefix separates message types: equal preimages come from one type and one encoding. */
  lemma PreimageInjective(name1: string, wire1: seq<Byte>, name2: string, wire2: seq<Byte>)
    requires NulFree(name1) && NulFree(name2)
    requires Preimage(name1, wire1) == Preimage(name2, wire2)
    ensures name1 == name2 && wire1 == wire2
  {
    var p1, p2 := Preimage(name1, wire1), Preimage(name2, wire2);
    FirstZeroEndsName(name1, wire1);
    FirstZeroEndsName(name2, wire2);
    forall i | 0 <= i < |name1| ensures name1[i] == name2[i] {
      assert p1[i] == name1[i] as int && p2[i] == name2[i] as int;
    }
    assert wire1 == p1[|name1| + 1..] && wire2 == p2[|name2| + 1..];
  }
}
