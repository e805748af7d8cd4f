/**
 * The streaming Wyhash of crates/ai/src/wyhash.rs. The hasher keeps the last full block of 48 bytes in its buffer, and
 * a short buffer keeps the bytes before it at its end, because the final step reads the last 16 bytes of the input.
 */
module Wyhash {
  type byte = bv8
  type u64 = bv64

  // The primes that the algorithm mixes in.
  const SECRET0: u64 := 0xa0761d6478bd642f
  const SECRET1: u64 := 0xe7037ed1a0b428db
  const SECRET2: u64 := 0x8ebc6af09c88c6e3
  const SECRET3: u64 := 0x589965cc75374cc3

  // The pure parts.

  /** The low and the high half of a 128-bit product. */
  function Mum(a: u64, b: u64): (u64, u64) {
    var product := (a as bv128) * (b as bv128);
    ((product & 0xffff_ffff_ffff_ffff) as u64, (product >> 64) as u64)
  }

  function Mix(a: u64, b: u64): u64 {
    var (low, high) := Mum(a, b);
    low ^ high
  }

  /** The little-endian word of 4 bytes. */
  function Read4(s: seq<byte>): u64
    requires |s| >= 4
  {
    (s[0] as u64) | ((s[1] as u64) << 8) | ((s[2] as u64) << 16) | ((s[3] as u64) << 24)
  }

  /** The little-endian word of 8 bytes. */
  function Read8(s: seq<byte>): u64
    requires |s| >= 8
  {
    Read4(s) | (Read4(s[4..]) << 32)
  }

  /** The two final words of an input of at most 16 bytes. */
  function SmallKey(s: seq<byte>): (u64, u64)
    requires |s| <= 16
  {
    var len := |s|;
    if len >= 4 then
      var end := len - 4;
      var quarter := len / 8 * 4;
      ((Read4(s) << 32) | Read4(s[quarter..]), (Read4(s[end..]) << 32) | Read4(s[end - quarter..]))
    else if len > 0 then
      (((s[0] as u64) << 16) | ((s[len / 2] as u64) << 8) | (s[len - 1] as u64), 0)
    else
      (0, 0)
  }

  /** The three lanes of the state. */
  datatype Lanes = Lanes(a: u64, b: u64, c: u64)

  /** The state of a new hasher. */
  function Seeded(seed: u64): Lanes {
    var first := seed ^ Mix(seed ^ SECRET0, SECRET1);
    Lanes(first, first, first)
  }

  function Secret(index: nat): u64
    requires index < 4
  {
    if index == 0 then SECRET0 else if index == 1 then SECRET1 else if index == 2 then SECRET2 else SECRET3
  }

  /** The new value of the lane `index` over a block. */
  function Stirred(lane: u64, block: seq<byte>, index: nat): u64
    requires |block| == 48 && index < 3
  {
    Mix(Read8(block[16 * index..]) ^ Secret(index + 1), Read8(block[16 * index + 8..]) ^ lane)
  }

  /** One round of the three lanes over a block. */
  function Round(lanes: Lanes, block: seq<byte>): Lanes
    requires |block| == 48
  {
    Lanes(Stirred(lanes.a, block, 0), Stirred(lanes.b, block, 1), Stirred(lanes.c, block, 2))
  }

  // The one-shot Wyhash, as the reference for the stream.

  /** The rounds of the first `count` blocks of `s`. */
  function Rounds(lanes: Lanes, s: seq<byte>, count: nat): Lanes
    requires 48 * count <= |s|
  {
    if count == 0 then lanes
    else Round(Rounds(lanes, s, count - 1), s[48 * (count - 1)..48 * count])
  }

  /** The number of blocks before the last, partial or full, block of an input. */
  function BlocksBefore(length: nat): (count: nat)
    ensures 48 * count <= length && length - 48 * count <= 48
    ensures length > 0 ==> length - 48 * count > 0
  {
    if length == 0 then 0 else (length - 1) / 48
  }

  /** Fold the 16-byte steps of the last block, except its last step, into one lane. */
  function Fold(lane: u64, body: seq<byte>): u64
    decreases |body|
  {
    if |body| <= 16 then lane
    else Fold(FoldStep(lane, body[..16]), body[16..])
  }

  /** Mix one 16-byte step into the lane. */
  function FoldStep(lane: u64, step: seq<byte>): u64
    requires |step| == 16
  {
    Mix(Read8(step) ^ SECRET1, Read8(step[8..]) ^ lane)
  }

  /** The one lane of the end of a long input. */
  function Merged(lanes: Lanes): u64 {
    lanes.a ^ lanes.b ^ lanes.c
  }

  /** The two final words of an input that ends with `tail`. */
  function TailWords(tail: seq<byte>): (u64, u64)
    requires |tail| == 16
  {
    (Read8(tail), Read8(tail[8..]))
  }

  function Finalize(lane: u64, words: (u64, u64), length: nat): u64 {
    var (a, b) := Mum(words.0 ^ SECRET1, words.1 ^ lane);
    Mix(a ^ SECRET0 ^ ((length % 0x1_0000_0000_0000_0000) as u64), b ^ SECRET1)
  }

  /** The Wyhash of the whole input `s`. */
  function Hash(seed: u64, s: seq<byte>): u64 {
    if |s| <= 16 then
      Finalize(Seeded(seed).a, SmallKey(s), |s|)
    else
      var count := BlocksBefore(|s|);
      var lanes := Rounds(Seeded(seed), s, count);
      Finalize(Fold(Merged(lanes), s[48 * count..]), TailWords(s[|s| - 16..]), |s|)
  }

  lemma {:induction false} RoundsOfPrefix(lanes: Lanes, s: seq<byte>, more: seq<byte>, count: nat)
    requires 48 * count <= |s|
    ensures Rounds(lanes, s + more, count) == Rounds(lanes, s, count)
  {
    hide Round;
    if count > 0 {
      assert (s + more)[48 * (count - 1)..48 * count] == s[48 * (count - 1)..48 * count];
      RoundsOfPrefix(lanes, s, more, count - 1);
    }
  }

  /** The `n` bytes of `s` before `end`. */
  function Before(s: seq<byte>, end: nat, n: nat): seq<byte>
    requires n <= end <= |s|
  {
    s[end - n..end]
  }

  /** `dst` with `src` at `at`. */
  function Patched(dst: seq<byte>, at: nat, src: seq<byte>): seq<byte>
    requires at + |src| <= |dst|
  {
    dst[..at] + src + dst[at + |src|..]
  }

  method Copy(dst: array<byte>, at: nat, src: seq<byte>)
    requires at + |src| <= dst.Length
    modifies dst
    ensures dst[..] == Patched(old(dst[..]), at, src)
  {
    forall j | 0 <= j < |src| {
      dst[at + j] := src[j];
    }
    assert dst[..] == Patched(old(dst[..]), at, src);
  }

  /** Fold the steps of the last block into the lane, except the last step. */
  method FoldBody(first: u64, body: seq<byte>) returns (lane: u64)
    ensures lane == Fold(first, body)
  {
    hide FoldStep;
    lane := first;
    var i := 0;
    assert body[0..] == body;
    while i + 16 < |body|
      invariant 0 <= i && (i == 0 || i < |body|)
      invariant Fold(lane, body[i..]) == Fold(first, body)
    {
      assert body[i..][..16] == body[i..i + 16] && body[i..][16..] == body[i + 16..];
      lane := FoldStep(lane, body[i..i + 16]);
      i := i + 16;
    }
  }

  /**
   * The last 16 bytes of a long input. When the buffer holds fewer, the tail of its previous block supplies the rest.
   */
  function FinalInput(buf: seq<byte>, bufLen: nat): seq<byte>
    requires |buf| == 48 && bufLen <= 48
  {
    if bufLen < 16 then buf[32 + bufLen..] + buf[..bufLen] else buf[..bufLen]
  }

  /** What the buffer holds after the input `s`: the last block, and the bytes before a short last block. */
  ghost predicate Buffered(buf: seq<byte>, bufLen: nat, s: seq<byte>) {
    var start := 48 * BlocksBefore(|s|);
    && |buf| == 48
    && bufLen == |s| - start
    && buf[..bufLen] == s[start..]
    && (bufLen < 16 && start > 0 ==> buf[32 + bufLen..] == Before(s, start, 16 - bufLen))
  }

  lemma BlocksAre(length: nat, count: nat)
    requires 48 * count <= length && length - 48 * count <= 48
    requires length > 0 ==> length - 48 * count > 0
    ensures BlocksBefore(length) == count
  {
  }

  /** A short write keeps the block count, and joins the buffer behind the bytes that it holds. */
  lemma BufferedAppend(buf: seq<byte>, bufLen: nat, s: seq<byte>, input: seq<byte>)
    requires Buffered(buf, bufLen, s) && |input| <= 48 - bufLen
    ensures BlocksBefore(|s + input|) == BlocksBefore(|s|)
    ensures Buffered(Patched(buf, bufLen, input), bufLen + |input|, s + input)
  {
    hide BlocksBefore;
    var count := BlocksBefore(|s|);
    BlocksAre(|s + input|, count);
    var now, next := bufLen + |input|, Patched(buf, bufLen, input);
    assert next[..now] == buf[..bufLen] + input == (s + input)[48 * count..];
    if now < 16 && count > 0 {
      assert next[32 + now..] == buf[32 + now..] by {
        hide Buffered;
      }
      assert buf[32 + now..] == buf[32 + bufLen..][|input|..];
      BeforeGrows(s, input, 48 * count, 16 - bufLen, 16 - now);
    }
  }

  lemma BeforeGrows(s: seq<byte>, input: seq<byte>, end: nat, n: nat, m: nat)
    requires m <= n <= end <= |s|
    ensures Before(s + input, end, m) == Before(s, end, n)[n - m..]
  {
  }

  /** A long write leaves its last block in the buffer. The bytes before a short one sit at the end of the buffer. */
  lemma BufferedRest(buf: seq<byte>, s: seq<byte>, count: nat)
    requires |buf| == 48 && 48 * count < |s| <= 48 * count + 48
    requires count > 0 && |s| - 48 * count < 16 ==>
      buf[32 + (|s| - 48 * count)..] == Before(s, 48 * count, 16 - (|s| - 48 * count))
    ensures BlocksBefore(|s|) == count
    ensures Buffered(Patched(buf, 0, s[48 * count..]), |s| - 48 * count, s)
  {
    hide BlocksBefore, Patched;
    BlocksAre(|s|, count);
    PatchedStart(buf, s[48 * count..]);
  }

  lemma PatchedStart(buf: seq<byte>, rest: seq<byte>)
    requires |buf| == 48 && |rest| <= 48
    ensures var next := Patched(buf, 0, rest);
      |next| == 48 && next[..|rest|] == rest && (|rest| < 16 ==> next[32 + |rest|..] == buf[32 + |rest|..])
  {
  }

  /** Before position `i` of a long write, the last mixed block is in the input, in the buffer, or there is none. */
  ghost predicate Preceded(buf: seq<byte>, w: seq<byte>, all: seq<byte>, i: nat, count: nat) {
    i < 48 ==> (i == 0 && w == []) || buf == Block(all, count)
  }

  /** The block `count` of `s`, from 1. */
  ghost function Block(s: seq<byte>, count: nat): seq<byte> {
    if 0 < count && 48 * count <= |s| then s[48 * (count - 1)..48 * count] else []
  }

  lemma SameBlock(w: seq<byte>, input: seq<byte>, i: nat, count: nat)
    requires 48 * count == |w| + i && i + 48 <= |input|
    ensures input[i..i + 48] == (w + input)[48 * count..48 * (count + 1)]
  {
  }

  class Hasher {
    /** The three lanes. */
    const state: array<u64>
    var totalLen: nat
    const buf: array<byte>
    var bufLen: nat
    ghost const seed: u64
    /** All bytes that the hasher took. */
    ghost var written: seq<byte>

    ghost predicate Valid()
      reads this, state, buf
    {
      Held() && totalLen == |written|
    }

    /** The lanes and the buffer follow from the bytes that the hasher took. */
    ghost predicate Held()
      reads this, state, buf
    {
      && state.Length == 3
      && buf.Length == 48
      && CurrentLanes() == Rounds(Seeded(seed), written, BlocksBefore(|written|))
      && Buffered(buf[..], bufLen, written)
    }

    function CurrentLanes(): Lanes
      requires state.Length == 3
      reads state
    {
      Lanes(state[0], state[1], state[2])
    }

    constructor (seed: u64)
      ensures Valid() && this.seed == seed && written == []
      ensures fresh(state) && fresh(buf)
    {
      this.seed := seed;
      var lanes := Seeded(seed);
      state := new u64[3](_ => lanes.a);
      totalLen := 0;
      buf := new byte[48](_ => 0);
      bufLen := 0;
      written := [];
    }

    /** Mix one block into the three lanes, one lane after the other. */
    method Mixin(block: seq<byte>)
      requires state.Length == 3 && |block| == 48
      modifies state
      ensures CurrentLanes() == Round(old(CurrentLanes()), block)
    {
      hide Stirred;
      var i := 0;
      while i < 3
        invariant 0 <= i <= 3
        invariant forall j :: 0 <= j < 3 ==>
          state[j] == if j < i then Stirred(old(state[j]), block, j) else old(state[j])
      {
        state[i] := Stirred(state[i], block, i);
        i := i + 1;
      }
    }

    /** Complete the block in the buffer with the first bytes of a long `input`, and mix it in. */
    method Flush(input: seq<byte>) returns (i: nat)
      requires Held() && |input| > 48 - bufLen
      modifies state, buf
      ensures var count := BlocksBefore(|written|) + (if bufLen > 0 then 1 else 0);
        && i < |input| && 48 * count == |written| + i
        && CurrentLanes() == Rounds(Seeded(seed), written + input, count)
        && Preceded(buf[..], written, written + input, i, count)
    {
      hide Round, Rounds, Seeded, BlocksBefore, Buffered, Patched;
      BufferHolds(buf[..], bufLen, written);
      RoundsOfPrefix(Seeded(seed), written, input, BlocksBefore(|written|));
      i := 0;
      if bufLen > 0 {
        i := 48 - bufLen;
        MixFull(input[..i], input);
      }
    }

    /** Complete the block in the buffer with `first`, the first bytes of `input`, and mix it in. */
    method MixFull(first: seq<byte>, ghost input: seq<byte>)
      requires Held() && bufLen > 0 && |input| >= 48 - bufLen && first == input[..48 - bufLen]
      modifies state, buf
      ensures var all, count := written + input, BlocksBefore(|written|) + 1;
        && 48 * count <= |all| && CurrentLanes() == Rounds(Seeded(seed), all, count) && buf[..] == Block(all, count)
    {
      hide Round, Seeded, BlocksBefore, Buffered, Patched;
      ghost var count, lanes := BlocksBefore(|written|), CurrentLanes();
      BufferHolds(buf[..], bufLen, written);
      RoundsOfPrefix(Seeded(seed), written, input, count);
      FullBuffer(buf[..], bufLen, written, input);
      Copy(buf, bufLen, first);
      assert CurrentLanes() == lanes;
      Mixin(buf[..]);
    }

    /** Keep the rest of a long `input` from `i` in the buffer, and the bytes before a short rest at its end. */
    method KeepRest(input: seq<byte>, i: nat, ghost w: seq<byte>, ghost count: nat)
      requires buf.Length == 48 && i < |input| <= i + 48 && 48 * count == |w| + i
      requires Preceded(buf[..], w, w + input, i, count)
      modifies this`bufLen, buf
      ensures BlocksBefore(|w + input|) == count && Buffered(buf[..], bufLen, w + input)
    {
      hide BlocksBefore, Buffered, Patched;
      ghost var all := w + input;
      var rest := input[i..];
      assert rest == all[48 * count..];
      if |rest| < 16 && i >= 48 {
        var missing := 16 - |rest|;
        assert input[i - missing..i] == all[48 * count - missing..48 * count];
        PatchedEnd(buf[..], input[i - missing..i]);
        Copy(buf, 48 - missing, input[i - missing..i]);
      } else if |rest| < 16 && count > 0 {
        assert buf[32 + |rest|..] == all[48 * (count - 1)..48 * count][32 + |rest|..];
      }
      BufferedRest(buf[..], all, count);
      Copy(buf, 0, rest);
      bufLen := |rest|;
    }

    /** Take more input. The tail of the newest block survives in the buffer for `Finish`. */
    method Write(input: seq<byte>)
      requires Valid()
      modifies this`totalLen, this`bufLen, this`written, state, buf
      ensures Valid() && written == old(written) + input
    {
      hide Round, Seeded, BlocksBefore, Buffered, Patched;
      ghost var w := written;
      totalLen := totalLen + |input|;
      if |input| <= 48 - bufLen {
        BufferedAppend(buf[..], bufLen, w, input);
        RoundsOfPrefix(Seeded(seed), w, input, BlocksBefore(|w|));
        Copy(buf, bufLen, input);
        bufLen := bufLen + |input|;
        written := w + input;
        return;
      }
      ghost var count := BlocksBefore(|w|) + (if bufLen > 0 then 1 else 0);
      var i := Flush(input);
      while i + 48 < |input|
        invariant 0 <= i < |input| && 48 * count == |w| + i
        invariant CurrentLanes() == Rounds(Seeded(seed), w + input, count)
        invariant Preceded(buf[..], w, w + input, i, count)
        modifies state
      {
        SameBlock(w, input, i, count);
        Mixin(input[i..i + 48]);
        i := i + 48;
        count := count + 1;
      }
      KeepRest(input, i, w, count);
      written := w + input;
    }

    /** The hash of all bytes that the hasher took, however the writes split them. */
    method Finish() returns (hash: u64)
      requires Valid()
      ensures hash == Hash(seed, written)
    {
      hide Rounds, Seeded, Fold, FoldStep, Merged, TailWords, SmallKey, BlocksBefore, Finalize, Buffered, Hash,
           FinalInput;
      BufferHolds(buf[..], bufLen, written);
      if totalLen <= 16 {
        SmallInput(seed, written);
        return Finalize(state[0], SmallKey(buf[..bufLen]), totalLen);
      }
      LongInput(seed, written);
      LastBytes(buf[..], bufLen, written);
      var input := FinalInput(buf[..], bufLen);
      var lane := FoldBody(Merged(CurrentLanes()), buf[..bufLen]);
      hash := Finalize(lane, TailWords(input[|input| - 16..]), totalLen);
    }
  }

  lemma BufferHolds(buf: seq<byte>, bufLen: nat, s: seq<byte>)
    requires Buffered(buf, bufLen, s)
    ensures |buf| == 48 && bufLen <= 48
    ensures 48 * BlocksBefore(|s|) <= |s| && bufLen == |s| - 48 * BlocksBefore(|s|)
    ensures buf[..bufLen] == s[48 * BlocksBefore(|s|)..]
    ensures bufLen == 0 <==> s == []
  {
  }

  /** The first bytes of a long write complete the block in the buffer. */
  lemma FullBuffer(buf: seq<byte>, bufLen: nat, s: seq<byte>, input: seq<byte>)
    requires Buffered(buf, bufLen, s) && |input| >= 48 - bufLen
    ensures Patched(buf, bufLen, input[..48 - bufLen])
         == (s + input)[48 * BlocksBefore(|s|)..48 * (BlocksBefore(|s|) + 1)]
  {
    hide BlocksBefore;
  }

  lemma PatchedEnd(buf: seq<byte>, src: seq<byte>)
    requires |src| <= |buf|
    ensures Patched(buf, |buf| - |src|, src)[|buf| - |src|..] == src
  {
  }

  lemma SmallInput(seed: u64, s: seq<byte>)
    requires |s| <= 16
    ensures BlocksBefore(|s|) == 0
    ensures s[48 * BlocksBefore(|s|)..] == s
    ensures Hash(seed, s) == Finalize(Rounds(Seeded(seed), s, BlocksBefore(|s|)).a, SmallKey(s), |s|)
  {
    hide Seeded, Finalize, SmallKey;
  }

  lemma LongInput(seed: u64, s: seq<byte>)
    requires |s| > 16
    ensures var count := BlocksBefore(|s|);
      Hash(seed, s) == Finalize(Fold(Merged(Rounds(Seeded(seed), s, count)), s[48 * count..]),
                                TailWords(s[|s| - 16..]), |s|)
  {
    hide Seeded, Finalize, Fold, Merged, TailWords, BlocksBefore, Rounds;
  }

  /** The last 16 bytes of the input come from the buffer alone. */
  lemma LastBytes(buf: seq<byte>, bufLen: nat, s: seq<byte>)
    requires Buffered(buf, bufLen, s) && |s| > 16
    ensures |FinalInput(buf, bufLen)| >= 16
    ensures FinalInput(buf, bufLen)[|FinalInput(buf, bufLen)| - 16..] == s[|s| - 16..]
  {
    if bufLen < 16 {
      assert 48 * BlocksBefore(|s|) > 0;
      assert FinalInput(buf, bufLen) == s[|s| - 16..];
    }
  }

  // Any split of an input hashes like one write.

  function Concat(pieces: seq<seq<byte>>): seq<byte> {
    if |pieces| == 0 then [] else Concat(pieces[..|pieces| - 1]) + pieces[|pieces| - 1]
  }

  /** Hash `pieces` with one write for each piece, empty pieces among them. */
  method HashPieces(seed: u64, pieces: seq<seq<byte>>) returns (hash: u64)
    ensures hash == Hash(seed, Concat(pieces))
  {
    hide Hash, Rounds, Seeded, Buffered, BlocksBefore;
    var hasher := new Hasher(seed);
    var i := 0;
    while i < |pieces|
      invariant 0 <= i <= |pieces|
      invariant hasher.Valid() && hasher.seed == seed && hasher.written == Concat(pieces[..i])
      invariant fresh(hasher) && fresh(hasher.state) && fresh(hasher.buf)
    {
      assert pieces[..i + 1][..i] == pieces[..i];
      hasher.Write(pieces[i]);
      i := i + 1;
    }
    assert pieces[..i] == pieces;
    hash := hasher.Finish();
  }
}
