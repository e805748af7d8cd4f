/**
 * The base64 codec of crates/ai/src/base64.rs: the standard padded encoder, and one decoder that serves the standard
 * and the URL-safe alphabet with optional padding (sections 4 and 5 of RFC 4648).
 */
module Base64 {
  import opened Options

  type byte = bv8

  const PAD: byte := 61  // '='

  /** The bytes of the digits 62 and 63. The other digits are the same in both alphabets. */
  datatype Symbols = Symbols(plus: byte, slash: byte)

  const STANDARD := Symbols(43, 47)  // '+' and '/'
  const URL_SAFE := Symbols(45, 95)  // '-' and '_'

  predicate Known(symbols: Symbols) {
    symbols == STANDARD || symbols == URL_SAFE
  }

  /** The character of a 6-bit value: A-Z, a-z, 0-9, then the two symbols. */
  function Digit(v: bv6, symbols: Symbols): byte {
    var b := v as bv8;
    if b < 26 then b + 65
    else if b < 52 then b + 71
    else if b < 62 then b - 4
    else if b == 62 then symbols.plus
    else symbols.slash
  }

  /** The 6-bit value of a character, or None outside the alphabet. */
  function Value(c: byte, symbols: Symbols): Option<bv6> {
    if 65 <= c <= 90 then Some((c - 65) as bv6)
    else if 97 <= c <= 122 then Some((c - 71) as bv6)
    else if 48 <= c <= 57 then Some((c + 4) as bv6)
    else if c == symbols.plus then Some(62)
    else if c == symbols.slash then Some(63)
    else None
  }

  lemma ValueOfDigit(v: bv6, symbols: Symbols)
    requires Known(symbols)
    ensures Value(Digit(v, symbols), symbols) == Some(v)
    ensures Digit(v, symbols) != PAD
  {
  }

  lemma DigitOfValue(c: byte, symbols: Symbols)
    requires Known(symbols) && Value(c, symbols).Some?
    ensures Digit(Value(c, symbols).value, symbols) == c
  {
  }

  /** The number that the encoder builds from a group, with its first byte on top of the 24 bits. */
  function Join(a: byte, b: byte, c: byte): bv32 {
    ((a as bv32) << 16) | ((b as bv32) << 8) | (c as bv32)
  }

  /** The two characters that the table of the encoder holds for a 12-bit value. */
  function Pair(index: bv32): (byte, byte)
    requires index < 4096
  {
    (Digit((index >> 6) as bv6, STANDARD), Digit((index & 63) as bv6, STANDARD))
  }

  // The encodings of RFC 4648 as a reference: 3 bytes make 4 digits, and a rest of k bytes makes k + 1 digits, whose
  // unused low bits are zero.

  function First(a: byte): bv6 { (a >> 2) as bv6 }
  function Second(a: byte, b: byte): bv6 { (((a & 3) << 4) | (b >> 4)) as bv6 }
  function Third(b: byte, c: byte): bv6 { (((b & 15) << 2) | (c >> 6)) as bv6 }
  function Fourth(c: byte): bv6 { (c & 63) as bv6 }

  /** The digits of up to 3 bytes, without padding. */
  function GroupDigits(g: seq<byte>, symbols: Symbols): (text: seq<byte>)
    requires 1 <= |g| <= 3
    ensures |text| == |g| + 1
  {
    if |g| == 1 then
      [Digit(First(g[0]), symbols), Digit(Second(g[0], 0), symbols)]
    else if |g| == 2 then
      [Digit(First(g[0]), symbols), Digit(Second(g[0], g[1]), symbols), Digit(Third(g[1], 0), symbols)]
    else
      [Digit(First(g[0]), symbols), Digit(Second(g[0], g[1]), symbols), Digit(Third(g[1], g[2]), symbols),
       Digit(Fourth(g[2]), symbols)]
  }

  /** The encoding of `data` without padding. */
  function Bare(data: seq<byte>, symbols: Symbols): seq<byte> {
    if |data| == 0 then []
    else if |data| <= 3 then GroupDigits(data, symbols)
    else GroupDigits(data[..3], symbols) + Bare(data[3..], symbols)
  }

  /** The padding that fills the last group of the encoding of `length` bytes. */
  function Padding(length: nat): seq<byte> {
    if length % 3 == 1 then [PAD, PAD] else if length % 3 == 2 then [PAD] else []
  }

  /** The encoding of `data` with padding. */
  function Padded(data: seq<byte>, symbols: Symbols): seq<byte> {
    Bare(data, symbols) + Padding(|data|)
  }

  lemma {:induction false} BareLength(data: seq<byte>, symbols: Symbols)
    ensures |Bare(data, symbols)| == |data| / 3 * 4 + (if |data| % 3 == 0 then 0 else |data| % 3 + 1)
    ensures |Padded(data, symbols)| == (|data| + 2) / 3 * 4
  {
    hide Digit, First, Second, Third, Fourth;
    if |data| > 3 {
      BareLength(data[3..], symbols);
    }
  }

  lemma {:induction false} BareHasNoPad(data: seq<byte>, symbols: Symbols)
    requires Known(symbols)
    ensures PAD !in Bare(data, symbols)
  {
    if |data| > 3 {
      BareHasNoPad(data[3..], symbols);
    }
  }

  /** Three whole bytes more at the end add one whole group of digits. */
  lemma {:induction false} BareSnoc(data: seq<byte>, g: seq<byte>, symbols: Symbols)
    requires |data| % 3 == 0 && 1 <= |g| <= 3
    ensures Bare(data + g, symbols) == Bare(data, symbols) + GroupDigits(g, symbols)
  {
    if |data| == 0 {
      assert data + g == g;
    } else {
      var whole := data + g;
      assert whole[..3] == data[..3] && whole[3..] == data[3..] + g;
      BareSnoc(data[3..], g, symbols);
      if |data| == 3 {
        assert data[..3] == data && data[3..] == [];
      }
    }
  }

  /** The four characters that the encoder writes for the 24 bits of `n`, by two lookups in the table of pairs. */
  function Cell(n: bv32): (cell: seq<byte>)
    requires n < 0x100_0000
    ensures |cell| == 4
  {
    HalvesAreIndexes(n);
    var (c0, c1) := Pair(n >> 12);
    var (c2, c3) := Pair(n & 0xfff);
    [c0, c1, c2, c3]
  }

  lemma HalvesAreIndexes(n: bv32)
    requires n < 0x100_0000
    ensures (n >> 12) < 4096 && (n & 0xfff) < 4096
  {
  }

  lemma JoinedHigh(a: byte, b: byte, c: byte)
    ensures Join(a, b, c) < 0x100_0000
    ensures (((Join(a, b, c) >> 12) >> 6) as bv6) == First(a)
    ensures (((Join(a, b, c) >> 12) & 63) as bv6) == Second(a, b)
  {
  }

  lemma JoinedLow(a: byte, b: byte, c: byte)
    ensures (((Join(a, b, c) & 0xfff) >> 6) as bv6) == Third(b, c)
    ensures (((Join(a, b, c) & 0xfff) & 63) as bv6) == Fourth(c)
  {
  }

  /** The table of pairs gives the digits of the reference. */
  lemma CellIsGroup(a: byte, b: byte, c: byte)
    ensures Join(a, b, c) < 0x100_0000
    ensures Cell(Join(a, b, c)) == GroupDigits([a, b, c], STANDARD)
    ensures Cell(Join(a, b, 0))[..3] == GroupDigits([a, b], STANDARD)
    ensures Cell(Join(a, 0, 0))[..2] == GroupDigits([a], STANDARD)
  {
    JoinedHigh(a, b, c);
    JoinedLow(a, b, c);
    JoinedHigh(a, b, 0);
    JoinedLow(a, b, 0);
    JoinedHigh(a, 0, 0);
  }

  /** One more whole group of the data adds its digits to the digits of the groups before it. */
  lemma NextGroup(data: seq<byte>, at: nat)
    requires at % 3 == 0 && at + 3 <= |data|
    ensures Bare(data[..at + 3], STANDARD)
         == Bare(data[..at], STANDARD) + GroupDigits([data[at], data[at + 1], data[at + 2]], STANDARD)
  {
    assert data[..at + 3] == data[..at] + [data[at], data[at + 1], data[at + 2]];
    BareSnoc(data[..at], [data[at], data[at + 1], data[at + 2]], STANDARD);
  }

  lemma NoGroup(data: seq<byte>)
    ensures Bare(data[..0], STANDARD) == []
    ensures |data| % 3 == 0 ==> Padded(data, STANDARD) == Bare(data[..3 * (|data| / 3)], STANDARD)
  {
    if |data| % 3 == 0 {
      assert data[..3 * (|data| / 3)] == data;
    }
  }

  /** The rest of one or two bytes ends the padded encoding. */
  lemma LastGroup(data: seq<byte>, at: nat)
    requires at % 3 == 0 && 1 <= |data| - at <= 2
    ensures Padded(data, STANDARD)
         == Bare(data[..at], STANDARD) + GroupDigits(data[at..], STANDARD) + Padding(|data| - at)
  {
    assert data == data[..at] + data[at..];
    BareSnoc(data[..at], data[at..], STANDARD);
  }

  /** Encode `data` behind what `out` holds. All cells exist before the loop, which fills four of them per round. */
  method EncodeInto(out: seq<byte>, data: seq<byte>) returns (grown: seq<byte>)
    ensures grown == out + Padded(data, STANDARD)
  {
    hide Bare, GroupDigits, Padded;
    NoGroup(data);
    var groups := |data| / 3;
    var cells := new byte[(|data| + 2) / 3 * 4](_ => 0);
    var g := 0;
    while g < groups
      invariant 0 <= g <= groups
      invariant cells[..4 * g] == Bare(data[..3 * g], STANDARD)
    {
      NextGroup(data, 3 * g);
      WriteCell(cells, 4 * g, data[3 * g], data[3 * g + 1], data[3 * g + 2]);
      g := g + 1;
    }
    if |data| % 3 != 0 {
      LastGroup(data, 3 * groups);
      WriteLast(cells, 4 * groups, data[3 * groups..]);
    } else {
      assert cells[..4 * groups] == cells[..];
    }
    grown := out + cells[..];
  }

  /** Write the characters of one whole group. */
  method WriteCell(cells: array<byte>, at: nat, a: byte, b: byte, c: byte)
    requires at + 4 <= cells.Length
    modifies cells
    ensures cells[..at + 4] == old(cells[..at]) + GroupDigits([a, b, c], STANDARD)
  {
    CellIsGroup(a, b, c);
    var cell := Cell(Join(a, b, c));
    cells[at], cells[at + 1], cells[at + 2], cells[at + 3] := cell[0], cell[1], cell[2], cell[3];
  }

  /** Write the last cell of one or two bytes, with padding in place of the digits that they lack. */
  method WriteLast(cells: array<byte>, at: nat, rest: seq<byte>)
    requires at + 4 == cells.Length && 1 <= |rest| <= 2
    modifies cells
    ensures cells[..] == old(cells[..at]) + GroupDigits(rest, STANDARD) + Padding(|rest|)
  {
    var second := if |rest| == 2 then rest[1] else 0;
    CellIsGroup(rest[0], second, 0);
    assert rest == if |rest| == 2 then [rest[0], second] else [rest[0]];
    var cell := Cell(Join(rest[0], second, 0));
    var third := if |rest| == 2 then cell[2] else PAD;
    cells[at], cells[at + 1], cells[at + 2], cells[at + 3] := cell[0], cell[1], third, PAD;
    assert cells[..] == old(cells[..at]) + [cell[0], cell[1], third, PAD];
    assert [cell[0], cell[1]] == cell[..2];
    assert [cell[0], cell[1], cell[2]] == cell[..3];
  }

  // The decoder.

  /** `text` without its padding, where "==" counts before "=". */
  function Strip(text: seq<byte>): seq<byte> {
    if |text| >= 2 && text[|text| - 2..] == [PAD, PAD] then text[..|text| - 2]
    else if |text| >= 1 && text[|text| - 1] == PAD then text[..|text| - 1]
    else text
  }

  /** `n` with the bits of the digit at `index` of its chunk. */
  function Place(n: bv32, v: bv6, index: nat): bv32
    requires index < 4
  {
    n | ((v as bv32) << (18 - 6 * index))
  }

  /** The first `count` digits of one chunk on top of the 24 low bits, or None for a byte outside the alphabet. */
  function Gather(digits: seq<byte>, count: nat, symbols: Symbols): Option<bv32>
    requires count <= |digits| <= 4
  {
    if count == 0 then Some(0)
    else
      match (Gather(digits, count - 1, symbols), Value(digits[count - 1], symbols))
      case (Some(n), Some(v)) => Some(Place(n, v, count - 1))
      case _ => None
  }

  /** The big-endian bytes of a 32-bit number. */
  function BigEndian(n: bv32): (bytes: seq<byte>)
    ensures |bytes| == 4
  {
    [(n >> 24) as bv8, ((n >> 16) & 255) as bv8, ((n >> 8) & 255) as bv8, (n & 255) as bv8]
  }

  /** The bytes of one chunk of digits. A set bit behind the last whole byte is an error. */
  function DecodeChunk(digits: seq<byte>, symbols: Symbols): Option<seq<byte>>
    requires 2 <= |digits| <= 4
  {
    match Gather(digits, |digits|, symbols)
    case None => None
    case Some(n) =>
      var bytes := BigEndian(n);
      if exists i :: |digits| <= i < 4 && bytes[i] != 0 then None else Some(bytes[1..|digits|])
  }

  /** The bytes of the chunks of `bare`. */
  function DecodeBare(bare: seq<byte>, symbols: Symbols): Option<seq<byte>>
    requires |bare| % 4 != 1
  {
    if |bare| == 0 then Some([])
    else if |bare| <= 4 then DecodeChunk(bare, symbols)
    else
      match DecodeChunk(bare[..4], symbols)
      case None => None
      case Some(bytes) =>
        match DecodeBare(bare[4..], symbols)
        case None => None
        case Some(more) => Some(bytes + more)
  }

  /** What the decoder answers for `text`. */
  function Decoded(text: seq<byte>, symbols: Symbols): Option<seq<byte>> {
    var bare := Strip(text);
    if |bare| % 4 == 1 || (|bare| != |text| && |text| % 4 != 0) then None
    else DecodeBare(bare, symbols)
  }

  // The decoder accepts exactly the encodings.

  function Pack(v0: bv6, v1: bv6, v2: bv6, v3: bv6): bv32 {
    ((v0 as bv32) << 18) | ((v1 as bv32) << 12) | ((v2 as bv32) << 6) | (v3 as bv32)
  }

  /** The value of the digit at `index`, or 0 behind the end of the chunk. */
  function ValueAt(digits: seq<byte>, index: nat, symbols: Symbols): bv6 {
    if index < |digits| && Value(digits[index], symbols).Some? then Value(digits[index], symbols).value else 0
  }

  predicate AllDigits(digits: seq<byte>, count: nat, symbols: Symbols)
    requires count <= |digits|
  {
    forall i :: 0 <= i < count ==> Value(digits[i], symbols).Some?
  }

  lemma GatherPacks(digits: seq<byte>, symbols: Symbols)
    requires 2 <= |digits| <= 4
    ensures Gather(digits, |digits|, symbols).Some? <==> AllDigits(digits, |digits|, symbols)
    ensures AllDigits(digits, |digits|, symbols) ==>
      Gather(digits, |digits|, symbols)
      == Some(Pack(ValueAt(digits, 0, symbols), ValueAt(digits, 1, symbols),
                   ValueAt(digits, 2, symbols), ValueAt(digits, 3, symbols)))
  {
    hide Value, Pack, Place, Gather;
    GatherTwo(digits, symbols);
    if |digits| > 2 {
      GatherThird(digits, symbols);
    }
    if |digits| > 3 {
      GatherFourth(digits, symbols);
    }
  }

  lemma GatherTwo(digits: seq<byte>, symbols: Symbols)
    requires 2 <= |digits| <= 4
    ensures Gather(digits, 2, symbols).Some? <==> AllDigits(digits, 2, symbols)
    ensures AllDigits(digits, 2, symbols) ==>
      Gather(digits, 2, symbols) == Some(Pack(ValueAt(digits, 0, symbols), ValueAt(digits, 1, symbols), 0, 0))
  {
    hide Value, Pack, Place;
    var v0, v1 := ValueAt(digits, 0, symbols), ValueAt(digits, 1, symbols);
    PackFirst(v0);
    PackSecond(v0, v1);
    var g0, g1 := Gather(digits, 0, symbols), Gather(digits, 1, symbols);
    assert g0 == Some(0);
    assert g1 == if Value(digits[0], symbols).None? then None else Some(Pack(v0, 0, 0, 0));
  }

  lemma GatherThird(digits: seq<byte>, symbols: Symbols)
    requires 3 <= |digits| <= 4
    requires Gather(digits, 2, symbols).Some? <==> AllDigits(digits, 2, symbols)
    requires AllDigits(digits, 2, symbols) ==>
      Gather(digits, 2, symbols) == Some(Pack(ValueAt(digits, 0, symbols), ValueAt(digits, 1, symbols), 0, 0))
    ensures Gather(digits, 3, symbols).Some? <==> AllDigits(digits, 3, symbols)
    ensures AllDigits(digits, 3, symbols) ==>
      Gather(digits, 3, symbols)
      == Some(Pack(ValueAt(digits, 0, symbols), ValueAt(digits, 1, symbols), ValueAt(digits, 2, symbols), 0))
  {
    hide Value, Pack, Place;
    PackThird(ValueAt(digits, 0, symbols), ValueAt(digits, 1, symbols), ValueAt(digits, 2, symbols));
  }

  lemma GatherFourth(digits: seq<byte>, symbols: Symbols)
    requires |digits| == 4
    requires Gather(digits, 3, symbols).Some? <==> AllDigits(digits, 3, symbols)
    requires AllDigits(digits, 3, symbols) ==>
      Gather(digits, 3, symbols)
      == Some(Pack(ValueAt(digits, 0, symbols), ValueAt(digits, 1, symbols), ValueAt(digits, 2, symbols), 0))
    ensures Gather(digits, 4, symbols).Some? <==> AllDigits(digits, 4, symbols)
    ensures AllDigits(digits, 4, symbols) ==>
      Gather(digits, 4, symbols)
      == Some(Pack(ValueAt(digits, 0, symbols), ValueAt(digits, 1, symbols),
                   ValueAt(digits, 2, symbols), ValueAt(digits, 3, symbols)))
  {
    hide Value, Pack, Place;
    PackFourth(ValueAt(digits, 0, symbols), ValueAt(digits, 1, symbols), ValueAt(digits, 2, symbols),
               ValueAt(digits, 3, symbols));
  }

  lemma PackFirst(v: bv6)
    ensures Place(0, v, 0) == Pack(v, 0, 0, 0)
  {
  }

  lemma PackSecond(v0: bv6, v: bv6)
    ensures Place(Pack(v0, 0, 0, 0), v, 1) == Pack(v0, v, 0, 0)
  {
  }

  lemma PackThird(v0: bv6, v1: bv6, v: bv6)
    ensures Place(Pack(v0, v1, 0, 0), v, 2) == Pack(v0, v1, v, 0)
  {
  }

  lemma PackFourth(v0: bv6, v1: bv6, v2: bv6, v: bv6)
    ensures Place(Pack(v0, v1, v2, 0), v, 3) == Pack(v0, v1, v2, v)
  {
  }

  /** The bytes of four packed digits, and the digits of those bytes. */
  lemma PackedBytes(v0: bv6, v1: bv6, v2: bv6, v3: bv6)
    ensures var n := BigEndian(Pack(v0, v1, v2, v3));
      && n[0] == 0
      && First(n[1]) == v0
      && Second(n[1], n[2]) == v1
      && Third(n[2], n[3]) == v2
      && Fourth(n[3]) == v3
  {
  }

  lemma PackedGroup(a: byte, b: byte, c: byte)
    ensures BigEndian(Pack(First(a), Second(a, b), Third(b, c), Fourth(c))) == [0, a, b, c]
    ensures First(0) == 0 && Second(0, 0) == 0 && Third(0, 0) == 0 && Fourth(0) == 0
  {
  }

  lemma ChunkOfGroup(g: seq<byte>, symbols: Symbols)
    requires Known(symbols) && 1 <= |g| <= 3
    ensures DecodeChunk(GroupDigits(g, symbols), symbols) == Some(g)
  {
    hide Digit, Value, First, Second, Third, Fourth, Pack, BigEndian, Gather;
    var digits := GroupDigits(g, symbols);
    var b := if |g| > 1 then g[1] else 0;
    var c := if |g| > 2 then g[2] else 0;
    ValueOfDigit(First(g[0]), symbols);
    ValueOfDigit(Second(g[0], b), symbols);
    ValueOfDigit(Third(b, c), symbols);
    ValueOfDigit(Fourth(c), symbols);
    PackedGroup(g[0], b, c);
    GatherPacks(digits, symbols);
    assert Gather(digits, |digits|, symbols) == Some(Pack(First(g[0]), Second(g[0], b), Third(b, c), Fourth(c)));
    FirstBytes(g, [0, g[0], b, c]);
  }

  lemma FirstBytes(g: seq<byte>, bytes: seq<byte>)
    requires 1 <= |g| <= 3 && |bytes| == 4 && bytes[1] == g[0]
    requires (|g| > 1 ==> bytes[2] == g[1]) && (|g| > 2 ==> bytes[3] == g[2])
    ensures bytes[1..|g| + 1] == g
  {
  }

  lemma GroupOfChunk(digits: seq<byte>, symbols: Symbols)
    requires Known(symbols) && 2 <= |digits| <= 4
    requires DecodeChunk(digits, symbols).Some?
    ensures |DecodeChunk(digits, symbols).value| == |digits| - 1
    ensures GroupDigits(DecodeChunk(digits, symbols).value, symbols) == digits
  {
    hide Digit, Value, First, Second, Third, Fourth, Pack, BigEndian, Gather;
    GatherPacks(digits, symbols);
    var v0, v1 := ValueAt(digits, 0, symbols), ValueAt(digits, 1, symbols);
    var v2, v3 := ValueAt(digits, 2, symbols), ValueAt(digits, 3, symbols);
    PackedBytes(v0, v1, v2, v3);
    var bytes := BigEndian(Pack(v0, v1, v2, v3));
    assert Gather(digits, |digits|, symbols) == Some(Pack(v0, v1, v2, v3));
    forall i | 0 <= i < |digits|
      ensures Digit(ValueAt(digits, i, symbols), symbols) == digits[i]
    {
      DigitOfValue(digits[i], symbols);
    }
    assert |digits| < 3 ==> bytes[2] == 0;
    assert |digits| < 4 ==> bytes[3] == 0;
  }

  lemma {:induction false} DecodeOfBare(data: seq<byte>, symbols: Symbols)
    requires Known(symbols)
    ensures |Bare(data, symbols)| % 4 != 1
    ensures DecodeBare(Bare(data, symbols), symbols) == Some(data)
  {
    hide GroupDigits, DecodeChunk;
    BareLength(data, symbols);
    if |data| == 0 {
    } else if |data| <= 3 {
      ChunkOfGroup(data, symbols);
    } else {
      var bare := Bare(data, symbols);
      BareLength(data[3..], symbols);
      ChunkOfGroup(data[..3], symbols);
      DecodeOfBare(data[3..], symbols);
      assert bare[..4] == GroupDigits(data[..3], symbols) && bare[4..] == Bare(data[3..], symbols);
      assert data[..3] + data[3..] == data;
    }
  }

  lemma {:induction false} BareOfDecode(bare: seq<byte>, symbols: Symbols)
    requires Known(symbols) && |bare| % 4 != 1
    requires DecodeBare(bare, symbols).Some?
    ensures Bare(DecodeBare(bare, symbols).value, symbols) == bare
  {
    hide GroupDigits, DecodeChunk;
    if |bare| == 0 {
    } else if |bare| <= 4 {
      GroupOfChunk(bare, symbols);
    } else {
      GroupOfChunk(bare[..4], symbols);
      BareOfDecode(bare[4..], symbols);
      var head := DecodeChunk(bare[..4], symbols).value;
      var tail := DecodeBare(bare[4..], symbols).value;
      assert (head + tail)[..3] == head && (head + tail)[3..] == tail;
      assert |tail| > 0;
    }
  }

  lemma StripOf(bare: seq<byte>, padding: seq<byte>)
    requires |bare| > 0 ==> bare[|bare| - 1] != PAD
    requires padding == [] || (|bare| > 0 && (padding == [PAD] || padding == [PAD, PAD]))
    ensures Strip(bare + padding) == bare
  {
    var text := bare + padding;
    assert text[..|bare|] == bare && text[|bare|..] == padding;
    if padding == [] {
      assert text == bare;
    } else if padding == [PAD] {
      assert text[|text| - 2..][0] == bare[|bare| - 1];
    }
  }

  lemma StripOfEncoding(data: seq<byte>, symbols: Symbols)
    requires Known(symbols)
    ensures Strip(Padded(data, symbols)) == Strip(Bare(data, symbols)) == Bare(data, symbols)
  {
    hide Bare, Strip;
    BareLength(data, symbols);
    BareHasNoPad(data, symbols);
    StripOf(Bare(data, symbols), Padding(|data|));
    StripOf(Bare(data, symbols), []);
    assert Bare(data, symbols) + [] == Bare(data, symbols);
  }

  lemma StripRest(text: seq<byte>)
    ensures text == Strip(text) || text == Strip(text) + [PAD] || text == Strip(text) + [PAD, PAD]
  {
  }

  lemma PaddedIsWhole(data: seq<byte>, symbols: Symbols)
    ensures |Padded(data, symbols)| % 4 == 0
  {
    hide Padded;
    BareLength(data, symbols);
  }

  lemma AcceptsEncodings(data: seq<byte>, symbols: Symbols)
    requires Known(symbols)
    ensures Decoded(Padded(data, symbols), symbols) == Some(data)
    ensures Decoded(Bare(data, symbols), symbols) == Some(data)
  {
    hide Bare, DecodeBare, Strip, Padded;
    PaddedIsWhole(data, symbols);
    DecodeOfBare(data, symbols);
    StripOfEncoding(data, symbols);
  }

  lemma AcceptsOnlyEncodings(text: seq<byte>, data: seq<byte>, symbols: Symbols)
    requires Known(symbols)
    requires Decoded(text, symbols) == Some(data)
    ensures text == Padded(data, symbols) || text == Bare(data, symbols)
  {
    hide Bare, DecodeBare, Strip;
    BareLength(data, symbols);
    StripRest(text);
    BareOfDecode(Strip(text), symbols);
  }

  /**
   * The decoder inverts both encodings, and accepts no other text: every text that it accepts is the encoding of the
   * answer with its padding or without it.
   */
  lemma DecodesExactlyTheEncodings(text: seq<byte>, data: seq<byte>, symbols: Symbols)
    requires Known(symbols)
    ensures Decoded(text, symbols) == Some(data) <==> text == Padded(data, symbols) || text == Bare(data, symbols)
  {
    hide Bare, Decoded, Padded;
    AcceptsEncodings(data, symbols);
    if Decoded(text, symbols) == Some(data) {
      AcceptsOnlyEncodings(text, data, symbols);
    }
  }

  /** No two byte strings have an encoding in common. */
  lemma EncodingsAreInjective(x: seq<byte>, y: seq<byte>, symbols: Symbols)
    requires Known(symbols)
    requires Bare(x, symbols) == Bare(y, symbols) || Padded(x, symbols) == Padded(y, symbols)
    ensures x == y
  {
    DecodesExactlyTheEncodings(Bare(x, symbols), x, symbols);
    DecodesExactlyTheEncodings(Bare(y, symbols), y, symbols);
    DecodesExactlyTheEncodings(Padded(x, symbols), x, symbols);
    DecodesExactlyTheEncodings(Padded(y, symbols), y, symbols);
  }

  /** Read one chunk with an accumulator. */
  method ReadChunk(digits: seq<byte>, symbols: Symbols) returns (bytes: Option<seq<byte>>)
    requires 2 <= |digits| <= 4
    ensures bytes == DecodeChunk(digits, symbols)
  {
    hide Value, Place, Pack, BigEndian;
    var n: bv32 := 0;
    var index := 0;
    GatherPacks(digits, symbols);
    while index < |digits|
      invariant 0 <= index <= |digits|
      invariant Gather(digits, index, symbols) == Some(n)
    {
      var v := Value(digits[index], symbols);
      if v.None? {
        return None;
      }
      n := Place(n, v.value, index);
      index := index + 1;
    }
    var word := BigEndian(n);
    if exists i :: |digits| <= i < 4 && word[i] != 0 {
      return None;
    }
    bytes := Some(word[1..|digits|]);
  }

  lemma BareOfNothing(symbols: Symbols)
    ensures DecodeBare([], symbols) == Some([])
  {
  }

  lemma FirstChunk(bare: seq<byte>, symbols: Symbols)
    requires |bare| > 0 && |bare| % 4 != 1
    ensures var end := if |bare| < 4 then |bare| else 4;
      var first, rest := DecodeChunk(bare[..end], symbols), DecodeBare(bare[end..], symbols);
      && (DecodeBare(bare, symbols).Some? <==> first.Some? && rest.Some?)
      && (first.Some? && rest.Some? ==> DecodeBare(bare, symbols).value == first.value + rest.value)
  {
    hide DecodeChunk;
    if |bare| <= 4 {
      assert bare[..|bare|] == bare;
    }
  }

  /** The bytes of the chunks of `bare`, from the first chunk to the last one. */
  method ReadChunks(bare: seq<byte>, symbols: Symbols) returns (answer: Option<seq<byte>>)
    requires |bare| % 4 != 1
    ensures answer == DecodeBare(bare, symbols)
  {
    hide DecodeChunk, DecodeBare;
    assert DecodeBare([], symbols) == Some([]) by {
      BareOfNothing(symbols);
    }
    var out := [];
    var at := 0;
    assert bare[0..] == bare;
    while at < |bare|
      invariant 0 <= at <= |bare| && (at % 4 == 0 || at == |bare|)
      invariant DecodeBare(bare, symbols).Some? <==> DecodeBare(bare[at..], symbols).Some?
      invariant DecodeBare(bare, symbols).Some? ==>
        DecodeBare(bare, symbols).value == out + DecodeBare(bare[at..], symbols).value
    {
      var end := if at + 4 <= |bare| then at + 4 else |bare|;
      FirstChunk(bare[at..], symbols);
      assert bare[at..][..end - at] == bare[at..end] && bare[at..][end - at..] == bare[end..];
      var bytes := ReadChunk(bare[at..end], symbols);
      if bytes.None? {
        return None;
      }
      out := out + bytes.value;
      at := end;
    }
    assert bare[at..] == [] && out + [] == out;
    answer := Some(out);
  }

  /** Read a text of this alphabet back, in its padded or its bare form. Every other text gives None. */
  method Decode(text: seq<byte>, symbols: Symbols) returns (answer: Option<seq<byte>>)
    requires Known(symbols)
    ensures answer.Some? ==> text == Padded(answer.value, symbols) || text == Bare(answer.value, symbols)
    ensures answer.None? ==> forall data :: text != Padded(data, symbols) && text != Bare(data, symbols)
  {
    hide Bare, DecodeBare;
    forall data {
      DecodesExactlyTheEncodings(text, data, symbols);
    }
    var bare := Strip(text);
    if |bare| % 4 == 1 || (|bare| != |text| && |text| % 4 != 0) {
      return None;
    }
    answer := ReadChunks(bare, symbols);
  }
}
