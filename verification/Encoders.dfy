/**
 * The incremental request encoder of crates/ai/src/encoder.rs. What it encoded for one call serves the next one, which
 * starts to write at the last element that an unchanged block began.
 */
module Encoders {
  import opened Options
  import opened Blocks
  import opened Wire

  type byte = bv8
  type Hash = bv64

  const COMMA: byte := 44
  const CLOSE: seq<byte> := [93, 125]  // "]}"

  /**
   * The functions of other files. `render` is the text of the element of a group, without its comma: it reads the key,
   * the blocks up to the end of the group with their marks, and the start of the group. A group that the protocol
   * drops has an empty text. Equal digests name equal blob bytes, so a text does not depend on the blob store.
   */
  datatype Codec = Codec(
    hashItem: Item -> Hash,
    hashKey: ElementKey -> Hash,
    render: (ElementKey, seq<Item>, nat) -> seq<byte>)

  /** What the encoder reads of a target and a request. `head` is the text of the request up to its open array. */
  datatype Request = Request(
    key: ElementKey,
    cache: bool,
    toolSearch: bool,
    blocks: seq<Block>,
    cacheable: Option<nat>,
    finiteSampling: bool,
    validHeaders: bool,
    head: seq<byte>,
    headElement: bool)
  {
    /** The blocks that can hold the cache marker. */
    function CacheableBlocks(): seq<Block> {
      if cacheable.Some? && cacheable.value < |blocks| then blocks[..cacheable.value] else blocks
    }

    function Marker(): Option<nat> {
      if cache then CacheIndex(key.protocol, CacheableBlocks()) else None
    }

    function Items(): seq<Item> {
      Marked(blocks, Marker())
    }
  }

  datatype EncodeError = InvalidSampling | DeferredTool | InvalidHeader | WriteFailed

  datatype Encoded = Body(bytes: seq<byte>) | Failed(error: EncodeError)

  // The reference: a request body without any cache.

  /** The texts of the groups from `start`, without the dropped groups. */
  function GroupTexts(codec: Codec, key: ElementKey, items: seq<Item>, start: nat): seq<seq<byte>>
    decreases |items| - start
  {
    if start >= |items| then []
    else
      var end := GroupEnd(key, items, start);
      var text := codec.render(key, items[..end], start);
      var rest := GroupTexts(codec, key, items, end);
      if text == [] then rest else [text] + rest
  }

  function JoinWithCommas(texts: seq<seq<byte>>): seq<byte> {
    if |texts| == 0 then []
    else if |texts| == 1 then texts[0]
    else texts[0] + [COMMA] + JoinWithCommas(texts[1..])
  }

  /** The elements of a request as a fresh encoder writes them. */
  function FreshElements(codec: Codec, request: Request): seq<byte> {
    JoinWithCommas(GroupTexts(codec, request.key, request.Items(), 0))
  }

  /** What a client that knows nothing would send: head and elements, and then both closing brackets. */
  function FreshBody(codec: Codec, request: Request): seq<byte> {
    var elements := FreshElements(codec, request);
    request.head + (if request.headElement && elements != [] then [COMMA] else []) + elements + CLOSE
  }

  // The progress of an encode, group by group.

  /** The first block of an element, and its offset in the buffer, before its comma. */
  datatype Element = Element(block: nat, offset: nat)

  datatype Progress = Progress(start: nat, buffer: seq<byte>, elements: seq<Element>)

  /** `text` behind the elements of `buffer`. A comma comes first exactly when the buffer is not empty. */
  function Appended(buffer: seq<byte>, text: seq<byte>): seq<byte> {
    if text == [] then buffer else if buffer == [] then text else buffer + [COMMA] + text
  }

  function WriteGroup(codec: Codec, key: ElementKey, items: seq<Item>, p: Progress): Progress
    requires p.start < |items|
  {
    var end := GroupEnd(key, items, p.start);
    var text := codec.render(key, items[..end], p.start);
    Progress(end, Appended(p.buffer, text),
             if text == [] then p.elements else p.elements + [Element(p.start, |p.buffer|)])
  }

  /** The progress of a fresh encode after `count` groups. */
  function Groups(codec: Codec, key: ElementKey, items: seq<Item>, count: nat): (p: Progress)
    ensures p.start <= |items|
  {
    if count == 0 then Progress(0, [], [])
    else
      var p := Groups(codec, key, items, count - 1);
      if p.start < |items| then WriteGroup(codec, key, items, p) else p
  }

  /** A fresh encode of `items` comes by `p`. */
  ghost predicate Reached(codec: Codec, key: ElementKey, items: seq<Item>, p: Progress) {
    exists count: nat :: Groups(codec, key, items, count) == p
  }

  lemma ReachedNext(codec: Codec, key: ElementKey, items: seq<Item>, p: Progress)
    requires Reached(codec, key, items, p) && p.start < |items|
    ensures Reached(codec, key, items, WriteGroup(codec, key, items, p))
  {
    var count: nat :| Groups(codec, key, items, count) == p;
    assert Groups(codec, key, items, count + 1) == WriteGroup(codec, key, items, p);
  }

  /** A fresh encode comes by the start of each element that it recorded, with the elements before that one. */
  lemma ReachedElement(codec: Codec, key: ElementKey, items: seq<Item>, p: Progress, index: nat)
    requires Reached(codec, key, items, p) && index < |p.elements|
    ensures var e := p.elements[index];
      && e.block < p.start && e.offset <= |p.buffer|
      && Reached(codec, key, items, Progress(e.block, p.buffer[..e.offset], p.elements[..index]))
  {
    var count: nat :| Groups(codec, key, items, count) == p;
    RecordedElement(codec, key, items, count, index);
  }

  /** A group keeps the buffer and the elements before it, and records at most itself. */
  lemma WriteGroupRecords(codec: Codec, key: ElementKey, items: seq<Item>, p: Progress)
    requires p.start < |items|
    ensures var next := WriteGroup(codec, key, items, p);
      && p.start < next.start <= |items|
      && |p.buffer| <= |next.buffer| && next.buffer[..|p.buffer|] == p.buffer
      && (next.elements == p.elements || next.elements == p.elements + [Element(p.start, |p.buffer|)])
  {
    hide GroupEnd;
  }

  lemma {:induction false} RecordedElement(codec: Codec, key: ElementKey, items: seq<Item>, count: nat, index: nat)
    requires index < |Groups(codec, key, items, count).elements|
    ensures var p := Groups(codec, key, items, count);
      var e := p.elements[index];
      && e.block < p.start && e.offset <= |p.buffer|
      && Reached(codec, key, items, Progress(e.block, p.buffer[..e.offset], p.elements[..index]))
  {
    hide WriteGroup;
    var before := Groups(codec, key, items, count - 1);
    var p := Groups(codec, key, items, count);
    if before.start < |items| {
      WriteGroupRecords(codec, key, items, before);
    }
    if index < |before.elements| {
      RecordedElement(codec, key, items, count - 1, index);
      var e := before.elements[index];
      assert p.buffer[..e.offset] == before.buffer[..e.offset];
      assert p.elements[..index] == before.elements[..index];
    } else {
      assert p.elements[..index] == before.elements && p.buffer[..|before.buffer|] == before.buffer;
      assert p.elements[index] == Element(before.start, |before.buffer|);
      assert Groups(codec, key, items, count - 1) == before;
    }
  }

  lemma AgreeShorter(a: seq<Item>, b: seq<Item>, end: nat, longer: nat)
    requires end <= longer && AgreeThrough(a, b, longer)
    ensures AgreeThrough(a, b, end) && end < |a| && end < |b|
  {
    assert a[..end + 1] == a[..longer + 1][..end + 1];
    assert b[..end + 1] == b[..longer + 1][..end + 1];
  }

  lemma WriteGroupIsLocal(codec: Codec, key: ElementKey, a: seq<Item>, b: seq<Item>, p: Progress)
    requires p.start < |a| && p.start < |b| && AgreeThrough(a, b, WriteGroup(codec, key, a, p).start)
    ensures WriteGroup(codec, key, b, p) == WriteGroup(codec, key, a, p)
  {
    hide GroupEnd;
    var end := GroupEnd(key, a, p.start);
    GroupEndIsLocal(key, a, b, p.start);
    assert a[..end] == a[..end + 1][..end] == b[..end];
  }

  /**
   * The heart of the cache: an encode that came by a block comes by it in the same way in every context that agrees up
   * to that block and holds it.
   */
  lemma {:induction false} GroupsAreLocal(codec: Codec, key: ElementKey, a: seq<Item>, b: seq<Item>, count: nat)
    requires AgreeThrough(a, b, Groups(codec, key, a, count).start)
    ensures Groups(codec, key, b, count) == Groups(codec, key, a, count)
  {
    hide WriteGroup, AgreeThrough;
    if count > 0 {
      var p := Groups(codec, key, a, count - 1);
      AgreeShorter(a, b, Groups(codec, key, a, count).start, Groups(codec, key, a, count).start);
      assert p.start < |a|;
      WriteGroupRecords(codec, key, a, p);
      AgreeShorter(a, b, p.start, WriteGroup(codec, key, a, p).start);
      GroupsAreLocal(codec, key, a, b, count - 1);
      WriteGroupIsLocal(codec, key, a, b, p);
    }
  }

  lemma ReachedIsLocal(codec: Codec, key: ElementKey, a: seq<Item>, b: seq<Item>, p: Progress)
    requires Reached(codec, key, a, p) && AgreeThrough(a, b, p.start)
    ensures Reached(codec, key, b, p)
  {
    var count: nat :| Groups(codec, key, a, count) == p;
    GroupsAreLocal(codec, key, a, b, count);
  }

  lemma ElementsAscend(codec: Codec, key: ElementKey, items: seq<Item>, p: Progress)
    requires Reached(codec, key, items, p)
    ensures forall i :: 0 <= i < |p.elements| ==> p.elements[i].block < p.start
  {
    forall i | 0 <= i < |p.elements|
      ensures p.elements[i].block < p.start
    {
      ReachedElement(codec, key, items, p, i);
    }
  }

  lemma SameThrough(a: seq<Item>, b: seq<Item>, same: nat, end: nat)
    requires end < same <= |a| && same <= |b| && a[..same] == b[..same]
    ensures AgreeThrough(a, b, end)
  {
    assert a[..end + 1] == a[..same][..end + 1];
    assert b[..end + 1] == b[..same][..end + 1];
  }

  // The groups of a whole encode give the reference.

  /** The elements `texts` behind the elements of `buffer`. */
  function Joined(buffer: seq<byte>, texts: seq<seq<byte>>): seq<byte> {
    Appended(buffer, JoinWithCommas(texts))
  }

  lemma JoinAppends(buffer: seq<byte>, text: seq<byte>, rest: seq<seq<byte>>)
    requires text != [] && [] !in rest
    ensures Joined(buffer, [text] + rest) == Joined(Appended(buffer, text), rest)
  {
    assert ([text] + rest)[1..] == rest;
    if rest != [] {
      JoinIsNotEmpty(rest);
      assert JoinWithCommas([text] + rest) == text + [COMMA] + JoinWithCommas(rest);
    }
  }

  lemma JoinIsNotEmpty(texts: seq<seq<byte>>)
    requires texts != [] && [] !in texts
    ensures JoinWithCommas(texts) != []
  {
  }

  lemma {:induction false} TextsAreNotEmpty(codec: Codec, key: ElementKey, items: seq<Item>, start: nat)
    ensures [] !in GroupTexts(codec, key, items, start)
    decreases |items| - start
  {
    if start < |items| {
      TextsAreNotEmpty(codec, key, items, GroupEnd(key, items, start));
    }
  }

  /** One group moves its text from the rest of the context to the end of the buffer. */
  lemma OneGroupJoins(codec: Codec, key: ElementKey, items: seq<Item>, p: Progress)
    requires p.start < |items|
    ensures var next := WriteGroup(codec, key, items, p);
      Joined(next.buffer, GroupTexts(codec, key, items, next.start))
      == Joined(p.buffer, GroupTexts(codec, key, items, p.start))
  {
    hide Joined, JoinWithCommas;
    var end := GroupEnd(key, items, p.start);
    var text := codec.render(key, items[..end], p.start);
    if text != [] {
      TextsAreNotEmpty(codec, key, items, end);
      JoinAppends(p.buffer, text, GroupTexts(codec, key, items, end));
    }
  }

  lemma {:induction false} GroupsJoin(codec: Codec, key: ElementKey, items: seq<Item>, count: nat)
    ensures var p := Groups(codec, key, items, count);
      Joined(p.buffer, GroupTexts(codec, key, items, p.start)) == JoinWithCommas(GroupTexts(codec, key, items, 0))
  {
    hide JoinWithCommas, GroupTexts, WriteGroup;
    if count > 0 {
      hide Joined;
      GroupsJoin(codec, key, items, count - 1);
      var before := Groups(codec, key, items, count - 1);
      if before.start < |items| {
        OneGroupJoins(codec, key, items, before);
      }
    }
  }

  /** An encode that came by the end of its context holds the elements of the reference. */
  lemma ReachedEnd(codec: Codec, request: Request, p: Progress)
    requires Reached(codec, request.key, request.Items(), p) && p.start == |request.Items()|
    ensures p.buffer == FreshElements(codec, request)
  {
    var count: nat :| Groups(codec, request.key, request.Items(), count) == p;
    GroupsJoin(codec, request.key, request.Items(), count);
  }

  // The encoder.

  /** The hashes of `items`. */
  function Hashes(codec: Codec, items: seq<Item>): (hashes: seq<Hash>)
    ensures |hashes| == |items|
  {
    seq(|items|, i requires 0 <= i < |items| => codec.hashItem(items[i]))
  }

  lemma HashesAppend(codec: Codec, items: seq<Item>, at: nat)
    requires at <= |items|
    ensures Hashes(codec, items[..at]) + Hashes(codec, items[at..]) == Hashes(codec, items)
  {
  }

  class Encoder {
    const codec: Codec
    /** The bytes kept between two calls. The comma-joined elements come first, and the newest head may follow. */
    var items: seq<byte>
    /** The hash of each block that the elements encode, with its mark. */
    var hashes: seq<Hash>
    var elements: seq<Element>
    /** The hash of the key of the elements. */
    var key: Hash
    /** Behind a successful call, the length of the element part of `items`. */
    var elementsEnd: Option<nat>

    /** The key and the blocks behind the hashes, and the groups that the last encode wrote. */
    ghost var heldKey: Option<ElementKey>
    ghost var held: seq<Item>
    ghost var written: seq<nat>

    ghost predicate Valid()
      reads this
    {
      && hashes == Hashes(codec, held)
      && match heldKey
         case None => held == [] && elements == [] && elementsEnd.None?
         case Some(k) =>
           && key == codec.hashKey(k)
           && LastReached(k, held)
           && (elementsEnd.Some? ==>
               && elementsEnd.value <= |items|
               && Reached(codec, k, held, Progress(|held|, items[..elementsEnd.value], elements)))
    }

    /**
     * A fresh encode comes by the start of the last element, with the elements before it. The bytes from there on can
     * be partial.
     */
    ghost predicate LastReached(k: ElementKey, blocks: seq<Item>)
      reads this
    {
      |elements| > 0 ==>
        var last := elements[|elements| - 1];
        && last.block < |blocks| && last.offset <= |items|
        && Reached(codec, k, blocks, Progress(last.block, items[..last.offset], elements[..|elements| - 1]))
    }

    /** No hash collides between what the encoder holds and a new request. */
    ghost predicate NoCollision(k: ElementKey, blocks: seq<Item>)
      reads this
    {
      && (heldKey.Some? && codec.hashKey(heldKey.value) == codec.hashKey(k) ==> heldKey.value == k)
      && forall i :: 0 <= i < |held| && i < |blocks| && codec.hashItem(held[i]) == codec.hashItem(blocks[i]) ==>
           held[i] == blocks[i]
    }

    /** The last encode succeeded, with this key and these blocks. */
    ghost predicate Holds(k: ElementKey, blocks: seq<Item>)
      reads this
    {
      elementsEnd.Some? && heldKey == Some(k) && held == blocks
    }

    constructor (codec: Codec)
      ensures Valid() && this.codec == codec && held == [] && heldKey.None?
    {
      this.codec := codec;
      items, hashes, elements := [], [], [];
      key := 0;
      elementsEnd := None;
      heldKey, held, written := None, [], [];
    }

    /** The number of first blocks whose hashes did not change. */
    method CountSame(ghost k: ElementKey, blocks: seq<Item>) returns (same: nat)
      requires hashes == Hashes(codec, held) && NoCollision(k, blocks)
      ensures same <= |held| && same <= |blocks| && held[..same] == blocks[..same]
      ensures same < |held| && same < |blocks| ==> held[same] != blocks[same]
    {
      same := 0;
      while same < |hashes| && same < |blocks| && hashes[same] == codec.hashItem(blocks[same])
        invariant 0 <= same <= |hashes| && same <= |blocks|
        invariant held[..same] == blocks[..same]
      {
        same := same + 1;
      }
    }

    /**
     * Cut elements off the end until one starts at an unchanged block, cut that one too, and say where it started. Its
     * end depended on a block that may be a different one now.
     */
    method DropChanged(ghost k: ElementKey, ghost before: seq<Item>, blocks: seq<Item>, same: nat)
        returns (from: nat)
      requires LastReached(k, before)
      requires same <= |before| && same <= |blocks| && before[..same] == blocks[..same]
      modifies this`elements, this`items
      ensures from <= |blocks| && Reached(codec, k, blocks, Progress(from, items, elements))
      ensures forall i :: 0 <= i < |old(elements)| && old(elements)[i].block < same ==> old(elements)[i].block <= from
    {
      hide Reached;
      while |elements| > 0
        invariant LastReached(k, before)
        invariant elements <= old(elements) && items == old(items)
        invariant forall i :: |elements| <= i < |old(elements)| ==> old(elements)[i].block >= same
      {
        var last := elements[|elements| - 1];
        ghost var p := Progress(last.block, items[..last.offset], elements[..|elements| - 1]);
        elements := elements[..|elements| - 1];
        if last.block < same {
          SameThrough(before, blocks, same, last.block);
          ReachedIsLocal(codec, k, before, blocks, p);
          ElementsAscend(codec, k, before, p);
          items := items[..last.offset];
          return last.block;
        }
        if |elements| > 0 {
          ReachedElement(codec, k, before, p, |elements| - 1);
          assert p.buffer[..elements[|elements| - 1].offset] == items[..elements[|elements| - 1].offset];
        }
      }
      items := [];
      ReachedStart(codec, k, blocks);
      from := 0;
    }

    /**
     * Cut the kept bytes back to a point that every encode of `blocks` passes, and say which block comes next there.
     * Only hashes of unchanged blocks are kept.
     */
    method Keep(ghost k: ElementKey, newKey: Hash, blocks: seq<Item>) returns (from: nat)
      requires Valid() && newKey == codec.hashKey(k) && NoCollision(k, blocks)
      modifies this
      ensures from <= |blocks| && Reached(codec, k, blocks, Progress(from, items, elements))
      ensures |hashes| <= |blocks| && hashes == Hashes(codec, blocks[..|hashes|])
      ensures heldKey == Some(k) && held == blocks[..|hashes|] && key == newKey && elementsEnd.None?
      ensures written == old(written)
      ensures old(Holds(k, blocks)) ==> from == |blocks|
      // The hashes that stay are those of exactly the common first blocks.
      ensures old(heldKey) == Some(k) ==> |hashes| <= |old(held)| && old(held)[..|hashes|] == blocks[..|hashes|]
      ensures old(heldKey) == Some(k) && |hashes| < |old(held)| && |hashes| < |blocks| ==>
        old(held)[|hashes|] != blocks[|hashes|]
      // No element that starts in them is cut, except the last one.
      ensures !old(Holds(k, blocks)) && old(heldKey) == Some(k) ==>
        forall i :: 0 <= i < |old(elements)| && old(elements)[i].block < |hashes| ==> old(elements)[i].block <= from
    {
      hide Reached;
      var complete := elementsEnd;
      elementsEnd := None;
      var sameKey := key == newKey;
      key := newKey;
      if !sameKey {
        items, hashes, elements := [], [], [];
        heldKey, held := Some(k), [];
        ReachedStart(codec, k, blocks);
        return 0;
      }
      heldKey := Some(k);
      var same := CountSame(k, blocks);
      if complete.Some? && same == |blocks| && same == |hashes| {
        assert held == held[..same] == blocks[..same] == blocks;
        items := items[..complete.value];
        return same;
      }
      ghost var before := held;
      hashes := hashes[..same];
      held := blocks[..same];
      from := DropChanged(k, before, blocks, same);
    }

    /**
     * Write the elements of the groups from `from`, and return whether no write failed. `faults` holds the groups
     * whose write fails, for example because a blob does not resolve, with the bytes that the failed write leaves.
     */
    method WriteElements(k: ElementKey, blocks: seq<Item>, from: nat, faults: map<nat, seq<byte>>)
        returns (wrote: bool)
      requires from <= |blocks| && Reached(codec, k, blocks, Progress(from, items, elements))
      modifies this`items, this`elements, this`written
      ensures LastReached(k, blocks)
      ensures wrote ==> Reached(codec, k, blocks, Progress(|blocks|, items, elements))
      ensures !wrote ==> exists start :: start in written && start in faults
      ensures from == |blocks| ==> wrote && written == old(written)
      ensures old(written) <= written && forall i :: |old(written)| <= i < |written| ==> written[i] >= from
    {
      hide Reached;
      var start := from;
      while start < |blocks|
        invariant from <= start <= |blocks|
        invariant Reached(codec, k, blocks, Progress(start, items, elements))
        invariant from == |blocks| ==> written == old(written)
        invariant old(written) <= written && forall i :: |old(written)| <= i < |written| ==> written[i] >= from
        decreases |blocks| - start
      {
        var offset := |items|;
        ghost var p := Progress(start, items, elements);
        // The record comes before the bytes, so a later call knows where to cut when this write fails.
        elements := elements + [Element(start, offset)];
        written := written + [start];
        assert elements[..|elements| - 1] == p.elements;
        if start in faults {
          items := items + faults[start];
          assert items[..offset] == p.buffer;
          return false;
        }
        var end := GroupEnd(k, blocks, start);
        items := Appended(items, codec.render(k, blocks[..end], start));
        // Nothing was written for this group, so it has no record either.
        if |items| == offset {
          elements := elements[..|elements| - 1];
        }
        ReachedNext(codec, k, blocks, p);
        start := end;
      }
      if |elements| > 0 {
        ReachedElement(codec, k, blocks, Progress(start, items, elements), |elements| - 1);
      }
      wrote := true;
    }

    /** Bring what the encoder holds from the last blocks to `blocks`, and say whether no write failed. */
    method Advance(k: ElementKey, blocks: seq<Item>, faults: map<nat, seq<byte>>) returns (wrote: bool)
      requires Valid() && NoCollision(k, blocks)
      modifies this
      ensures hashes == Hashes(codec, blocks) && heldKey == Some(k) && held == blocks
      ensures key == codec.hashKey(k) && elementsEnd.None? && LastReached(k, blocks)
      ensures wrote ==> Reached(codec, k, blocks, Progress(|blocks|, items, elements))
      ensures !wrote ==> exists start :: start in written && start in faults
      ensures old(Holds(k, blocks)) ==> wrote && written == []
      ensures old(heldKey) == Some(k) ==> WritesChanges(old(elements), old(held), blocks, written)
    {
      hide Reached, Hashes, WritesChanges;
      ghost var before, last := elements, held;
      ghost var same, held := heldKey == Some(k), Holds(k, blocks);
      written := [];
      var from := Keep(k, codec.hashKey(k), blocks);
      ghost var shared := |hashes|;
      HashesAppend(codec, blocks, |hashes|);
      hashes := hashes + Hashes(codec, blocks[|hashes|..]);
      this.held := blocks;
      wrote := WriteElements(k, blocks, from, faults);
      if held {
        NothingWritten(before, last, blocks);
      } else if same {
        WritesFrom(before, last, blocks, shared, from, written);
      }
    }

    /** Put the head behind the elements of the request. The answer is where the elements end. */
    method Serialize(request: Request, faults: map<nat, seq<byte>>) returns (end: Option<nat>)
      requires Valid() && NoCollision(request.key, request.Items())
      modifies this
      ensures Valid()
      ensures end.Some? ==>
        && Holds(request.key, request.Items())
        && elementsEnd == end && end.value <= |items|
        && items[..end.value] == FreshElements(codec, request)
        && items[end.value..] == request.head + (if request.headElement && end.value != 0 then [COMMA] else [])
      ensures old(Holds(request.key, request.Items())) ==> end.Some? && written == []
      ensures end.None? ==> exists start :: start in written && start in faults
      ensures heldKey == Some(request.key) && held == request.Items()
      ensures old(heldKey) == Some(request.key) ==>
        WritesChanges(old(elements), old(held), request.Items(), written)
    {
      hide Reached, FreshElements, Hashes, WritesChanges;
      var k := request.key;
      var blocks := request.Items();
      var wrote := Advance(k, blocks, faults);
      if !wrote {
        return None;
      }
      // The head stays behind the elements until a later call cuts it off.
      end := Some(|items|);
      ReachedEnd(codec, request, Progress(|blocks|, items, elements));
      ghost var done := items;
      elementsEnd := end;
      WriteHead(request);
      assert items[..|done|] == done;
      assert |elements| > 0 ==>
        var offset := elements[|elements| - 1].offset; items[..offset] == done[..offset];
    }

    /** Write the head behind the elements. A comma closes the elements when the head is one more. */
    method WriteHead(request: Request)
      modifies this`items
      ensures items == old(items) + request.head + if request.headElement && old(items) != [] then [COMMA] else []
    {
      var end := |items|;
      items := items + request.head;
      if request.headElement && end != 0 {
        items := items + [COMMA];
      }
    }

    /**
     * Encode `request`. A body that it gives equals the body that a fresh encoder gives, whatever calls came before.
     * A request with the key and the blocks of a successful encode writes no group, so no group of it can fail.
     */
    method Encode(request: Request, faults: map<nat, seq<byte>>) returns (encoded: Encoded)
      requires Valid() && NoCollision(request.key, request.Items())
      modifies this
      ensures Valid()
      ensures encoded.Body? ==> encoded.bytes == FreshBody(codec, request)
      ensures encoded.Body? ==> Holds(request.key, request.Items())
      ensures encoded.Body? <== Sendable(request) && (faults == map[] || old(Holds(request.key, request.Items())))
      ensures encoded.Failed? && encoded.error != WriteFailed ==>
        !Sendable(request) && heldKey == old(heldKey) && held == old(held) && elementsEnd == old(elementsEnd)
      ensures encoded.Body? ==> Sendable(request)
      ensures encoded.Failed? && encoded.error == WriteFailed ==>
        heldKey == Some(request.key) && held == request.Items()
      ensures old(heldKey) == Some(request.key) && (encoded.Body? || encoded.error == WriteFailed) ==>
        WritesChanges(old(elements), old(held), request.Items(), written)
    {
      if !request.finiteSampling {
        return Failed(InvalidSampling);
      }
      // The flag says nothing for a protocol that cannot search its tools.
      var searches := request.toolSearch && request.key.protocol != OpenaiChat;
      if !searches && request.key.defersTools {
        return Failed(DeferredTool);
      }
      if !request.validHeaders {
        return Failed(InvalidHeader);
      }
      var end := Serialize(request, faults);
      if end.None? {
        return Failed(WriteFailed);
      }
      encoded := Body(items[end.value..] + items[..end.value] + CLOSE);
    }
  }

  /** Two contexts share their first blocks up to and with block `n`. */
  predicate SharedThrough(a: seq<Item>, b: seq<Item>, n: nat) {
    n < |a| && n < |b| && a[..n + 1] == b[..n + 1]
  }

  /** No group is written before an element that starts at a shared block. */
  ghost predicate WritesChanges(elements: seq<Element>, before: seq<Item>, blocks: seq<Item>, written: seq<nat>) {
    forall i, w :: 0 <= i < |elements| && w in written && SharedThrough(before, blocks, elements[i].block) ==>
      elements[i].block <= w
  }

  lemma NothingWritten(elements: seq<Element>, before: seq<Item>, blocks: seq<Item>)
    ensures WritesChanges(elements, before, blocks, [])
  {
  }

  lemma SharedBelow(before: seq<Item>, blocks: seq<Item>, shared: nat, n: nat)
    requires shared < |before| && shared < |blocks| ==> before[shared] != blocks[shared]
    requires SharedThrough(before, blocks, n)
    ensures n < shared
  {
    assert forall k :: 0 <= k <= n ==> before[k] == before[..n + 1][k] && blocks[k] == blocks[..n + 1][k];
  }

  lemma WritesFrom(elements: seq<Element>, before: seq<Item>, blocks: seq<Item>, shared: nat, from: nat,
                   written: seq<nat>)
    requires shared < |before| && shared < |blocks| ==> before[shared] != blocks[shared]
    requires forall i :: 0 <= i < |elements| && elements[i].block < shared ==> elements[i].block <= from
    requires forall i :: 0 <= i < |written| ==> written[i] >= from
    ensures WritesChanges(elements, before, blocks, written)
  {
    forall i, w | 0 <= i < |elements| && w in written && SharedThrough(before, blocks, elements[i].block)
      ensures elements[i].block <= w
    {
      SharedBelow(before, blocks, shared, elements[i].block);
    }
  }

  /** The checks before the first write let the request through. */
  predicate Sendable(request: Request) {
    && request.finiteSampling
    && (request.key.defersTools ==> request.toolSearch && request.key.protocol != OpenaiChat)
    && request.validHeaders
  }

  /** One call of an encoder. */
  datatype Attempt = Attempt(request: Request, faults: map<nat, seq<byte>>)

  /** Two requests have the same key, the same blocks, and the same marks. */
  predicate SameElements(a: Request, b: Request) {
    a.key == b.key && a.Items() == b.Items()
  }

  /** No hash of `a` collides with a hash of `b`. */
  ghost predicate NoClash(codec: Codec, a: Request, b: Request) {
    var x, y := a.Items(), b.Items();
    && (codec.hashKey(a.key) == codec.hashKey(b.key) ==> a.key == b.key)
    && (forall n :: 0 <= n < |x| && n < |y| && codec.hashItem(x[n]) == codec.hashItem(y[n]) ==> x[n] == y[n])
  }

  /**
   * What a call of a history gives: a body equals the body of a fresh encoder, and a call fails only for the settings
   * of its own request or for a write of its own. A request that repeats the elements of a successful call before it
   * writes nothing, so no write of it fails.
   */
  ghost predicate Served(codec: Codec, calls: seq<Attempt>, bodies: seq<Encoded>, i: nat)
    requires i < |bodies| <= |calls|
  {
    var request := calls[i].request;
    && (bodies[i].Body? ==> Sendable(request) && bodies[i].bytes == FreshBody(codec, request))
    && (Sendable(request) && calls[i].faults == map[] ==> bodies[i].Body?)
    && (Sendable(request) && i > 0 && bodies[i - 1].Body? && SameElements(calls[i - 1].request, request) ==>
          bodies[i].Body?)
  }

  /** What an encoder holds after the calls that gave `bodies`: the request of the call `holder`, or nothing. */
  ghost predicate HoldsAfter(encoder: Encoder, codec: Codec, calls: seq<Attempt>, bodies: seq<Encoded>, holder: nat)
    requires |bodies| <= |calls|
    reads encoder
  {
    && encoder.Valid() && encoder.codec == codec
    && (encoder.heldKey.Some? ==>
          && holder < |bodies|
          && encoder.heldKey == Some(calls[holder].request.key) && encoder.held == calls[holder].request.Items())
    && (|bodies| > 0 && bodies[|bodies| - 1].Body? ==>
          encoder.Holds(calls[|bodies| - 1].request.key, calls[|bodies| - 1].request.Items()))
  }

  ghost predicate NoClashes(codec: Codec, calls: seq<Attempt>) {
    forall i, j :: 0 <= j < i < |calls| ==> NoClash(codec, calls[j].request, calls[i].request)
  }

  lemma NoCollisionAfter(encoder: Encoder, codec: Codec, calls: seq<Attempt>, bodies: seq<Encoded>, holder: nat)
    requires |bodies| < |calls| && NoClashes(codec, calls) && HoldsAfter(encoder, codec, calls, bodies, holder)
    ensures encoder.NoCollision(calls[|bodies|].request.key, calls[|bodies|].request.Items())
  {
    hide Reached, Hashes, Encoder.LastReached;
    if encoder.heldKey.Some? {
      assert NoClash(codec, calls[holder].request, calls[|bodies|].request);
    }
  }

  /** One more call on an encoder with any history. */
  method EncodeNext(encoder: Encoder, codec: Codec, calls: seq<Attempt>, bodies: seq<Encoded>, ghost holder: nat)
      returns (encoded: Encoded, ghost next: nat)
    requires |bodies| < |calls| && NoClashes(codec, calls) && HoldsAfter(encoder, codec, calls, bodies, holder)
    modifies encoder
    ensures HoldsAfter(encoder, codec, calls, bodies + [encoded], next)
    ensures Served(codec, calls, bodies + [encoded], |bodies|)
  {
    hide FreshBody, Sendable, NoClashes, Reached, Hashes, Encoder.NoCollision, Encoder.LastReached, Request.Items;
    var call := calls[|bodies|];
    NoCollisionAfter(encoder, codec, calls, bodies, holder);
    encoded := encoder.Encode(call.request, call.faults);
    next := if encoded.Body? || encoded.error == WriteFailed then |bodies| else holder;
  }

  /** Every history of calls on one encoder, with any contexts, markers, keys, settings, and failed writes. */
  method EncodeAll(codec: Codec, calls: seq<Attempt>) returns (bodies: seq<Encoded>)
    requires NoClashes(codec, calls)
    ensures |bodies| == |calls|
    ensures forall i :: 0 <= i < |calls| ==> Served(codec, calls, bodies, i)
  {
    hide Served, NoClashes;
    var encoder := new Encoder(codec);
    bodies := [];
    ghost var holder: nat := 0;
    while |bodies| < |calls|
      invariant |bodies| <= |calls| && fresh(encoder) && HoldsAfter(encoder, codec, calls, bodies, holder)
      invariant forall i :: 0 <= i < |bodies| ==> Served(codec, calls, bodies, i)
    {
      ghost var before := bodies;
      var encoded;
      encoded, holder := EncodeNext(encoder, codec, calls, bodies, holder);
      ServedBefore(codec, calls, before, encoded);
      bodies := bodies + [encoded];
    }
  }

  lemma ServedBefore(codec: Codec, calls: seq<Attempt>, bodies: seq<Encoded>, encoded: Encoded)
    requires |bodies| < |calls| && forall i :: 0 <= i < |bodies| ==> Served(codec, calls, bodies, i)
    ensures forall i :: 0 <= i < |bodies| ==> Served(codec, calls, bodies + [encoded], i)
  {
    hide FreshBody, Sendable;
    forall i | 0 <= i < |bodies|
      ensures Served(codec, calls, bodies + [encoded], i)
    {
      assert Served(codec, calls, bodies, i);
    }
  }

  lemma ReachedStart(codec: Codec, key: ElementKey, items: seq<Item>)
    ensures Reached(codec, key, items, Progress(0, [], []))
  {
    assert Groups(codec, key, items, 0) == Progress(0, [], []);
  }
}
