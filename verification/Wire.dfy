/**
 * The groups of blocks that make the elements of a request, for the three protocols of crates/ai/src/wire. A group
 * ends at a block that the group itself, the blocks before it, and the one block after it decide.
 */
module Wire {
  import opened Options
  import opened Blocks

  datatype ReplayMode = NoReplay | ReasoningContent | ReasoningDetails

  /** The settings that the elements read. The bytes of elements depend on nothing else of the settings. */
  datatype ElementKey = ElementKey(
    protocol: Protocol,
    origin: Origin,
    defersTools: bool,
    replayMode: Option<ReplayMode>)

  /** A block, and whether it holds the cache marker. */
  datatype Item = Item(block: Block, marked: bool)

  /** Whether a reasoning block returns its provider state to this target. */
  predicate Replays(key: ElementKey, replay: Option<ReplayState>) {
    && replay.Some?
    && replay.value.origin == key.origin
    && replay.value.kind.Protocol() == key.protocol
    && !(replay.value.kind == ResponsesEncrypted && replay.value.data == "")
  }

  /** Whether the protocol writes `block`. */
  predicate Writes(key: ElementKey, block: Block) {
    block.Reasoning? ==> Replays(key, block.replay)
  }

  predicate InMessage(block: Block) {
    block.UserText? || block.AssistantText? || block.Attachment?
  }

  /** Which blocks join the run of a group. */
  datatype Run =
    | OfRole(role: Role)
    | OfResults
    | OfUserContent
    | OfMessage(role: Role)
  {
    predicate Joins(key: ElementKey, block: Block) {
      match this
      case OfRole(role) => block.Role() == role
      case OfResults => block.Result?
      case OfUserContent => block.UserText? || block.Attachment?
      // A thought without anything to send does not end the item before it.
      case OfMessage(role) => (InMessage(block) && block.Role() == role) || !Writes(key, block)
    }
  }

  /** The first index from `at` whose block does not join `run`, or the end of the context. */
  function RunEnd(key: ElementKey, items: seq<Item>, at: nat, run: Run): (end: nat)
    requires at <= |items|
    ensures at <= end <= |items|
    ensures forall i :: at <= i < end ==> run.Joins(key, items[i].block)
    ensures end < |items| ==> !run.Joins(key, items[end].block)
    decreases |items| - at
  {
    if at < |items| && run.Joins(key, items[at].block) then RunEnd(key, items, at + 1, run) else at
  }

  /** Whether a result from `start` to `end` has media. */
  predicate HasMedia(items: seq<Item>, start: nat, end: nat)
    requires end <= |items|
  {
    exists i :: start <= i < end && items[i].block.Result? && items[i].block.result.media != []
  }

  /** The end of the group from `start`. */
  function GroupEnd(key: ElementKey, items: seq<Item>, start: nat): (end: nat)
    requires start < |items|
    ensures start < end <= |items|
  {
    var first := items[start].block;
    match key.protocol
    case AnthropicMessages =>
      // A message is a run of one role.
      RunEnd(key, items, start + 1, OfRole(first.Role()))
    case OpenaiChat =>
      if first.Result? then
        // A tool message holds text only, so the media of its results join the user blocks that follow.
        var resultsEnd := RunEnd(key, items, start + 1, OfResults);
        if HasMedia(items, start, resultsEnd) then RunEnd(key, items, resultsEnd, OfUserContent) else resultsEnd
      else if first.UserText? || first.Attachment? then
        RunEnd(key, items, start + 1, OfUserContent)
      else
        RunEnd(key, items, start + 1, OfRole(Assistant))
    case OpenaiResponses =>
      // Only text and media share an item, as long as the role stays the same.
      if InMessage(first) then RunEnd(key, items, start + 1, OfMessage(first.Role())) else start + 1
  }

  /** Two contexts agree on the blocks up to `end`, and both hold the block at `end`. */
  predicate AgreeThrough(a: seq<Item>, b: seq<Item>, end: nat) {
    end < |a| && end < |b| && a[..end + 1] == b[..end + 1]
  }

  lemma {:induction false} RunEndIsLocal(key: ElementKey, a: seq<Item>, b: seq<Item>, at: nat, run: Run)
    requires at <= |a| && AgreeThrough(a, b, RunEnd(key, a, at, run))
    ensures RunEnd(key, b, at, run) == RunEnd(key, a, at, run)
    decreases |a| - at
  {
    assert a[at] == a[..RunEnd(key, a, at, run) + 1][at] == b[at];
    if run.Joins(key, a[at].block) {
      RunEndIsLocal(key, a, b, at + 1, run);
    }
  }

  lemma AgreeLess(a: seq<Item>, b: seq<Item>, less: nat, end: nat)
    requires AgreeThrough(a, b, end) && less <= end
    ensures AgreeThrough(a, b, less)
  {
    assert a[..less + 1] == a[..end + 1][..less + 1] == b[..less + 1];
  }

  lemma SameMedia(a: seq<Item>, b: seq<Item>, start: nat, end: nat)
    requires AgreeThrough(a, b, end)
    ensures HasMedia(a, start, end) == HasMedia(b, start, end)
  {
    assert forall i :: 0 <= i < end ==> a[i] == a[..end + 1][i] == b[i];
  }

  /**
   * A group that ends before the end of its context ends at the same block in every context that agrees up to the one
   * block after it, for each protocol.
   */
  lemma GroupEndIsLocal(key: ElementKey, a: seq<Item>, b: seq<Item>, start: nat)
    requires start < |a| && AgreeThrough(a, b, GroupEnd(key, a, start))
    ensures GroupEnd(key, b, start) == GroupEnd(key, a, start)
  {
    hide RunEnd, HasMedia;
    assert a[start] == a[..GroupEnd(key, a, start) + 1][start] == b[start];
    var first := a[start].block;
    match key.protocol
    case AnthropicMessages =>
      RunEndIsLocal(key, a, b, start + 1, OfRole(first.Role()));
    case OpenaiChat =>
      if first.Result? {
        var resultsEnd := RunEnd(key, a, start + 1, OfResults);
        AgreeLess(a, b, resultsEnd, GroupEnd(key, a, start));
        RunEndIsLocal(key, a, b, start + 1, OfResults);
        SameMedia(a, b, start, resultsEnd);
        if HasMedia(a, start, resultsEnd) {
          RunEndIsLocal(key, a, b, resultsEnd, OfUserContent);
        }
      } else if first.UserText? || first.Attachment? {
        RunEndIsLocal(key, a, b, start + 1, OfUserContent);
      } else {
        RunEndIsLocal(key, a, b, start + 1, OfRole(Assistant));
      }
    case OpenaiResponses =>
      if InMessage(first) {
        RunEndIsLocal(key, a, b, start + 1, OfMessage(first.Role()));
      }
  }

  // The cache marker.

  /** Whether a cache marker may sit on this block. One of the protocols has no such marker. */
  predicate Cacheable(protocol: Protocol, block: Block) {
    match protocol
    case AnthropicMessages => !block.Reasoning?
    case OpenaiChat => false
    case OpenaiResponses => block.UserText?
  }

  /** The last block of `blocks` that can carry the marker. */
  function CacheIndex(protocol: Protocol, blocks: seq<Block>): (marker: Option<nat>)
    ensures marker.Some? ==> marker.value < |blocks| && Cacheable(protocol, blocks[marker.value])
    ensures forall i :: 0 <= i < |blocks| && Cacheable(protocol, blocks[i]) ==> marker.Some? && i <= marker.value
  {
    if |blocks| == 0 then None
    else if Cacheable(protocol, blocks[|blocks| - 1]) then Some(|blocks| - 1)
    else CacheIndex(protocol, blocks[..|blocks| - 1])
  }

  /** The blocks with their marks. */
  function Marked(blocks: seq<Block>, marker: Option<nat>): (items: seq<Item>)
    ensures |items| == |blocks|
  {
    seq(|blocks|, i requires 0 <= i < |blocks| => Item(blocks[i], marker == Some(i)))
  }
}
