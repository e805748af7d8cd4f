/**
 * The reduction of one attempt (crates/ai/src/reply.rs, with the event types of crates/ai/src/response.rs). The
 * reducers of crates/ai/src/stream give each block the next id, and the blocks of one stream can interleave.
 */
module Replies {
  import opened Options
  import opened Sequences
  import opened Blocks
  import opened Commits

  datatype BlockKind = TextKind | RefusalKind | ReasoningKind | CallKind

  /** The final facts of a block, beside the text of its deltas. */
  datatype BlockResult = TextDone | RefusalDone | ReasoningDone(replay: Option<ReplayState>) | CallDone(call: ToolCall)

  datatype Event =
    | BlockStarted(id: nat, kind: BlockKind)
    | TextDelta(id: nat, text: string)
    | RefusalDelta(id: nat, text: string)
    | ReasoningDelta(id: nat, text: string)
    | SectionStarted(id: nat)
    | ToolInputDelta(id: nat, text: string)
    | BlockStopped(id: nat, result: BlockResult)
    | Done(finish: FinishReason, input: Option<nat>)

  /** What a finished block becomes. */
  datatype Content =
    | TextContent(text: string)
    | RefusalContent(text: string)
    | ReasoningContent(text: string, replay: Option<ReplayState>)
    | CallContent(call: ToolCall)
  {
    function ToBlock(): (block: Block)
      ensures block.Role() == Assistant
    {
      match this
      case TextContent(text) => AssistantText(text)
      case RefusalContent(text) => AssistantText(text)
      case ReasoningContent(text, replay) => Reasoning(text, replay)
      case CallContent(call) => Call(call)
    }
  }

  /** One part of a cut answer, without provider state. */
  datatype Partial =
    | PartialText(text: string)
    | PartialRefusal(text: string)
    | PartialReasoning(text: string)
    | PartialCall(call: ToolCall)
  {
    function ToBlock(): (block: Block)
      ensures block.Role() == Assistant
    {
      match this
      case PartialText(text) => AssistantText(text)
      case PartialRefusal(text) => AssistantText(text)
      case PartialReasoning(text) => Reasoning(text, None)
      case PartialCall(call) => Call(call)
    }
  }

  /** A kept block of a cut answer, with its stream id. */
  datatype PartialBlock = PartialBlock(id: nat, content: Partial)

  datatype Completion = Completion(content: seq<Content>, finish: FinishReason, input: Option<nat>)
  {
    function ToBlocks(): (blocks: seq<Block>)
      ensures |blocks| == |content| && AllAssistant(blocks)
    {
      seq(|content|, i requires 0 <= i < |content| => content[i].ToBlock())
    }
  }

  datatype Part = Open(kind: BlockKind, text: string) | Stopped(content: Content)

  datatype End = Streaming | Finished(finish: FinishReason, input: Option<nat>)

  /** The content of a block that stops with the text that it joined so far. */
  function ContentOf(result: BlockResult, text: string): Content {
    match result
    case TextDone => TextContent(text)
    case RefusalDone => RefusalContent(text)
    case ReasoningDone(replay) => ReasoningContent(text, replay)
    case CallDone(call) => CallContent(call)
  }

  /** The id of the block that an event names. */
  function BlockOf(event: Event): Option<nat> {
    if event.Done? then None else Some(event.id)
  }

  /** What one event makes of the part of its block. */
  function PartAfter(part: Part, event: Event): Part {
    if part.Stopped? then part
    else if event.TextDelta? || event.RefusalDelta? || event.ReasoningDelta? then
      Open(part.kind, part.text + event.text)
    else if event.BlockStopped? then Part.Stopped(ContentOf(event.result, part.text))
    else part
  }

  /** The reducers number the blocks densely in start order, and name only blocks that started. */
  predicate InOrder(parts: seq<Part>, event: Event) {
    match event
    case BlockStarted(id, _) => id == |parts|
    case Done(_, _) => true
    case _ => event.id < |parts|
  }

  function PartsAfter(parts: seq<Part>, event: Event): seq<Part>
    requires InOrder(parts, event)
  {
    match event
    case BlockStarted(_, kind) => parts + [Open(kind, "")]
    case Done(_, _) => parts
    case _ => parts[event.id := PartAfter(parts[event.id], event)]
  }

  /** One attempt that a caller reads. */
  class Reply {
    /** One part for each block, in start order. */
    var parts: seq<Part>
    var end: End

    constructor ()
      ensures parts == [] && end == Streaming
    {
      parts, end := [], Streaming;
    }

    /** Take one event of the stream into the reply. */
    method Keep(event: Event)
      requires InOrder(parts, event)
      modifies this
      ensures parts == PartsAfter(old(parts), event)
      ensures end == if event.Done? then Finished(event.finish, event.input) else old(end)
    {
      match event
      case BlockStarted(_, kind) =>
        parts := parts + [Open(kind, "")];
      case TextDelta(id, text) =>
        Join(id, text);
      case RefusalDelta(id, text) =>
        Join(id, text);
      case ReasoningDelta(id, text) =>
        Join(id, text);
      // Neither a new section nor the pieces of the arguments leave a trace of their own.
      case SectionStarted(_) =>
      case ToolInputDelta(_, _) =>
      case BlockStopped(id, result) =>
        if parts[id].Open? {
          parts := parts[id := Part.Stopped(ContentOf(result, parts[id].text))];
        }
      case Done(finish, input) =>
        end := Finished(finish, input);
    }

    method Join(id: nat, text: string)
      requires id < |parts|
      modifies this
      ensures end == old(end)
      ensures parts == if old(parts[id]).Open?
        then old(parts)[id := Open(old(parts[id]).kind, old(parts[id]).text + text)]
        else old(parts)
    {
      if parts[id].Open? {
        parts := parts[id := Open(parts[id].kind, parts[id].text + text)];
      }
    }
  }

  // The reduction of a whole stream.

  predicate LegalStream(events: seq<Event>) {
    |events| > 0 ==>
      var last := |events| - 1;
      LegalStream(events[..last]) && InOrder(Reduce(events[..last]), events[last])
  }

  /** The parts of a stream, read from the first event. An event that names no known block would stop the reader. */
  function Reduce(events: seq<Event>): seq<Part> {
    if |events| == 0 then []
    else
      var last := |events| - 1;
      var parts := Reduce(events[..last]);
      if InOrder(parts, events[last]) then PartsAfter(parts, events[last]) else parts
  }

  /** The events of the block `id`, in order. */
  function EventsOf(events: seq<Event>, id: nat): seq<Event> {
    if |events| == 0 then []
    else
      var last := |events| - 1;
      EventsOf(events[..last], id) + if BlockOf(events[last]) == Some(id) then [events[last]] else []
  }

  /** The part of one block, from its own events alone. */
  function ReduceOne(events: seq<Event>): Option<Part> {
    if |events| == 0 then None
    else
      var last := |events| - 1;
      match ReduceOne(events[..last])
      case Some(part) => Some(PartAfter(part, events[last]))
      case None => if events[last].BlockStarted? then Some(Open(events[last].kind, "")) else None
  }

  /** The part of each block depends on the events of that block alone. */
  lemma {:induction false} PartsAreIndependent(events: seq<Event>, id: nat)
    requires LegalStream(events)
    ensures id < |Reduce(events)| ==> ReduceOne(EventsOf(events, id)) == Some(Reduce(events)[id])
    ensures id >= |Reduce(events)| ==> EventsOf(events, id) == []
  {
    if |events| > 0 {
      var last := |events| - 1;
      PartsAreIndependent(events[..last], id);
      var own := EventsOf(events[..last], id);
      if BlockOf(events[last]) == Some(id) {
        assert (own + [events[last]])[..|own|] == own;
      } else {
        assert own + [] == own;
      }
    }
  }

  /** The number of blocks that a stream starts. */
  function Starts(events: seq<Event>): nat {
    if |events| == 0 then 0
    else Starts(events[..|events| - 1]) + if events[|events| - 1].BlockStarted? then 1 else 0
  }

  lemma {:induction false} PartsCountStarts(events: seq<Event>)
    requires LegalStream(events)
    ensures |Reduce(events)| == Starts(events)
  {
    if |events| > 0 {
      PartsCountStarts(events[..|events| - 1]);
    }
  }

  /** Two streams that differ only in how different blocks interleave reduce to the same parts. */
  lemma InterleavingDoesNotMatter(a: seq<Event>, b: seq<Event>)
    requires LegalStream(a) && LegalStream(b) && Starts(a) == Starts(b)
    requires forall id :: 0 <= id < Starts(a) ==> EventsOf(a, id) == EventsOf(b, id)
    ensures Reduce(a) == Reduce(b)
    ensures Complete(Reduce(a)) == Complete(Reduce(b))
  {
    PartsCountStarts(a);
    PartsCountStarts(b);
    forall id | 0 <= id < Starts(a)
      ensures Reduce(a)[id] == Reduce(b)[id]
    {
      PartsAreIndependent(a, id);
      PartsAreIndependent(b, id);
    }
  }

  /** The text of the deltas of one block. */
  function JoinedText(events: seq<Event>): string {
    if |events| == 0 then ""
    else
      var last := events[|events| - 1];
      JoinedText(events[..|events| - 1])
        + if last.TextDelta? || last.RefusalDelta? || last.ReasoningDelta? then last.text else ""
  }

  predicate NoStop(events: seq<Event>) {
    forall i :: 0 <= i < |events| ==> !events[i].BlockStopped?
  }

  /** An open block holds its own deltas in order. A stop keeps them. */
  lemma {:induction false} OpenHoldsItsDeltas(kind: BlockKind, id: nat, deltas: seq<Event>)
    requires NoStop(deltas)
    ensures ReduceOne([BlockStarted(id, kind)] + deltas) == Some(Open(kind, JoinedText(deltas)))
  {
    var start := [BlockStarted(id, kind)];
    if |deltas| == 0 {
      assert start + deltas == start;
      assert start[..0] == [];
    } else {
      var all := start + deltas;
      assert all[..|all| - 1] == start + deltas[..|deltas| - 1];
      assert all[|all| - 1] == deltas[|deltas| - 1];
      assert JoinedText(deltas[..|deltas| - 1]) + "" == JoinedText(deltas[..|deltas| - 1]);
      OpenHoldsItsDeltas(kind, id, deltas[..|deltas| - 1]);
    }
  }

  lemma StoppedHoldsItsDeltas(kind: BlockKind, id: nat, deltas: seq<Event>, result: BlockResult)
    requires NoStop(deltas)
    ensures ReduceOne([BlockStarted(id, kind)] + deltas + [BlockStopped(id, result)])
         == Some(Part.Stopped(ContentOf(result, JoinedText(deltas))))
  {
    var open := [BlockStarted(id, kind)] + deltas;
    OpenHoldsItsDeltas(kind, id, deltas);
    assert (open + [BlockStopped(id, result)])[..|open|] == open;
  }

  // What the reply gives at its end.

  /** The contents of the stopped parts, in start order. */
  function Complete(parts: seq<Part>): seq<Content> {
    if |parts| == 0 then []
    else
      var last := parts[|parts| - 1];
      Complete(parts[..|parts| - 1]) + if last.Stopped? then [last.content] else []
  }

  /** The ids of the stopped parts, ascending. */
  function StoppedIds(parts: seq<Part>): seq<nat> {
    if |parts| == 0 then []
    else
      StoppedIds(parts[..|parts| - 1]) + if parts[|parts| - 1].Stopped? then [|parts| - 1] else []
  }

  /** What a cut answer keeps of one part: its text, or its complete call. No partial call comes out of a cut stream. */
  function PartialOf(part: Part): Option<Partial> {
    match part
    case Stopped(CallContent(call)) => Some(PartialCall(call))
    case Open(CallKind, _) => None
    case Open(kind, text) => TextOf(kind, text)
    case Stopped(TextContent(text)) => TextOf(TextKind, text)
    case Stopped(RefusalContent(text)) => TextOf(RefusalKind, text)
    case Stopped(ReasoningContent(text, _)) => TextOf(ReasoningKind, text)
  }

  /** The text of a part, unless it is empty. */
  function TextOf(kind: BlockKind, text: string): Option<Partial> {
    if text == "" then None
    else match kind
      case TextKind => Some(PartialText(text))
      case RefusalKind => Some(PartialRefusal(text))
      case ReasoningKind => Some(PartialReasoning(text))
      case CallKind => None
  }

  /** The kept blocks of a cut answer, in start order. */
  function Partials(parts: seq<Part>): seq<PartialBlock> {
    if |parts| == 0 then []
    else
      var last := |parts| - 1;
      Partials(parts[..last])
        + match PartialOf(parts[last]) case None => [] case Some(content) => [PartialBlock(last, content)]
  }

  /** The stopped ids ascend, and each one names the part of the content at its index. */
  lemma {:induction false} CompleteFollowsIds(parts: seq<Part>)
    ensures var ids := StoppedIds(parts);
      && |Complete(parts)| == |ids| && Ascending(ids)
      && (forall i :: 0 <= i < |ids| ==> ids[i] < |parts| && parts[ids[i]] == Part.Stopped(Complete(parts)[i]))
      && (forall id: nat :: id in ids <==> id < |parts| && parts[id].Stopped?)
  {
    if |parts| > 0 {
      CompleteFollowsIds(parts[..|parts| - 1]);
    }
  }

  /** Two ascending lists of the same ids are equal. */
  lemma {:induction false} AscendingIsUnique(a: seq<nat>, b: seq<nat>)
    requires Ascending(a) && Ascending(b)
    requires forall id: nat :: id in a <==> id in b
    ensures a == b
  {
    assert |a| > 0 ==> a[0] in a;
    assert |b| > 0 ==> b[0] in b;
    if |a| > 0 && |b| > 0 {
      var x, y := a[|a| - 1], b[|b| - 1];
      assert x in b && y in a;
      assert x == y;
      var p, q := a[..|a| - 1], b[..|b| - 1];
      forall id: nat
        ensures id in p <==> id in q
      {
        if id in p { assert id in a && id != x; }
        if id in q { assert id in b && id != y; }
      }
      AscendingIsUnique(p, q);
    }
  }
}
