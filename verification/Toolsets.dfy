/**
 * The tool calls of an answer: the deferred-tool bridge, their displays, and their groups (crates/engine/src/drive.rs,
 * with the lookups of crates/engine/src/tool.rs and the bridge of crates/engine/src/search.rs).
 */
module Toolsets {
  import opened Options
  import opened Blocks
  import opened Commits

  const TOOL_CALL_NAME := "tool_call"
  const SEARCH_TOOL_NAME := "tool_search"

  datatype Concurrency = Parallel | Serial

  datatype Tool = Tool(concurrency: Concurrency, hints: string)

  /** What the bridge makes of its arguments: the real call, or why it refuses. */
  datatype Bridged = Real(name: string, arguments: string) | Refused(reason: string)

  datatype Toolset = Toolset(deferred: bool, tools: map<string, Tool>, bridge: string -> Bridged)

  /** A call behind the bridge, with the index of its block. A result says that nothing runs. */
  datatype Resolved = Resolved(blockIndex: nat, call: ToolCall, result: Option<ToolResult>)

  /** The call that a call runs. The real call keeps the call id. */
  function Resolve(toolset: Toolset, blockIndex: nat, call: ToolCall): (resolved: Resolved)
    ensures resolved.blockIndex == blockIndex && resolved.call.callId == call.callId
    ensures resolved.result.Some? ==> resolved.result.value.callId == call.callId
  {
    if call.name == TOOL_CALL_NAME && toolset.deferred then
      match toolset.bridge(call.arguments)
      case Real(name, arguments) => Resolved(blockIndex, ToolCall(call.callId, name, arguments), None)
      case Refused(reason) => Resolved(blockIndex, call, Some(ErrorResult(call.callId, reason)))
    else Resolved(blockIndex, call, None)
  }

  predicate IsSearch(toolset: Toolset, call: ToolCall) {
    call.name == SEARCH_TOOL_NAME && toolset.deferred
  }

  /** What touches nothing outside the driver can overlap with anything. */
  predicate IsParallel(toolset: Toolset, resolved: Resolved) {
    || resolved.result.Some? || IsSearch(toolset, resolved.call)
    || resolved.call.name !in toolset.tools || toolset.tools[resolved.call.name].concurrency == Parallel
  }

  function HintsOf(toolset: Toolset, name: string): string {
    if name in toolset.tools then toolset.tools[name].hints else ""
  }

  /** The calls among `blocks`, in block order. */
  function ResolvedCalls(toolset: Toolset, blocks: seq<Block>): seq<Resolved> {
    if |blocks| == 0 then []
    else
      var last := |blocks| - 1;
      ResolvedCalls(toolset, blocks[..last])
        + if blocks[last].Call? then [Resolve(toolset, last, blocks[last].call)] else []
  }

  /** The displays of the calls among `blocks`, in block order. */
  function CallDisplays(toolset: Toolset, blocks: seq<Block>): seq<CallDisplay> {
    if |blocks| == 0 then []
    else
      var last := |blocks| - 1;
      CallDisplays(toolset, blocks[..last])
        + if blocks[last].Call?
          then [CallDisplay(last, HintsOf(toolset, Resolve(toolset, last, blocks[last].call).call.name))] else []
  }

  function IdsOf(calls: seq<Resolved>): (ids: seq<string>)
    ensures |ids| == |calls|
  {
    seq(|calls|, i requires 0 <= i < |calls| => calls[i].call.callId)
  }

  /** Each call of the answer is resolved once and in order, at the index of its block. */
  lemma {:induction false} ResolvedAtBlocks(toolset: Toolset, blocks: seq<Block>)
    ensures var calls := ResolvedCalls(toolset, blocks);
      && IdsOf(calls) == CallIds(blocks)
      && (forall i :: 0 <= i < |calls| ==>
            calls[i].blockIndex < |blocks| && blocks[calls[i].blockIndex].Call?
            && calls[i] == Resolve(toolset, calls[i].blockIndex, blocks[calls[i].blockIndex].call))
      && (forall i, j :: 0 <= i < j < |calls| ==> calls[i].blockIndex < calls[j].blockIndex)
  {
    hide Resolve;
    if |blocks| > 0 {
      var last := |blocks| - 1;
      ResolvedAtBlocks(toolset, blocks[..last]);
      var calls := ResolvedCalls(toolset, blocks[..last]);
      if blocks[last].Call? {
        assert IdsOf(calls + [Resolve(toolset, last, blocks[last].call)]) == IdsOf(calls) + [blocks[last].call.callId];
      } else {
        assert calls + [] == calls;
      }
    }
  }

  /** Each display points at the block of its call and shows the hints of the real tool, in block order. */
  lemma {:induction false} DisplaysPointAtCalls(toolset: Toolset, blocks: seq<Block>)
    ensures var displays, calls := CallDisplays(toolset, blocks), ResolvedCalls(toolset, blocks);
      && |displays| == |calls|
      && forall i :: 0 <= i < |displays| ==>
           displays[i] == CallDisplay(calls[i].blockIndex, HintsOf(toolset, calls[i].call.name))
  {
    if |blocks| > 0 {
      DisplaysPointAtCalls(toolset, blocks[..|blocks| - 1]);
    }
  }

  // Groups of calls.

  /** The maximal runs of parallel calls, and each serial call alone. */
  function Groups(toolset: Toolset, calls: seq<Resolved>): (groups: seq<seq<Resolved>>)
    ensures forall g :: 0 <= g < |groups| ==> groups[g] != []
    ensures calls != [] ==> groups != []
  {
    if |calls| == 0 then []
    else
      var last := calls[|calls| - 1];
      var groups := Groups(toolset, calls[..|calls| - 1]);
      if groups != [] && IsParallel(toolset, last) && IsParallel(toolset, groups[|groups| - 1][0])
      then groups[|groups| - 1 := groups[|groups| - 1] + [last]]
      else groups + [[last]]
  }

  function Flatten<T>(parts: seq<seq<T>>): seq<T> {
    if |parts| == 0 then [] else Flatten(parts[..|parts| - 1]) + parts[|parts| - 1]
  }

  lemma FlattenNext<T>(parts: seq<seq<T>>, part: seq<T>)
    ensures Flatten(parts + [part]) == Flatten(parts) + part
  {
    assert (parts + [part])[..|parts|] == parts;
  }

  /** A group runs together: all its calls are parallel, or it is one serial call. */
  predicate RunsTogether(toolset: Toolset, group: seq<Resolved>) {
    && group != []
    && ((forall k :: 0 <= k < |group| ==> IsParallel(toolset, group[k]))
        || (|group| == 1 && !IsParallel(toolset, group[0])))
  }

  /** The groups are the calls in order, cut into groups that run together, and no two parallel groups meet. */
  predicate Partition(toolset: Toolset, groups: seq<seq<Resolved>>, calls: seq<Resolved>) {
    && Flatten(groups) == calls
    && (forall g :: 0 <= g < |groups| ==> RunsTogether(toolset, groups[g]))
    && (forall g :: 0 < g < |groups| ==>
          !(IsParallel(toolset, groups[g - 1][0]) && IsParallel(toolset, groups[g][0])))
  }

  lemma {:induction false} GroupsPartition(toolset: Toolset, calls: seq<Resolved>)
    ensures Partition(toolset, Groups(toolset, calls), calls)
  {
    hide IsParallel, Partition;
    if |calls| == 0 {
      NoPartition(toolset);
    } else {
      var last, before := calls[|calls| - 1], calls[..|calls| - 1];
      assert calls == before + [last];
      GroupsPartition(toolset, before);
      var groups := Groups(toolset, before);
      if groups != [] && IsParallel(toolset, last) && IsParallel(toolset, groups[|groups| - 1][0]) {
        PartitionJoins(toolset, groups, before, last);
      } else {
        PartitionOpens(toolset, groups, before, last);
      }
    }
  }

  lemma NoPartition(toolset: Toolset)
    ensures Partition(toolset, [], [])
  {
  }

  lemma PartitionJoins(toolset: Toolset, groups: seq<seq<Resolved>>, calls: seq<Resolved>, last: Resolved)
    requires Partition(toolset, groups, calls) && groups != [] && groups[|groups| - 1] != []
    requires IsParallel(toolset, last) && IsParallel(toolset, groups[|groups| - 1][0])
    ensures Partition(toolset, groups[|groups| - 1 := groups[|groups| - 1] + [last]], calls + [last])
  {
    hide IsParallel;
    var head, group := groups[..|groups| - 1], groups[|groups| - 1];
    var joined := groups[|groups| - 1 := group + [last]];
    assert groups == head + [group] && joined == head + [group + [last]];
    FlattenNext(head, group);
    FlattenNext(head, group + [last]);
    assert RunsTogether(toolset, group);
  }

  lemma PartitionOpens(toolset: Toolset, groups: seq<seq<Resolved>>, calls: seq<Resolved>, last: Resolved)
    requires Partition(toolset, groups, calls)
    requires groups != [] ==>
      groups[|groups| - 1] != [] && !(IsParallel(toolset, last) && IsParallel(toolset, groups[|groups| - 1][0]))
    ensures Partition(toolset, groups + [[last]], calls + [last])
  {
    hide IsParallel;
    FlattenNext(groups, [last]);
  }

  /** A partition cuts the calls in one way only. */
  lemma {:induction false} PartitionIsUnique(toolset: Toolset, groups: seq<seq<Resolved>>, calls: seq<Resolved>)
    requires Partition(toolset, groups, calls)
    ensures groups == Groups(toolset, calls)
    decreases |calls|
  {
    hide IsParallel, Partition;
    if |groups| == 0 {
      PartitionOfNone(toolset, groups, calls);
    } else {
      var head, group := groups[..|groups| - 1], groups[|groups| - 1];
      assert groups == head + [group];
      LastGroup(toolset, head, group, calls);
      PartitionShortens(toolset, head, group, calls);
      var shorter := group[..|group| - 1];
      PartitionIsUnique(toolset, if |group| == 1 then head else head + [shorter], calls[..|calls| - 1]);
      assert shorter + [group[|group| - 1]] == group;
    }
  }

  lemma PartitionOfNone(toolset: Toolset, groups: seq<seq<Resolved>>, calls: seq<Resolved>)
    requires Partition(toolset, groups, calls) && groups == []
    ensures calls == []
  {
  }

  /** The last call joined its group, or it could not join the group before. */
  lemma LastGroup(toolset: Toolset, head: seq<seq<Resolved>>, group: seq<Resolved>, calls: seq<Resolved>)
    requires Partition(toolset, head + [group], calls)
    ensures group != [] && calls != [] && calls[|calls| - 1] == group[|group| - 1]
    ensures |group| > 1 ==> IsParallel(toolset, group[0]) && IsParallel(toolset, group[|group| - 1])
    ensures |group| == 1 && head != [] ==>
      head[|head| - 1] != [] && !(IsParallel(toolset, head[|head| - 1][0]) && IsParallel(toolset, group[0]))
  {
    hide IsParallel;
    var groups := head + [group];
    FlattenNext(head, group);
    assert RunsTogether(toolset, groups[|head|]);
    if head != [] {
      assert RunsTogether(toolset, groups[|head| - 1]);
    }
  }

  lemma PartitionShortens(toolset: Toolset, head: seq<seq<Resolved>>, group: seq<Resolved>, calls: seq<Resolved>)
    requires Partition(toolset, head + [group], calls) && group != [] && calls != []
    ensures var shorter := group[..|group| - 1];
      Partition(toolset, if |group| == 1 then head else head + [shorter], calls[..|calls| - 1])
  {
    hide IsParallel, RunsTogether;
    var groups, shorter := head + [group], group[..|group| - 1];
    FlattenNext(head, group);
    FlattenNext(head, shorter);
    assert Flatten(head) + shorter == calls[..|calls| - 1];
    assert forall g :: 0 <= g < |head| ==> groups[g] == head[g];
    assert RunsTogether(toolset, groups[|head|]);
    if |group| > 1 {
      ShorterGroup(toolset, group);
      assert shorter[0] == group[0];
    }
  }

  lemma ShorterGroup(toolset: Toolset, group: seq<Resolved>)
    requires RunsTogether(toolset, group) && |group| > 1
    ensures RunsTogether(toolset, group[..|group| - 1])
  {
  }

  /** One more call joins the last group, or starts a group of its own. */
  lemma GroupsNext(toolset: Toolset, calls: seq<Resolved>, next: nat)
    requires next < |calls|
    ensures var groups := Groups(toolset, calls[..next]);
      Groups(toolset, calls[..next + 1])
      == if groups != [] && IsParallel(toolset, calls[next]) && IsParallel(toolset, groups[|groups| - 1][0])
         then groups[|groups| - 1 := groups[|groups| - 1] + [calls[next]]]
         else groups + [[calls[next]]]
  {
    assert calls[..next + 1][..next] == calls[..next];
  }
}
