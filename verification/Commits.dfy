/**
 * The commits of a turn, their replay, and the pairing of tool calls with their results
 * (crates/engine/src/turn_state.rs, and `open_calls` of crates/agent/src/session.rs).
 */
module Commits {
  import opened Options
  import opened Blocks

  datatype FinishReason = StopFinish | Length | ContentFilter | Refusal | ToolCalls | Pause | Unknown

  /** The facts of one answer. Of its usage, only the input count matters here. */
  datatype Answer = Answer(origin: Origin, input: Option<nat>, finish: FinishReason)

  datatype Outcome = Completed(finish: FinishReason) | Stopped | Cancelled

  datatype TurnEnd = Succeeded(outcome: Outcome) | Failed(text: string)

  /** How a context is rewritten: its last `keep` blocks stay, and `head` takes the place of the others. */
  datatype Replaced = Replaced(head: seq<Block>, keep: nat)

  datatype CallDisplay = CallDisplay(blockIndex: nat, hints: string)

  datatype ResultDisplay = ResultDisplay(blockIndex: nat, blocks: seq<string>, duration: Option<nat>)

  datatype Commit = Commit(
    replaced: Option<Replaced>,
    blocks: seq<Block>,
    answer: Option<Answer>,
    end: Option<TurnEnd>,
    calls: seq<CallDisplay>,
    results: seq<ResultDisplay>)

  /** A plain commit, which only adds `blocks`. */
  function CommitOf(blocks: seq<Block>): Commit {
    Commit(None, blocks, None, None, [], [])
  }

  /** `context` with its first blocks replaced, so that the last `keep` blocks follow `head`. */
  function Spliced(context: seq<Block>, replaced: Replaced): seq<Block> {
    var cut := if replaced.keep < |context| then |context| - replaced.keep else 0;
    replaced.head + context[cut..]
  }

  /** The context behind one more commit. */
  function Apply(commit: Commit, context: seq<Block>): seq<Block> {
    (if commit.replaced.Some? then Spliced(context, commit.replaced.value) else context) + commit.blocks
  }

  function Replay(context: seq<Block>, commits: seq<Commit>): seq<Block> {
    if |commits| == 0 then context
    else Apply(commits[|commits| - 1], Replay(context, commits[..|commits| - 1]))
  }

  /** The token count that the last commit with news about it left. */
  function TokensAfter(commit: Commit, tokens: Option<nat>): Option<nat> {
    if commit.answer.Some? then commit.answer.value.input
    else if commit.replaced.Some? then None
    else tokens
  }

  function ReplayTokens(tokens: Option<nat>, commits: seq<Commit>): Option<nat> {
    if |commits| == 0 then tokens
    else TokensAfter(commits[|commits| - 1], ReplayTokens(tokens, commits[..|commits| - 1]))
  }

  // The pairing of calls and results.

  /** The ids of the calls among `blocks`, in order. */
  function CallIds(blocks: seq<Block>): seq<string> {
    if |blocks| == 0 then []
    else
      var last := blocks[|blocks| - 1];
      CallIds(blocks[..|blocks| - 1]) + if last.Call? then [last.call.callId] else []
  }

  /** The call ids of the results among `blocks`, in order. */
  function ResultIds(blocks: seq<Block>): seq<string> {
    if |blocks| == 0 then []
    else
      var last := blocks[|blocks| - 1];
      ResultIds(blocks[..|blocks| - 1]) + if last.Result? then [last.result.callId] else []
  }

  /**
   * What a reader of a context waits for: `open` calls of the answer that it reads, or the rest of their results. A
   * context is broken when a result answers no waiting call, or when anything else comes between the results.
   */
  datatype Pairing = Calling(open: seq<string>) | Draining(open: seq<string>) | Broken

  function Next(pairing: Pairing, block: Block): Pairing {
    match pairing
    case Broken => Broken
    case Calling(open) =>
      if block.Call? then Calling(open + [block.call.callId])
      else if block.Result? then Drain(open, block.result.callId)
      else if block.Role() == User && open != [] then Broken
      else pairing
    case Draining(open) =>
      if block.Result? then Drain(open, block.result.callId) else Broken
  }

  /** One result takes the first open call. */
  function Drain(open: seq<string>, callId: string): Pairing {
    if open == [] || open[0] != callId then Broken
    else if |open| == 1 then Calling([])
    else Draining(open[1..])
  }

  function ScanFrom(pairing: Pairing, blocks: seq<Block>): Pairing {
    if |blocks| == 0 then pairing
    else Next(ScanFrom(pairing, blocks[..|blocks| - 1]), blocks[|blocks| - 1])
  }

  function Scan(context: seq<Block>): Pairing {
    ScanFrom(Calling([]), context)
  }

  /** Every call has its result. */
  predicate Balanced(context: seq<Block>) {
    Scan(context) == Calling([])
  }

  /** Only an answer at the end of the context can have calls without results. */
  predicate Resumable(context: seq<Block>) {
    Scan(context).Calling?
  }

  /** The calls that a pairing still waits for. */
  function Waiting(pairing: Pairing): seq<string> {
    if pairing.Broken? then [] else pairing.open
  }

  lemma {:induction false} ScanConcat(pairing: Pairing, a: seq<Block>, b: seq<Block>)
    ensures ScanFrom(pairing, a + b) == ScanFrom(ScanFrom(pairing, a), b)
  {
    if |b| == 0 {
      assert a + b == a;
    } else {
      assert (a + b)[..|a + b| - 1] == a + b[..|b| - 1];
      ScanConcat(pairing, a, b[..|b| - 1]);
    }
  }

  lemma {:induction false} IdsConcat(a: seq<Block>, b: seq<Block>)
    ensures CallIds(a + b) == CallIds(a) + CallIds(b)
    ensures ResultIds(a + b) == ResultIds(a) + ResultIds(b)
  {
    if |b| == 0 {
      assert a + b == a;
    } else {
      assert (a + b)[..|a + b| - 1] == a + b[..|b| - 1];
      IdsConcat(a, b[..|b| - 1]);
    }
  }

  /**
   * What an unbroken context means: its results answer its calls one by one in call order, and only the waiting calls
   * at its end have no result.
   */
  lemma {:induction false} ResultsFollowCalls(context: seq<Block>)
    requires !Scan(context).Broken?
    ensures CallIds(context) == ResultIds(context) + Waiting(Scan(context))
  {
    if |context| > 0 {
      var before := context[..|context| - 1];
      ResultsFollowCalls(before);
      var open := Waiting(Scan(before));
      if context[|context| - 1].Result? {
        assert open == [open[0]] + open[1..];
      }
    }
  }

  lemma {:induction false} UnbrokenPrefix(context: seq<Block>, n: nat)
    requires n <= |context| && !Scan(context).Broken?
    ensures !Scan(context[..n]).Broken?
    decreases |context|
  {
    if n < |context| {
      assert context[..|context| - 1][..n] == context[..n];
      UnbrokenPrefix(context[..|context| - 1], n);
    } else {
      assert context[..n] == context;
    }
  }

  /**
   * In a balanced context each call has exactly one result with its id, in call order, and no result comes before its
   * call: every prefix holds at most the results of its own calls.
   */
  lemma BalancedAnswersEachCall(context: seq<Block>, n: nat)
    requires Balanced(context) && n <= |context|
    ensures ResultIds(context) == CallIds(context)
    ensures ResultIds(context[..n]) <= CallIds(context[..n])
  {
    ResultsFollowCalls(context);
    UnbrokenPrefix(context, n);
    ResultsFollowCalls(context[..n]);
  }

  /** The blocks of an answer: text, reasoning, and calls. */
  predicate AllAssistant(blocks: seq<Block>) {
    forall i :: 0 <= i < |blocks| ==> blocks[i].Role() == Assistant
  }

  /** The blocks of plain input: text and attachments. */
  predicate PlainInput(blocks: seq<Block>) {
    forall i :: 0 <= i < |blocks| ==> blocks[i].UserText? || blocks[i].Attachment?
  }

  predicate AllResults(blocks: seq<Block>) {
    forall i :: 0 <= i < |blocks| ==> blocks[i].Result?
  }

  lemma {:induction false} ScanAnswer(open: seq<string>, blocks: seq<Block>)
    requires AllAssistant(blocks)
    ensures ScanFrom(Calling(open), blocks) == Calling(open + CallIds(blocks))
    ensures ResultIds(blocks) == []
  {
    if |blocks| == 0 {
      assert open + [] == open;
    } else {
      ScanAnswer(open, blocks[..|blocks| - 1]);
    }
  }

  lemma {:induction false} ScanInput(blocks: seq<Block>)
    requires PlainInput(blocks)
    ensures ScanFrom(Calling([]), blocks) == Calling([])
  {
    if |blocks| > 0 {
      ScanInput(blocks[..|blocks| - 1]);
    }
  }

  /** The first results take the first open calls. */
  lemma {:induction false} ScanResults(open: seq<string>, blocks: seq<Block>)
    requires AllResults(blocks) && ResultIds(blocks) <= open
    ensures |ResultIds(blocks)| == |blocks|
    ensures ScanFrom(Calling(open), blocks)
         == if |blocks| == 0 then Calling(open)
            else if |blocks| == |open| then Calling([])
            else Draining(open[|blocks|..])
  {
    if |blocks| > 0 {
      var before := blocks[..|blocks| - 1];
      assert ResultIds(before) <= ResultIds(blocks);
      ScanResults(open, before);
      var id := blocks[|blocks| - 1].result.callId;
      assert ResultIds(blocks)[|before|] == id == open[|before|];
      assert open[|before|..][1..] == open[|blocks|..];
    }
  }

  /** An answer behind a balanced context opens its calls, and their results in call order close it. */
  lemma AnswerOpens(context: seq<Block>, answer: seq<Block>, results: seq<Block>)
    requires Balanced(context) && AllAssistant(answer)
    requires AllResults(results) && ResultIds(results) == CallIds(answer)
    ensures Scan(context + answer) == Calling(CallIds(answer))
    ensures Balanced(context + answer + results)
  {
    ScanConcat(Calling([]), context, answer);
    ScanAnswer([], answer);
    assert [] + CallIds(answer) == CallIds(answer);
    ScanConcat(Calling([]), context + answer, results);
    ScanResults(CallIds(answer), results);
  }

  lemma InputKeepsBalance(context: seq<Block>, input: seq<Block>)
    requires Balanced(context) && PlainInput(input)
    ensures Balanced(context + input)
  {
    ScanConcat(Calling([]), context, input);
    ScanInput(input);
  }

  // The repair of a stopped turn.

  /** The index behind the last block of the user, or 0. */
  function AnswerStart(context: seq<Block>): (start: nat)
    ensures start <= |context|
    ensures forall i :: start <= i < |context| ==> context[i].Role() == Assistant
    ensures start > 0 ==> context[start - 1].Role() == User
  {
    if |context| == 0 then 0
    else if context[|context| - 1].Role() == User then |context|
    else AnswerStart(context[..|context| - 1])
  }

  /** The calls behind the last user block, which `open_calls` takes for the calls without a result. */
  function OpenCalls(context: seq<Block>): seq<string> {
    CallIds(context[AnswerStart(context)..])
  }

  /** In every resumable context those are exactly the calls that wait for a result. */
  lemma OpenCallsAreWaiting(context: seq<Block>)
    requires Resumable(context)
    ensures Scan(context) == Calling(OpenCalls(context))
  {
    var start := AnswerStart(context);
    var head, tail := context[..start], context[start..];
    assert context == head + tail;
    ScanConcat(Calling([]), head, tail);
    UnbrokenPrefix(context, start);
    if Scan(head).Draining? {
      DrainingTakesNoAnswer(Scan(head), tail);
    }
    assert Scan(head) == Calling([]);
    ScanAnswer([], tail);
    assert [] + CallIds(tail) == CallIds(tail);
  }

  lemma {:induction false} DrainingTakesNoAnswer(pairing: Pairing, tail: seq<Block>)
    requires pairing.Draining? && AllAssistant(tail)
    ensures !ScanFrom(pairing, tail).Calling?
  {
    if |tail| > 0 {
      DrainingTakesNoAnswer(pairing, tail[..|tail| - 1]);
    }
  }

  /** The error results of the open calls, in call order. */
  function RepairResults(ids: seq<string>, text: string): (results: seq<Block>)
    ensures |results| == |ids|
    ensures forall i :: 0 <= i < |ids| ==> results[i] == Result(ErrorResult(ids[i], text))
  {
    seq(|ids|, i requires 0 <= i < |ids| => Result(ErrorResult(ids[i], text)))
  }

  lemma {:induction false} RepairIds(ids: seq<string>, text: string)
    ensures ResultIds(RepairResults(ids, text)) == ids
  {
    if |ids| > 0 {
      var results := RepairResults(ids, text);
      RepairIds(ids[..|ids| - 1], text);
      assert results[..|results| - 1] == RepairResults(ids[..|ids| - 1], text);
    }
  }

  /** The repair of a resumable context answers every call. */
  lemma RepairBalances(context: seq<Block>, text: string)
    requires Resumable(context)
    ensures Balanced(context + RepairResults(OpenCalls(context), text))
  {
    var ids := OpenCalls(context);
    var results := RepairResults(ids, text);
    OpenCallsAreWaiting(context);
    RepairIds(ids, text);
    ScanConcat(Calling([]), context, results);
    ScanResults(ids, results);
  }

  lemma {:induction false} BrokenStaysBroken(blocks: seq<Block>)
    ensures ScanFrom(Broken, blocks) == Broken
  {
    if |blocks| > 0 {
      BrokenStaysBroken(blocks[..|blocks| - 1]);
    }
  }

  /** The repair answers every call exactly when only an answer at the end has calls without results. */
  lemma RepairsExactlyTheResumable(context: seq<Block>, text: string)
    ensures Balanced(context + RepairResults(OpenCalls(context), text)) <==> Resumable(context)
  {
    var results := RepairResults(OpenCalls(context), text);
    if Resumable(context) {
      RepairBalances(context, text);
    } else {
      ScanConcat(Calling([]), context, results);
      if Scan(context).Broken? {
        BrokenStaysBroken(results);
      } else {
        // Results still drain, so the last block is a result of the user side, and no open call lies behind it.
        assert context[|context| - 1].Result?;
        assert OpenCalls(context) == [];
      }
    }
  }
}
