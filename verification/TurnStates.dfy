/**
 * The state machine of one turn (crates/engine/src/turn_state.rs). A transition takes what just happened and answers
 * with an action. Its commit must reach the log first.
 */
module TurnStates {
  import opened Options
  import opened Blocks
  import opened Commits
  import opened Replies

  datatype TurnResult = Ended(outcome: Outcome) | RoundFailed(error: string)

  datatype Action =
    | Send(input: Option<Commit>)
    | CallTools(commit: Commit)
    | AfterRound(finish: Option<FinishReason>, commit: Commit)
    | Done(commit: Commit, result: TurnResult)
  {
    /** The commits that the caller saves before it acts. */
    function Pending(): seq<Commit> {
      if Send? then (if input.Some? then [input.value] else []) else [commit]
    }
  }

  /** What a call of a tool gave: the result, its display, and the duration of the handler. */
  datatype ToolFinish = ToolFinish(result: ToolResult, display: seq<string>, duration: Option<nat>)

  const CANCELLED_REASON := "the user cancelled the turn."
  const OUTPUT_LIMIT_REASON := "the response hit the output token limit, so its arguments may be truncated."

  function FinishName(finish: FinishReason): string {
    match finish
    case StopFinish => "stop"
    case Length => "length"
    case ContentFilter => "content_filter"
    case Refusal => "refusal"
    case ToolCalls => "tool_calls"
    case Pause => "pause"
    case Unknown => "unknown"
  }

  /** Why the calls of an answer with this finish reason do not run. */
  function CutReason(finish: FinishReason): string {
    if finish == Length then OUTPUT_LIMIT_REASON
    else "the response ended with finish reason " + FinishName(finish) + "."
  }

  /** What the model reads about a call that was never made. */
  function NotExecuted(call: ToolCall, reason: string): ToolResult {
    ErrorResult(call.callId, "Tool call \"" + call.name + "\" was not executed: " + reason)
  }

  /** The error results of the calls among `blocks`, in call order. */
  function NotRun(blocks: seq<Block>, reason: string): (results: seq<Block>)
    ensures AllResults(results)
  {
    if |blocks| == 0 then []
    else
      var last := blocks[|blocks| - 1];
      NotRun(blocks[..|blocks| - 1], reason) + if last.Call? then [Result(NotExecuted(last.call, reason))] else []
  }

  lemma {:induction false} NotRunAnswers(blocks: seq<Block>, reason: string)
    ensures ResultIds(NotRun(blocks, reason)) == CallIds(blocks)
  {
    if |blocks| > 0 {
      var last := blocks[|blocks| - 1];
      NotRunAnswers(blocks[..|blocks| - 1], reason);
      var tail := if last.Call? then [Result(NotExecuted(last.call, reason))] else [];
      IdsConcat(NotRun(blocks[..|blocks| - 1], reason), tail);
      assert tail[..0] == [];
    }
  }

  /** The result blocks of outcomes. */
  function ResultBlocks(outcomes: seq<ToolFinish>): (blocks: seq<Block>)
    ensures |blocks| == |outcomes| && AllResults(blocks)
  {
    seq(|outcomes|, i requires 0 <= i < |outcomes| => Result(outcomes[i].result))
  }

  /** The displays of outcomes whose first result block has the index `base` in its commit. */
  function Displays(outcomes: seq<ToolFinish>, base: nat): seq<ResultDisplay> {
    if |outcomes| == 0 then []
    else
      var last := |outcomes| - 1;
      Displays(outcomes[..last], base)
        + if outcomes[last].display != [] || outcomes[last].duration.Some?
          then [ResultDisplay(base + last, outcomes[last].display, outcomes[last].duration)] else []
  }

  /** `display` shows the outcome whose result block has its index. */
  predicate Shows(display: ResultDisplay, outcomes: seq<ToolFinish>, base: nat) {
    && base <= display.blockIndex < base + |outcomes|
    && outcomes[display.blockIndex - base].display == display.blocks
    && outcomes[display.blockIndex - base].duration == display.duration
  }

  /** Each display points at the block of its own result, and the indexes ascend. */
  lemma {:induction false} DisplaysPointAtResults(outcomes: seq<ToolFinish>, base: nat)
    ensures forall d :: d in Displays(outcomes, base) ==> Shows(d, outcomes, base)
    ensures forall i, j :: 0 <= i < j < |Displays(outcomes, base)| ==>
      Displays(outcomes, base)[i].blockIndex < Displays(outcomes, base)[j].blockIndex
  {
    if |outcomes| > 0 {
      var last := |outcomes| - 1;
      DisplaysPointAtResults(outcomes[..last], base);
      var before := Displays(outcomes[..last], base);
      assert forall d :: d in before ==> Shows(d, outcomes[..last], base) && Shows(d, outcomes, base);
      assert forall i :: 0 <= i < |before| ==> before[i] in before;
    }
  }

  /** Each outcome with a display or a duration has its display in the commit. */
  lemma {:induction false} DisplaysAreComplete(outcomes: seq<ToolFinish>, base: nat, k: nat)
    requires k < |outcomes| && (outcomes[k].display != [] || outcomes[k].duration.Some?)
    ensures ResultDisplay(base + k, outcomes[k].display, outcomes[k].duration) in Displays(outcomes, base)
  {
    var last := |outcomes| - 1;
    if k < last {
      DisplaysAreComplete(outcomes[..last], base, k);
    }
  }

  /** Where a turn stands, and so which calls the driver may make next. */
  datatype Phase = Starting | Sending | Running | Asking | Over

  /**
   * The commits replay to the context and the token count, and as long as the pairing holds, a stop behind any of them
   * leaves a context that a repair can close.
   */
  ghost predicate History(first: seq<Block>, firstTokens: Option<nat>, commits: seq<Commit>,
                          context: seq<Block>, tokens: Option<nat>, paired: bool)
  {
    && Replay(first, commits) == context
    && ReplayTokens(firstTokens, commits) == tokens
    && (paired ==> forall n :: 0 <= n <= |commits| ==> Resumable(Replay(first, commits[..n])))
  }

  lemma HistoryGrows(first: seq<Block>, firstTokens: Option<nat>, commits: seq<Commit>,
                     context: seq<Block>, tokens: Option<nat>, paired: bool, commit: Commit)
    requires History(first, firstTokens, commits, context, tokens, paired)
    requires paired ==> Resumable(Apply(commit, context))
    ensures History(first, firstTokens, commits + [commit], Apply(commit, context), TokensAfter(commit, tokens), paired)
  {
    var all := commits + [commit];
    assert all[..|commits|] == commits;
    forall n | 0 <= n <= |all|
      ensures paired ==> Resumable(Replay(first, all[..n]))
    {
      if n <= |commits| {
        assert all[..n] == commits[..n];
      } else {
        assert all[..n] == all;
      }
    }
  }

  /** The history does not depend on a weaker claim about the pairing. */
  lemma HistoryWeakens(first: seq<Block>, firstTokens: Option<nat>, commits: seq<Commit>,
                       context: seq<Block>, tokens: Option<nat>, paired: bool, weaker: bool)
    requires History(first, firstTokens, commits, context, tokens, paired) && (weaker ==> paired)
    ensures History(first, firstTokens, commits, context, tokens, weaker)
  {
  }

  class TurnState {
    var context: seq<Block>
    /** How far the commits reach into the context. */
    var saved: nat
    /** Why the model stopped, behind an answer that ends the turn unless new input comes. */
    var turnEnd: Option<FinishReason>
    var inputTokens: Option<nat>
    /** What a user interface shows of results that no commit holds yet. */
    var results: seq<ResultDisplay>

    ghost var phase: Phase
    /** Every input and every replacement of the turn so far kept the pairing of calls and results. */
    ghost var paired: bool
    /** The context and the tokens that the turn started with, and the commits that it gave since. */
    ghost var first: seq<Block>
    ghost var firstTokens: Option<nat>
    ghost var commits: seq<Commit>

    /** Between two calls every block is in a commit, and the commits replay to the live context and token count. */
    ghost predicate Valid()
      reads this
    {
      && saved == |context| && results == []
      && (phase == Sending || phase == Phase.Running ==> turnEnd.None?)
      && (paired ==> if phase == Phase.Running then Resumable(context) else Balanced(context))
      && Follows(context, inputTokens)
    }

    /** The commits so far replay to this context and this token count. */
    ghost predicate Follows(context: seq<Block>, tokens: Option<nat>)
      reads this
    {
      History(first, firstTokens, commits, context, tokens, paired)
    }

    /** The calls that the answer of `CallTools` opened. */
    ghost function OpenIds(): seq<string>
      reads this
    {
      Waiting(Scan(context))
    }

    constructor (context: seq<Block>, inputTokens: Option<nat>)
      ensures Valid() && phase == Starting && paired == Balanced(context)
      ensures this.context == first == context && this.inputTokens == firstTokens == inputTokens && commits == []
    {
      this.context := context;
      saved := |context|;
      turnEnd := None;
      this.inputTokens := inputTokens;
      results := [];
      phase := Starting;
      paired := Balanced(context);
      first, firstTokens, commits := context, inputTokens, [];
    }

    /** The commits of the turn replay to the live context. */
    lemma CommitsReplay()
      requires Valid()
      ensures Replay(first, commits) == context && ReplayTokens(firstTokens, commits) == inputTokens
    {
    }

    /** Record `commit`, which leads from the context and the tokens of the last commit to the live ones. */
    ghost method Follow(commit: Commit, next: Phase, before: seq<Block>, tokens: Option<nat>)
      requires saved == |context| && results == []
      requires next == Sending || next == Phase.Running ==> turnEnd.None?
      requires Follows(before, tokens)
      requires Apply(commit, before) == context && TokensAfter(commit, tokens) == inputTokens
      requires paired ==> if next == Phase.Running then Resumable(context) else Balanced(context)
      modifies this`commits, this`phase
      ensures Valid() && phase == next && commits == old(commits) + [commit]
    {
      hide History;
      HistoryGrows(first, firstTokens, commits, before, tokens, paired, commit);
      commits := commits + [commit];
      phase := next;
    }

    /** Go on with a request. New input comes into the context first, in a commit of its own. */
    method SendInput(input: seq<Block>) returns (action: Action)
      requires Valid() && (phase == Starting || phase == Asking)
      modifies this
      ensures Valid() && phase == Sending && Kept(old(commits), action)
      ensures context == old(context) + input && inputTokens == old(inputTokens)
      ensures action == Send(if input == [] then None else Some(CommitOf(input)))
      ensures paired == (old(paired) && PlainInput(input))
      ensures first == old(first) && firstTokens == old(firstTokens)
    {
      hide History;
      turnEnd := None;
      context := context + input;
      var start := TakeUnsaved();
      HistoryWeakens(first, firstTokens, commits, old(context), inputTokens, paired, paired && PlainInput(input));
      paired := paired && PlainInput(input);
      if paired {
        InputKeepsBalance(old(context), input);
      }
      assert context[start..] == input;
      if start < |context| {
        Follow(CommitOf(input), Sending, old(context), inputTokens);
        action := Send(Some(CommitOf(context[start..])));
      } else {
        assert context == old(context);
        phase := Sending;
        assert commits + [] == commits;
        action := Send(None);
      }
    }

    /**
     * Rewrite the context as `replace` asks, in a commit that says how many blocks really stayed. Nothing waits for a
     * commit here, so every block that stays is a saved one.
     */
    method Replace(replace: Replaced) returns (commit: Commit)
      requires Valid() && phase == Sending
      modifies this
      ensures Valid() && phase == Sending && commits == old(commits) + [commit]
      ensures context == Spliced(old(context), replace) && inputTokens.None?
      ensures commit == CommitOf([]).(replaced := commit.replaced) && commit.replaced.Some?
      ensures commit.replaced.value.head == replace.head && commit.replaced.value.keep <= |old(context)|
      ensures paired == (old(paired) && Balanced(context))
      ensures first == old(first) && firstTokens == old(firstTokens)
    {
      hide History;
      var cut := if replace.keep < |context| then |context| - replace.keep else 0;
      context := replace.head + context[cut..];
      saved := |context|;
      inputTokens := None;
      commit := CommitOf([]).(replaced := Some(Replaced(context[..|replace.head|], |context| - |replace.head|)));
      HistoryWeakens(first, firstTokens, commits, old(context), old(inputTokens), paired, paired && Balanced(context));
      paired := paired && Balanced(context);
      assert context[..|replace.head|] == replace.head;
      ReplacedApplies(old(context), replace, commit);
      Follow(commit, Sending, old(context), old(inputTokens));
    }

    /** Take the answer to a request. */
    method ModelFinished(completion: Completion, origin: Origin) returns (action: Action)
      requires Valid() && phase == Sending
      modifies this
      ensures Valid() && Kept(old(commits), action) && paired == old(paired)
      ensures first == old(first) && firstTokens == old(firstTokens)
      ensures inputTokens == completion.input
      ensures var blocks := completion.ToBlocks();
        var answer := Some(Answer(origin, completion.input, completion.finish));
        if CallIds(blocks) == [] then
          // An answer without calls needs no other request.
          && phase == Asking && context == old(context) + blocks && turnEnd == Some(completion.finish)
          && action == AfterRound(turnEnd, CommitOf(blocks).(answer := answer))
        else if completion.finish == ToolCalls || completion.finish == StopFinish then
          && phase == Running && context == old(context) + blocks
          && action == CallTools(CommitOf(blocks).(answer := answer))
          && (paired ==> OpenIds() == CallIds(blocks))
        else
          // Every call of the answer stays undone, with an error as its result. Only a length cut asks for another
          // request.
          var notRun := NotRun(blocks, CutReason(completion.finish));
          && phase == Asking && context == old(context) + blocks + notRun
          && turnEnd == (if completion.finish == Length then None else Some(completion.finish))
          && action == AfterRound(turnEnd, CommitOf(blocks + notRun).(answer := answer))
    {
      hide History;
      var answer := Answer(origin, completion.input, completion.finish);
      var blocks := completion.ToBlocks();
      if CallIds(blocks) == [] {
        action := AnswerWithoutCalls(blocks, answer);
      } else if completion.finish == ToolCalls || completion.finish == StopFinish {
        action := AnswerToRun(blocks, answer);
      } else {
        action := AnswerCut(blocks, answer);
      }
    }

    method AnswerWithoutCalls(blocks: seq<Block>, answer: Answer) returns (action: Action)
      requires Valid() && phase == Sending && AllAssistant(blocks) && CallIds(blocks) == []
      modifies this
      ensures Valid() && phase == Asking && Kept(old(commits), action) && paired == old(paired)
      ensures first == old(first) && firstTokens == old(firstTokens) && inputTokens == answer.input
      ensures context == old(context) + blocks && turnEnd == Some(answer.finish)
      ensures action == AfterRound(turnEnd, CommitOf(blocks).(answer := Some(answer)))
    {
      hide History;
      inputTokens := answer.input;
      context := context + blocks;
      turnEnd := Some(answer.finish);
      if paired {
        AnswerOpens(old(context), blocks, []);
        assert old(context) + blocks + [] == old(context) + blocks;
      }
      action := AfterRoundWith(Some(answer), old(context), old(inputTokens), blocks);
    }

    method AnswerToRun(blocks: seq<Block>, answer: Answer) returns (action: Action)
      requires Valid() && phase == Sending && AllAssistant(blocks)
      modifies this
      ensures Valid() && phase == Phase.Running && Kept(old(commits), action) && paired == old(paired)
      ensures first == old(first) && firstTokens == old(firstTokens) && inputTokens == answer.input
      ensures context == old(context) + blocks && turnEnd == old(turnEnd)
      ensures action == CallTools(CommitOf(blocks).(answer := Some(answer)))
      ensures paired ==> OpenIds() == CallIds(blocks)
    {
      hide History;
      inputTokens := answer.input;
      context := context + blocks;
      var start := TakeUnsaved();
      var commit := CommitOf(context[start..]).(answer := Some(answer));
      assert context[start..] == blocks;
      if paired {
        NotRunAnswers(blocks, "");
        AnswerOpens(old(context), blocks, NotRun(blocks, ""));
      }
      Follow(commit, Phase.Running, old(context), old(inputTokens));
      action := CallTools(commit);
    }

    /** Answer every call of a cut answer with an error, because a provider refuses a context with an open call. */
    method AnswerCut(blocks: seq<Block>, answer: Answer) returns (action: Action)
      requires Valid() && phase == Sending && AllAssistant(blocks)
      modifies this
      ensures Valid() && phase == Asking && Kept(old(commits), action) && paired == old(paired)
      ensures first == old(first) && firstTokens == old(firstTokens) && inputTokens == answer.input
      ensures turnEnd == if answer.finish == Length then None else Some(answer.finish)
      ensures var notRun := NotRun(blocks, CutReason(answer.finish));
        && context == old(context) + blocks + notRun
        && action == AfterRound(turnEnd, CommitOf(blocks + notRun).(answer := Some(answer)))
    {
      hide History;
      inputTokens := answer.input;
      var notRun := NotRun(blocks, CutReason(answer.finish));
      context := context + blocks;
      context := context + notRun;
      NotRunAnswers(blocks, CutReason(answer.finish));
      if paired {
        AnswerOpens(old(context), blocks, notRun);
      }
      assert context == old(context) + (blocks + notRun);
      // Only the length limit leaves the model something to repeat in a new request.
      if answer.finish != Length {
        turnEnd := Some(answer.finish);
      }
      action := AfterRoundWith(Some(answer), old(context), old(inputTokens), blocks + notRun);
    }

    /** The question to the caller after a round whose blocks are `added`. */
    method AfterRoundWith(answer: Option<Answer>, ghost before: seq<Block>, ghost tokens: Option<nat>,
                          ghost added: seq<Block>)
        returns (action: Action)
      requires saved == |before| && context == before + added && Follows(before, tokens)
      requires inputTokens == if answer.Some? then answer.value.input else tokens
      requires paired ==> Balanced(context)
      modifies this`saved, this`results, this`commits, this`phase
      ensures Valid() && phase == Asking && Kept(old(commits), action)
      ensures action == AfterRound(turnEnd, CommitOf(added).(answer := answer, results := old(results)))
    {
      hide History;
      var start := TakeUnsaved();
      var commit := CommitOf(context[start..]).(answer := answer, results := results);
      results := [];
      assert context[start..] == added;
      Follow(commit, Asking, before, tokens);
      action := AfterRound(turnEnd, commit);
    }

    /** Append one result per outcome. The displays wait with them for a commit. */
    method AddOutcomes(outcomes: seq<ToolFinish>)
      requires saved == |context| && results == []
      modifies this`context, this`results
      ensures context == old(context) + ResultBlocks(outcomes)
      ensures results == Displays(outcomes, 0)
    {
      var i := 0;
      while i < |outcomes|
        invariant 0 <= i <= |outcomes|
        invariant context == old(context) + ResultBlocks(outcomes[..i])
        invariant results == Displays(outcomes[..i], 0)
      {
        var outcome := outcomes[i];
        assert outcomes[..i + 1][..i] == outcomes[..i];
        if outcome.display != [] || outcome.duration.Some? {
          results := results + [ResultDisplay(|context| - saved, outcome.display, outcome.duration)];
        }
        context := context + [Result(outcome.result)];
        i := i + 1;
      }
      assert outcomes[..i] == outcomes;
    }

    /** Take the outcomes of the calls that the answer opened, in call order. */
    method ToolsFinished(outcomes: seq<ToolFinish>) returns (action: Action)
      requires Valid() && phase == Phase.Running
      requires paired ==> ResultIds(ResultBlocks(outcomes)) == OpenIds()
      modifies this
      ensures Valid() && phase == Asking && Kept(old(commits), action) && paired == old(paired)
      ensures first == old(first) && firstTokens == old(firstTokens)
      ensures context == old(context) + ResultBlocks(outcomes) && inputTokens == old(inputTokens)
      ensures action == AfterRound(None, CommitOf(ResultBlocks(outcomes)).(results := Displays(outcomes, 0)))
    {
      hide History;
      if paired {
        ResultsClose(context, ResultBlocks(outcomes));
      }
      AddOutcomes(outcomes);
      action := AfterRoundWith(None, old(context), inputTokens, ResultBlocks(outcomes));
    }

    /** Continue after a round with new input, which also continues a turn that would end. */
    method Proceed(input: seq<Block>) returns (action: Action)
      requires Valid() && phase == Asking
      modifies this
      ensures Valid() && Kept(old(commits), action)
      ensures first == old(first) && firstTokens == old(firstTokens)
      ensures context == old(context) + input && inputTokens == old(inputTokens)
      ensures if old(turnEnd).Some? && input == []
        then phase == Over && paired == old(paired) && action == EndedWith(Completed(old(turnEnd).value))
        else phase == Sending && paired == (old(paired) && PlainInput(input))
             && action == Send(if input == [] then None else Some(CommitOf(input)))
    {
      hide History;
      if turnEnd.Some? && input == [] {
        assert context + [] == context;
        action := Stop();
        return;
      }
      action := SendInput(input);
    }

    /** Stop behind a round, as completed when its answer needed nothing more. */
    method Stop() returns (action: Action)
      requires Valid() && phase == Asking
      modifies this
      ensures Valid() && phase == Over && Kept(old(commits), action) && paired == old(paired)
      ensures first == old(first) && firstTokens == old(firstTokens)
      ensures context == old(context) && inputTokens == old(inputTokens)
      ensures action == EndedWith(if old(turnEnd).Some? then Completed(old(turnEnd).value) else Outcome.Stopped)
    {
      hide History;
      var outcome := if turnEnd.Some? then Completed(turnEnd.value) else Outcome.Stopped;
      action := Finish(Ended(outcome), context, []);
    }

    /** End the turn as cancelled, with the kept output of the cancelled attempt and a result for each call of it. */
    method ModelCancelled(partial: seq<Partial>) returns (action: Action)
      requires Valid() && phase == Sending
      modifies this
      ensures Valid() && phase == Over && Kept(old(commits), action) && paired == old(paired)
      ensures first == old(first) && firstTokens == old(firstTokens)
      ensures inputTokens == old(inputTokens)
      ensures var blocks := PartialBlocks(partial) + NotRun(PartialBlocks(partial), CANCELLED_REASON);
        && context == old(context) + blocks
        && action == Action.Done(CommitOf(blocks).(end := Some(Succeeded(Cancelled))), Ended(Cancelled))
    {
      hide History;
      var before := context;
      var blocks := PartialBlocks(partial);
      var notRun := NotRun(blocks, CANCELLED_REASON);
      NotRunAnswers(blocks, CANCELLED_REASON);
      context := context + blocks;
      context := context + notRun;
      if paired {
        AnswerOpens(before, blocks, notRun);
      }
      assert context == before + (blocks + notRun);
      action := Finish(Ended(Cancelled), before, blocks + notRun);
    }

    /** End the turn as cancelled, with the outcomes of every call of the answer. */
    method ToolsCancelled(outcomes: seq<ToolFinish>) returns (action: Action)
      requires Valid() && phase == Phase.Running
      requires paired ==> ResultIds(ResultBlocks(outcomes)) == OpenIds()
      modifies this
      ensures Valid() && phase == Over && Kept(old(commits), action) && paired == old(paired)
      ensures first == old(first) && firstTokens == old(firstTokens)
      ensures context == old(context) + ResultBlocks(outcomes) && inputTokens == old(inputTokens)
      ensures action == Action.Done(CommitOf(ResultBlocks(outcomes)).(
                               end := Some(Succeeded(Cancelled)), results := Displays(outcomes, 0)), Ended(Cancelled))
    {
      hide History;
      if paired {
        ResultsClose(context, ResultBlocks(outcomes));
      }
      AddOutcomes(outcomes);
      action := Finish(Ended(Cancelled), old(context), ResultBlocks(outcomes));
    }

    /** End the turn as cancelled after a round. */
    method Cancel() returns (action: Action)
      requires Valid() && phase == Asking
      modifies this
      ensures Valid() && phase == Over && Kept(old(commits), action) && paired == old(paired)
      ensures first == old(first) && firstTokens == old(firstTokens)
      ensures context == old(context) && inputTokens == old(inputTokens) && action == EndedWith(Cancelled)
    {
      hide History;
      action := Finish(Ended(Cancelled), context, []);
    }

    /** End the turn with a failure. */
    method Fail(error: string) returns (action: Action)
      requires Valid() && (phase == Sending || phase == Asking)
      modifies this
      ensures Valid() && phase == Over && Kept(old(commits), action) && paired == old(paired)
      ensures first == old(first) && firstTokens == old(firstTokens)
      ensures context == old(context) && inputTokens == old(inputTokens)
      ensures action == Action.Done(CommitOf([]).(end := Some(Failed(error))), RoundFailed(error))
    {
      hide History;
      action := Finish(RoundFailed(error), context, []);
    }

    /** Close the turn. `added` are the blocks that no commit held, and the last commit has them with the end. */
    method Finish(result: TurnResult, ghost before: seq<Block>, ghost added: seq<Block>) returns (action: Action)
      requires saved == |before| && context == before + added && Follows(before, inputTokens)
      requires paired ==> Balanced(context)
      modifies this`saved, this`results, this`commits, this`phase
      ensures Valid() && phase == Over && Kept(old(commits), action)
      ensures action == Action.Done(CommitOf(added).(end := Some(EndOf(result)), results := old(results)), result)
    {
      hide History;
      var start := TakeUnsaved();
      var commit := CommitOf(context[start..]).(end := Some(EndOf(result)), results := results);
      results := [];
      assert context[start..] == added;
      Follow(commit, Over, before, inputTokens);
      action := Action.Done(commit, result);
    }

    /** The commits of an action join the commits before it. */
    ghost predicate Kept(before: seq<Commit>, action: Action)
      reads this
    {
      commits == before + action.Pending()
    }

    /** Move the mark of the saved part to the end of the context, for the commit to come. */
    method TakeUnsaved() returns (start: nat)
      modifies this`saved
      ensures start == old(saved) && saved == |context|
    {
      start := saved;
      saved := |context|;
    }
  }

  /** The end that a commit saves for the result of a turn. */
  function EndOf(result: TurnResult): TurnEnd {
    match result
    case Ended(outcome) => Succeeded(outcome)
    case RoundFailed(error) => Failed(error)
  }

  /** The end of a turn whose blocks are all saved. */
  function EndedWith(outcome: Outcome): Action {
    Action.Done(CommitOf([]).(end := Some(Succeeded(outcome))), Ended(outcome))
  }

  function PartialBlocks(partial: seq<Partial>): (blocks: seq<Block>)
    ensures |blocks| == |partial| && AllAssistant(blocks)
  {
    seq(|partial|, i requires 0 <= i < |partial| => partial[i].ToBlock())
  }

  /** The results of the waiting calls close a resumable context. */
  lemma ResultsClose(context: seq<Block>, results: seq<Block>)
    requires Resumable(context) && AllResults(results) && ResultIds(results) == Waiting(Scan(context))
    ensures Balanced(context + results)
  {
    ScanConcat(Calling([]), context, results);
    ScanResults(Waiting(Scan(context)), results);
  }

  /** A commit that keeps the number of blocks that stayed replays to the replaced context. */
  lemma ReplacedApplies(context: seq<Block>, replace: Replaced, commit: Commit)
    requires var replaced := Spliced(context, replace);
      commit == CommitOf([]).(replaced := Some(Replaced(replace.head, |replaced| - |replace.head|)))
    ensures Apply(commit, context) == Spliced(context, replace)
  {
  }
}
