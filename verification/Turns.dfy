/**
 * The driver of one turn over the journal of a session (crates/engine/src/drive.rs). The model, the hooks, the tools,
 * and the clock are arbitrary: each of their answers is an arbitrary value. Every wait lets other clients use the
 * store, and it can see a cancel or never return, because the caller drops the future of the turn.
 */
module Turns {
  import opened Options
  import opened Blocks
  import opened Commits
  import opened Replies
  import opened TurnStates
  import opened Updates
  import opened Stores
  import opened Journals
  import opened Retries
  import opened Toolsets

  /** How a race of some work with the cancel ended. `Gone` is a dropped future. */
  datatype Raced = Won | Lost | Gone

  /** Why a turn stops without a confirmed end. */
  datatype Halt = CommitFailed | FutureDropped

  /** How one attempt ended. */
  datatype AttemptEnd =
    | Replied(completion: Completion)
    | Failing(cause: Cause, info: AttemptInfo)
    | CutOff(partial: seq<Partial>)
    | AttemptGone

  /** What became of a request with all its attempts. */
  datatype Sent =
    | Answered(completion: Completion, origin: Origin)
    | SendFailed(error: string)
    | SendCancelled(partial: seq<Partial>)
    | SendHalted(halt: Halt)

  /** What follows a failed round: another round with a plan, or the end of the round. */
  datatype RoundRetry = NewPlan(replace: Option<Replaced>) | GiveUp(end: Sent)

  /** The answer of a hook after a round. */
  datatype RoundDecision = GoOn | StopNow | RoundFails(error: string) | RoundCancels

  /** What one step of a turn gave: its next action, its end, or a halt without a confirmed end. */
  datatype Step = Next(action: Action) | Ends(result: TurnResult) | Halts(halt: Halt)

  /** What a poll of a running call gave. */
  datatype Poll = Runs | Finishes(finish: ToolFinish) | PollGone

  /** A wait between two attempts: the number and the facts of the failed one, and the delay. */
  datatype Wait = Wait(number: nat, info: AttemptInfo, delay: Delay)

  /** How far the memory of a turn can be trusted. `Live` agrees with the store. `Halted` can be behind it. */
  datatype Mode = Live | Halted | Unsound

  function ContentsOf(kept: seq<PartialBlock>): (contents: seq<Partial>)
    ensures |contents| == |kept|
  {
    seq(|kept|, i requires 0 <= i < |kept| => kept[i].content)
  }

  /** The kept blocks of a cancel without its reasoning. */
  function WithoutReasoning(kept: seq<PartialBlock>): seq<PartialBlock> {
    if |kept| == 0 then []
    else
      var last := kept[|kept| - 1];
      WithoutReasoning(kept[..|kept| - 1]) + if last.content.PartialReasoning? then [] else [last]
  }

  lemma {:induction false} KeptAreWithoutReasoning(parts: seq<Part>)
    ensures WithoutReasoning(Partials(parts)) == KeptBlocks(parts)
  {
    if |parts| > 0 {
      var last := |parts| - 1;
      KeptAreWithoutReasoning(parts[..last]);
      var before, content := Partials(parts[..last]), PartialOf(parts[last]);
      if content.Some? {
        assert (before + [PartialBlock(last, content.value)])[..|before|] == before;
      } else {
        assert before + [] == before;
      }
    }
  }

  /** The open draft is the whole answer. */
  predicate ShowsAnswer(r: Reader, stage: Stage, completion: Completion) {
    r.open.Some? && stage.Whole? && completion.content == Complete(r.parts)
  }

  /** The open draft is what a cancel keeps, or no draft is open and it keeps nothing. */
  predicate ShowsCut(r: Reader, stage: Stage, partial: seq<Partial>) {
    if r.open.None? then partial == [] else stage.Cut? && partial == ContentsOf(KeptBlocks(r.parts))
  }

  /** No commit and no call came between. */
  predicate SameCalls(a: Reader, b: Reader) {
    a.last == b.last && a.blocks == b.blocks && a.started == b.started && a.finished == b.finished
  }

  // The calls of an answer.

  /** The place of a call of the newest saved commit. */
  function At(r: Reader, call: Resolved): Position {
    Position(if r.last.Some? then r.last.value.event else 0, call.blockIndex)
  }

  predicate SamePlace(a: Reader, b: Reader) {
    a.last == b.last && a.blocks == b.blocks && a.open == b.open
  }

  /** The call is in the newest saved commit. */
  predicate Placed(r: Reader, call: Resolved) {
    r.open.None? && r.last.Some? && call.blockIndex < |r.blocks| && r.blocks[call.blockIndex].Call?
  }

  /** The calls are in the newest saved commit, each one at its own place, and none of them started. */
  ghost predicate InLine(r: Reader, calls: seq<Resolved>) {
    && (forall k :: 0 <= k < |calls| ==> Placed(r, calls[k]) && At(r, calls[k]) !in r.started)
    && (forall j, k :: 0 <= j < k < |calls| ==> calls[j].blockIndex < calls[k].blockIndex)
  }

  /** The places of calls. */
  function Places(r: Reader, calls: seq<Resolved>): set<Position>
  {
    set k | 0 <= k < |calls| :: At(r, calls[k])
  }

  /** The places of the calls that have a result. */
  function DonePlaces(r: Reader, calls: seq<Resolved>, results: seq<Option<ToolFinish>>): set<Position>
    requires |results| <= |calls|
  {
    set k | 0 <= k < |results| && results[k].Some? :: At(r, calls[k])
  }

  /** The updates belong to tools at these places. */
  ghost predicate TouchOnly(updates: seq<Update>, places: set<Position>) {
    forall i :: 0 <= i < |updates| ==>
      && (updates[i].ToolStarted? || updates[i].ToolOutput? || updates[i].ToolFinished?)
      && updates[i].execution in places
  }

  /** The calls that updates start, in order. */
  function CallStarts(updates: seq<Update>): seq<Position> {
    if |updates| == 0 then []
    else
      var last := updates[|updates| - 1];
      CallStarts(updates[..|updates| - 1]) + if last.ToolStarted? then [last.execution] else []
  }

  lemma {:induction false} StartsJoin(a: seq<Update>, b: seq<Update>)
    ensures CallStarts(a + b) == CallStarts(a) + CallStarts(b)
  {
    if |b| == 0 {
      assert a + b == a;
    } else {
      StartsJoin(a, b[..|b| - 1]);
      assert (a + b)[..|a + b| - 1] == a + b[..|b| - 1];
    }
  }

  lemma NothingTouched(places: set<Position>)
    ensures RunsOnly([], places)
  {
  }

  /** Updates of running calls: they touch these calls only, and start none. */
  ghost predicate RunsOnly(updates: seq<Update>, places: set<Position>) {
    TouchOnly(updates, places) && CallStarts(updates) == []
  }

  lemma RunsMore(trace: seq<Update>, a: seq<Update>, b: seq<Update>, places: set<Position>, some: set<Position>)
    requires RunsOnly(a, places) && RunsOnly(b, some) && some <= places
    ensures RunsOnly(a + b, places) && trace + a + b == trace + (a + b)
  {
    StartsJoin(a, b);
    TouchMore(a, b, places, some);
  }

  lemma FinishRuns(trace: seq<Update>, a: seq<Update>, place: Position)
    requires RunsOnly(a, {place})
    ensures RunsOnly(a + [ToolFinished(place)], {place})
    ensures trace + a + [ToolFinished(place)] == trace + (a + [ToolFinished(place)])
  {
    RunsMore(trace, a, [ToolFinished(place)], {place}, {place});
  }

  function PlaceList(r: Reader, calls: seq<Resolved>): seq<Position> {
    seq(|calls|, k requires 0 <= k < |calls| => At(r, calls[k]))
  }

  /** One more call of a group starts. */
  lemma StartsNext(r: Reader, calls: seq<Resolved>, n: nat, added: seq<Update>, more: seq<Update>)
    requires n < |calls| && CallStarts(added) == PlaceList(r, calls[..n])
    requires 1 <= |more| <= 2 && more[0] == ToolStarted(At(r, calls[n])) && (|more| == 2 ==> more[1].ToolFinished?)
    ensures CallStarts(added + more) == PlaceList(r, calls[..n + 1]) <= PlaceList(r, calls)
  {
    StartsJoin(added, more);
    OneStart(more);
    assert PlaceList(r, calls[..n + 1]) == PlaceList(r, calls[..n]) + [At(r, calls[n])];
  }

  lemma OneStart(more: seq<Update>)
    requires 1 <= |more| <= 2 && more[0].ToolStarted? && (|more| == 2 ==> more[1].ToolFinished?)
    ensures CallStarts(more) == [more[0].execution]
  {
    assert CallStarts(more[..1]) == CallStarts(more[..1][..0]) + [more[0].execution];
    if |more| == 1 {
      assert more[..1] == more;
    }
  }

  lemma TouchMore(a: seq<Update>, b: seq<Update>, places: set<Position>, some: set<Position>)
    requires TouchOnly(a, places) && TouchOnly(b, some) && some <= places
    ensures TouchOnly(a + b, places)
  {
  }

  /** Each result answers its own call. */
  ghost predicate AnswerOwn(calls: seq<Resolved>, results: seq<Option<ToolFinish>>)
    requires |results| <= |calls|
  {
    forall k :: 0 <= k < |results| ==> AnswersCall(calls[k], results[k])
  }

  /** A result comes under the id of its call, and a call that runs nothing gets the result that says so. */
  predicate AnswersCall(call: Resolved, result: Option<ToolFinish>) {
    && (result.Some? ==> result.value.result.callId == call.call.callId)
    && (call.result.Some? ==> result == Some(ToolFinish(call.result.value, [], None)))
  }

  /** Since `before`, the first calls started, and the ones with a result finished. */
  ghost predicate Began(before: Reader, r: Reader, calls: seq<Resolved>, results: seq<Option<ToolFinish>>)
    requires |results| <= |calls|
  {
    && SamePlace(before, r) && AnswerOwn(calls, results)
    && r.started == before.started + Places(before, calls[..|results|])
    && r.finished == before.finished + DonePlaces(before, calls, results)
  }

  lemma BeganNext(before: Reader, r: Reader, next: Reader, calls: seq<Resolved>, results: seq<Option<ToolFinish>>,
                  one: Option<ToolFinish>)
    requires |results| < |calls| && InLine(before, calls) && Began(before, r, calls, results)
    requires var call := calls[|results|];
      && SamePlace(r, next) && next.started == r.started + {At(r, call)}
      && next.finished == r.finished + (if one.Some? then {At(r, call)} else {})
      && AnswersCall(call, one)
    ensures Began(before, next, calls, results + [one])
  {
    hide Places, DonePlaces, InLine, Placed;
    PlacesNext(before, calls, |results|);
    DoneNext(before, calls, results, one);
  }

  lemma PlacesNext(r: Reader, calls: seq<Resolved>, n: nat)
    requires n < |calls|
    ensures Places(r, calls[..n + 1]) == Places(r, calls[..n]) + {At(r, calls[n])}
  {
    var all, head := calls[..n + 1], calls[..n];
    forall p
      ensures p in Places(r, all) <==> p in Places(r, head) + {At(r, calls[n])}
    {
      if p in Places(r, head) {
        var k :| 0 <= k < n && p == At(r, head[k]);
        assert all[k] == head[k];
      }
      assert all[n] == calls[n];
      if p in Places(r, all) {
        var k :| 0 <= k < n + 1 && p == At(r, all[k]);
        if k < n { assert head[k] == all[k]; }
      }
    }
  }

  lemma DoneNext(r: Reader, calls: seq<Resolved>, results: seq<Option<ToolFinish>>, one: Option<ToolFinish>)
    requires |results| < |calls|
    ensures DonePlaces(r, calls, results + [one])
         == DonePlaces(r, calls, results) + if one.Some? then {At(r, calls[|results|])} else {}
  {
    var n, all := |results|, results + [one];
    forall p
      ensures p in DonePlaces(r, calls, all)
         <==> p in DonePlaces(r, calls, results) + if one.Some? then {At(r, calls[n])} else {}
    {
      if p in DonePlaces(r, calls, results) {
        var k :| 0 <= k < n && results[k].Some? && p == At(r, calls[k]);
        assert all[k] == results[k];
      }
      if one.Some? && p == At(r, calls[n]) {
        assert all[n] == one;
      }
      if p in DonePlaces(r, calls, all) {
        var k :| 0 <= k < n + 1 && all[k].Some? && p == At(r, calls[k]);
        if k < n { assert results[k] == all[k]; }
      }
    }
  }

  lemma NothingBegan(r: Reader, calls: seq<Resolved>)
    requires InLine(r, calls)
    ensures Began(r, r, calls, [])
  {
    assert calls[..0] == [];
  }

  /** A call without a result runs: it started and did not finish. */
  lemma BeganRuns(before: Reader, r: Reader, calls: seq<Resolved>, results: seq<Option<ToolFinish>>, k: nat)
    requires |results| == |calls| && k < |calls| && results[k].None?
    requires InLine(before, calls) && before.finished <= before.started && Began(before, r, calls, results)
    ensures SamePlace(before, r) && Placed(r, calls[k]) && At(r, calls[k]) in r.started - r.finished
    ensures calls[k].result.None?
  {
    assert Placed(before, calls[k]) && At(before, calls[k]) !in before.started;
    assert calls[..|results|][k] == calls[k];
    assert forall j :: 0 <= j < |calls| && j != k ==> calls[j].blockIndex != calls[k].blockIndex;
  }

  lemma BeganSame(before: Reader, r: Reader, next: Reader, calls: seq<Resolved>, results: seq<Option<ToolFinish>>)
    requires |results| <= |calls| && Began(before, r, calls, results)
    requires SamePlace(r, next) && next.started == r.started && next.finished == r.finished
    ensures Began(before, next, calls, results)
  {
  }

  lemma BeganFinish(before: Reader, r: Reader, next: Reader, calls: seq<Resolved>, results: seq<Option<ToolFinish>>,
                    k: nat, one: ToolFinish)
    requires |results| == |calls| && k < |calls| && results[k].None? && Began(before, r, calls, results)
    requires SamePlace(r, next) && next.started == r.started && next.finished == r.finished + {At(r, calls[k])}
    requires one.result.callId == calls[k].call.callId && calls[k].result.None?
    ensures Began(before, next, calls, results[k := Some(one)])
  {
    var all := results[k := Some(one)];
    forall p
      ensures p in DonePlaces(before, calls, all) <==> p in DonePlaces(before, calls, results) + {At(before, calls[k])}
    {
      if p in DonePlaces(before, calls, results) {
        var j :| 0 <= j < |results| && results[j].Some? && p == At(before, calls[j]);
        assert all[j] == results[j];
      }
      if p == At(before, calls[k]) {
        assert all[k].Some?;
      }
      if p in DonePlaces(before, calls, all) {
        var j :| 0 <= j < |all| && all[j].Some? && p == At(before, calls[j]);
        if j != k { assert results[j] == all[j]; }
      }
    }
    assert DonePlaces(before, calls, all) == DonePlaces(before, calls, results) + {At(before, calls[k])};
  }

  predicate AllFinished(results: seq<Option<ToolFinish>>) {
    forall k :: 0 <= k < |results| ==> results[k].Some?
  }

  /** Since `before`, exactly these calls started and finished. */
  ghost predicate Handled(before: Reader, r: Reader, calls: seq<Resolved>) {
    && SamePlace(before, r)
    && r.started == before.started + Places(before, calls) && r.finished == before.finished + Places(before, calls)
  }

  function Outcomes(results: seq<Option<ToolFinish>>): (outcomes: seq<ToolFinish>)
    requires AllFinished(results)
    ensures |outcomes| == |results|
  {
    seq(|results|, i requires 0 <= i < |results| => results[i].value)
  }

  /** The outcomes answer the calls one by one, in call order. */
  predicate AnswerInOrder(calls: seq<Resolved>, outcomes: seq<ToolFinish>) {
    && |outcomes| == |calls|
    && forall k :: 0 <= k < |calls| ==> AnswersCall(calls[k], Some(outcomes[k]))
  }

  lemma AllBegan(before: Reader, r: Reader, calls: seq<Resolved>, results: seq<Option<ToolFinish>>)
    requires |results| == |calls| && Began(before, r, calls, results) && AllFinished(results)
    ensures Handled(before, r, calls) && AnswerInOrder(calls, Outcomes(results))
  {
    assert calls[..|results|] == calls;
    forall p
      ensures p in DonePlaces(before, calls, results) <==> p in Places(before, calls)
    {
      if p in Places(before, calls) {
        var k :| 0 <= k < |calls| && p == At(before, calls[k]);
        assert results[k].Some?;
      }
    }
    assert DonePlaces(before, calls, results) == Places(before, calls);
  }

  /** The calls of a newest saved answer wait for the driver. */
  lemma AnswerWaits(r: Reader, toolset: Toolset)
    requires r.open.None? && NoneStarted(r)
    ensures InLine(r, ResolvedCalls(toolset, r.blocks)) && OwnIds(ResolvedCalls(toolset, r.blocks))
  {
    ResolvedAtBlocks(toolset, r.blocks);
  }

  /** The next group waits when exactly the calls before it are handled. */
  lemma GroupWaits(before: Reader, r: Reader, calls: seq<Resolved>, start: nat, end: nat)
    requires InLine(before, calls) && OwnIds(calls) && start <= end <= |calls|
    requires Handled(before, r, calls[..start])
    ensures InLine(r, calls[start..end]) && OwnIds(calls[start..end])
  {
    var group := calls[start..end];
    forall k | 0 <= k < |group|
      ensures Placed(r, group[k]) && At(r, group[k]) !in r.started
    {
      assert group[k] == calls[start + k];
      assert Placed(before, calls[start + k]) && At(before, calls[start + k]) !in before.started;
    }
    assert forall k :: 0 <= k < |group| ==> group[k] == calls[start + k];
  }

  lemma HandledPlace(before: Reader, r: Reader, calls: seq<Resolved>)
    requires Handled(before, r, calls)
    ensures SamePlace(before, r)
  {
  }

  lemma NothingHandled(r: Reader, calls: seq<Resolved>, toolset: Toolset)
    ensures Handled(r, r, calls[..0]) && AnswerInOrder(calls[..0], []) && Groups(toolset, calls[..0]) == []
  {
  }

  lemma AnswerMore(calls: seq<Resolved>, all: seq<ToolFinish>, some: seq<ToolFinish>, start: nat, end: nat)
    requires start <= end <= |calls|
    requires AnswerInOrder(calls[..start], all) && AnswerInOrder(calls[start..end], some)
    ensures AnswerInOrder(calls[..end], all + some)
  {
    assert calls[..end] == calls[..start] + calls[start..end];
  }

  lemma HandledNext(before: Reader, r: Reader, next: Reader, calls: seq<Resolved>, start: nat, end: nat)
    requires start <= end <= |calls|
    requires Handled(before, r, calls[..start]) && Handled(r, next, calls[start..end])
    ensures Handled(before, next, calls[..end])
    ensures Places(r, calls[start..end]) == Places(before, calls[start..end])
    ensures PlaceList(r, calls[start..end]) == PlaceList(before, calls[start..end])
  {
    var head, tail, all := calls[..start], calls[start..end], calls[..end];
    assert all == head + tail;
    forall p
      ensures p in Places(before, all) <==> p in Places(before, head) + Places(before, tail)
    {
      if p in Places(before, head) {
        var k :| 0 <= k < |head| && p == At(before, head[k]);
        assert all[k] == head[k];
      }
      if p in Places(before, tail) {
        var k :| 0 <= k < |tail| && p == At(before, tail[k]);
        assert all[start + k] == tail[k];
      }
      if p in Places(before, all) {
        var k :| 0 <= k < |all| && p == At(before, all[k]);
        if k < start { assert head[k] == all[k]; } else { assert tail[k - start] == all[k]; }
      }
    }
    assert Places(before, all) == Places(before, head) + Places(before, tail);
    assert forall k :: 0 <= k < |tail| ==> At(r, tail[k]) == At(before, tail[k]);
    assert Places(r, tail) == Places(before, tail);
  }

  lemma {:induction false} OutcomeIds(calls: seq<Resolved>, outcomes: seq<ToolFinish>)
    requires AnswerInOrder(calls, outcomes)
    ensures ResultIds(ResultBlocks(outcomes)) == IdsOf(calls)
  {
    if |outcomes| > 0 {
      var last := |outcomes| - 1;
      OutcomeIds(calls[..last], outcomes[..last]);
      assert ResultBlocks(outcomes)[..last] == ResultBlocks(outcomes[..last]);
      assert IdsOf(calls) == IdsOf(calls[..last]) + [calls[last].call.callId];
    }
  }

  /**
   * The updates of the groups, one group behind the other. Each has updates of its own calls only, and starts them in
   * call order.
   */
  ghost predicate GroupByGroup(r: Reader, groups: seq<seq<Resolved>>, parts: seq<seq<Update>>) {
    && |parts| == |groups|
    && forall g :: 0 <= g < |groups| ==>
         TouchOnly(parts[g], Places(r, groups[g])) && CallStarts(parts[g]) == PlaceList(r, groups[g])
  }

  lemma AtPlaces(r: Reader, calls: seq<Resolved>, k: nat)
    requires k < |calls|
    ensures At(r, calls[k]) in Places(r, calls)
  {
  }

  lemma ReducedInOrder(parts: seq<Part>, event: Event)
    requires Reduced(parts, event)
    ensures InOrder(parts, event)
  {
  }

  /** A call that runs nothing has a result under its own id. */
  ghost predicate OwnIds(calls: seq<Resolved>) {
    forall k :: 0 <= k < |calls| && calls[k].result.Some? ==> calls[k].result.value.callId == calls[k].call.callId
  }

  lemma BeganWaits(before: Reader, r: Reader, calls: seq<Resolved>, results: seq<Option<ToolFinish>>)
    requires |results| < |calls| && InLine(before, calls) && Began(before, r, calls, results)
    ensures Placed(r, calls[|results|]) && At(r, calls[|results|]) !in r.started
    ensures SamePlace(before, r)
  {
    assert Placed(before, calls[|results|]) && At(before, calls[|results|]) !in before.started;
  }

  class Turn {
    const state: TurnState
    const journal: Journal
    const policy: Policy
    const toolset: Toolset
    /** Whether the cancellation token of the turn is cancelled. It cannot be reset. */
    var cancelled: bool

    ghost function Standing(): Mode
      reads journal, journal.store, journal.publisher
    {
      if journal.Valid() then Live
      else if journal.id in journal.store.sessions && journal.Owned() then Halted
      else Unsound
    }

    ghost function Reader(): Reader
      reads journal.publisher
    {
      journal.publisher.reader
    }

    constructor (state: TurnState, journal: Journal, policy: Policy, toolset: Toolset)
      requires ValidPolicy(policy)
      ensures this.state == state && this.journal == journal && this.policy == policy && this.toolset == toolset
    {
      this.state, this.journal, this.policy, this.toolset := state, journal, policy, toolset;
      cancelled := false;
    }

    lemma Sound()
      requires Standing() == Live
      ensures !Reader().due && !Reader().over && Reader().finished <= Reader().started
    {
      hide GrewBy, ReadAll, SessionOk, WritesOrdered, SavedOnly, SavedOf;
    }

    /** Report one event of the turn to its observer. */
    method Tell(event: TurnEvent)
      requires Standing() == Live && Fits(Reader(), journal.publisher.stage, event)
      modifies journal.publisher
      ensures Standing() == Live
      ensures journal.publisher.stage == StageAfter(old(journal.publisher.stage), event)
      ensures journal.publisher.over == old(journal.publisher.over)
      ensures var update := UpdateOf(old(Reader()), old(journal.publisher.nextDraft), event);
        && journal.publisher.trace == old(journal.publisher.trace) + (if update.Some? then [update.value] else [])
        && (update.Some? ==> Accepts(old(Reader()), update.value))
        && Reader() == (if update.Some? then Updates.Read(old(Reader()), update.value) else old(Reader()))
    {
      hide GrewBy, ReadAll, SessionOk, WritesOrdered, Accepts, SavedOnly, SavedOf;
      TellsNoCommit(journal.publisher.trace, Reader(), journal.publisher.nextDraft, event);
      journal.publisher.Report(event);
    }

    /** Wait while other clients use the store. */
    method Await() returns (dropped: bool)
      requires Standing() == Live
      modifies journal.store, this`cancelled
      ensures Standing() == Live && journal.Log() == old(journal.Log())
      ensures old(cancelled) ==> cancelled
    {
      hide GrewBy, ReadAll, SessionOk, WritesOrdered, SavedOnly, SavedOf;
      journal.Wait();
      if * {
        cancelled := true;
      }
      dropped := *;
    }

    /** Race some work with the cancel. Each poll checks the cancel first. */
    method Race() returns (raced: Raced)
      requires Standing() == Live
      modifies journal.store, this`cancelled
      ensures Standing() == Live && journal.Log() == old(journal.Log())
      ensures old(cancelled) ==> cancelled && !raced.Won?
      ensures raced.Lost? ==> cancelled
    {
      hide Standing;
      var dropped := Await();
      return if dropped then Gone else if cancelled then Lost else Won;
    }

    /** Send one attempt and read its reply. An attempt that the observer saw gives no repeat. */
    method Attempt() returns (end: AttemptEnd)
      requires Standing() == Live && Reader().open.None?
      modifies journal.store, journal.publisher, this`cancelled
      ensures Standing() == Live && journal.Log() == old(journal.Log())
      ensures old(cancelled) ==> cancelled
      ensures SameCalls(old(Reader()), Reader()) && journal.publisher.over == old(journal.publisher.over)
      ensures |Reader().used| <= |old(Reader()).used| + 1
      ensures end.Replied? ==> ShowsAnswer(Reader(), journal.publisher.stage, end.completion)
      ensures end.Failing? ==> Reader().open.None? && (!end.info.outputSeen ==> Reader().repeats)
      ensures end.CutOff? ==>
        cancelled && Reader().open.Some? && ShowsCut(Reader(), journal.publisher.stage, end.partial)
    {
      hide Standing;
      Sound();
      Tell(ResponseStarted);
      var raced := Race();
      if raced.Gone? {
        return AttemptGone;
      }
      if raced.Lost? {
        Sound();
        Tell(ResponseCancelled([]));
        return CutOff([]);
      }
      end := ReadReply();
    }

    /** Read the reply of an attempt to its end, or until a cancel. */
    method ReadReply() returns (end: AttemptEnd)
      requires Standing() == Live && Reader().open.Some? && Reader().parts == [] && !Reader().shown
      requires journal.publisher.stage == InFlight
      modifies journal.store, journal.publisher, this`cancelled
      ensures Standing() == Live && journal.Log() == old(journal.Log())
      ensures old(cancelled) ==> cancelled
      ensures SameCalls(old(Reader()), Reader()) && journal.publisher.over == old(journal.publisher.over)
      ensures Reader().used == old(Reader()).used
      ensures end.Replied? ==> ShowsAnswer(Reader(), journal.publisher.stage, end.completion)
      ensures end.Failing? ==> Reader().open.None? && (!end.info.outputSeen ==> Reader().repeats)
      ensures end.CutOff? ==>
        cancelled && Reader().open.Some? && ShowsCut(Reader(), journal.publisher.stage, end.partial)
    {
      hide Standing;
      var reply := new Reply();
      var shown := false;
      var polls: nat := *;
      var over := false;
      while polls > 0 && !over
        invariant Standing() == Live && journal.Log() == old(journal.Log())
        invariant old(cancelled) ==> cancelled
        invariant SameCalls(old(Reader()), Reader()) && journal.publisher.over == old(journal.publisher.over)
        invariant Reader().open.Some? && Reader().parts == reply.parts && Reader().shown == shown
        invariant Reader().used == old(Reader()).used
        invariant journal.publisher.stage == if reply.end.Streaming? then InFlight else Stage.Whole
        decreases polls, !over
      {
        polls := polls - 1;
        var raced := Race();
        if raced.Gone? {
          return AttemptGone;
        }
        if raced.Lost? {
          Sound();
          // No provider would accept a cut thought again, so only the other parts go on.
          var kept := WithoutReasoning(Partials(reply.parts));
          KeptAreWithoutReasoning(reply.parts);
          Tell(ResponseCancelled(kept));
          return CutOff(ContentsOf(kept));
        }
        var took := TakeEvent(reply);
        shown, over := shown || took, !took;
      }
      var gone := Await();
      if gone || !over {
        return AttemptGone;
      }
      var failed: bool := *;
      if reply.end.Finished? && !failed {
        return Replied(Completion(Complete(reply.parts), reply.end.finish, reply.end.input));
      }
      Sound();
      Tell(ResponseFailed);
      var cause: Cause := *;
      var info: AttemptInfo := *;
      return Failing(cause, info.(outputSeen := shown));
    }

    /**
     * Take the next event of the reply, if one comes. The report follows its event at once, so both sides of a cancel
     * see the same events.
     */
    method TakeEvent(reply: Reply) returns (took: bool)
      requires Standing() == Live && Reader().open.Some? && Reader().parts == reply.parts
      requires journal.publisher.stage == if reply.end.Streaming? then InFlight else Stage.Whole
      modifies journal.publisher, reply
      ensures Standing() == Live && Reader().open.Some? && Reader().parts == reply.parts
      ensures journal.publisher.stage == if reply.end.Streaming? then InFlight else Stage.Whole
      ensures SameCalls(old(Reader()), Reader()) && journal.publisher.over == old(journal.publisher.over)
      ensures Reader().used == old(Reader()).used && Reader().shown == (old(Reader()).shown || took)
    {
      hide Standing, Reduced;
      var event: Event := *;
      took := reply.end.Streaming? && Reduced(reply.parts, event);
      if took {
        Sound();
        ReducedInOrder(reply.parts, event);
        Tell(Model(event));
        reply.Keep(event);
      }
    }

    /**
     * Send a request, and send it again as long as the policy permits. `waits` lists the repeats: there is less than
     * one for each permitted attempt, each follows an attempt that gave no event, and each delay keeps its bounds.
     */
    method Send() returns (sent: Sent, ghost waits: seq<Wait>)
      requires Standing() == Live && Reader().open.None? && ValidPolicy(policy)
      modifies journal.store, journal.publisher, this`cancelled
      ensures Standing() == Live && journal.Log() == old(journal.Log())
      ensures old(cancelled) ==> cancelled
      ensures SameCalls(old(Reader()), Reader()) && journal.publisher.over == old(journal.publisher.over)
      ensures SentFits(sent)
      ensures |waits| < policy.maxAttempts && WaitsFit(policy, waits)
      ensures |Reader().used| <= |old(Reader()).used| + |waits| + 1
    {
      hide Standing, Decide, DelayFits;
      var number := 1;
      waits := [];
      while true
        invariant Standing() == Live && journal.Log() == old(journal.Log())
        invariant old(cancelled) ==> cancelled
        invariant Reader().open.None? && SameCalls(old(Reader()), Reader())
        invariant journal.publisher.over == old(journal.publisher.over)
        invariant |waits| == number - 1 < policy.maxAttempts && WaitsFit(policy, waits)
        invariant |Reader().used| <= |old(Reader()).used| + |waits|
        decreases policy.maxAttempts - number
      {
        var raced := Race();
        if raced.Gone? {
          return SendHalted(FutureDropped), waits;
        }
        if raced.Lost? {
          return SendCancelled([]), waits;
        }
        // The credential or the encoding of the request can fail.
        var failed: Option<string> := *;
        if failed.Some? {
          return SendFailed(failed.value), waits;
        }
        var end := Attempt();
        match end {
          case Replied(completion) =>
            var origin: Origin := *;
            return Answered(completion, origin), waits;
          case CutOff(partial) =>
            return SendCancelled(partial), waits;
          case AttemptGone =>
            return SendHalted(FutureDropped), waits;
          case Failing(cause, info) =>
            var delay := Schedule(cause, info, number);
            if delay.None? {
              var error: string := *;
              return SendFailed(error), waits;
            }
            waits := waits + [Wait(number, info, delay.value)];
            raced := Race();
            if raced.Gone? {
              return SendHalted(FutureDropped), waits;
            }
            if raced.Lost? {
              return SendCancelled([]), waits;
            }
            number := number + 1;
        }
      }
    }

    /** Report the repeat of a failed attempt, when the policy permits it. */
    method Schedule(cause: Cause, info: AttemptInfo, number: nat) returns (delay: Option<Delay>)
      requires Standing() == Live && Reader().open.None? && ValidPolicy(policy) && number >= 1
      requires !info.outputSeen ==> Reader().repeats
      modifies journal.publisher
      ensures Standing() == Live && Reader().open.None? && SameCalls(old(Reader()), Reader())
      ensures Reader().used == old(Reader()).used && journal.publisher.over == old(journal.publisher.over)
      ensures delay.Some? ==>
        number < policy.maxAttempts && !info.outputSeen && DelayFits(policy, info, number, delay.value)
    {
      hide Standing, Decide, DelayFits;
      var draw := AnyDraw();
      delay := Decide(policy, cause, info, number, draw);
      if delay.Some? {
        RepeatsAreBounded(policy, cause, info, number, draw);
        Sound();
        Tell(ScheduledRetry);
      }
    }

    /** How far the updates came when a request ended. */
    ghost predicate SentFits(sent: Sent)
      reads this`cancelled, journal.publisher
    {
      match sent
      case Answered(completion, _) => ShowsAnswer(Reader(), journal.publisher.stage, completion)
      case SendFailed(_) => Reader().open.None?
      case SendCancelled(partial) => cancelled && ShowsCut(Reader(), journal.publisher.stage, partial)
      case SendHalted(_) => true
    }

    /** The commits of the state are the saved ones, and then the ones in `pending`. */
    ghost predicate Linked(pending: seq<Commit>)
      reads state, journal
    {
      && state.Valid() && state.commits == journal.saved + pending
      && state.first == ContextOf(journal.before) && state.firstTokens == TokensOf(journal.before)
      && Paired(pending)
    }

    /** The state knows the pairing as long as the callers of the turn kept it. */
    ghost predicate Paired(pending: seq<Commit>)
      reads state, journal
    {
      Balanced(ContextOf(journal.before))
      && Keeps(ContextOf(journal.before), journal.saved + pending,
               journal.sources + if pending == [] then [] else [journal.inputs])
      ==> state.paired
    }

    /** A commit that keeps the pairing comes behind commits that kept it. */
    lemma PairedBehind(commit: Commit)
      ensures Keeps(ContextOf(journal.before), journal.saved + [commit], journal.sources + [journal.inputs]) ==>
        && Keeps(ContextOf(journal.before), journal.saved + [], journal.sources + [])
        && (journal.inputs != [] ==> PlainInput(commit.blocks))
        && (commit.replaced.Some? ==> Balanced(Replay(ContextOf(journal.before), journal.saved + [commit])))
    {
      assert journal.saved + [] == journal.saved && journal.sources + [] == journal.sources;
      if Keeps(ContextOf(journal.before), journal.saved + [commit], journal.sources + [journal.inputs]) {
        KeepsLast(ContextOf(journal.before), journal.saved, journal.sources, commit, journal.inputs);
      }
    }

    lemma PairedBefore(action: Action)
      ensures action.Pending() == [] ==>
        journal.saved + action.Pending() == journal.saved && journal.sources + [] == journal.sources
      ensures action.Pending() != [] ==>
        (Keeps(ContextOf(journal.before), journal.saved + action.Pending(), journal.sources + [journal.inputs]) ==>
           && Keeps(ContextOf(journal.before), journal.saved + [], journal.sources + [])
           && (journal.inputs != [] ==> PlainInput(action.Pending()[0].blocks)))
    {
      if action.Pending() != [] {
        PairedBehind(action.Pending()[0]);
        assert action.Pending() == [action.Pending()[0]];
      }
    }

    /** As long as the callers of the turn keep the pairing, a process can stop behind any saved commit. */
    ghost predicate CanStop()
      reads journal, journal.store
    {
      PairedLog(journal.before) && Balanced(ContextOf(journal.before))
      && Keeps(ContextOf(journal.before), journal.saved, journal.sources)
      ==> PairedLog(journal.Log())
    }

    /** The records of the taken inputs fit the blocks of the next commit. */
    ghost predicate InputsFit(blocks: seq<Block>)
      reads journal
    {
      journal.inputs == [] || blocks == [] || blocks == AllModelBlocks(journal.inputs)
    }

    /** The open draft names the blocks of the next commit. */
    ghost predicate DraftFits(blocks: seq<Block>)
      reads journal.publisher
    {
      DraftReady(Reader(), journal.publisher.stage, blocks)
    }

    /** What the updates know right behind a confirmed commit. */
    ghost predicate Published(commit: Commit)
      reads journal.publisher
    {
      && Reader().open.None? && Reader().blocks == commit.blocks && NoneStarted(Reader())
      && journal.publisher.over == commit.end.Some?
    }

    /** The displays of the calls among `blocks`. */
    method CallDisplay(blocks: seq<Block>) returns (displays: seq<CallDisplay>)
      ensures displays == CallDisplays(toolset, blocks)
    {
      displays := [];
      for i := 0 to |blocks|
        invariant displays == CallDisplays(toolset, blocks[..i])
      {
        assert blocks[..i + 1][..i] == blocks[..i];
        if blocks[i].Call? {
          displays := displays + [
            Commits.CallDisplay(i, HintsOf(toolset, Resolve(toolset, i, blocks[i].call).call.name))];
        }
      }
      assert blocks[..|blocks|] == blocks;
    }

    /** Hand a commit to the journal, joined by the displays of its calls. A cancel can come during it, and waits. */
    method Save(commit: Commit) returns (confirmation: Confirmation)
      requires Standing() == Live && Linked([commit]) && CanStop() && commit.calls == []
      requires InputsFit(commit.blocks) && DraftFits(commit.blocks)
      requires commit.end.Some? ==> state.phase == Over
      modifies this`cancelled, journal, journal.store, journal.publisher
      ensures old(cancelled) ==> cancelled
      ensures Standing() == (if confirmation.Confirmed? then Live else old(Standing())) || Standing() == Halted
      ensures CanStop() && journal.lost == old(journal.lost)
      ensures journal.saved == old(journal.saved) || journal.saved == old(journal.saved) + [commit]
      ensures commit.blocks == [] && old(journal.inputs) != [] ==>
        !confirmation.Confirmed? && journal.saved == old(journal.saved)
      ensures confirmation.Confirmed? ==>
        && Standing() == Live && Linked([]) && journal.inputs == [] && Published(commit)
        && journal.saved == old(journal.saved) + [commit]
        && journal.Log() == old(journal.Log()) + [StoredEvent(|old(journal.Log())| + 1, CommitEvent(
             commit.(calls := CallDisplays(toolset, commit.blocks)), Records(old(journal.inputs))))]
    {
      hide Standing, Linked, CanStop, DraftFits, Published, CallDisplays;
      var calls := CallDisplay(commit.blocks);
      confirmation := SaveWith(commit, calls);
      var cancel: bool := *;
      cancelled := cancelled || cancel;
    }

    /** Save a commit with these displays. */
    method SaveWith(commit: Commit, calls: seq<CallDisplay>) returns (confirmation: Confirmation)
      requires Standing() == Live && Linked([commit]) && CanStop() && commit.calls == []
      requires InputsFit(commit.blocks) && DraftFits(commit.blocks)
      requires commit.end.Some? ==> state.phase == Over
      modifies journal, journal.store, journal.publisher
      ensures Standing() == (if confirmation.Confirmed? then Live else old(Standing())) || Standing() == Halted
      ensures CanStop() && journal.lost == old(journal.lost)
      ensures journal.saved == old(journal.saved) || journal.saved == old(journal.saved) + [commit]
      ensures commit.blocks == [] && old(journal.inputs) != [] ==>
        !confirmation.Confirmed? && journal.saved == old(journal.saved)
      ensures confirmation.Confirmed? ==>
        && Standing() == Live && Linked([]) && journal.inputs == [] && Published(commit)
        && journal.saved == old(journal.saved) + [commit]
        && journal.Log() == old(journal.Log())
             + [StoredEvent(|old(journal.Log())| + 1,
                            CommitEvent(commit.(calls := calls), Records(old(journal.inputs))))]
    {
      hide ReadAll, SessionOk, WritesOrdered, GrewBy, Names, FinalIds, History, CallDisplays, PairedLog, PairedAt,
        SavedOnly, SavedOf, Traced, AllTraced, Remembers, KeepsOut;
      ghost var log, saved, sources, inputs := journal.Log(), journal.saved, journal.sources, journal.inputs;
      confirmation := journal.Commit(commit.(calls := calls), commit);
      if PairedLog(journal.before) && Balanced(ContextOf(journal.before)) && journal.saved != saved
         && Keeps(ContextOf(journal.before), journal.saved, journal.sources) {
        KeepsLast(ContextOf(journal.before), saved, sources, commit, inputs);
        SavedPoint(journal.Log(), journal.before, journal.settings, saved, journal.sources, commit,
                   state.context, state.inputTokens);
        PairedLogGrows(log, journal.Log()[|log|]);
      }
      assert journal.saved + [] == journal.saved && journal.sources + [] == journal.sources;
    }

    /** No saved commit of the turn has an end. */
    ghost predicate Unended()
      reads journal
    {
      forall i :: 0 <= i < |journal.saved| ==> journal.saved[i].end.None?
    }

    /** The journal saved every commit of the state, and no input waits for its commit. */
    ghost predicate AllSaved()
      reads this, state, journal, journal.store, journal.publisher
    {
      Standing() == Live && Linked([]) && CanStop() && journal.inputs == [] && !journal.lost && Unended()
    }

    /** Replace the context as a plan asks, and save the commit of the replacement. */
    method ReplaceContext(replace: Replaced) returns (confirmation: Confirmation)
      requires AllSaved() && state.phase == Sending && Reader().open.None?
      modifies this`cancelled, state, journal, journal.store, journal.publisher
      ensures old(cancelled) ==> cancelled
      ensures CanStop() && Standing() != Unsound && !journal.lost
      ensures confirmation.Confirmed? ==> AllSaved() && state.phase == Sending && Reader().open.None?
      ensures state.context == Spliced(old(state.context), replace)
      ensures if replace.head == [] && replace.keep >= |old(state.context)|
        then
          && confirmation.Confirmed? && state.inputTokens == old(state.inputTokens)
          && journal.Log() == old(journal.Log())
        else state.inputTokens.None? && (confirmation.Confirmed? ==> |journal.Log()| == |old(journal.Log())| + 1)
    {
      hide Standing, History;
      // The plan asks for the context as it is.
      if replace.head == [] && replace.keep >= |state.context| {
        return Confirmed;
      }
      var commit := state.Replace(replace);
      PairedBehind(commit);
      state.CommitsReplay();
      assert state.commits == journal.saved + [commit];
      confirmation := Save(commit);
    }

    /** Send the request of one round. A hook plans it, and after a failure a hook decides whether it runs again. */
    method SendRound() returns (sent: Sent)
      requires AllSaved() && state.phase == Sending && Reader().open.None? && ValidPolicy(policy)
      modifies this`cancelled, state, journal, journal.store, journal.publisher
      ensures CanStop() && !journal.lost
      ensures old(cancelled) ==> cancelled
      ensures !sent.SendHalted? ==> AllSaved() && state.phase == Sending && SentFits(sent)
      ensures Standing() != Unsound
    {
      hide Standing, History, PairedLog;
      var raced := Race();
      if !raced.Won? {
        return if raced.Gone? then SendHalted(FutureDropped) else SendCancelled([]);
      }
      var failed: Option<string> := *;
      if failed.Some? {
        return SendFailed(failed.value);
      }
      var plan: Option<Replaced> := *;
      var rounds: nat := *;
      while rounds > 0
        invariant AllSaved() && state.phase == Sending && Reader().open.None?
        invariant old(cancelled) ==> cancelled
      {
        rounds := rounds - 1;
        if plan.Some? {
          var confirmation := ReplaceContext(plan.value);
          if !confirmation.Confirmed? {
            return SendHalted(if confirmation.SaveDropped? then FutureDropped else CommitFailed);
          }
        }
        ghost var waits;
        sent, waits := Send();
        if !sent.SendFailed? {
          return;
        }
        var again := AskAgain(sent);
        match again {
          case GiveUp(end) =>
            return end;
          case NewPlan(replace) =>
            plan := replace;
        }
      }
      return SendHalted(FutureDropped);
    }

    /** Ask a hook whether a failed round runs again. */
    method AskAgain(failed: Sent) returns (again: RoundRetry)
      requires AllSaved() && Reader().open.None? && failed.SendFailed?
      modifies this`cancelled, journal.store, journal.publisher
      ensures AllSaved() && Reader().open.None? && (old(cancelled) ==> cancelled)
      ensures again.GiveUp? ==>
        || again.end == failed || again.end.SendFailed? || again.end == SendHalted(FutureDropped)
        || (cancelled && again.end == SendCancelled([]))
    {
      hide Standing, History, PairedLog, Linked;
      Sound();
      Tell(FailedRound);
      var raced := Race();
      if !raced.Won? {
        return GiveUp(if raced.Gone? then SendHalted(FutureDropped) else SendCancelled([]));
      }
      again := *;
      if again.GiveUp? && !again.end.SendFailed? {
        again := GiveUp(failed);
      }
    }

    /**
     * Before the calls of a group run, report each start and ask a hook for each call, in call order. A call that the
     * bridge refused, that the hook blocks, or that a cancel stops gets its result here.
     */
    method StartGroup(group: seq<Resolved>)
        returns (results: Option<seq<Option<ToolFinish>>>, ghost added: seq<Update>)
      requires Standing() == Live && InLine(Reader(), group) && OwnIds(group)
      modifies journal.store, journal.publisher, this`cancelled
      ensures Standing() == Live && journal.Log() == old(journal.Log())
      ensures old(cancelled) ==> cancelled
      ensures journal.publisher.over == old(journal.publisher.over)
      ensures journal.publisher.trace == old(journal.publisher.trace) + added
      ensures TouchOnly(added, Places(old(Reader()), group)) && CallStarts(added) <= PlaceList(old(Reader()), group)
      ensures results.Some? ==>
        && |results.value| == |group| && Began(old(Reader()), Reader(), group, results.value)
        && CallStarts(added) == PlaceList(old(Reader()), group)
    {
      hide Standing, Began, InLine, Placed;
      ghost var before := Reader();
      var all: seq<Option<ToolFinish>> := [];
      added := [];
      NothingBegan(before, group);
      assert journal.publisher.trace + [] == journal.publisher.trace;
      for i := 0 to |group|
        invariant Standing() == Live && journal.Log() == old(journal.Log())
        invariant old(cancelled) ==> cancelled
        invariant journal.publisher.over == old(journal.publisher.over)
        invariant journal.publisher.trace == old(journal.publisher.trace) + added
        invariant TouchOnly(added, Places(before, group)) && CallStarts(added) == PlaceList(before, group[..i])
        invariant |all| == i && Began(before, Reader(), group, all)
      {
        BeganWaits(before, Reader(), group, all);
        ghost var r := Reader();
        var one;
        ghost var more;
        one, more := StartCall(group[i]);
        AtPlaces(before, group, i);
        StartsNext(before, group, i, added, more);
        TouchMore(added, more, Places(before, group), {At(before, group[i])});
        added := added + more;
        if one.None? {
          return None, added;
        }
        BeganNext(before, r, Reader(), group, all, one.value);
        all := all + [one.value];
      }
      assert group[..|group|] == group;
      return Some(all), added;
    }

    /** Report the start of one call, and ask the hook about it. */
    method StartCall(call: Resolved) returns (result: Option<Option<ToolFinish>>, ghost added: seq<Update>)
      requires Standing() == Live && Placed(Reader(), call) && At(Reader(), call) !in Reader().started
      requires call.result.Some? ==> call.result.value.callId == call.call.callId
      modifies journal.store, journal.publisher, this`cancelled
      ensures Standing() == Live && journal.Log() == old(journal.Log())
      ensures old(cancelled) ==> cancelled
      ensures journal.publisher.over == old(journal.publisher.over)
      ensures SamePlace(old(Reader()), Reader())
      ensures Reader().started == old(Reader()).started + {At(Reader(), call)}
      ensures result.Some? ==> AnswersCall(call, result.value)
      ensures Reader().finished ==
        old(Reader()).finished + if result.Some? && result.value.Some? then {At(Reader(), call)} else {}
      ensures journal.publisher.trace == old(journal.publisher.trace) + added
      ensures added == [ToolStarted(At(Reader(), call))]
        + if result.Some? && result.value.Some? then [ToolFinished(At(Reader(), call))] else []
    {
      hide Standing;
      Sound();
      Tell(StartedTool(call.blockIndex));
      added := [ToolStarted(At(Reader(), call))];
      var stopped := call.result;
      if stopped.None? {
        var raced := Race();
        if raced.Gone? {
          return None, added;
        }
        var blocked: Option<string> := *;
        if raced.Lost? {
          stopped := Some(NotExecuted(call.call, CANCELLED_REASON));
        } else if blocked.Some? {
          stopped := Some(ErrorResult(call.call.callId, blocked.value));
        }
      }
      if stopped.None? {
        return Some(None), added;
      }
      Sound();
      Tell(FinishedTool(call.blockIndex));
      added := added + [ToolFinished(At(Reader(), call))];
      return Some(Some(ToolFinish(stopped.value, [], None))), added;
    }

    /** Run the approved calls of a group together, in any interleaving, until each one finished. */
    method RunGroup(ghost before: Reader, group: seq<Resolved>, started: seq<Option<ToolFinish>>)
        returns (results: Option<seq<Option<ToolFinish>>>, ghost added: seq<Update>)
      requires Standing() == Live && |started| == |group| && Began(before, Reader(), group, started)
      requires InLine(before, group) && before.finished <= before.started
      modifies journal.store, journal.publisher, this`cancelled
      ensures Standing() == Live && journal.Log() == old(journal.Log())
      ensures old(cancelled) ==> cancelled
      ensures journal.publisher.over == old(journal.publisher.over)
      ensures journal.publisher.trace == old(journal.publisher.trace) + added
      ensures RunsOnly(added, Places(before, group))
      ensures results.Some? ==>
        |results.value| == |group| && AllFinished(results.value) && Began(before, Reader(), group, results.value)
    {
      hide Standing, Began, InLine, Placed, RunsOnly;
      NothingTouched(Places(before, group));
      ghost var trace := journal.publisher.trace;
      var all := started;
      var running := seq(|group|, i => false);
      added := [];
      assert journal.publisher.trace + [] == journal.publisher.trace;
      var polls: nat := *;
      while !AllFinished(all)
        invariant Standing() == Live && journal.Log() == old(journal.Log())
        invariant old(cancelled) ==> cancelled
        invariant journal.publisher.over == old(journal.publisher.over)
        invariant journal.publisher.trace == old(journal.publisher.trace) + added
        invariant RunsOnly(added, Places(before, group))
        invariant |all| == |running| == |group| && Began(before, Reader(), group, all)
        decreases polls
      {
        var k: nat := *;
        if polls == 0 {
          return None, added;
        }
        polls := polls - 1;
        if 0 <= k < |all| && all[k].None? {
          var poll;
          ghost var more;
          poll, more := PollOne(before, group, all, k, running[k]);
          RunsMore(trace, added, more, Places(before, group), Places(before, group));
          added := added + more;
          if poll.PollGone? {
            return None, added;
          }
          running := running[k := true];
          if poll.Finishes? {
            all := all[k := Some(poll.finish)];
          }
        }
      }
      return Some(all), added;
    }

    /** Let call `k` of a group go on. */
    method PollOne(ghost before: Reader, group: seq<Resolved>, ghost all: seq<Option<ToolFinish>>, k: nat,
                   running: bool)
        returns (poll: Poll, ghost added: seq<Update>)
      requires Standing() == Live && |all| == |group| && k < |all| && all[k].None?
      requires InLine(before, group) && before.finished <= before.started && Began(before, Reader(), group, all)
      modifies journal.store, journal.publisher, this`cancelled
      ensures Standing() == Live && journal.Log() == old(journal.Log())
      ensures old(cancelled) ==> cancelled
      ensures journal.publisher.over == old(journal.publisher.over)
      ensures journal.publisher.trace == old(journal.publisher.trace) + added
      ensures RunsOnly(added, Places(before, group))
      ensures poll.Runs? ==> Began(before, Reader(), group, all)
      ensures poll.Finishes? ==> Began(before, Reader(), group, all[k := Some(poll.finish)])
    {
      hide Standing, Began, InLine, Placed, RunsOnly;
      BeganRuns(before, Reader(), group, all, k);
      ghost var r := Reader();
      poll, added := PollCall(group[k], running);
      AtPlaces(before, group, k);
      NothingTouched(Places(before, group));
      RunsMore([], [], added, Places(before, group), {At(before, group[k])});
      assert [] + added == added;
      match poll
      case PollGone =>
      case Runs =>
        BeganSame(before, r, Reader(), group, all);
      case Finishes(finish) =>
        BeganFinish(before, r, Reader(), group, all, k, finish);
    }

    /** Let one approved call go on. When the cancel was first, the tool is never called. */
    method PollCall(call: Resolved, running: bool) returns (poll: Poll, ghost added: seq<Update>)
      requires Standing() == Live && Placed(Reader(), call)
      requires At(Reader(), call) in Reader().started - Reader().finished
      modifies journal.store, journal.publisher, this`cancelled
      ensures Standing() == Live && journal.Log() == old(journal.Log())
      ensures old(cancelled) ==> cancelled
      ensures journal.publisher.over == old(journal.publisher.over)
      ensures SamePlace(old(Reader()), Reader()) && Reader().started == old(Reader()).started
      ensures poll.Finishes? ==> poll.finish.result.callId == call.call.callId
      ensures poll.Finishes? && !running && old(cancelled) ==>
        poll.finish == ToolFinish(NotExecuted(call.call, CANCELLED_REASON), [], None)
      ensures poll.Runs? ==> Reader() == old(Reader()).(repeats := Reader().repeats)
      ensures Reader().finished == old(Reader()).finished + if poll.Finishes? then {At(Reader(), call)} else {}
      ensures journal.publisher.trace == old(journal.publisher.trace) + added
      ensures RunsOnly(added, {At(Reader(), call)})
    {
      hide Standing, RunsOnly;
      NothingTouched({At(Reader(), call)});
      added := [];
      assert journal.publisher.trace + [] == journal.publisher.trace;
      var finish: ToolFinish;
      if !running && cancelled {
        finish := ToolFinish(NotExecuted(call.call, CANCELLED_REASON), [], None);
      } else {
        added := ShowOutput(call);
        var dropped := Await();
        if dropped {
          return PollGone, added;
        }
        var ends: bool := *;
        if !ends {
          return Runs, added;
        }
        // A tool and the hook behind it answer under the id of the call.
        finish := *;
        finish := finish.(result := finish.result.(callId := call.call.callId));
      }
      Sound();
      Tell(FinishedTool(call.blockIndex));
      FinishRuns(old(journal.publisher.trace), added, At(Reader(), call));
      added := added + [ToolFinished(At(Reader(), call))];
      return Finishes(finish), added;
    }

    /** Show the live output of a running call, if it gave some. */
    method ShowOutput(call: Resolved) returns (ghost added: seq<Update>)
      requires Standing() == Live && Placed(Reader(), call)
      requires At(Reader(), call) in Reader().started - Reader().finished
      modifies journal.publisher
      ensures Standing() == Live && journal.publisher.over == old(journal.publisher.over)
      ensures Reader() == old(Reader()).(repeats := Reader().repeats)
      ensures journal.publisher.trace == old(journal.publisher.trace) + added
      ensures RunsOnly(added, {At(Reader(), call)})
    {
      hide Standing;
      added := [];
      assert journal.publisher.trace + [] == journal.publisher.trace;
      var output: Option<string> := *;
      if output.Some? {
        Sound();
        Tell(OutputOfTool(call.blockIndex, output.value));
        added := [ToolOutput(At(Reader(), call), output.value)];
        assert CallStarts(added) == CallStarts(added[..0]) == [];
      }
    }

    /** Start a group and run it to its end. The outcomes come in call order, whatever finished first. */
    method CallGroup(group: seq<Resolved>) returns (outcomes: Option<seq<ToolFinish>>, ghost added: seq<Update>)
      requires Standing() == Live && InLine(Reader(), group) && OwnIds(group)
      modifies journal.store, journal.publisher, this`cancelled
      ensures Standing() == Live && journal.Log() == old(journal.Log())
      ensures old(cancelled) ==> cancelled
      ensures journal.publisher.over == old(journal.publisher.over)
      ensures journal.publisher.trace == old(journal.publisher.trace) + added
      ensures TouchOnly(added, Places(old(Reader()), group))
      ensures outcomes.Some? ==>
        && Handled(old(Reader()), Reader(), group) && AnswerInOrder(group, outcomes.value)
        && CallStarts(added) == PlaceList(old(Reader()), group)
    {
      hide Standing, Began, InLine, Handled, AnswerInOrder;
      Sound();
      ghost var before := Reader();
      var started;
      started, added := StartGroup(group);
      if started.None? {
        return None, added;
      }
      var results;
      ghost var more;
      results, more := RunGroup(before, group, started.value);
      TouchMore(added, more, Places(before, group), Places(before, group));
      StartsJoin(added, more);
      added := added + more;
      if results.None? {
        return None, added;
      }
      AllBegan(before, Reader(), group, results.value);
      return Some(Outcomes(results.value)), added;
    }

    /** The end of the group that starts at `start`. */
    method NextGroup(calls: seq<Resolved>, start: nat, ghost groups: seq<seq<Resolved>>) returns (next: nat)
      requires start < |calls| && groups == Groups(toolset, calls[..start])
      requires groups != [] ==> !(IsParallel(toolset, groups[|groups| - 1][0]) && IsParallel(toolset, calls[start]))
      ensures start < next <= |calls|
      ensures Groups(toolset, calls[..next]) == groups + [calls[start..next]]
      ensures next < |calls| ==> !(IsParallel(toolset, calls[start]) && IsParallel(toolset, calls[next]))
    {
      hide IsParallel, Groups;
      var parallel := IsParallel(toolset, calls[start]);
      GroupsNext(toolset, calls, start);
      next := start + 1;
      assert calls[start..next] == [calls[start]];
      while parallel && next < |calls| && IsParallel(toolset, calls[next])
        invariant start < next <= |calls|
        invariant Groups(toolset, calls[..next]) == groups + [calls[start..next]]
      {
        GroupsNext(toolset, calls, next);
        assert calls[start..next] + [calls[next]] == calls[start..next + 1];
        next := next + 1;
      }
    }

    /**
     * Work through the calls of an answer that is saved, group by group. Neighbours that may overlap share a group, and
     * any other call is alone in its own. A group waits until the one before it is over, and the outcomes follow the
     * order of the calls.
     */
    method CallTools(blocks: seq<Block>) returns (outcomes: Option<seq<ToolFinish>>, ghost parts: seq<seq<Update>>)
      requires Standing() == Live && Reader().open.None? && NoneStarted(Reader()) && Reader().blocks == blocks
      modifies journal.store, journal.publisher, this`cancelled
      ensures Standing() == Live && journal.Log() == old(journal.Log())
      ensures old(cancelled) ==> cancelled
      ensures journal.publisher.over == old(journal.publisher.over)
      ensures outcomes.Some? ==>
        var calls := ResolvedCalls(toolset, blocks);
        && ResultIds(ResultBlocks(outcomes.value)) == CallIds(blocks) && AnswerInOrder(calls, outcomes.value)
        && Handled(old(Reader()), Reader(), calls) && Reader().open.None?
        && GroupByGroup(old(Reader()), Groups(toolset, calls), parts)
        && journal.publisher.trace == old(journal.publisher.trace) + Flatten(parts)
    {
      hide Standing, InLine, Handled, AnswerInOrder, OwnIds, IsParallel, Groups, ResolvedCalls, TouchOnly,
        CallStarts, PlaceList;
      ghost var before := Reader();
      AnswerWaits(before, toolset);
      var calls := ResolvedCalls(toolset, blocks);
      var all: seq<ToolFinish> := [];
      ghost var groups: seq<seq<Resolved>> := [];
      parts := [];
      NothingHandled(before, calls, toolset);
      assert journal.publisher.trace + [] == journal.publisher.trace;
      var next := 0;
      while next < |calls|
        invariant 0 <= next <= |calls|
        invariant Standing() == Live && journal.Log() == old(journal.Log())
        invariant old(cancelled) ==> cancelled
        invariant journal.publisher.over == old(journal.publisher.over)
        invariant Handled(before, Reader(), calls[..next]) && AnswerInOrder(calls[..next], all)
        invariant groups == Groups(toolset, calls[..next]) && GroupByGroup(before, groups, parts)
        invariant journal.publisher.trace == old(journal.publisher.trace) + Flatten(parts)
        invariant next < |calls| && groups != [] ==>
          !(IsParallel(toolset, groups[|groups| - 1][0]) && IsParallel(toolset, calls[next]))
      {
        var start := next;
        next := NextGroup(calls, start, groups);
        GroupWaits(before, Reader(), calls, start, next);
        ghost var r, trace := Reader(), journal.publisher.trace;
        var some;
        ghost var more;
        some, more := CallGroup(calls[start..next]);
        if some.None? {
          return None, parts;
        }
        HandledNext(before, r, Reader(), calls, start, next);
        AnswerMore(calls, all, some.value, start, next);
        FlattenNext(parts, more);
        assert old(journal.publisher.trace) + Flatten(parts) + more
            == old(journal.publisher.trace) + (Flatten(parts) + more);
        groups := groups + [calls[start..next]];
        parts := parts + [more];
        all := all + some.value;
      }
      assert calls[..next] == calls;
      OutcomeIds(calls, all);
      ResolvedAtBlocks(toolset, blocks);
      HandledPlace(before, Reader(), calls);
      return Some(all), parts;
    }

    /** The turn stands in front of `action`: its commit fits the journal and the open draft, and nothing else waits. */
    ghost predicate Ready(action: Action)
      reads this, state, journal, journal.store, journal.publisher
    {
      && Standing() == Live && CanStop() && Linked(action.Pending()) && Unended()
      && (journal.lost ==>
            action.Done? && action.commit.blocks == [] && journal.inputs != [] && journal.saved != [])
      && match action
         case Send(input) =>
           && state.phase == Sending && Reader().open.None?
           && (if input.Some? then InputsFit(input.value.blocks) && Plain(input.value) else journal.inputs == [])
         case CallTools(commit) =>
           && state.phase == Phase.Running && journal.inputs == [] && DraftFits(commit.blocks) && Plain(commit)
           && (state.paired ==> state.OpenIds() == CallIds(commit.blocks))
         case AfterRound(_, commit) =>
           state.phase == Asking && journal.inputs == [] && DraftFits(commit.blocks) && Plain(commit)
         case Done(commit, result) =>
           && state.phase == Over && (journal.inputs == [] || commit.blocks == []) && DraftFits(commit.blocks)
           && commit.calls == [] && commit.end == Some(EndOf(result))
    }

    /** What holds behind a step. */
    ghost predicate Stepped(step: Step)
      reads this, state, journal, journal.store, journal.publisher
    {
      match step
      case Next(action) => Ready(action)
      case Ends(result) =>
        && Standing() == Live && Linked([]) && CanStop() && journal.inputs == [] && !journal.lost
        && state.phase == Over && Reader().open.None? && journal.publisher.over
        && TurnOf(journal.Log()) == EndedTurn(EndOf(result))
      case Halts(_) =>
        CanStop() && Standing() != Unsound && (journal.lost ==> Unended() && journal.saved != [])
    }

    /** Save the input, send the round, and take its answer. */
    method StepSend(input: Option<Commit>) returns (step: Step)
      requires Ready(Action.Send(input)) && ValidPolicy(policy)
      modifies this`cancelled, state, journal, journal.store, journal.publisher
      ensures Stepped(step) && !step.Ends? && !journal.lost && (step.Next? ==> journal.inputs == [])
    {
      hide Standing, History, PairedLog, Names, FinalIds;
      if input.Some? {
        var confirmation := Save(input.value);
        if !confirmation.Confirmed? {
          return Halts(if confirmation.SaveDropped? then FutureDropped else CommitFailed);
        }
      }
      var sent := SendRound();
      if sent.SendHalted? {
        return Halts(sent.halt);
      }
      var action := TakeSent(sent);
      return Next(action);
    }

    /** Give the answer, the failure, or the cancel of a round to the state. */
    method TakeSent(sent: Sent) returns (action: Action)
      requires AllSaved() && state.phase == Sending && SentFits(sent) && !sent.SendHalted?
      modifies state
      ensures Ready(action)
      ensures match sent
        case Answered(completion, _) =>
          if CallIds(completion.ToBlocks()) != [] && (completion.finish == ToolCalls || completion.finish == StopFinish)
          then action.CallTools? else action.AfterRound?
        case SendFailed(error) => action.Done? && action.result == TurnResult.RoundFailed(error)
        case SendCancelled(_) => cancelled && action.Done? && action.result == Ended(Cancelled)
        case SendHalted(_) => true
    {
      hide Standing, History, PairedLog, Names, FinalIds;
      match sent
      case SendFailed(error) =>
        action := state.Fail(error);
        PairedBehind(action.commit);
      case SendCancelled(partial) =>
        action := CancelModel(partial);
      case Answered(completion, origin) =>
        action := TakeAnswer(completion, origin);
    }

    method TakeAnswer(completion: Completion, origin: Origin) returns (action: Action)
      requires AllSaved() && state.phase == Sending && ShowsAnswer(Reader(), journal.publisher.stage, completion)
      modifies state
      ensures Ready(action)
      ensures if CallIds(completion.ToBlocks()) != []
                 && (completion.finish == ToolCalls || completion.finish == StopFinish)
        then action.CallTools? else action.AfterRound?
    {
      hide Standing, History, PairedLog, Names, FinalIds, NotRun, ShowsAnswer, CallIds, Resumable, Balanced, Scan;
      AnswerNames(Reader(), journal.publisher.stage, completion, []);
      ghost var results := NotRun(completion.ToBlocks(), CutReason(completion.finish));
      AnswerNames(Reader(), journal.publisher.stage, completion, results);
      assert completion.ToBlocks() + [] == completion.ToBlocks();
      action := state.ModelFinished(completion, origin);
      PairedBehind(action.commit);
    }

    method CancelModel(partial: seq<Partial>) returns (action: Action)
      requires AllSaved() && state.phase == Sending && ShowsCut(Reader(), journal.publisher.stage, partial)
      modifies state
      ensures Ready(action) && action.Done? && action.result == Ended(Cancelled)
    {
      hide Standing, History, PairedLog, Names, FinalIds, NotRun;
      CutNames(Reader(), journal.publisher.stage, partial, NotRun(PartialBlocks(partial), CANCELLED_REASON));
      action := state.ModelCancelled(partial);
      PairedBehind(action.commit);
    }

    /** Save the answer, run its calls, and take their outcomes. */
    method StepTools(commit: Commit) returns (step: Step)
      requires Ready(Action.CallTools(commit))
      modifies this`cancelled, state, journal, journal.store, journal.publisher
      ensures Stepped(step) && !step.Ends?
      ensures step.Next? ==>
        if cancelled then step.action.Done? && step.action.result == Ended(Cancelled)
        else step.action.AfterRound? && step.action.finish.None?
    {
      hide Standing, History, PairedLog, Names, FinalIds, Handled, GroupByGroup, ResolvedCalls, ResultIds, ResultBlocks,
        AnswerInOrder, DraftReady;
      var confirmation := Save(commit);
      if !confirmation.Confirmed? {
        return Halts(if confirmation.SaveDropped? then FutureDropped else CommitFailed);
      }
      var outcomes;
      ghost var parts;
      outcomes, parts := CallTools(commit.blocks);
      if outcomes.None? {
        return Halts(FutureDropped);
      }
      var action := TakeOutcomes(outcomes.value);
      return Next(action);
    }

    method TakeOutcomes(outcomes: seq<ToolFinish>) returns (action: Action)
      requires AllSaved() && state.phase == Phase.Running && Reader().open.None?
      requires state.paired ==> ResultIds(ResultBlocks(outcomes)) == state.OpenIds()
      modifies state
      ensures Ready(action)
      ensures if cancelled then action.Done? && action.result == Ended(Cancelled)
        else action.AfterRound? && action.finish.None?
    {
      hide Standing, History, PairedLog, Names, FinalIds, ResultIds, ResultBlocks;
      if cancelled {
        action := state.ToolsCancelled(outcomes);
      } else {
        action := state.ToolsFinished(outcomes);
      }
      PairedBehind(action.commit);
    }

    /** Save the round, ask a hook, and take new input only when the turn goes on. */
    method StepRound(finish: Option<FinishReason>, commit: Commit) returns (step: Step)
      requires Ready(AfterRound(finish, commit))
      modifies this`cancelled, state, journal, journal.store, journal.publisher
      ensures Stepped(step)
    {
      hide Standing, History, PairedLog, Names, FinalIds;
      var confirmation := Save(commit);
      if !confirmation.Confirmed? {
        return Halts(if confirmation.SaveDropped? then FutureDropped else CommitFailed);
      }
      step := AskRound();
    }

    method AskRound() returns (step: Step)
      requires AllSaved() && journal.saved != [] && state.phase == Asking && Reader().open.None?
      modifies this`cancelled, state, journal, journal.store
      ensures Stepped(step)
      ensures old(cancelled) && step.Next? ==> step.action.Done? && step.action.result == Ended(Cancelled)
    {
      hide Standing, History, PairedLog, Linked, Names, FinalIds, Ready;
      var raced := Race();
      if raced.Gone? {
        return Halts(FutureDropped);
      }
      var action: Action;
      if raced.Lost? {
        action := EndRound(RoundCancels);
        return Next(action);
      }
      var decision: RoundDecision := *;
      if decision.GoOn? {
        ghost var taken;
        step, taken := TakeInput();
      } else {
        action := EndRound(decision);
        step := Next(action);
      }
    }

    /** End the turn behind a round: a stop, a cancel, or a failure. */
    method EndRound(decision: RoundDecision) returns (action: Action)
      requires Standing() == Live && Linked([]) && CanStop() && state.phase == Asking && Reader().open.None?
      requires !decision.GoOn? && Unended()
      requires journal.lost ==> journal.inputs != [] && journal.saved != []
      modifies state
      ensures Ready(action) && action.Done? && action.commit.blocks == []
      ensures action.result == match decision
        case RoundCancels => Ended(Cancelled)
        case RoundFails(error) => TurnResult.RoundFailed(error)
        case StopNow => Ended(if old(state.turnEnd).Some? then Completed(old(state.turnEnd).value) else Outcome.Stopped)
        case GoOn => Ended(Cancelled)
    {
      hide Standing, History, PairedLog, Names, FinalIds;
      match decision {
        case RoundCancels => action := state.Cancel();
        case StopNow => action := state.Stop();
        case RoundFails(error) => action := state.Fail(error);
        case GoOn =>
      }
      PairedBehind(action.commit);
    }

    /**
     * Take the input that came during the round, and go on with it. A failed take ends the turn with a commit without
     * blocks, also when it lost the blocks of inputs that it took.
     */
    method TakeInput() returns (step: Step, ghost taken: Taken)
      requires AllSaved() && journal.saved != [] && state.phase == Asking && Reader().open.None?
      modifies this`cancelled, state, journal, journal.store
      ensures Stepped(step)
      ensures match taken
        case TakeDropped => step == Halts(FutureDropped)
        case TakeFailed =>
          && step.Next? && step.action.Done? && step.action.result == TurnResult.RoundFailed("inbox")
          && step.action.commit.blocks == [] && (journal.lost <==> journal.inputs != [])
        case Took(blocks) =>
          && !journal.lost && blocks == AllModelBlocks(journal.inputs) && (blocks == [] ==> journal.inputs == [])
          && step == Next(if old(state.turnEnd).Some? && blocks == []
                          then EndedWith(Completed(old(state.turnEnd).value))
                          else Action.Send(if blocks == [] then None else Some(CommitOf(blocks))))
    {
      hide Standing, History, PairedLog, Names, FinalIds, Ready, Linked;
      var took := Take();
      taken := took;
      var action: Action;
      match took
      case TakeDropped =>
        return Halts(FutureDropped), taken;
      case TakeFailed =>
        action := EndRound(RoundFails("inbox"));
        return Next(action), taken;
      case Took(blocks) =>
        action := Proceed(blocks);
        return Next(action), taken;
    }

    method Proceed(blocks: seq<Block>) returns (action: Action)
      requires Standing() == Live && Linked([]) && CanStop() && state.phase == Asking && Reader().open.None?
      requires blocks == AllModelBlocks(journal.inputs) && (blocks == [] ==> journal.inputs == [])
      requires Unended() && !journal.lost
      modifies state
      ensures Ready(action)
      ensures action == if old(state.turnEnd).Some? && blocks == []
        then EndedWith(Completed(old(state.turnEnd).value))
        else Action.Send(if blocks == [] then None else Some(CommitOf(blocks)))
    {
      hide Standing, History, PairedLog, Names, FinalIds;
      action := state.Proceed(blocks);
      PairedBefore(action);
    }

    /** Take the pending inputs of the session. */
    method Take() returns (taken: Taken)
      requires AllSaved() && Reader().open.None?
      modifies this`cancelled, journal, journal.store
      ensures Standing() == Live && Linked([]) && CanStop() && Reader().open.None? && Unended()
      ensures journal.saved == old(journal.saved)
      ensures journal.lost <==> taken.TakeFailed? && journal.inputs != []
      ensures taken.Took? ==> taken.blocks == AllModelBlocks(journal.inputs)
      ensures taken.Took? && taken.blocks == [] ==> journal.inputs == []
    {
      hide History, PairedLog, GrewBy, ReadAll, SessionOk, WritesOrdered, SavedOnly, SavedOf, Traced, AllTraced,
        Remembers, KeepsOut;
      taken := journal.Take();
    }

    /** Save the end of the turn. */
    method StepDone(commit: Commit, result: TurnResult) returns (step: Step)
      requires Ready(Action.Done(commit, result))
      modifies this`cancelled, state, journal, journal.store, journal.publisher
      ensures Stepped(step) && !step.Next? && (step.Ends? ==> step.result == result)
      ensures old(journal.inputs) != [] ==> step.Halts? && journal.saved == old(journal.saved)
    {
      hide Standing, History, PairedLog, Names, FinalIds;
      var confirmation := Save(commit);
      if !confirmation.Confirmed? {
        return Halts(if confirmation.SaveDropped? then FutureDropped else CommitFailed);
      }
      return Ends(result);
    }

    method StepOf(action: Action) returns (step: Step)
      requires Ready(action) && ValidPolicy(policy)
      modifies this`cancelled, state, journal, journal.store, journal.publisher
      ensures Stepped(step)
    {
      hide Standing, History, PairedLog, Names, FinalIds, Linked, Ready, Stepped;
      match action
      case Send(input) => step := StepSend(input);
      case CallTools(commit) => step := StepTools(commit);
      case AfterRound(finish, commit) => step := StepRound(finish, commit);
      case Done(commit, result) => step := StepDone(commit, result);
    }

    /**
     * Take one step after the other. A confirmed end leaves a log that replays to the live context and tokens. Every
     * other end leaves a log that the commits of the turn grew in order. In both, a process can stop behind any event
     * of it.
     */
    method Run(input: seq<Block>) returns (step: Step)
      requires Standing() == Live && Linked([]) && CanStop() && state.phase == Starting && Reader().open.None?
      requires input == AllModelBlocks(journal.inputs) && (input == [] ==> journal.inputs == []) && ValidPolicy(policy)
      requires !journal.lost && Unended()
      modifies this`cancelled, state, journal, journal.store, journal.publisher
      ensures !step.Next? && Stepped(step)
    {
      hide Standing, History, PairedLog, Names, FinalIds, Linked, Ready;
      var action := Start(input);
      var steps: nat := *;
      while steps > 0
        invariant Ready(action)
      {
        steps := steps - 1;
        step := StepOf(action);
        if !step.Next? {
          return;
        }
        action := step.action;
      }
      ReadyHalts(action);
      return Halts(FutureDropped);
    }

    lemma StillOwned()
      requires Standing() != Unsound
      ensures journal.id in journal.store.sessions && journal.Owned()
    {
    }

    /** Behind a confirmed end the log replays to the live context and tokens. */
    lemma EndAgrees(result: TurnResult)
      requires Stepped(Ends(result))
      ensures journal.Owned() && journal.id in journal.store.sessions
      ensures ContextOf(journal.Log()) == state.context && SettingsOf(journal.Log()) == Some(journal.settings)
      ensures TokensOf(journal.Log()) == state.inputTokens == journal.inputTokens
      ensures TurnOf(journal.Log()) == EndedTurn(EndOf(result))
      ensures SavedOnly(journal.publisher.trace) == SavedOf(journal.Log(), |journal.before|)
    {
      hide ReadAll, SessionOk, WritesOrdered, PairedLog, Replay, ReplayTokens, SavedOnly, SavedOf;
      assert journal.saved + [] == journal.saved;
    }

    method Start(input: seq<Block>) returns (action: Action)
      requires Standing() == Live && Linked([]) && CanStop() && state.phase == Starting && Reader().open.None?
      requires input == AllModelBlocks(journal.inputs) && (input == [] ==> journal.inputs == [])
      requires !journal.lost && Unended()
      modifies state
      ensures Ready(action)
    {
      hide Standing, History, PairedLog, Names, FinalIds;
      action := state.SendInput(input);
      PairedBefore(action);
    }

    lemma ReadyHalts(action: Action)
      requires Ready(action)
      ensures Stepped(Halts(FutureDropped))
    {
      hide Standing, History, PairedLog, Names, FinalIds;
    }
  }

  /** A commit in the middle of a turn, before the displays of its calls join it. */
  predicate Plain(commit: Commit) {
    commit.calls == [] && commit.end.None?
  }

  /** The draft of a whole answer names the blocks of its commit, with the results of calls that did not run behind. */
  lemma AnswerNames(r: Reader, stage: Stage, completion: Completion, results: seq<Block>)
    requires ShowsAnswer(r, stage, completion) && AllResults(results)
    ensures stage.Whole? && Names(r.parts, FinalIds(stage, r.parts), completion.ToBlocks() + results)
  {
    CompleteFollowsIds(r.parts);
    var blocks := completion.ToBlocks() + results;
    assert blocks[|completion.content|..] == results;
  }

  lemma CutNames(r: Reader, stage: Stage, partial: seq<Partial>, results: seq<Block>)
    requires ShowsCut(r, stage, partial) && AllResults(results)
    ensures r.open.Some? ==> stage.Cut? && Names(r.parts, FinalIds(stage, r.parts), PartialBlocks(partial) + results)
  {
    var blocks := PartialBlocks(partial) + results;
    assert blocks[|partial|..] == results;
  }

  /** Behind a saved commit the log holds the live context, so a process can stop there. */
  lemma SavedPoint(log: seq<StoredEvent>, before: seq<StoredEvent>, settings: Settings, saved: seq<Commit>,
                   sources: seq<seq<PendingInput>>, commit: Commit, context: seq<Block>, tokens: Option<nat>)
    requires GrewBy(log, before, settings, saved + [commit], sources)
    requires History(ContextOf(before), TokensOf(before), saved + [commit], context, tokens, true)
    requires Resumable(context) && (commit.end.Some? ==> Balanced(context))
    ensures PairedAt(log)
  {
  }

  /** An event of the driver shows no saved commit. */
  lemma TellsNoCommit(trace: seq<Update>, r: Reader, newId: nat, event: TurnEvent)
    ensures var update := UpdateOf(r, newId, event);
      SavedOnly(trace + if update.Some? then [update.value] else []) == SavedOnly(trace)
  {
    var update := UpdateOf(r, newId, event);
    if update.Some? {
      SavedOnlyNext(trace, update.value);
    } else {
      assert trace + [] == trace;
    }
  }

  /** No call of the newest saved commit started. */
  ghost predicate NoneStarted(r: Reader) {
    r.last.Some? && forall p :: p in r.started ==> p.event < r.last.value.event
  }

  ghost predicate WaitsFit(policy: Policy, waits: seq<Wait>) {
    forall i :: 0 <= i < |waits| ==>
      && waits[i].number == i + 1 && !waits[i].info.outputSeen
      && DelayFits(policy, waits[i].info, i + 1, waits[i].delay)
  }

  /** Any draw of the jitter, with any float error in its bounds. */
  method AnyDraw() returns (draw: Draw)
    ensures ValidDraw(draw)
  {
    draw := *;
    if !ValidDraw(draw) {
      draw := Draw(0.0, 0.0);
    }
  }
}
