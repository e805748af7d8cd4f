/**
 * The durable sessions of crates/agent/src/memory.rs, with the types and the checks of crates/agent/src/store.rs and
 * the inputs of crates/protocol/src/input.rs. Blobs, titles, prompts, and clocks are not part of this model.
 */
module Stores {
  import opened Options
  import opened Sequences
  import opened Blocks
  import opened Commits

  type SessionId = nat

  /** Settings, of which a store reads the folder only. */
  datatype Settings = Settings(cwd: string, text: string)

  datatype InputFields = InputFields(plugin: Option<string>, content: seq<Block>, modelContent: Option<seq<Block>>)

  /** An accepted input. Its constructors give it at least one block, and at least one model block. */
  type Input = i: InputFields |
      i.content != [] && (i.modelContent.Some? ==> i.modelContent.value != [])
    witness InputFields(None, [UserText("")], None)

  /** The text for the model: the replaced content, or else what the user sees. */
  function ModelBlocks(input: Input): (blocks: seq<Block>)
    ensures blocks != []
  {
    if input.modelContent.Some? then input.modelContent.value else input.content
  }

  datatype PendingInput = PendingInput(id: nat, input: Input)

  /** What a log keeps of a consumed input. `blockCount` says how many blocks of its commit come from it. */
  datatype ConsumedInput =
    ConsumedInput(id: nat, plugin: Option<string>, displayContent: Option<seq<Block>>, blockCount: nat)

  /** The record of an input. Its block count is the number of its model blocks. */
  function Consumed(pending: PendingInput): (record: ConsumedInput)
    ensures record.id == pending.id && record.blockCount == |ModelBlocks(pending.input)| > 0
  {
    var input := pending.input;
    ConsumedInput(pending.id, input.plugin, if input.modelContent.Some? then Some(input.content) else None,
                  |ModelBlocks(input)|)
  }

  datatype SessionEvent = CommitEvent(commit: Commit, consumed: seq<ConsumedInput>) | SettingsEvent(settings: Settings)

  datatype StoredEvent = StoredEvent(number: nat, event: SessionEvent)

  /** How far the last turn of a log came. */
  datatype NewestTurn = Empty | OpenTurn | EndedTurn(end: TurnEnd)

  datatype Opened = Opened(
    id: SessionId,
    settings: Settings,
    context: seq<Block>,
    newestTurn: NewestTurn,
    inputTokens: Option<nat>,
    lease: bool)

  datatype Saved = Saved(
    events: seq<StoredEvent>,
    pending: seq<PendingInput>,
    newestWrite: nat,
    forkOf: Option<SessionId>,
    parent: Option<SessionId>)

  datatype StoreError =
    | Owned | NotFound | NotACompletedTurn | InputNotPending(id: nat) | InputBlocksExceedCommit | StoreFailed

  datatype Result<+T> = Ok(value: T) | Err(error: StoreError)

  datatype Access = Read | Write

  datatype Page = After(after: Option<nat>) | Before(before: Option<nat>, limit: nat)

  // What the events of a session replay to.

  function ContextOf(events: seq<StoredEvent>): seq<Block> {
    if |events| == 0 then []
    else
      var before := ContextOf(events[..|events| - 1]);
      match events[|events| - 1].event
      case SettingsEvent(_) => before
      case CommitEvent(commit, _) => Apply(commit, before)
  }

  function TurnOf(events: seq<StoredEvent>): NewestTurn {
    if |events| == 0 then Empty
    else
      match events[|events| - 1].event
      case SettingsEvent(_) => TurnOf(events[..|events| - 1])
      case CommitEvent(commit, _) => if commit.end.Some? then EndedTurn(commit.end.value) else OpenTurn
  }

  function TokensOf(events: seq<StoredEvent>): Option<nat> {
    if |events| == 0 then None
    else
      var before := TokensOf(events[..|events| - 1]);
      match events[|events| - 1].event
      case SettingsEvent(_) => before
      case CommitEvent(commit, _) => TokensAfter(commit, before)
  }

  /** The settings that count behind a log. */
  function SettingsOf(events: seq<StoredEvent>): Option<Settings> {
    if |events| == 0 then None
    else
      match events[|events| - 1].event
      case SettingsEvent(settings) => Some(settings)
      case CommitEvent(_, _) => SettingsOf(events[..|events| - 1])
  }

  /** The ids of the inputs that the events consumed. */
  function ConsumedIds(events: seq<StoredEvent>): seq<nat> {
    if |events| == 0 then []
    else
      ConsumedIds(events[..|events| - 1])
        + match events[|events| - 1].event
          case SettingsEvent(_) => []
          case CommitEvent(_, consumed) => RecordIds(consumed)
  }

  function RecordIds(consumed: seq<ConsumedInput>): (ids: seq<nat>)
    ensures |ids| == |consumed|
  {
    seq(|consumed|, i requires 0 <= i < |consumed| => consumed[i].id)
  }

  function PendingIds(pending: seq<PendingInput>): (ids: seq<nat>)
    ensures |ids| == |pending|
  {
    seq(|pending|, i requires 0 <= i < |pending| => pending[i].id)
  }

  function SumBlocks(consumed: seq<ConsumedInput>): nat {
    if |consumed| == 0 then 0 else SumBlocks(consumed[..|consumed| - 1]) + consumed[|consumed| - 1].blockCount
  }

  /** A commit is long enough for everything that it claims to consume. */
  predicate ConsumedBlocksFit(commit: Commit, consumed: seq<ConsumedInput>) {
    SumBlocks(consumed) <= |commit.blocks|
  }

  // The invariant of a store.

  /** Events are numbered from 1, and the first one holds settings. */
  predicate Numbered(events: seq<StoredEvent>) {
    && |events| > 0 && events[0].event.SettingsEvent?
    && forall i :: 0 <= i < |events| ==> events[i].number == i + 1
  }

  /** The consumed ids of all events and the pending ids. */
  function InputIds(saved: Saved): seq<nat> {
    ConsumedIds(saved.events) + PendingIds(saved.pending)
  }

  /** No input is consumed twice, or both consumed and pending, and every id is one that the store gave. */
  ghost predicate InputsOnce(saved: Saved, newestInput: nat) {
    Distinct(InputIds(saved)) && forall id :: id in InputIds(saved) ==> id <= newestInput
  }

  /** The pending inputs keep the order in which the store accepted them. */
  ghost predicate SessionOk(saved: Saved, newestInput: nat) {
    Numbered(saved.events) && InputsOnce(saved, newestInput) && Ascending(PendingIds(saved.pending))
  }

  /** Every session has its own newest write, which the store counted. */
  ghost predicate WritesOrdered(sessions: map<SessionId, Saved>, writes: nat) {
    && (forall id :: id in sessions ==> 0 < sessions[id].newestWrite <= writes)
    && (forall a, b :: a in sessions && b in sessions && a != b ==>
          sessions[a].newestWrite != sessions[b].newestWrite)
  }

  lemma {:induction false} SettingsExist(events: seq<StoredEvent>)
    requires |events| > 0 && events[0].event.SettingsEvent?
    ensures SettingsOf(events).Some?
  {
    if |events| > 1 {
      SettingsExist(events[..|events| - 1]);
    }
  }

  /** The events with one more. */
  function Pushed(saved: Saved, event: SessionEvent, write: nat): Saved {
    saved.(events := saved.events + [StoredEvent(|saved.events| + 1, event)], newestWrite := write)
  }

  lemma PushedReplays(saved: Saved, event: SessionEvent, write: nat)
    ensures var events := Pushed(saved, event, write).events;
      && events[..|events| - 1] == saved.events
      && (event.SettingsEvent? ==>
            && ContextOf(events) == ContextOf(saved.events) && TurnOf(events) == TurnOf(saved.events)
            && TokensOf(events) == TokensOf(saved.events) && SettingsOf(events) == Some(event.settings)
            && ConsumedIds(events) == ConsumedIds(saved.events))
      && (event.CommitEvent? ==>
            && ContextOf(events) == Apply(event.commit, ContextOf(saved.events))
            && TurnOf(events) == (if event.commit.end.Some? then EndedTurn(event.commit.end.value) else OpenTurn)
            && TokensOf(events) == TokensAfter(event.commit, TokensOf(saved.events))
            && SettingsOf(events) == SettingsOf(saved.events)
            && ConsumedIds(events) == ConsumedIds(saved.events) + RecordIds(event.consumed))
  {
    var events := Pushed(saved, event, write).events;
    assert events[..|events| - 1] == saved.events;
    if event.SettingsEvent? {
      assert ConsumedIds(saved.events) + [] == ConsumedIds(saved.events);
    }
  }

  /** The pending inputs without the consumed ones. */
  function Remaining(pending: seq<PendingInput>, ids: seq<nat>): seq<PendingInput> {
    if |pending| == 0 then []
    else
      var last := pending[|pending| - 1];
      Remaining(pending[..|pending| - 1], ids) + if last.id in ids then [] else [last]
  }

  lemma {:induction false} RemainingKeeps(pending: seq<PendingInput>, ids: seq<nat>)
    ensures forall p :: p in Remaining(pending, ids) <==> p in pending && p.id !in ids
  {
    if |pending| > 0 {
      RemainingKeeps(pending[..|pending| - 1], ids);
      assert pending == pending[..|pending| - 1] + [pending[|pending| - 1]];
    }
  }

  lemma IdsOfPending(pending: seq<PendingInput>)
    ensures forall p :: p in pending ==> p.id in PendingIds(pending)
    ensures forall id :: id in PendingIds(pending) ==> exists p :: p in pending && p.id == id
  {
    forall p | p in pending
      ensures p.id in PendingIds(pending)
    {
      var k :| 0 <= k < |pending| && pending[k] == p;
      assert PendingIds(pending)[k] == p.id;
    }
    forall id | id in PendingIds(pending)
      ensures exists p :: p in pending && p.id == id
    {
      var k :| 0 <= k < |pending| && PendingIds(pending)[k] == id;
      assert pending[k] in pending && pending[k].id == id;
    }
  }

  lemma {:induction false} RemainingAscends(pending: seq<PendingInput>, ids: seq<nat>)
    requires Ascending(PendingIds(pending))
    ensures Ascending(PendingIds(Remaining(pending, ids)))
  {
    if |pending| > 0 {
      var before, last := pending[..|pending| - 1], pending[|pending| - 1];
      assert PendingIds(before) == PendingIds(pending)[..|before|];
      RemainingAscends(before, ids);
      RemainingKeeps(before, ids);
      var rest := Remaining(before, ids);
      forall k | 0 <= k < |rest|
        ensures PendingIds(rest)[k] < last.id
      {
        assert rest[k] in before;
        var j :| 0 <= j < |before| && before[j] == rest[k];
        assert PendingIds(pending)[j] < PendingIds(pending)[|before|];
      }
      assert PendingIds(rest + [last]) == PendingIds(rest) + [last.id];
      assert rest + [] == rest;
    }
  }

  lemma RemainingIds(pending: seq<PendingInput>, ids: seq<nat>)
    requires Ascending(PendingIds(pending))
    ensures Ascending(PendingIds(Remaining(pending, ids))) && Distinct(PendingIds(Remaining(pending, ids)))
    ensures forall id :: id in PendingIds(Remaining(pending, ids)) <==> id in PendingIds(pending) && id !in ids
  {
    RemainingAscends(pending, ids);
    RemainingKeeps(pending, ids);
    IdsOfPending(pending);
    IdsOfPending(Remaining(pending, ids));
  }

  /** A commit moves ids from the pending inputs to the events, so every id stays unique. */
  lemma ConsumeOnce(saved: Saved, commit: Commit, consumed: seq<ConsumedInput>, write: nat, newestInput: nat)
    requires SessionOk(saved, newestInput)
    requires Distinct(RecordIds(consumed))
    requires forall id :: id in RecordIds(consumed) ==> id in PendingIds(saved.pending)
    ensures SessionOk(Pushed(saved.(pending := Remaining(saved.pending, RecordIds(consumed))),
                             CommitEvent(commit, consumed), write), newestInput)
    ensures NoNewInputs(saved, Pushed(saved.(pending := Remaining(saved.pending, RecordIds(consumed))),
                                      CommitEvent(commit, consumed), write))
  {
    var a, b, p := ConsumedIds(saved.events), RecordIds(consumed), PendingIds(saved.pending);
    var trimmed := saved.(pending := Remaining(saved.pending, b));
    var next := Pushed(trimmed, CommitEvent(commit, consumed), write);
    assert forall i :: 0 <= i < |p| ==> InputIds(saved)[|a| + i] == p[i];
    assert Distinct(p);
    RemainingIds(saved.pending, b);
    PushedReplays(trimmed, CommitEvent(commit, consumed), write);
    var r := PendingIds(trimmed.pending);
    assert InputIds(next) == a + b + r;
    DistinctParts(a, b, p, r);
    assert forall id :: id in a + b + r ==> id in InputIds(saved);
  }

  lemma DistinctParts(a: seq<nat>, b: seq<nat>, p: seq<nat>, r: seq<nat>)
    requires Distinct(a + p) && Distinct(b) && Distinct(r)
    requires forall id :: id in b ==> id in p
    requires forall id :: id in r ==> id in p && id !in b
    ensures Distinct(a + b + r)
  {
    var all := a + b + r;
    forall i, j | 0 <= i < j < |all|
      ensures all[i] != all[j]
    {
      if j < |a| {
        assert all[i] == (a + p)[i] && all[j] == (a + p)[j];
      } else if i < |a| {
        assert all[j] in b || all[j] in r;
        var k :| 0 <= k < |p| && p[k] == all[j];
        assert (a + p)[i] == all[i] && (a + p)[|a| + k] == all[j];
      } else if j < |a| + |b| {
        assert all[i] == b[i - |a|] && all[j] == b[j - |a|];
      } else if i < |a| + |b| {
        assert all[i] in b && all[j] in r;
      } else {
        assert all[i] == r[i - |a| - |b|] && all[j] == r[j - |a| - |b|];
      }
    }
  }

  // Forks.

  /** Whether an event ends a completed turn. */
  predicate EndsCompleted(event: SessionEvent) {
    event.CommitEvent? && event.commit.end.Some? && event.commit.end.value.Succeeded?
    && event.commit.end.value.outcome.Completed?
  }

  /** The number of events up to the last end of a completed turn, or None. */
  function LastCompleted(events: seq<StoredEvent>): Option<nat> {
    if |events| == 0 then None
    else if EndsCompleted(events[|events| - 1].event) then Some(|events|)
    else LastCompleted(events[..|events| - 1])
  }

  /** The number of events before the first commit. */
  function BeforeCommits(events: seq<StoredEvent>): nat {
    if |events| == 0 then 0
    else
      var before := BeforeCommits(events[..|events| - 1]);
      if before < |events| - 1 || events[|events| - 1].event.CommitEvent? then before else |events|
  }

  /** How much of a log a fork takes over. */
  function ForkCut(events: seq<StoredEvent>, through: Option<nat>): Result<nat> {
    match through
    case Some(number) =>
      if 0 < number <= |events| && EndsCompleted(events[number - 1].event) then Ok(number) else Err(NotACompletedTurn)
    case None =>
      match LastCompleted(events)
      case Some(cut) => Ok(cut)
      case None => Ok(BeforeCommits(events))
  }

  lemma {:induction false} LastCompletedEnds(events: seq<StoredEvent>)
    ensures LastCompleted(events).Some? ==>
      0 < LastCompleted(events).value <= |events| && EndsCompleted(events[LastCompleted(events).value - 1].event)
    ensures LastCompleted(events).None? ==> forall i :: 0 <= i < |events| ==> !EndsCompleted(events[i].event)
  {
    if |events| > 0 {
      LastCompletedEnds(events[..|events| - 1]);
    }
  }

  lemma {:induction false} BeforeCommitsHoldsSettings(events: seq<StoredEvent>)
    ensures BeforeCommits(events) <= |events|
    ensures forall i :: 0 <= i < BeforeCommits(events) ==> events[i].event.SettingsEvent?
    ensures BeforeCommits(events) < |events| ==> events[BeforeCommits(events)].event.CommitEvent?
  {
    if |events| > 0 {
      BeforeCommitsHoldsSettings(events[..|events| - 1]);
    }
  }

  lemma {:induction false} SettingsAloneAreEmpty(events: seq<StoredEvent>)
    requires forall i :: 0 <= i < |events| ==> events[i].event.SettingsEvent?
    ensures TurnOf(events) == Empty && ContextOf(events) == [] && TokensOf(events) == None && ConsumedIds(events) == []
  {
    if |events| > 0 {
      SettingsAloneAreEmpty(events[..|events| - 1]);
    }
  }

  /** The turn of events whose last event ends a completed turn. */
  predicate AtCompletedTurn(events: seq<StoredEvent>) {
    var turn := TurnOf(events);
    turn.EndedTurn? && turn.end.Succeeded? && turn.end.outcome.Completed?
  }

  /**
   * A fork copies a prefix with settings. The prefix ends at a completed turn, or it holds no commit because no turn
   * completed.
   */
  lemma ForkEndsSettled(events: seq<StoredEvent>, through: Option<nat>)
    requires Numbered(events) && ForkCut(events, through).Ok?
    ensures var cut := ForkCut(events, through).value;
      && 0 < cut <= |events| && Numbered(events[..cut]) && SettingsOf(events[..cut]).Some?
      && (AtCompletedTurn(events[..cut]) ||
          (through.None? && TurnOf(events[..cut]) == Empty
            && forall i :: 0 <= i < |events| ==> !EndsCompleted(events[i].event)))
  {
    LastCompletedEnds(events);
    BeforeCommitsHoldsSettings(events);
    var cut := ForkCut(events, through).value;
    assert events[..cut][0] == events[0];
    SettingsExist(events[..cut]);
    if through.None? && LastCompleted(events).None? {
      SettingsAloneAreEmpty(events[..cut]);
    } else {
      assert events[..cut][cut - 1] == events[cut - 1];
    }
  }

  lemma {:induction false} ConsumedIdsOfPrefix(events: seq<StoredEvent>, n: nat)
    requires n <= |events|
    ensures ConsumedIds(events[..n]) <= ConsumedIds(events)
    decreases |events|
  {
    if n == |events| {
      assert events[..n] == events;
    } else {
      assert events[..|events| - 1][..n] == events[..n];
      ConsumedIdsOfPrefix(events[..|events| - 1], n);
    }
  }

  lemma ForkInputsOnce(saved: Saved, cut: nat, fork: Saved, newestInput: nat)
    requires InputsOnce(saved, newestInput) && cut <= |saved.events|
    requires fork.events == saved.events[..cut] && fork.pending == []
    ensures InputsOnce(fork, newestInput)
  {
    ConsumedIdsOfPrefix(saved.events, cut);
    var ids := ConsumedIds(fork.events);
    assert InputIds(fork) == ids;
    assert forall i :: 0 <= i < |ids| ==> ids[i] == InputIds(saved)[i];
    assert forall id :: id in ids ==> id in InputIds(saved);
  }

  lemma ForkOk(saved: Saved, through: Option<nat>, fork: Saved, newestInput: nat)
    requires SessionOk(saved, newestInput) && ForkCut(saved.events, through).Ok?
    requires var cut := ForkCut(saved.events, through).value;
      cut <= |saved.events| && fork.events == saved.events[..cut] && fork.pending == []
    ensures SessionOk(fork, newestInput) && Numbered(fork.events) && !TurnOf(fork.events).OpenTurn?
  {
    hide InputsOnce;
    ForkEndsSettled(saved.events, through);
    ForkInputsOnce(saved, ForkCut(saved.events, through).value, fork, newestInput);
  }

  lemma ForkCutFits(saved: Saved, through: Option<nat>, newestInput: nat)
    requires SessionOk(saved, newestInput) && ForkCut(saved.events, through).Ok?
    ensures ForkCut(saved.events, through).value <= |saved.events|
  {
    ForkEndsSettled(saved.events, through);
  }

  // Pages of events and of sessions.

  /** The events that a page reads. Event number `n` has the index `n - 1`. */
  function PageOf(events: seq<StoredEvent>, page: Page): (part: seq<StoredEvent>) {
    match page
    case After(after) =>
      var start := if after.None? then 0 else if after.value < |events| then after.value else |events|;
      events[start..]
    case Before(before, limit) =>
      var last := if before.None? then |events| else if before.value == 0 then 0 else before.value - 1;
      var end := if last < |events| then last else |events|;
      events[if limit < end then end - limit else 0..end]
  }

  /** The events with a number above `number`, in order. */
  function Above(events: seq<StoredEvent>, number: nat): seq<StoredEvent> {
    if |events| == 0 then []
    else
      var last := events[|events| - 1];
      Above(events[..|events| - 1], number) + if last.number > number then [last] else []
  }

  /** The events with a number below `number`, in order. */
  function Below(events: seq<StoredEvent>, number: nat): seq<StoredEvent> {
    if |events| == 0 then []
    else
      var last := events[|events| - 1];
      Below(events[..|events| - 1], number) + if last.number < number then [last] else []
  }

  /** The last `limit` events, or all when there are fewer. */
  function LastOf(events: seq<StoredEvent>, limit: nat): seq<StoredEvent> {
    if limit < |events| then events[|events| - limit..] else events
  }

  /** The events that a page asks for, by their numbers alone. */
  function AskedFor(events: seq<StoredEvent>, page: Page): seq<StoredEvent> {
    match page
    case After(after) => if after.None? then events else Above(events, after.value)
    case Before(before, limit) => LastOf(if before.None? then events else Below(events, before.value), limit)
  }

  /** The numbers are the indexes plus one, without the claim about settings. */
  predicate InSequence(events: seq<StoredEvent>) {
    forall i :: 0 <= i < |events| ==> events[i].number == i + 1
  }

  lemma {:induction false} AboveIsTail(events: seq<StoredEvent>, number: nat)
    requires InSequence(events)
    ensures Above(events, number) == if number < |events| then events[number..] else []
  {
    if |events| > 0 {
      AboveIsTail(events[..|events| - 1], number);
    }
  }

  lemma {:induction false} BelowIsHead(events: seq<StoredEvent>, number: nat)
    requires InSequence(events)
    ensures Below(events, number)
         == if number == 0 then [] else if number - 1 < |events| then events[..number - 1] else events
  {
    if |events| > 0 {
      BelowIsHead(events[..|events| - 1], number);
    }
  }

  /** The slices of a page are exactly the events that the numbers of the page ask for. */
  lemma PageHoldsItsNumbers(events: seq<StoredEvent>, page: Page)
    requires InSequence(events)
    ensures PageOf(events, page) == AskedFor(events, page)
  {
    match page
    case After(after) =>
      assert events[0..] == events;
      if after.Some? {
        AboveIsTail(events, after.value);
      }
    case Before(before, limit) =>
      if before.Some? {
        BelowIsHead(events, before.value);
      }
  }

  datatype Summary = Summary(id: SessionId, settings: Settings, forkOf: Option<SessionId>, parent: Option<SessionId>)

  function SummaryOf(id: SessionId, saved: Saved): Summary
    requires SettingsOf(saved.events).Some?
  {
    Summary(id, SettingsOf(saved.events).value, saved.forkOf, saved.parent)
  }

  /** The sessions of one page, and the position that the next page starts behind. */
  datatype SessionPage = SessionPage(sessions: seq<Summary>, next: Option<nat>)

  /** What a list of sessions asks for. */
  datatype ListQuery = ListQuery(cwd: Option<string>, parent: Option<SessionId>)

  predicate Matches(saved: Saved, query: ListQuery) {
    MatchesAt(saved.parent, saved.events, query)
  }

  /** Whether a session with this parent and these events is a match. */
  predicate MatchesAt(parent: Option<SessionId>, events: seq<StoredEvent>, query: ListQuery) {
    && parent == query.parent
    && (query.cwd.Some? ==> SettingsOf(events).Some? && SettingsOf(events).value.cwd == query.cwd.value)
  }

  predicate Behind(saved: Saved, after: Option<nat>) {
    after.Some? ==> saved.newestWrite < after.value
  }

  /** `listed` are matches of the query behind `after`, with the newest write first. */
  ghost predicate Descends(sessions: map<SessionId, Saved>, query: ListQuery, after: Option<nat>,
                           listed: seq<SessionId>)
  {
    && (forall i :: 0 <= i < |listed| ==>
          listed[i] in sessions && Matches(sessions[listed[i]], query) && Behind(sessions[listed[i]], after))
    && (forall i, j :: 0 <= i < j < |listed| ==>
          sessions[listed[i]].newestWrite > sessions[listed[j]].newestWrite)
  }

  /** `listed` are all matches of the query behind `after` with their id in `ids`. */
  ghost predicate ListsAll(sessions: map<SessionId, Saved>, query: ListQuery, after: Option<nat>,
                           ids: set<SessionId>, listed: seq<SessionId>)
  {
    forall id :: id in ids && id in sessions && Matches(sessions[id], query) && Behind(sessions[id], after) ==>
      id in listed
  }

  // What a store remembers, beyond what it holds now.

  /** The session that an input was sent to, and the input as the store accepted it. */
  datatype Acceptance = Acceptance(session: SessionId, input: Input)

  /** The parts of a session that only grow. A deleted session keeps the last ones. */
  datatype Known = Known(parent: Option<SessionId>, events: seq<StoredEvent>)

  function KnownOf(saved: Saved): Known {
    Known(saved.parent, saved.events)
  }

  /** Every pending input is an accepted one, unchanged, of this session. */
  ghost predicate PendingAccepted(id: SessionId, pending: seq<PendingInput>, accepted: map<nat, Acceptance>) {
    forall p :: p in pending ==> p.id in accepted && accepted[p.id] == Acceptance(id, p.input)
  }

  /** The sessions and the pending inputs follow from what the store remembers. */
  ghost predicate Remembers(sessions: map<SessionId, Saved>, newestInput: nat, nextId: SessionId,
                            accepted: map<nat, Acceptance>, ever: map<SessionId, Known>)
  {
    && (forall id :: id in sessions ==>
          id in ever && ever[id] == KnownOf(sessions[id]) && PendingAccepted(id, sessions[id].pending, accepted))
    && (forall input :: input in accepted ==> input <= newestInput)
    && (forall id :: id in ever ==> id < nextId)
  }

  /** `after` has no input, consumed or pending, that `before` does not have. */
  ghost predicate NoNewInputs(before: Saved, after: Saved) {
    forall input :: input in InputIds(after) ==> input in InputIds(before)
  }

  /** A removed input is an accepted one, and its session neither holds it as pending nor consumed it. */
  ghost predicate KeepsOut(sessions: map<SessionId, Saved>, nextId: SessionId, accepted: map<nat, Acceptance>,
                           removed: set<nat>)
  {
    forall input :: input in removed ==>
      && input in accepted && accepted[input].session < nextId
      && (accepted[input].session in sessions ==> input !in InputIds(sessions[accepted[input].session]))
  }

  ghost predicate NoneOf(id: SessionId, accepted: map<nat, Acceptance>, removed: set<nat>) {
    forall input :: input in removed && input in accepted ==> accepted[input].session != id
  }

  lemma KeepsOutLater(sessions: map<SessionId, Saved>, nextId: SessionId, accepted: map<nat, Acceptance>,
                      removed: set<nat>)
    requires KeepsOut(sessions, nextId, accepted, removed)
    ensures KeepsOut(sessions, nextId + 1, accepted, removed) && NoneOf(nextId, accepted, removed)
  {
  }

  lemma KeepsOutPut(sessions: map<SessionId, Saved>, nextId: SessionId, accepted: map<nat, Acceptance>,
                    removed: set<nat>, id: SessionId, saved: Saved)
    requires KeepsOut(sessions, nextId, accepted, removed)
    requires if id in sessions then NoNewInputs(sessions[id], saved) else NoneOf(id, accepted, removed)
    ensures KeepsOut(sessions[id := saved], nextId, accepted, removed)
  {
    hide InputIds;
  }

  lemma KeepsOutAccept(sessions: map<SessionId, Saved>, newestInput: nat, nextId: SessionId,
                       accepted: map<nat, Acceptance>, ever: map<SessionId, Known>, removed: set<nat>, id: SessionId,
                       input: Input, saved: Saved)
    requires KeepsOut(sessions, nextId, accepted, removed) && id in sessions
    requires Remembers(sessions, newestInput, nextId, accepted, ever)
    requires InputIds(saved) == InputIds(sessions[id]) + [newestInput + 1]
    ensures KeepsOut(sessions[id := saved], nextId, accepted[newestInput + 1 := Acceptance(id, input)], removed)
  {
    hide InputIds, PendingAccepted;
  }

  lemma KeepsOutRemove(sessions: map<SessionId, Saved>, nextId: SessionId, accepted: map<nat, Acceptance>,
                       removed: set<nat>, id: SessionId, saved: Saved, input: nat)
    requires KeepsOut(sessions, nextId, accepted, removed) && id in sessions && id < nextId
    requires NoNewInputs(sessions[id], saved) && input !in InputIds(saved)
    requires input in accepted && accepted[input].session == id
    ensures KeepsOut(sessions[id := saved], nextId, accepted, removed + {input})
  {
    hide InputIds;
  }

  lemma KeepsOutLess(sessions: map<SessionId, Saved>, nextId: SessionId, accepted: map<nat, Acceptance>,
                     removed: set<nat>, id: SessionId)
    requires KeepsOut(sessions, nextId, accepted, removed)
    ensures KeepsOut(sessions - {id}, nextId, accepted, removed)
  {
    hide InputIds;
  }

  /** An accepted input never changes. */
  ghost predicate AcceptedGrew(before: map<nat, Acceptance>, after: map<nat, Acceptance>) {
    forall input :: input in before ==> input in after && after[input] == before[input]
  }

  /** A log only gets more events, and a parent stays. */
  ghost predicate EverGrew(before: map<SessionId, Known>, after: map<SessionId, Known>) {
    forall id :: id in before ==>
      id in after && after[id].parent == before[id].parent && before[id].events <= after[id].events
  }

  lemma MemoryGrewTwice(a: map<nat, Acceptance>, b: map<nat, Acceptance>, c: map<nat, Acceptance>,
                        x: map<SessionId, Known>, y: map<SessionId, Known>, z: map<SessionId, Known>)
    requires AcceptedGrew(a, b) && AcceptedGrew(b, c) && EverGrew(x, y) && EverGrew(y, z)
    ensures AcceptedGrew(a, c) && EverGrew(x, z)
  {
  }

  /** A session that is new, or that only got more events and lost pending inputs. */
  lemma RemembersPut(sessions: map<SessionId, Saved>, newestInput: nat, nextId: SessionId,
                     accepted: map<nat, Acceptance>, ever: map<SessionId, Known>, id: SessionId, saved: Saved)
    requires Remembers(sessions, newestInput, nextId, accepted, ever) && id < nextId
    requires if id in sessions
      then saved.parent == sessions[id].parent && sessions[id].events <= saved.events
           && forall p :: p in saved.pending ==> p in sessions[id].pending
      else id !in ever && saved.pending == []
    ensures Remembers(sessions[id := saved], newestInput, nextId, accepted, ever[id := KnownOf(saved)])
    ensures EverGrew(ever, ever[id := KnownOf(saved)])
  {
  }

  lemma RemembersAccept(sessions: map<SessionId, Saved>, newestInput: nat, nextId: SessionId,
                        accepted: map<nat, Acceptance>, ever: map<SessionId, Known>, id: SessionId, input: Input)
    requires Remembers(sessions, newestInput, nextId, accepted, ever) && id in sessions
    ensures var newest := newestInput + 1;
      var saved := sessions[id].(pending := sessions[id].pending + [PendingInput(newest, input)]);
      var more := accepted[newest := Acceptance(id, input)];
      Remembers(sessions[id := saved], newest, nextId, more, ever) && AcceptedGrew(accepted, more)
  {
    var newest := newestInput + 1;
    var more := accepted[newest := Acceptance(id, input)];
    forall other | other in sessions
      ensures PendingAccepted(other, sessions[other].pending, more)
    {
      assert PendingAccepted(other, sessions[other].pending, accepted);
    }
  }

  lemma RemembersSame(sessions: map<SessionId, Saved>, newestInput: nat, nextId: SessionId,
                      accepted: map<nat, Acceptance>, ever: map<SessionId, Known>, id: SessionId)
    requires Remembers(sessions, newestInput, nextId, accepted, ever) && id in sessions
    ensures id in ever && ever[id := KnownOf(sessions[id])] == ever
  {
  }

  lemma PendingIsAccepted(sessions: map<SessionId, Saved>, newestInput: nat, nextId: SessionId,
                          accepted: map<nat, Acceptance>, ever: map<SessionId, Known>, id: SessionId, i: nat)
    requires Remembers(sessions, newestInput, nextId, accepted, ever) && id in sessions
    requires i < |sessions[id].pending|
    ensures sessions[id].pending[i].id in accepted && accepted[sessions[id].pending[i].id].session == id
    ensures id < nextId
  {
    assert sessions[id].pending[i] in sessions[id].pending;
  }

  lemma RemembersLess(sessions: map<SessionId, Saved>, newestInput: nat, nextId: SessionId,
                      accepted: map<nat, Acceptance>, ever: map<SessionId, Known>, id: SessionId)
    requires Remembers(sessions, newestInput, nextId, accepted, ever)
    ensures Remembers(sessions - {id}, newestInput, nextId, accepted, ever)
  {
  }

  lemma RemembersLater(sessions: map<SessionId, Saved>, newestInput: nat, nextId: SessionId,
                       accepted: map<nat, Acceptance>, ever: map<SessionId, Known>)
    requires Remembers(sessions, newestInput, nextId, accepted, ever)
    ensures Remembers(sessions, newestInput, nextId + 1, accepted, ever) && nextId !in ever
  {
  }

  lemma NothingForgotten(accepted: map<nat, Acceptance>, ever: map<SessionId, Known>)
    ensures AcceptedGrew(accepted, accepted) && EverGrew(ever, ever)
  {
  }

  // The store.

  /** A store that keeps its sessions in memory, and refuses a second writer of a session. */
  class MemoryStore {
    var sessions: map<SessionId, Saved>
    /** The largest input id so far, across sessions. */
    var newestInput: nat
    /** How many writes of events there were, across sessions. */
    var writes: nat
    /** The owner locks that are taken. */
    var writers: set<SessionId>
    /** The source of session ids. Each session has its own id. */
    var nextId: SessionId

    /** Every input that the store ever accepted, by its id, and every session that it ever held. */
    ghost var accepted: map<nat, Acceptance>
    ghost var ever: map<SessionId, Known>
    /** Every input that a client removed before a commit consumed it. */
    ghost var removed: set<nat>

    ghost predicate Valid()
      reads this
    {
      && (forall id :: id in sessions ==> SessionOk(sessions[id], newestInput))
      && WritesOrdered(sessions, writes)
      && (forall id :: id in writers ==> id in sessions)
      && (forall id :: id in sessions ==> id < nextId)
      && Remembers(sessions, newestInput, nextId, accepted, ever)
      && KeepsOut(sessions, nextId, accepted, removed)
    }

    constructor ()
      ensures Valid() && sessions == map[] && writers == {} && newestInput == 0 && removed == {}
    {
      sessions, newestInput, writes, writers, nextId := map[], 0, 0, {}, 0;
      accepted, ever, removed := map[], map[], {};
    }

    /** A removed input never comes back, and no commit of its session consumes it. */
    lemma RemovedStaysOut(input: nat)
      requires Valid() && input in removed
      ensures input in accepted
      ensures var id := accepted[input].session;
        id in sessions ==> input !in ConsumedIds(sessions[id].events) && input !in PendingIds(sessions[id].pending)
    {
      hide SessionOk, WritesOrdered, Remembers;
      var id := accepted[input].session;
      if id in sessions {
        assert input !in InputIds(sessions[id]);
      }
    }

    /** Count one more write. */
    method NextWrite() returns (write: nat)
      requires Valid()
      modifies this`writes
      ensures Valid() && write == writes == old(writes) + 1
      ensures forall id :: id in sessions ==> sessions[id].newestWrite < write
    {
      writes := writes + 1;
      write := writes;
    }

    /** The session as a load gives it. One pass over the log yields every fact that the opener needs. */
    method ToOpened(id: SessionId, saved: Saved, lease: bool) returns (loaded: Opened)
      requires Numbered(saved.events)
      ensures SettingsOf(saved.events) == Some(loaded.settings)
      ensures loaded == Opened(id, loaded.settings, ContextOf(saved.events), TurnOf(saved.events),
                               TokensOf(saved.events), lease)
    {
      var settings: Option<Settings> := None;
      var context: seq<Block> := [];
      var newestTurn := Empty;
      var inputTokens: Option<nat> := None;
      var i := 0;
      while i < |saved.events|
        invariant 0 <= i <= |saved.events|
        invariant settings == SettingsOf(saved.events[..i]) && context == ContextOf(saved.events[..i])
        invariant newestTurn == TurnOf(saved.events[..i]) && inputTokens == TokensOf(saved.events[..i])
      {
        assert saved.events[..i + 1][..i] == saved.events[..i];
        match saved.events[i].event {
          case SettingsEvent(eventSettings) =>
            settings := Some(eventSettings);
          case CommitEvent(commit, _) =>
            context := Apply(commit, context);
            newestTurn := if commit.end.Some? then EndedTurn(commit.end.value) else OpenTurn;
            if commit.answer.Some? {
              inputTokens := commit.answer.value.input;
            } else if commit.replaced.Some? {
              inputTokens := None;
            }
        }
        i := i + 1;
      }
      assert saved.events[..i] == saved.events;
      SettingsExist(saved.events);
      loaded := Opened(id, settings.value, context, newestTurn, inputTokens, lease);
    }

    /** Save a new session, and open it for writing. */
    method CreateSession(settings: Settings, parent: Option<SessionId>) returns (loaded: Opened)
      requires Valid()
      modifies this
      ensures Valid() && newestInput == old(newestInput)
      ensures loaded.id == old(nextId) < nextId && loaded.id !in old(sessions) && loaded.id in sessions
      ensures sessions == old(sessions)[loaded.id := sessions[loaded.id]]
      ensures sessions[loaded.id].events == [StoredEvent(1, SettingsEvent(settings))]
      ensures sessions[loaded.id].pending == [] && sessions[loaded.id].newestWrite == writes > old(writes)
      ensures sessions[loaded.id].parent == parent
      ensures writers == old(writers) + {loaded.id}
      ensures loaded == Opened(loaded.id, settings, [], Empty, None, true)
      ensures accepted == old(accepted) && EverGrew(old(ever), ever) && removed == old(removed)
    {
      hide SessionOk, Pushed, WritesOrdered, Remembers, KeepsOut, EverGrew, PendingAccepted;
      RemembersLater(sessions, newestInput, nextId, accepted, ever);
      KeepsOutLater(sessions, nextId, accepted, removed);
      var id := nextId;
      nextId := nextId + 1;
      var write := NextWrite();
      var saved := Pushed(Saved([], [], 0, None, parent), SettingsEvent(settings), write);
      NewSessionOk(settings, parent, write, newestInput);
      WrittenOk(sessions, id, saved, writes, newestInput);
      loaded := ToOpened(id, saved, true);
      RemembersPut(sessions, newestInput, nextId, accepted, ever, id, saved);
      KeepsOutPut(sessions, nextId, accepted, removed, id, saved);
      writers := writers + {id};
      sessions := sessions[id := saved];
      ever := ever[id := KnownOf(saved)];
    }

    /** Copy a settled prefix of `source` into a session of its own, and lock that one for the caller. */
    method ForkSession(source: SessionId, through: Option<nat>) returns (result: Result<Opened>)
      requires Valid()
      modifies this
      ensures Valid() && newestInput == old(newestInput) && nextId > old(nextId) && writes > old(writes)
      ensures result.Err? ==> sessions == old(sessions) && writers == old(writers)
      ensures result.Ok? <==> source in old(sessions) && ForkCut(old(sessions)[source].events, through).Ok?
      ensures result.Ok? ==>
        var id := result.value.id;
        var cut := ForkCut(old(sessions)[source].events, through).value;
        && id == old(nextId) && id !in old(sessions) && id in sessions
        && sessions == old(sessions)[id := sessions[id]] && writers == old(writers) + {id}
        && cut <= |old(sessions)[source].events|
        && sessions[id].events == old(sessions)[source].events[..cut]
        && sessions[id].pending == [] && sessions[id].newestWrite == writes && sessions[id].parent.None?
        && result.value == Opened(id, result.value.settings, ContextOf(sessions[id].events),
                                  TurnOf(sessions[id].events), TokensOf(sessions[id].events), true)
        && SettingsOf(sessions[id].events) == Some(result.value.settings)
        && !result.value.newestTurn.OpenTurn?
      ensures accepted == old(accepted) && EverGrew(old(ever), ever) && removed == old(removed)
    {
      hide SessionOk, ForkCut, WritesOrdered, Remembers, KeepsOut, NoneOf, EverGrew, PendingAccepted;
      NothingForgotten(accepted, ever);
      RemembersLater(sessions, newestInput, nextId, accepted, ever);
      KeepsOutLater(sessions, nextId, accepted, removed);
      var id := nextId;
      nextId := nextId + 1;
      var write := NextWrite();
      if source !in sessions {
        return Err(NotFound);
      }
      var saved := sessions[source];
      var cut := ForkCut(saved.events, through);
      if cut.Err? {
        return Err(cut.error);
      }
      ForkCutFits(saved, through, newestInput);
      var fork := Saved(saved.events[..cut.value], [], write, Some(source), None);
      ForkOk(saved, through, fork, newestInput);
      WrittenOk(sessions, id, fork, writes, newestInput);
      var loaded := ToOpened(id, fork, true);
      RemembersPut(sessions, newestInput, nextId, accepted, ever, id, fork);
      KeepsOutPut(sessions, nextId, accepted, removed, id, fork);
      writers := writers + {id};
      sessions := sessions[id := fork];
      ever := ever[id := KnownOf(fork)];
      result := Ok(loaded);
    }

    /** Append settings to a log. The answer is their number in it. */
    method SetSettings(id: SessionId, settings: Settings) returns (result: Result<nat>)
      requires Valid()
      modifies this`sessions, this`writes, this`ever
      ensures Valid() && writes > old(writes) && EverGrew(old(ever), ever)
      ensures id !in old(sessions) ==> result == Err(NotFound) && sessions == old(sessions)
      ensures id in old(sessions) ==>
        && result == Ok(|old(sessions)[id].events| + 1)
        && sessions == old(sessions)[id := Pushed(old(sessions)[id], SettingsEvent(settings), writes)]
    {
      hide SessionOk, WritesOrdered, Remembers, KeepsOut, EverGrew, PendingAccepted;
      NothingForgotten(accepted, ever);
      var write := NextWrite();
      if id !in sessions {
        return Err(NotFound);
      }
      var saved := Pushed(sessions[id], SettingsEvent(settings), write);
      SettingsOnce(sessions[id], settings, write, newestInput);
      WrittenOk(sessions, id, saved, writes, newestInput);
      RemembersPut(sessions, newestInput, nextId, accepted, ever, id, saved);
      KeepsOutPut(sessions, nextId, accepted, removed, id, saved);
      sessions := sessions[id := saved];
      ever := ever[id := KnownOf(saved)];
      result := Ok(|saved.events|);
    }

    /** Save `input` as a pending input. */
    method AcceptInput(id: SessionId, input: Input) returns (result: Result<nat>)
      requires Valid()
      modifies this`sessions, this`newestInput, this`accepted
      ensures Valid() && AcceptedGrew(old(accepted), accepted)
      ensures id !in old(sessions) ==>
        result == Err(NotFound) && sessions == old(sessions) && newestInput == old(newestInput)
      ensures id in old(sessions) ==>
        && accepted == old(accepted)[newestInput := Acceptance(id, input)]
        && newestInput == old(newestInput) + 1 && result == Ok(newestInput)
        && sessions == old(sessions)[id := old(sessions)[id].(
             pending := old(sessions)[id].pending + [PendingInput(newestInput, input)])]
    {
      hide InputsOnce, Remembers, KeepsOut, AcceptedGrew, PendingAccepted;
      NothingForgotten(accepted, ever);
      var inputId := newestInput + 1;
      if id !in sessions {
        return Err(NotFound);
      }
      var saved := sessions[id].(pending := sessions[id].pending + [PendingInput(inputId, input)]);
      AcceptedOnce(sessions[id], input, newestInput);
      StaysOk(sessions, newestInput);
      RemembersAccept(sessions, newestInput, nextId, accepted, ever, id, input);
      KeepsOutAccept(sessions, newestInput, nextId, accepted, ever, removed, id, input, saved);
      sessions := sessions[id := saved];
      accepted := accepted[inputId := Acceptance(id, input)];
      newestInput := inputId;
      result := Ok(inputId);
    }

    /** Remove a pending input. */
    method RemoveInput(id: SessionId, input: nat) returns (result: Result<()>)
      requires Valid()
      modifies this`sessions, this`removed
      ensures Valid() && removed == old(removed) + (if result.Ok? then {input} else {})
      ensures result.Ok? <==> id in old(sessions) && input in PendingIds(old(sessions)[id].pending)
      ensures result.Err? ==>
        sessions == old(sessions) && result.error == if id in sessions then InputNotPending(input) else NotFound
      ensures result.Ok? ==>
        sessions == old(sessions)[id := old(sessions)[id].(pending := Remaining(old(sessions)[id].pending, [input]))]
    {
      hide InputsOnce, Remembers, KeepsOut, PendingAccepted;
      if id !in sessions {
        return Err(NotFound);
      }
      var pending := sessions[id].pending;
      var position := 0;
      while position < |pending| && pending[position].id != input
        invariant 0 <= position <= |pending|
        invariant forall i :: 0 <= i < position ==> pending[i].id != input
      {
        position := position + 1;
      }
      if position == |pending| {
        assert forall i :: 0 <= i < |pending| ==> PendingIds(pending)[i] != input;
        return Err(InputNotPending(input));
      }
      var rest := pending[..position] + pending[position + 1..];
      RemovedOnce(sessions[id], position, newestInput);
      assert PendingIds(pending)[position] == input;
      RemembersPut(sessions, newestInput, nextId, accepted, ever, id, sessions[id].(pending := rest));
      RemembersSame(sessions, newestInput, nextId, accepted, ever, id);
      PendingIsAccepted(sessions, newestInput, nextId, accepted, ever, id, position);
      KeepsOutRemove(sessions, nextId, accepted, removed, id, sessions[id].(pending := rest), input);
      sessions := sessions[id := sessions[id].(pending := rest)];
      removed := removed + {input};
      result := Ok(());
    }

    /** Load a session. Opening for writing locks the session for the caller. */
    method Open(id: SessionId, access: Access) returns (result: Result<Opened>)
      requires Valid()
      modifies this`writers
      ensures Valid()
      ensures id !in sessions ==> result == Err(NotFound)
      ensures id in sessions && access == Write && id in old(writers) ==> result == Err(Owned)
      ensures result.Err? ==> writers == old(writers)
      ensures result.Ok? <==> id in sessions && (access == Write ==> id !in old(writers))
      ensures result.Ok? ==>
        && writers == (if access == Write then old(writers) + {id} else old(writers))
        && SettingsOf(sessions[id].events) == Some(result.value.settings)
        && result.value == Opened(id, result.value.settings, ContextOf(sessions[id].events),
                                  TurnOf(sessions[id].events), TokensOf(sessions[id].events), access == Write)
    {
      if id !in sessions {
        return Err(NotFound);
      }
      if access == Write {
        if id in writers {
          return Err(Owned);
        }
        writers := writers + {id};
      }
      var loaded := ToOpened(id, sessions[id], access == Write);
      result := Ok(loaded);
    }

    /** Give a lock back. */
    method Release(id: SessionId)
      requires Valid()
      modifies this`writers
      ensures Valid() && writers == old(writers) - {id}
    {
      writers := writers - {id};
    }

    /**
     * Write a commit and the records of what it consumed. Those inputs leave the pending list with the same write,
     * and a refusal leaves the store as it was.
     */
    method SaveCommit(id: SessionId, commit: Commit, consumed: seq<ConsumedInput>) returns (result: Result<nat>)
      requires Valid()
      modifies this`sessions, this`writes, this`ever
      ensures Valid() && EverGrew(old(ever), ever)
      ensures result.Err? ==> sessions == old(sessions) && writes == old(writes)
      ensures result.Ok? <==>
        && ConsumedBlocksFit(commit, consumed) && id in old(sessions)
        && Distinct(RecordIds(consumed))
        && forall input :: input in RecordIds(consumed) ==> input in PendingIds(old(sessions)[id].pending)
      ensures !ConsumedBlocksFit(commit, consumed) ==> result == Err(InputBlocksExceedCommit)
      ensures ConsumedBlocksFit(commit, consumed) && id !in old(sessions) ==> result == Err(NotFound)
      ensures ConsumedBlocksFit(commit, consumed) && id in old(sessions) && result.Err? ==>
        result.error.InputNotPending? && result.error.id in RecordIds(consumed)
      ensures result.Ok? ==>
        && result.value == |old(sessions)[id].events| + 1 && writes > old(writes)
        && sessions == old(sessions)[id := Pushed(
             old(sessions)[id].(pending := Remaining(old(sessions)[id].pending, RecordIds(consumed))),
             CommitEvent(commit, consumed), writes)]
    {
      hide SessionOk, WritesOrdered, Remembers, KeepsOut, EverGrew, PendingAccepted;
      NothingForgotten(accepted, ever);
      if !ConsumedBlocksFit(commit, consumed) {
        return Err(InputBlocksExceedCommit);
      }
      if id !in sessions {
        return Err(NotFound);
      }
      var saved := sessions[id];
      var ids := RecordIds(consumed);
      var index := 0;
      while index < |ids|
        invariant 0 <= index <= |ids|
        invariant Distinct(ids[..index])
        invariant forall i :: 0 <= i < index ==> ids[i] in PendingIds(saved.pending)
      {
        var takenBefore := ids[index] in ids[..index];
        if takenBefore || ids[index] !in PendingIds(saved.pending) {
          assert takenBefore ==> !Distinct(ids);
          return Err(InputNotPending(ids[index]));
        }
        index := index + 1;
      }
      assert ids[..index] == ids;
      var write := NextWrite();
      ConsumeOnce(saved, commit, consumed, write, newestInput);
      var next := Pushed(saved.(pending := Remaining(saved.pending, ids)), CommitEvent(commit, consumed), write);
      WrittenOk(sessions, id, next, writes, newestInput);
      RemainingKeeps(saved.pending, ids);
      RemembersPut(sessions, newestInput, nextId, accepted, ever, id, next);
      KeepsOutPut(sessions, nextId, accepted, removed, id, next);
      sessions := sessions[id := next];
      ever := ever[id := KnownOf(next)];
      result := Ok(|next.events|);
    }

    /** One page of the sessions that match, with the newest write first. */
    method ListSessions(query: ListQuery, after: Option<nat>, limit: nat)
        returns (page: SessionPage, ghost listed: seq<SessionId>)
      requires Valid()
      ensures Descends(sessions, query, after, listed) && ListsAll(sessions, query, after, sessions.Keys, listed)
      ensures |page.sessions| == if limit < |listed| then limit else |listed|
      ensures forall i :: 0 <= i < |page.sessions| ==>
        && SettingsOf(sessions[listed[i]].events).Some?
        && page.sessions[i] == SummaryOf(listed[i], sessions[listed[i]])
      ensures page.next.Some? <==> 0 < limit < |listed|
      ensures page.next.Some? ==> page.next.value == sessions[listed[limit - 1]].newestWrite
    {
      hide InputsOnce, WritesOrdered, Descends, ListsAll;
      var sorted := Sorted(query, after);
      listed := sorted;
      ListedShown(sessions, query, after, sorted, newestInput);
      var count := if limit < |sorted| then limit else |sorted|;
      var summaries := [];
      for i := 0 to count
        invariant |summaries| == i
        invariant forall k :: 0 <= k < i ==> summaries[k] == SummaryOf(sorted[k], sessions[sorted[k]])
      {
        summaries := summaries + [SummaryOf(sorted[i], sessions[sorted[i]])];
      }
      var next := if |sorted| > limit > 0 then Some(sessions[sorted[limit - 1]].newestWrite) else None;
      page := SessionPage(summaries, next);
    }

    /** Every match behind `after`, with the newest write first. */
    method Sorted(query: ListQuery, after: Option<nat>) returns (sorted: seq<SessionId>)
      requires Valid()
      ensures Descends(sessions, query, after, sorted) && ListsAll(sessions, query, after, sessions.Keys, sorted)
    {
      hide SessionOk, WritesOrdered, Matches, Behind;
      sorted := [];
      var rest := sessions.Keys;
      while rest != {}
        invariant rest <= sessions.Keys
        invariant Descends(sessions, query, after, sorted)
        invariant ListsAll(sessions, query, after, sessions.Keys - rest, sorted)
        invariant forall id :: id in sorted ==> id !in rest
        decreases |rest|
      {
        var id :| id in rest;
        if Matches(sessions[id], query) && Behind(sessions[id], after) {
          sorted := Place(id, sorted, query, after);
        }
        rest := rest - {id};
      }
      assert sessions.Keys - rest == sessions.Keys;
    }

    /** `sorted` with `id` behind the sessions that have newer writes. */
    method Place(id: SessionId, sorted: seq<SessionId>, query: ListQuery, after: Option<nat>)
        returns (placed: seq<SessionId>)
      requires Valid() && id in sessions && id !in sorted
      requires Matches(sessions[id], query) && Behind(sessions[id], after)
      requires Descends(sessions, query, after, sorted)
      ensures Descends(sessions, query, after, placed)
      ensures forall other :: other in placed <==> other == id || other in sorted
    {
      hide SessionOk, Matches, Behind, Descends, WritesOrdered;
      DescendsKnown(sessions, query, after, sorted);
      var p := 0;
      while p < |sorted| && sessions[sorted[p]].newestWrite > sessions[id].newestWrite
        invariant 0 <= p <= |sorted|
        invariant forall i :: 0 <= i < p ==> sessions[sorted[i]].newestWrite > sessions[id].newestWrite
      {
        p := p + 1;
      }
      if p < |sorted| {
        OwnWrites(sessions, writes, sorted[p], id);
      }
      PlacedDescends(sessions, query, after, sorted, id, p);
      placed := sorted[..p] + [id] + sorted[p..];
      PlacedIds(sorted, id, p);
    }

    /** Read a page of the saved events, and the pending inputs of the same moment. */
    method Load(id: SessionId, page: Page) returns (result: Result<(seq<StoredEvent>, seq<PendingInput>)>)
      requires Valid()
      ensures id !in sessions ==> result == Err(NotFound)
      ensures id in sessions ==> result == Ok((AskedFor(sessions[id].events, page), sessions[id].pending))
    {
      hide InputsOnce, PageOf, AskedFor, Remembers, KeepsOut, WritesOrdered;
      if id !in sessions {
        return Err(NotFound);
      }
      PageHoldsItsNumbers(sessions[id].events, page);
      result := Ok((PageOf(sessions[id].events, page), sessions[id].pending));
    }

    /** Delete a session that no writer holds. */
    method DeleteSession(id: SessionId) returns (result: Result<()>)
      requires Valid()
      modifies this`sessions
      ensures Valid()
      ensures result.Ok? <==> id in old(sessions) && id !in writers
      ensures sessions == if result.Ok? then old(sessions) - {id} else old(sessions)
    {
      hide InputsOnce, Remembers, KeepsOut;
      if id !in sessions {
        return Err(NotFound);
      }
      if id in writers {
        return Err(Owned);
      }
      RemembersLess(sessions, newestInput, nextId, accepted, ever, id);
      KeepsOutLess(sessions, nextId, accepted, removed, id);
      sessions := sessions - {id};
      result := Ok(());
    }
  }

  lemma DescendsKnown(sessions: map<SessionId, Saved>, query: ListQuery, after: Option<nat>, listed: seq<SessionId>)
    requires Descends(sessions, query, after, listed)
    ensures forall i :: 0 <= i < |listed| ==> listed[i] in sessions
  {
  }

  lemma OwnWrites(sessions: map<SessionId, Saved>, writes: nat, a: SessionId, b: SessionId)
    requires WritesOrdered(sessions, writes) && a in sessions && b in sessions && a != b
    ensures sessions[a].newestWrite != sessions[b].newestWrite
  {
  }

  lemma PlacedIds(sorted: seq<SessionId>, id: SessionId, p: nat)
    requires p <= |sorted|
    ensures forall other :: other in sorted[..p] + [id] + sorted[p..] <==> other == id || other in sorted
  {
    assert sorted == sorted[..p] + sorted[p..];
  }

  lemma ListedShown(sessions: map<SessionId, Saved>, query: ListQuery, after: Option<nat>, listed: seq<SessionId>,
                    newestInput: nat)
    requires Descends(sessions, query, after, listed)
    requires forall id :: id in sessions ==> SessionOk(sessions[id], newestInput)
    ensures forall i :: 0 <= i < |listed| ==>
      listed[i] in sessions && SettingsOf(sessions[listed[i]].events).Some?
  {
    forall i | 0 <= i < |listed|
      ensures SettingsOf(sessions[listed[i]].events).Some?
    {
      SettingsExist(sessions[listed[i]].events);
    }
  }

  lemma PlacedDescends(sessions: map<SessionId, Saved>, query: ListQuery, after: Option<nat>,
                       sorted: seq<SessionId>, id: SessionId, p: nat)
    requires Descends(sessions, query, after, sorted) && p <= |sorted|
    requires id in sessions && Matches(sessions[id], query) && Behind(sessions[id], after)
    requires forall i :: 0 <= i < p ==> sessions[sorted[i]].newestWrite > sessions[id].newestWrite
    requires p < |sorted| ==> sessions[sorted[p]].newestWrite < sessions[id].newestWrite
    ensures Descends(sessions, query, after, sorted[..p] + [id] + sorted[p..])
  {
    hide Matches, Behind;
    var placed := sorted[..p] + [id] + sorted[p..];
    forall i | 0 <= i < |placed|
      ensures placed[i] == if i < p then sorted[i] else if i == p then id else sorted[i - 1]
    {
    }
    assert forall i :: p < i < |sorted| ==> sessions[sorted[i]].newestWrite < sessions[sorted[p]].newestWrite;
  }

  /** A session with the newest write joins the store, or takes the place of its older state. */
  lemma WrittenOk(sessions: map<SessionId, Saved>, id: SessionId, saved: Saved, writes: nat, newestInput: nat)
    requires WritesOrdered(sessions, writes) && SessionOk(saved, newestInput)
    requires forall other :: other in sessions ==> SessionOk(sessions[other], newestInput)
    requires forall other :: other in sessions ==> sessions[other].newestWrite < writes
    requires saved.newestWrite == writes > 0
    ensures var next := sessions[id := saved];
      && WritesOrdered(next, writes) && forall other :: other in next ==> SessionOk(next[other], newestInput)
  {
    hide SessionOk;
  }

  /** A list without one of its ids. */
  lemma WithoutOne(all: seq<nat>, at: nat)
    requires Distinct(all) && at < |all|
    ensures var rest := all[..at] + all[at + 1..];
      && Distinct(rest) && all[at] !in rest
      && forall id :: id != all[at] ==> (id in rest <==> id in all)
  {
    assert all == all[..at] + [all[at]] + all[at + 1..];
    var rest := all[..at] + all[at + 1..];
    assert forall i :: 0 <= i < |rest| ==> rest[i] == all[if i < at then i else i + 1];
  }

  lemma RemovedOnce(saved: Saved, position: nat, newestInput: nat)
    requires SessionOk(saved, newestInput) && position < |saved.pending|
    ensures var rest := saved.pending[..position] + saved.pending[position + 1..];
      && rest == Remaining(saved.pending, [saved.pending[position].id])
      && SessionOk(saved.(pending := rest), newestInput) && NoNewInputs(saved, saved.(pending := rest))
      && saved.pending[position].id !in InputIds(saved.(pending := rest))
  {
    var rest := saved.pending[..position] + saved.pending[position + 1..];
    var all, consumed, p := InputIds(saved), ConsumedIds(saved.events), PendingIds(saved.pending);
    var at := |consumed| + position;
    assert PendingIds(rest) == p[..position] + p[position + 1..];
    assert InputIds(saved.(pending := rest)) == all[..at] + all[at + 1..];
    assert all[at] == p[position] == saved.pending[position].id;
    WithoutOne(all, at);
    RemainingOne(saved.pending, position);
    RemainingAscends(saved.pending, [saved.pending[position].id]);
  }

  lemma {:induction false} RemainingOthers(pending: seq<PendingInput>, id: nat)
    requires forall k :: 0 <= k < |pending| ==> pending[k].id != id
    ensures Remaining(pending, [id]) == pending
  {
    if |pending| > 0 {
      RemainingOthers(pending[..|pending| - 1], id);
    }
  }

  /** Only one input has an id. */
  lemma {:induction false} RemainingOne(pending: seq<PendingInput>, position: nat)
    requires Ascending(PendingIds(pending)) && position < |pending|
    ensures Remaining(pending, [pending[position].id]) == pending[..position] + pending[position + 1..]
    decreases |pending|
  {
    var before, last := pending[..|pending| - 1], pending[|pending| - 1];
    assert forall k :: 0 <= k < |pending| ==> PendingIds(pending)[k] == pending[k].id;
    assert PendingIds(before) == PendingIds(pending)[..|before|];
    if position == |before| {
      RemainingOthers(before, last.id);
    } else {
      RemainingOne(before, position);
      assert before[position] == pending[position];
      assert pending[position + 1..] == before[position + 1..] + [last];
    }
  }

  /** A new input gets an id above all ids before it. */
  lemma AcceptedOnce(saved: Saved, input: Input, newestInput: nat)
    requires SessionOk(saved, newestInput)
    ensures SessionOk(saved.(pending := saved.pending + [PendingInput(newestInput + 1, input)]), newestInput + 1)
    ensures InputIds(saved.(pending := saved.pending + [PendingInput(newestInput + 1, input)]))
         == InputIds(saved) + [newestInput + 1]
  {
    var next := saved.(pending := saved.pending + [PendingInput(newestInput + 1, input)]);
    assert PendingIds(next.pending) == PendingIds(saved.pending) + [newestInput + 1];
    assert InputIds(next) == InputIds(saved) + [newestInput + 1];
    assert forall i :: 0 <= i < |InputIds(saved)| ==> InputIds(saved)[i] in InputIds(saved);
    assert forall i :: 0 <= i < |PendingIds(saved.pending)| ==>
      PendingIds(saved.pending)[i] == InputIds(saved)[|ConsumedIds(saved.events)| + i];
  }

  lemma SettingsOnce(saved: Saved, settings: Settings, write: nat, newestInput: nat)
    requires SessionOk(saved, newestInput)
    ensures SessionOk(Pushed(saved, SettingsEvent(settings), write), newestInput)
    ensures NoNewInputs(saved, Pushed(saved, SettingsEvent(settings), write))
  {
    PushedReplays(saved, SettingsEvent(settings), write);
    assert InputIds(Pushed(saved, SettingsEvent(settings), write)) == InputIds(saved);
  }

  lemma StaysOk(sessions: map<SessionId, Saved>, newestInput: nat)
    requires forall id :: id in sessions ==> SessionOk(sessions[id], newestInput)
    ensures forall id :: id in sessions ==> SessionOk(sessions[id], newestInput + 1)
  {
  }

  lemma NewSessionOk(settings: Settings, parent: Option<SessionId>, write: nat, newestInput: nat)
    ensures var saved := Pushed(Saved([], [], 0, None, parent), SettingsEvent(settings), write);
      && SessionOk(saved, newestInput) && Numbered(saved.events)
      && saved.events == [StoredEvent(1, SettingsEvent(settings))]
      && saved.pending == [] && saved.newestWrite == write && saved.parent == parent
      && ContextOf(saved.events) == [] && TurnOf(saved.events) == Empty && TokensOf(saved.events) == None
      && SettingsOf(saved.events) == Some(settings)
  {
    PushedReplays(Saved([], [], 0, None, parent), SettingsEvent(settings), write);
    assert InputIds(Pushed(Saved([], [], 0, None, parent), SettingsEvent(settings), write)) == [];
  }
}
