/**
 * The boundary between the facts of a turn and the saved events of its session (crates/agent/src/updates.rs). An
 * observer sees drafts of answers while they stream, and each saved commit. A committed draft names the stream id of
 * each block of its commit.
 */
module Updates {
  import opened Options
  import opened Sequences
  import opened Blocks
  import opened Commits
  import opened Replies

  datatype DiscardReason = Failure | Unconfirmed

  /** A call in a saved commit: the number of its event, and the index of its block. */
  datatype Position = Position(event: nat, index: nat)

  datatype Update =
    | Saved(event: nat, commit: Commit)
    | DraftStarted(draft: nat)
    | DraftCommitted(draft: nat, event: nat, blocks: seq<nat>)
    | DraftDiscarded(draft: nat, reason: DiscardReason)
    | ModelUpdate(draft: nat, model: Event)
    | ToolStarted(execution: Position)
    | ToolOutput(execution: Position, text: string)
    | ToolFinished(execution: Position)
    | RetryScheduled
    | RoundFailed
    | TurnUnconfirmed

  /** What the driver reports. A tool event carries the block index of its call. */
  datatype TurnEvent =
    | ResponseStarted
    | ResponseFailed
    | ResponseCancelled(blocks: seq<PartialBlock>)
    | Model(event: Event)
    | StartedTool(index: nat)
    | OutputOfTool(index: nat, text: string)
    | FinishedTool(index: nat)
    | ScheduledRetry
    | FailedRound

  // What a correct trace of updates is.

  /** The ids of a list of kept blocks. */
  function Ids(kept: seq<PartialBlock>): (ids: seq<nat>)
    ensures |ids| == |kept|
  {
    seq(|kept|, i requires 0 <= i < |kept| => kept[i].id)
  }

  /** The kept blocks of a cancelled answer. A cut thought is left out. */
  function KeptBlocks(parts: seq<Part>): seq<PartialBlock> {
    if |parts| == 0 then []
    else
      var last := |parts| - 1;
      var content := PartialOf(parts[last]);
      KeptBlocks(parts[..last])
        + if content.Some? && !content.value.PartialReasoning? then [PartialBlock(last, content.value)] else []
  }

  /**
   * The draft ids `ids` name the blocks of a commit: they are the stopped blocks of the stream in start order, or the
   * kept blocks of a cancelled one. The blocks behind them are results of calls that did not run.
   */
  predicate Names(parts: seq<Part>, ids: seq<nat>, blocks: seq<Block>) {
    && |ids| <= |blocks| && AllResults(blocks[|ids|..])
    && (NamesAnswer(parts, ids, blocks) || NamesCancelled(parts, ids, blocks))
  }

  predicate NamesAnswer(parts: seq<Part>, ids: seq<nat>, blocks: seq<Block>)
    requires |ids| <= |blocks|
  {
    && ids == StoppedIds(parts) && |Complete(parts)| == |ids|
    && forall i :: 0 <= i < |ids| ==> blocks[i] == Complete(parts)[i].ToBlock()
  }

  predicate NamesCancelled(parts: seq<Part>, ids: seq<nat>, blocks: seq<Block>)
    requires |ids| <= |blocks|
  {
    && ids == Ids(KeptBlocks(parts))
    && forall i :: 0 <= i < |ids| ==> blocks[i] == KeptBlocks(parts)[i].content.ToBlock()
  }

  lemma {:induction false} KeptBlocksAscend(parts: seq<Part>)
    ensures forall i :: 0 <= i < |KeptBlocks(parts)| ==>
      var kept := KeptBlocks(parts)[i];
      kept.id < |parts| && PartialOf(parts[kept.id]) == Some(kept.content) && !kept.content.PartialReasoning?
    ensures forall i, j :: 0 <= i < j < |KeptBlocks(parts)| ==> KeptBlocks(parts)[i].id < KeptBlocks(parts)[j].id
  {
    if |parts| > 0 {
      KeptBlocksAscend(parts[..|parts| - 1]);
    }
  }

  /** The block that a stream gave with one part: its content, or its text so far. */
  function BlockGiven(part: Part): Block {
    match part
    case Stopped(content) => content.ToBlock()
    case Open(_, text) => AssistantText(text)
  }

  /**
   * What the names mean, for a completed and for a cancelled answer: they ascend, and the block at each index of the
   * commit is the block that the stream gave under the name at that index. Only text stays of an open block.
   */
  lemma NamedBlocks(parts: seq<Part>, ids: seq<nat>, blocks: seq<Block>, i: nat)
    requires Names(parts, ids, blocks) && i < |ids|
    ensures Ascending(ids) && ids[i] < |parts|
    ensures blocks[i] == BlockGiven(parts[ids[i]])
    ensures parts[ids[i]].Open? ==>
      (parts[ids[i]].kind.TextKind? || parts[ids[i]].kind.RefusalKind?) && parts[ids[i]].text != ""
  {
    CompleteFollowsIds(parts);
    KeptBlocksAscend(parts);
    if !NamesAnswer(parts, ids, blocks) {
      assert forall k :: 0 <= k < |ids| ==> ids[k] == KeptBlocks(parts)[k].id;
      assert PartialOf(parts[ids[i]]) == Some(KeptBlocks(parts)[i].content);
    }
  }

  /**
   * What a reader of the updates knows. `due` says that a saved commit closes the open draft next. `shown` says that
   * the newest draft gave an event, and `repeats` says that the newest update discarded a failed draft without one.
   */
  datatype Reader = Reader(
    open: Option<nat>,
    used: set<nat>,
    parts: seq<Part>,
    last: Option<Position>,
    blocks: seq<Block>,
    due: bool,
    shown: bool,
    repeats: bool,
    started: set<Position>,
    finished: set<Position>,
    over: bool)

  /** An event that a reducer can give next: it names a block that started, and stops a block at most once. */
  predicate Reduced(parts: seq<Part>, event: Event) {
    InOrder(parts, event) && (event.BlockStopped? ==> parts[event.id].Open?)
  }

  /** The call at `p` is in the newest saved commit. */
  predicate SavedCall(r: Reader, p: Position) {
    && r.last.Some? && p.event == r.last.value.event
    && p.index < |r.blocks| && r.blocks[p.index].Call?
  }

  /** The updates that a correct trace can go on with. */
  predicate Accepts(r: Reader, update: Update) {
    && !r.over
    && (r.due ==> update.DraftCommitted?)
    && match update
       case Saved(event, _) => r.last.Some? ==> r.last.value.event < event
       case DraftStarted(draft) => r.open.None? && draft !in r.used
       case DraftCommitted(draft, event, ids) =>
         && r.due && r.open == Some(draft)
         && r.last.Some? && event == r.last.value.event
         && Names(r.parts, ids, r.blocks)
       case DraftDiscarded(draft, _) => r.open == Some(draft)
       case ModelUpdate(draft, event) => r.open == Some(draft) && Reduced(r.parts, event)
       case ToolStarted(p) => r.open.None? && SavedCall(r, p) && p !in r.started
       case ToolOutput(p, _) => r.open.None? && SavedCall(r, p) && p in r.started && p !in r.finished
       case ToolFinished(p) => r.open.None? && SavedCall(r, p) && p in r.started && p !in r.finished
       case RetryScheduled => r.repeats
       case RoundFailed => r.open.None?
       case TurnUnconfirmed => r.open.None?
  }

  function Read(r: Reader, update: Update): Reader
    requires Accepts(r, update)
  {
    Seen(r, update).(repeats := update.DraftDiscarded? && update.reason == Failure && !r.shown)
  }

  function Seen(r: Reader, update: Update): Reader
    requires Accepts(r, update)
  {
    match update
    case Saved(event, commit) =>
      r.(last := Some(Position(event, 0)), blocks := commit.blocks, due := r.open.Some?)
    case DraftStarted(draft) => r.(open := Some(draft), used := r.used + {draft}, parts := [], shown := false)
    case DraftCommitted(_, _, _) => r.(open := None, due := false)
    case DraftDiscarded(_, _) => r.(open := None)
    case ModelUpdate(_, event) => r.(parts := PartsAfter(r.parts, event), shown := true)
    case ToolStarted(p) => r.(started := r.started + {p})
    case ToolOutput(_, _) => r
    case ToolFinished(p) => r.(finished := r.finished + {p})
    case RetryScheduled => r
    case RoundFailed => r
    case TurnUnconfirmed => r.(over := true)
  }

  const NEW_READER := Reader(None, {}, [], None, [], false, false, false, {}, {}, false)

  /** What a reader knows after a correct trace, or None for a trace that breaks a rule. */
  function ReadAll(updates: seq<Update>): Option<Reader> {
    if |updates| == 0 then Some(NEW_READER)
    else
      match ReadAll(updates[..|updates| - 1])
      case None => None
      case Some(r) => if Accepts(r, updates[|updates| - 1]) then Some(Read(r, updates[|updates| - 1])) else None
  }

  /** A correct trace, which leaves no draft open. */
  predicate Settled(updates: seq<Update>) {
    ReadAll(updates).Some? && ReadAll(updates).value.open.None? && !ReadAll(updates).value.due
  }

  lemma ReadNext(updates: seq<Update>, update: Update)
    requires ReadAll(updates).Some? && Accepts(ReadAll(updates).value, update)
    ensures ReadAll(updates + [update]) == Some(Read(ReadAll(updates).value, update))
  {
    assert (updates + [update])[..|updates|] == updates;
  }

  // What a correct trace means for its observer.

  function StartsOf(updates: seq<Update>, draft: nat): nat {
    if |updates| == 0 then 0
    else
      StartsOf(updates[..|updates| - 1], draft)
        + if updates[|updates| - 1] == DraftStarted(draft) then 1 else 0
  }

  predicate Closes(update: Update, draft: nat) {
    (update.DraftCommitted? || update.DraftDiscarded?) && update.draft == draft
  }

  function ClosesOf(updates: seq<Update>, draft: nat): nat {
    if |updates| == 0 then 0
    else ClosesOf(updates[..|updates| - 1], draft) + if Closes(updates[|updates| - 1], draft) then 1 else 0
  }

  /** A draft starts at most once, and every draft that started is closed exactly once, except the open one. */
  lemma {:induction false} DraftsCloseOnce(updates: seq<Update>, draft: nat)
    requires ReadAll(updates).Some?
    ensures var r := ReadAll(updates).value;
      && StartsOf(updates, draft) == (if draft in r.used then 1 else 0)
      && ClosesOf(updates, draft) == (if draft in r.used && r.open != Some(draft) then 1 else 0)
      && (r.open.Some? ==> r.open.value in r.used)
  {
    if |updates| > 0 {
      DraftsCloseOnce(updates[..|updates| - 1], draft);
    }
  }

  /** The events that the observer saw of one draft. */
  function EventsOfDraft(updates: seq<Update>, draft: nat): seq<Event> {
    if |updates| == 0 then []
    else
      var last := updates[|updates| - 1];
      EventsOfDraft(updates[..|updates| - 1], draft)
        + if last.ModelUpdate? && last.draft == draft then [last.model] else []
  }

  /** The parts of the open draft are the reduction of the events that the observer saw of it. */
  lemma {:induction false} SeenParts(updates: seq<Update>, draft: nat)
    requires ReadAll(updates).Some?
    ensures var r := ReadAll(updates).value;
      && (r.open == Some(draft) ==> Reduce(EventsOfDraft(updates, draft)) == r.parts)
      && (draft !in r.used ==> EventsOfDraft(updates, draft) == [])
      && (r.open.Some? ==> r.open.value in r.used)
  {
    if |updates| > 0 {
      var before := updates[..|updates| - 1];
      SeenParts(before, draft);
      var last := updates[|updates| - 1];
      var events := EventsOfDraft(before, draft);
      assert events + [] == events;
      if last.ModelUpdate? && last.draft == draft {
        assert (events + [last.model])[..|events|] == events;
      }
    }
  }

  /**
   * The main result for observers: a committed draft comes right behind the saved commit of its answer, and its ids
   * name the blocks of that commit in the stream that the observer saw.
   */
  lemma CommittedDraftNamesItsBlocks(updates: seq<Update>, i: nat)
    requires i < |updates| && ReadAll(updates[..i + 1]).Some? && updates[i].DraftCommitted?
    ensures i > 0 && updates[i - 1].Saved? && updates[i - 1].event == updates[i].event
    ensures Names(Reduce(EventsOfDraft(updates[..i], updates[i].draft)), updates[i].blocks,
                  updates[i - 1].commit.blocks)
  {
    var before := updates[..i];
    assert updates[..i + 1][..i] == before;
    SeenParts(before, updates[i].draft);
    DueFollowsSaved(before);
  }

  lemma DueFollowsSaved(updates: seq<Update>)
    requires ReadAll(updates).Some? && ReadAll(updates).value.due
    ensures |updates| > 0
    ensures var last := updates[|updates| - 1];
      && last.Saved? && ReadAll(updates).value.last == Some(Position(last.event, 0))
      && ReadAll(updates).value.blocks == last.commit.blocks
  {
    hide Names, Reduced, SavedCall, PartsAfter;
  }

  /** Whether the open draft gave an event. */
  lemma {:induction false} ShownEvents(updates: seq<Update>, draft: nat)
    requires ReadAll(updates).Some?
    ensures var r := ReadAll(updates).value;
      && (r.open == Some(draft) ==> (r.shown <==> EventsOfDraft(updates, draft) != []))
      && (draft !in r.used ==> EventsOfDraft(updates, draft) == [])
      && (r.open.Some? ==> r.open.value in r.used)
  {
    if |updates| > 0 {
      var before, last := updates[..|updates| - 1], updates[|updates| - 1];
      ShownEvents(before, draft);
      ShownNext(ReadAll(before).value, last, draft, EventsOfDraft(before, draft));
    }
  }

  lemma ShownNext(r: Reader, last: Update, draft: nat, events: seq<Event>)
    requires Accepts(r, last)
    requires r.open == Some(draft) ==> (r.shown <==> events != [])
    requires draft !in r.used ==> events == []
    requires r.open.Some? ==> r.open.value in r.used
    ensures var next := Read(r, last);
      var more := events + if last.ModelUpdate? && last.draft == draft then [last.model] else [];
      && (next.open == Some(draft) ==> (next.shown <==> more != []))
      && (draft !in next.used ==> more == [])
      && (next.open.Some? ==> next.open.value in next.used)
  {
    hide Names, Reduced, SavedCall, PartsAfter;
  }

  /** A request repeats only right behind a failed attempt whose draft gave the observer no event. */
  lemma RepeatsFollowSilence(updates: seq<Update>, i: nat)
    requires i < |updates| && ReadAll(updates[..i + 1]).Some? && updates[i].RetryScheduled?
    ensures i > 0 && updates[i - 1].DraftDiscarded? && updates[i - 1].reason == Failure
    ensures EventsOfDraft(updates[..i], updates[i - 1].draft) == []
  {
    assert updates[..i + 1][..i] == updates[..i];
    assert i > 0;
    assert updates[..i][..i - 1] == updates[..i - 1];
    ShownEvents(updates[..i - 1], updates[i - 1].draft);
    var events := EventsOfDraft(updates[..i - 1], updates[i - 1].draft);
    assert events + [] == events;
  }

  /** Every part of a correct trace that starts where it does is correct too. */
  lemma {:induction false} PrefixReads(updates: seq<Update>, n: nat)
    requires ReadAll(updates).Some? && n <= |updates|
    ensures ReadAll(updates[..n]).Some?
  {
    if n < |updates| {
      assert updates[..|updates| - 1][..n] == updates[..n];
      PrefixReads(updates[..|updates| - 1], n);
    } else {
      assert updates[..n] == updates;
    }
  }

  /** The committed draft at `i` names the blocks of the commit right before it. */
  ghost predicate NamesItsCommit(updates: seq<Update>, i: nat)
    requires i < |updates| && updates[i].DraftCommitted?
  {
    && i > 0 && updates[i - 1].Saved? && updates[i - 1].event == updates[i].event
    && Names(Reduce(EventsOfDraft(updates[..i], updates[i].draft)), updates[i].blocks, updates[i - 1].commit.blocks)
  }

  /** The retry at `i` comes right behind a failed attempt that gave no event. */
  ghost predicate FollowsSilence(updates: seq<Update>, i: nat)
    requires i < |updates|
  {
    && i > 0 && updates[i - 1].DraftDiscarded? && updates[i - 1].reason == Failure
    && EventsOfDraft(updates[..i], updates[i - 1].draft) == []
  }

  /** What a whole trace means for its observer: at every index, and for every draft. */
  lemma SettledTraces(updates: seq<Update>)
    requires Settled(updates)
    ensures forall i :: 0 <= i < |updates| && updates[i].DraftCommitted? ==> NamesItsCommit(updates, i)
    ensures forall i :: 0 <= i < |updates| && updates[i].RetryScheduled? ==> FollowsSilence(updates, i)
    ensures forall draft :: StartsOf(updates, draft) == ClosesOf(updates, draft) <= 1
  {
    hide NamesItsCommit, FollowsSilence, StartsOf, ClosesOf, ReadAll;
    forall i | 0 <= i < |updates| && updates[i].DraftCommitted?
      ensures NamesItsCommit(updates, i)
    {
      PrefixReads(updates, i + 1);
      DraftAt(updates, i);
    }
    forall i | 0 <= i < |updates| && updates[i].RetryScheduled?
      ensures FollowsSilence(updates, i)
    {
      PrefixReads(updates, i + 1);
      RepeatAt(updates, i);
    }
    forall draft
      ensures StartsOf(updates, draft) == ClosesOf(updates, draft) <= 1
    {
      DraftsCloseOnce(updates, draft);
    }
  }

  lemma DraftAt(updates: seq<Update>, i: nat)
    requires i < |updates| && ReadAll(updates[..i + 1]).Some? && updates[i].DraftCommitted?
    ensures NamesItsCommit(updates, i)
  {
    CommittedDraftNamesItsBlocks(updates, i);
  }

  lemma RepeatAt(updates: seq<Update>, i: nat)
    requires i < |updates| && ReadAll(updates[..i + 1]).Some? && updates[i].RetryScheduled?
    ensures FollowsSilence(updates, i)
  {
    RepeatsFollowSilence(updates, i);
  }

  /** The saved commits that the observer saw. */
  function SavedOnly(updates: seq<Update>): seq<Update> {
    if |updates| == 0 then []
    else
      var last := updates[|updates| - 1];
      SavedOnly(updates[..|updates| - 1]) + if last.Saved? then [last] else []
  }

  lemma SavedOnlyNext(updates: seq<Update>, update: Update)
    ensures SavedOnly(updates + [update]) == SavedOnly(updates) + if update.Saved? then [update] else []
  {
    assert (updates + [update])[..|updates|] == updates;
  }

  // The sort of the stopped ids.

  function Insert(id: nat, ids: seq<nat>): seq<nat> {
    if |ids| == 0 || id <= ids[0] then [id] + ids else [ids[0]] + Insert(id, ids[1..])
  }

  /** `ids` in ascending order. */
  function Sort(ids: seq<nat>): seq<nat> {
    if |ids| == 0 then [] else Insert(ids[|ids| - 1], Sort(ids[..|ids| - 1]))
  }

  lemma {:induction false} InsertAdds(id: nat, ids: seq<nat>)
    ensures forall x: nat :: x in Insert(id, ids) <==> x == id || x in ids
  {
    if |ids| > 0 && id > ids[0] {
      InsertAdds(id, ids[1..]);
      assert ids == [ids[0]] + ids[1..];
    }
  }

  lemma {:induction false} InsertKeepsOrder(id: nat, ids: seq<nat>)
    requires Ascending(ids) && id !in ids
    ensures Ascending(Insert(id, ids))
  {
    if |ids| > 0 && id > ids[0] {
      var rest := Insert(id, ids[1..]);
      InsertKeepsOrder(id, ids[1..]);
      InsertAdds(id, ids[1..]);
      forall k | 0 <= k < |rest|
        ensures ids[0] < rest[k]
      {
        assert rest[k] in rest;
      }
    }
  }

  lemma {:induction false} SortAscends(ids: seq<nat>)
    requires Distinct(ids)
    ensures Ascending(Sort(ids))
    ensures forall x: nat :: x in Sort(ids) <==> x in ids
  {
    if |ids| > 0 {
      var last := |ids| - 1;
      SortAscends(ids[..last]);
      assert ids == ids[..last] + [ids[last]];
      InsertKeepsOrder(ids[last], Sort(ids[..last]));
      InsertAdds(ids[last], Sort(ids[..last]));
    }
  }

  /** A draft: its id, and the stream ids of the blocks that it will commit. */
  datatype Draft = Draft(id: nat, blocks: seq<nat>)

  /** How far the answer of the open draft came. */
  datatype Stage = InFlight | Whole | Cut

  /** The stream ids that a draft commits at this stage. */
  function FinalIds(stage: Stage, parts: seq<Part>): seq<nat> {
    match stage
    case InFlight => []
    case Whole => StoppedIds(parts)
    case Cut => Ids(KeptBlocks(parts))
  }

  /** The ids of the blocks that stopped, in the order of their stops. */
  ghost predicate StopOrder(ids: seq<nat>, parts: seq<Part>) {
    && Distinct(ids)
    && forall id: nat :: id in ids <==> id < |parts| && parts[id].Stopped?
  }

  lemma SortedStops(ids: seq<nat>, parts: seq<Part>)
    requires StopOrder(ids, parts)
    ensures Sort(ids) == StoppedIds(parts)
  {
    SortAscends(ids);
    CompleteFollowsIds(parts);
    AscendingIsUnique(Sort(ids), StoppedIds(parts));
  }

  /** A new event of the stream keeps the order of the stops. */
  lemma StopsNext(ids: seq<nat>, parts: seq<Part>, event: Event)
    requires StopOrder(ids, parts) && Reduced(parts, event)
    ensures StopOrder(if event.BlockStopped? then ids + [event.id] else ids, PartsAfter(parts, event))
  {
    var next := PartsAfter(parts, event);
    if !event.BlockStarted? && !event.Done? {
      assert forall id: nat :: id < |parts| && id != event.id ==> next[id] == parts[id];
    }
  }

  // The updates that the facts of a turn give.

  /** The update of one event of the driver, if any. `newId` is the id of a new draft. */
  function UpdateOf(r: Reader, newId: nat, event: TurnEvent): Option<Update> {
    var open := if r.open.Some? then r.open.value else 0;
    var number := if r.last.Some? then r.last.value.event else 0;
    match event
    case ResponseStarted => Some(DraftStarted(newId))
    case ResponseFailed => Some(DraftDiscarded(open, Failure))
    case ResponseCancelled(_) => None
    case Model(model) => Some(ModelUpdate(open, model))
    case StartedTool(index) => Some(ToolStarted(Position(number, index)))
    case OutputOfTool(index, text) => Some(ToolOutput(Position(number, index), text))
    case FinishedTool(index) => Some(ToolFinished(Position(number, index)))
    case ScheduledRetry => Some(RetryScheduled)
    case FailedRound => Some(RoundFailed)
  }

  /** When the driver can report `event`: the order of the engine. */
  ghost predicate Fits(r: Reader, stage: Stage, event: TurnEvent) {
    && !r.due && !r.over
    && match event
       case ResponseStarted => r.open.None?
       case ResponseFailed => r.open.Some?
       case ResponseCancelled(blocks) => r.open.Some? && stage != Cut && blocks == KeptBlocks(r.parts)
       case Model(model) => r.open.Some? && stage == InFlight && Reduced(r.parts, model)
       case StartedTool(index) =>
         r.open.None? && r.last.Some? && SavedCall(r, Position(r.last.value.event, index))
         && Position(r.last.value.event, index) !in r.started
       case OutputOfTool(index, _) =>
         r.open.None? && r.last.Some? && SavedCall(r, Position(r.last.value.event, index))
         && Position(r.last.value.event, index) in r.started - r.finished
       case FinishedTool(index) =>
         r.open.None? && r.last.Some? && SavedCall(r, Position(r.last.value.event, index))
         && Position(r.last.value.event, index) in r.started - r.finished
       case ScheduledRetry => r.open.None? && r.repeats
       case FailedRound => r.open.None?
  }

  function StageAfter(stage: Stage, event: TurnEvent): Stage {
    match event
    case ResponseStarted => InFlight
    case ResponseCancelled(_) => Cut
    case Model(model) => if model.Done? then Whole else stage
    case _ => stage
  }

  /** The draft ids so far come before `newId`, no call started after the newest commit, and a finished call started. */
  ghost predicate Dated(r: Reader, newId: nat) {
    && (forall id :: id in r.used ==> id < newId)
    && (r.last.Some? ==> forall p :: p in r.started ==> p.event <= r.last.value.event)
    && (r.last.None? ==> r.started == {})
    && r.finished <= r.started
  }

  /** What the engine reports in its order goes on the trace. */
  lemma FitsAccepts(r: Reader, stage: Stage, newId: nat, event: TurnEvent)
    requires Dated(r, newId) && Fits(r, stage, event)
    ensures UpdateOf(r, newId, event).Some? ==>
      var update := UpdateOf(r, newId, event).value;
      Accepts(r, update) && Dated(Read(r, update), if event.ResponseStarted? then newId + 1 else newId)
  {
  }

  /** An open draft names the blocks of the next commit. */
  predicate DraftReady(r: Reader, stage: Stage, blocks: seq<Block>) {
    r.open.Some? ==> stage != InFlight && Names(r.parts, FinalIds(stage, r.parts), blocks)
  }

  /** The updates of a saved commit: the commit, and the end of its draft. */
  function CommitUpdates(r: Reader, stage: Stage, event: nat, commit: Commit): seq<Update> {
    [Saved(event, commit)]
    + if r.open.Some? then [DraftCommitted(r.open.value, event, FinalIds(stage, r.parts))] else []
  }

  function AfterCommit(r: Reader, event: nat, commit: Commit): Reader {
    r.(open := None, last := Some(Position(event, 0)), blocks := commit.blocks, repeats := false)
  }

  class Publisher {
    /** Whether an observer takes the updates. */
    const observed: bool
    var draft: Option<Draft>
    var executionEvent: Option<nat>
    var ended: bool
    /** What the observer got. */
    var sent: seq<Update>
    /** The source of draft ids. Each draft has its own id. */
    var nextDraft: nat

    /** The updates that an observer gets, what a reader of them knows, and whether the last commit ended the turn. */
    ghost var trace: seq<Update>
    ghost var reader: Reader
    ghost var stage: Stage
    ghost var over: bool

    ghost predicate Valid()
      reads this
    {
      && ReadAll(trace) == Some(reader)
      && !reader.due
      && Dated(reader, nextDraft)
      && if observed then sent == trace && ended == over && DraftAgrees() && ExecutionAgrees()
         else draft.None? && sent == []
    }

    /** The draft is the open one, with the ids of the blocks that stopped or that a cancel keeps. */
    ghost predicate DraftAgrees()
      reads this
    {
      && (draft.Some? <==> reader.open.Some?)
      && (draft.Some? ==>
          && reader.open == Some(draft.value.id)
          && if stage == InFlight then StopOrder(draft.value.blocks, reader.parts)
             else draft.value.blocks == FinalIds(stage, reader.parts))
    }

    /** When the newest commit holds calls, the execution event is the number of that commit. */
    ghost predicate ExecutionAgrees()
      reads this
    {
      forall i :: 0 <= i < |reader.blocks| && reader.blocks[i].Call? ==>
        reader.last.Some? && executionEvent == Some(reader.last.value.event)
    }

    constructor (observed: bool)
      ensures Valid() && this.observed == observed && reader == NEW_READER && !over && trace == []
    {
      this.observed := observed;
      draft, executionEvent, ended, sent, nextDraft := None, None, false, [], 0;
      trace, reader, stage, over := [], NEW_READER, InFlight, false;
    }

    /** The trace goes on with `update`. */
    ghost method Note(update: Update)
      requires ReadAll(trace) == Some(reader) && Accepts(reader, update)
      modifies this`trace, this`reader
      ensures trace == old(trace) + [update] && reader == Read(old(reader), update)
      ensures ReadAll(trace) == Some(reader)
    {
      ReadNext(trace, update);
      reader := Read(reader, update);
      trace := trace + [update];
    }

    /** Take one event of the driver. No `value` below is missing, so no expectation of the source fails. */
    method Report(event: TurnEvent)
      requires Valid() && Fits(reader, stage, event)
      modifies this
      ensures Valid() && over == old(over) && stage == StageAfter(old(stage), event)
      ensures var update := UpdateOf(old(reader), old(nextDraft), event);
        && trace == old(trace) + (if update.Some? then [update.value] else [])
        && (update.Some? ==> Accepts(old(reader), update.value))
        && reader == if update.Some? then Read(old(reader), update.value) else old(reader)
    {
      hide ReadAll, Accepts, Reduced;
      FitsAccepts(reader, stage, nextDraft, event);
      match event
      case ResponseStarted =>
        StartDraft();
      case ResponseFailed =>
        Note(DraftDiscarded(reader.open.value, Failure));
        if observed {
          sent := sent + [DraftDiscarded(draft.value.id, Failure)];
          draft := None;
        }
      case ResponseCancelled(blocks) =>
        stage := Cut;
        assert trace + [] == trace;
        if observed {
          draft := Some(Draft(draft.value.id, Ids(blocks)));
        }
      case Model(model) =>
        Stream(model);
      case StartedTool(index) =>
        ReportTool(event);
      case OutputOfTool(index, text) =>
        ReportTool(event);
      case FinishedTool(index) =>
        ReportTool(event);
      case ScheduledRetry =>
        Note(RetryScheduled);
        if observed {
          sent := sent + [RetryScheduled];
        }
      case FailedRound =>
        Note(RoundFailed);
        if observed {
          sent := sent + [RoundFailed];
        }
    }

    /** The event of a tool, at the saved position of its call. */
    method ReportTool(event: TurnEvent)
      requires Valid() && Fits(reader, stage, event)
      requires event.StartedTool? || event.OutputOfTool? || event.FinishedTool?
      modifies this
      ensures Valid() && over == old(over) && stage == old(stage)
      ensures var update := UpdateOf(old(reader), old(nextDraft), event).value;
        && trace == old(trace) + [update] && Accepts(old(reader), update) && reader == Read(old(reader), update)
    {
      hide ReadAll, Accepts, Reduced;
      FitsAccepts(reader, stage, nextDraft, event);
      Note(UpdateOf(reader, nextDraft, event).value);
      if observed {
        match event
        case StartedTool(index) =>
          sent := sent + [ToolStarted(Position(executionEvent.value, index))];
        case OutputOfTool(index, text) =>
          sent := sent + [ToolOutput(Position(executionEvent.value, index), text)];
        case FinishedTool(index) =>
          sent := sent + [ToolFinished(Position(executionEvent.value, index))];
        case _ =>
      }
    }

    method StartDraft()
      requires Valid() && Fits(reader, stage, ResponseStarted)
      modifies this
      ensures Valid() && over == old(over) && stage == InFlight
      ensures trace == old(trace) + [DraftStarted(old(nextDraft))]
      ensures Accepts(old(reader), DraftStarted(old(nextDraft)))
      ensures reader == Read(old(reader), DraftStarted(old(nextDraft)))
    {
      hide ReadAll;
      var newId := nextDraft;
      FitsAccepts(reader, stage, newId, ResponseStarted);
      Note(DraftStarted(newId));
      nextDraft := newId + 1;
      stage := InFlight;
      if observed {
        draft := Some(Draft(newId, []));
        sent := sent + [DraftStarted(newId)];
      }
    }

    method Stream(model: Event)
      requires Valid() && Fits(reader, stage, Model(model))
      modifies this
      ensures Valid() && over == old(over) && stage == StageAfter(old(stage), Model(model))
      ensures trace == old(trace) + [ModelUpdate(old(reader).open.value, model)]
      ensures Accepts(old(reader), ModelUpdate(old(reader).open.value, model))
      ensures reader == Read(old(reader), ModelUpdate(old(reader).open.value, model))
    {
      hide ReadAll, StopOrder;
      ghost var parts := reader.parts;
      FitsAccepts(reader, stage, nextDraft, Model(model));
      Note(ModelUpdate(reader.open.value, model));
      stage := StageAfter(stage, Model(model));
      if !observed {
        return;
      }
      StopsNext(draft.value.blocks, parts, model);
      if model.BlockStopped? {
        draft := Some(Draft(draft.value.id, draft.value.blocks + [model.id]));
      } else if model.Done? {
        SortedStops(draft.value.blocks, parts);
        draft := Some(Draft(draft.value.id, Sort(draft.value.blocks)));
      }
      sent := sent + [ModelUpdate(draft.value.id, model)];
    }

    /** Publish a commit that the store confirmed. The draft of its answer ends with it. */
    method Committed(event: nat, commit: Commit)
      requires Valid() && !reader.over
      requires reader.last.Some? ==> reader.last.value.event < event
      requires DraftReady(reader, stage, commit.blocks)
      modifies this
      ensures Valid() && over == commit.end.Some?
      ensures trace == old(trace) + CommitUpdates(old(reader), old(stage), event, commit)
      ensures reader == AfterCommit(old(reader), event, commit)
    {
      hide ReadAll, Names, FinalIds;
      NoteCommitted(event, commit);
      over := commit.end.Some?;
      if !observed {
        return;
      }
      ended := commit.end.Some?;
      if exists i :: 0 <= i < |commit.blocks| && commit.blocks[i].Call? {
        executionEvent := Some(event);
      }
      var taken := draft;
      draft := None;
      sent := sent + [Saved(event, commit)];
      if taken.Some? {
        sent := sent + [DraftCommitted(taken.value.id, event, taken.value.blocks)];
      }
    }

    /** The saved commit goes on the trace, and the end of its draft. */
    ghost method NoteCommitted(event: nat, commit: Commit)
      requires ReadAll(trace) == Some(reader) && !reader.due && Dated(reader, nextDraft) && !reader.over
      requires reader.last.Some? ==> reader.last.value.event < event
      requires DraftReady(reader, stage, commit.blocks)
      modifies this`trace, this`reader
      ensures ReadAll(trace) == Some(reader) && Dated(reader, nextDraft)
      ensures trace == old(trace) + CommitUpdates(old(reader), stage, event, commit)
      ensures reader == AfterCommit(old(reader), event, commit)
    {
      hide ReadAll, Names, FinalIds;
      ghost var r, before := reader, trace;
      Note(Saved(event, commit));
      if r.open.Some? {
        Note(DraftCommitted(r.open.value, event, FinalIds(stage, r.parts)));
      }
      assert trace == before + CommitUpdates(r, stage, event, commit);
    }

    /** The end of the turn, also of a dropped one. It closes the draft that is still open. */
    method Drop()
      requires Valid() && !reader.over
      modifies this
      ensures ReadAll(trace) == Some(reader) && Settled(trace)
      ensures observed ==> sent == trace
      ensures !observed ==> sent == []
      ensures trace == old(trace)
        + (if old(reader).open.Some? then [DraftDiscarded(old(reader).open.value, Unconfirmed)] else [])
        + (if old(over) then [] else [TurnUnconfirmed])
    {
      hide ReadAll;
      ghost var open := reader.open;
      if open.Some? {
        Note(DraftDiscarded(open.value, Unconfirmed));
      }
      if !over {
        Note(TurnUnconfirmed);
      }
      if observed {
        if draft.Some? {
          sent := sent + [DraftDiscarded(draft.value.id, Unconfirmed)];
          draft := None;
        }
        if !ended {
          sent := sent + [TurnUnconfirmed];
        }
      }
    }
  }
}
