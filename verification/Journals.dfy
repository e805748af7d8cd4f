/**
 * The journal and the inbox of one turn of a session (`TurnJournal` and `TurnInputs` of crates/agent/src/session.rs).
 * Each write can save and then fail, and the caller can drop the future of a turn while it waits.
 */
module Journals {
  import opened Options
  import opened Sequences
  import opened Blocks
  import opened Commits
  import opened Updates
  import opened Stores
  import opened Clients

  /** The name under which the session itself writes inputs. */
  const SESSION_SOURCE := "host:session"

  datatype InputDecision = Keep | Replace(modelContent: seq<Block>) | Remove | HookFailed

  /** How the check of one input ended. */
  datatype Checked = Skips | Passes(input: PendingInput) | CheckFailed | CheckDropped

  /** How a wait for the inbox ended. */
  datatype Taken = Took(blocks: seq<Block>) | TakeFailed | TakeDropped

  /** How the save of a commit ended. Only a confirmed commit is certain: the other ends can have saved it. */
  datatype Confirmation = Confirmed | SaveFailed | SaveDropped

  /** The model blocks of inputs, in order. */
  function AllModelBlocks(inputs: seq<PendingInput>): seq<Block> {
    if |inputs| == 0 then []
    else AllModelBlocks(inputs[..|inputs| - 1]) + ModelBlocks(inputs[|inputs| - 1].input)
  }

  function Records(inputs: seq<PendingInput>): (records: seq<ConsumedInput>)
    ensures |records| == |inputs|
  {
    seq(|inputs|, i requires 0 <= i < |inputs| => Consumed(inputs[i]))
  }

  /** The records of inputs ask for exactly their model blocks, and every input has at least one. */
  lemma {:induction false} RecordsCountBlocks(inputs: seq<PendingInput>)
    ensures SumBlocks(Records(inputs)) == |AllModelBlocks(inputs)| >= |inputs|
  {
    if |inputs| > 0 {
      RecordsCountBlocks(inputs[..|inputs| - 1]);
      assert Records(inputs)[..|inputs| - 1] == Records(inputs[..|inputs| - 1]);
    }
  }

  /**
   * What a hook can make of an accepted input: only the blocks that the model reads, and nothing of a note. Replaced
   * content is only kept when it really differs from what the user sees.
   */
  predicate ComesFrom(input: Input, accepted: Input) {
    && input.plugin == accepted.plugin && input.content == accepted.content
    && (accepted.plugin == Some(SESSION_SOURCE) ==> input == accepted)
    && (input != accepted ==> input.modelContent != Some(input.content))
  }

  /** What the turn takes of a pending input after a decision, or None when it takes nothing. */
  function Decided(input: PendingInput, decision: InputDecision): (taken: Option<PendingInput>)
    ensures taken.Some? ==> taken.value.id == input.id
  {
    match decision
    case Keep => Some(input)
    case Replace(modelContent) =>
      if modelContent == [] then None
      else
        var kept := if modelContent == input.input.content then None else Some(modelContent);
        Some(PendingInput(input.id, input.input.(modelContent := kept)))
    case Remove => None
    case HookFailed => None
  }

  lemma DecidedComesFrom(input: PendingInput, decision: InputDecision)
    requires Decided(input, decision).Some?
    requires input.input.plugin == Some(SESSION_SOURCE) ==> decision.Keep?
    ensures ComesFrom(Decided(input, decision).value.input, input.input)
  {
  }

  /** Every one of them goes back to an acceptance by the store for this session. */
  ghost predicate Traced(inputs: seq<PendingInput>, id: SessionId, accepted: map<nat, Acceptance>) {
    forall k :: 0 <= k < |inputs| ==> TracedInput(inputs[k], id, accepted)
  }

  ghost predicate TracedInput(input: PendingInput, id: SessionId, accepted: map<nat, Acceptance>) {
    && input.id in accepted && accepted[input.id].session == id
    && ComesFrom(input.input, accepted[input.id].input)
  }

  ghost predicate AllTraced(sources: seq<seq<PendingInput>>, id: SessionId, accepted: map<nat, Acceptance>) {
    forall i :: 0 <= i < |sources| ==> Traced(sources[i], id, accepted)
  }

  lemma TracedLater(inputs: seq<PendingInput>, sources: seq<seq<PendingInput>>, pending: seq<PendingInput>,
                    id: SessionId, before: map<nat, Acceptance>, after: map<nat, Acceptance>)
    requires AcceptedGrew(before, after)
    ensures Traced(inputs, id, before) ==> Traced(inputs, id, after)
    ensures AllTraced(sources, id, before) ==> AllTraced(sources, id, after)
    ensures PendingAccepted(id, pending, before) ==> PendingAccepted(id, pending, after)
  {
    hide ComesFrom;
    if AllTraced(sources, id, before) {
      forall i | 0 <= i < |sources|
        ensures Traced(sources[i], id, after)
      {
        assert Traced(sources[i], id, before);
      }
    }
  }

  lemma AcceptedGrewTwice(a: map<nat, Acceptance>, b: map<nat, Acceptance>, c: map<nat, Acceptance>)
    requires AcceptedGrew(a, b) && AcceptedGrew(b, c)
    ensures AcceptedGrew(a, c)
  {
  }

  lemma SameAccepted(accepted: map<nat, Acceptance>)
    ensures AcceptedGrew(accepted, accepted)
  {
  }

  /** Each input is a pending one, as a hook left it. */
  ghost predicate TakenFrom(inputs: seq<PendingInput>, pending: seq<PendingInput>) {
    forall k :: 0 <= k < |inputs| ==> TakenOne(inputs[k], pending)
  }

  ghost predicate TakenOne(input: PendingInput, pending: seq<PendingInput>) {
    exists p :: p in pending && p.id == input.id && ComesFrom(input.input, p.input)
  }

  lemma TracedArePending(inputs: seq<PendingInput>, id: SessionId, accepted: map<nat, Acceptance>,
                         pending: seq<PendingInput>)
    requires Traced(inputs, id, accepted) && PendingAccepted(id, pending, accepted)
    requires forall input :: input in RecordIds(Records(inputs)) ==> input in PendingIds(pending)
    ensures TakenFrom(inputs, pending)
  {
    IdsOfPending(pending);
    forall k | 0 <= k < |inputs|
      ensures TakenOne(inputs[k], pending)
    {
      assert RecordIds(Records(inputs))[k] == inputs[k].id;
      assert inputs[k].id in RecordIds(Records(inputs));
      var p :| p in pending && p.id == inputs[k].id;
      assert TracedInput(inputs[k], id, accepted);
      assert accepted[p.id] == Acceptance(id, p.input);
    }
  }

  lemma AllModelBlocksNext(inputs: seq<PendingInput>, input: PendingInput)
    ensures AllModelBlocks(inputs + [input]) == AllModelBlocks(inputs) + ModelBlocks(input.input)
    ensures Records(inputs + [input]) == Records(inputs) + [Consumed(input)]
  {
    assert (inputs + [input])[..|inputs|] == inputs;
  }

  /**
   * The inputs behind each commit that this turn saved: all their blocks for the model, and nothing else, stand at its
   * front.
   */
  ghost predicate StartsWithInputs(log: seq<StoredEvent>, first: nat, sources: seq<seq<PendingInput>>) {
    && |log| == first + |sources|
    && forall i :: first <= i < |log| ==> StartsWith(log[i].event, sources[i - first])
  }

  ghost predicate StartsWith(event: SessionEvent, inputs: seq<PendingInput>) {
    && event.CommitEvent? && event.consumed == Records(inputs)
    && AllModelBlocks(inputs) <= event.commit.blocks
  }

  lemma NothingTraced(id: SessionId, accepted: map<nat, Acceptance>)
    ensures Traced([], id, accepted) && Distinct(RecordIds([]))
  {
  }

  lemma OneMoreTraced(sources: seq<seq<PendingInput>>, inputs: seq<PendingInput>, id: SessionId,
                      accepted: map<nat, Acceptance>)
    requires AllTraced(sources, id, accepted) && Traced(inputs, id, accepted)
    ensures AllTraced(sources + [inputs], id, accepted)
  {
    hide Traced;
  }

  /** A commit without blocks fits the records of inputs only when there are none. */
  lemma LostBlocksAreRefused(inputs: seq<PendingInput>, commit: Commit)
    ensures commit.blocks == [] ==> (ConsumedBlocksFit(commit, Records(inputs)) <==> inputs == [])
    ensures inputs == [] ==> RecordIds(Records(inputs)) == []
  {
    RecordsCountBlocks(inputs);
  }

  /** At the end of a log every call has its result, or the newest turn is open and only its last answer lacks some. */
  ghost predicate PairedAt(log: seq<StoredEvent>) {
    Resumable(ContextOf(log)) && (!TurnOf(log).OpenTurn? ==> Balanced(ContextOf(log)))
  }

  /** A process can stop behind any event of the log. */
  ghost predicate PairedLog(log: seq<StoredEvent>) {
    forall n :: 0 <= n <= |log| ==> PairedAt(log[..n])
  }

  /**
   * The callers of a turn keep the pairing of calls and results: its inputs are plain text and media, and no
   * replacement of the context cuts between a call and its result.
   */
  ghost predicate Keeps(first: seq<Block>, commits: seq<Commit>, sources: seq<seq<PendingInput>>) {
    && |commits| == |sources|
    && forall i :: 0 <= i < |commits| ==>
         && (sources[i] != [] ==> PlainInput(commits[i].blocks))
         && (commits[i].replaced.Some? ==> Balanced(Replay(first, commits[..i + 1])))
  }

  lemma KeepsLast(first: seq<Block>, commits: seq<Commit>, sources: seq<seq<PendingInput>>, commit: Commit,
                  inputs: seq<PendingInput>)
    requires Keeps(first, commits + [commit], sources + [inputs])
    ensures Keeps(first, commits, sources)
    ensures inputs != [] ==> PlainInput(commit.blocks)
    ensures commit.replaced.Some? ==> Balanced(Replay(first, commits + [commit]))
  {
    hide Balanced, PlainInput;
    var all := commits + [commit];
    assert all[..|commits| + 1] == all;
    assert (sources + [inputs])[|commits|] == inputs && all[|commits|] == commit;
    forall i | 0 <= i < |commits|
      ensures sources[i] != [] ==> PlainInput(commits[i].blocks)
      ensures commits[i].replaced.Some? ==> Balanced(Replay(first, commits[..i + 1]))
    {
      assert all[i] == commits[i] && (sources + [inputs])[i] == sources[i] && all[..i + 1] == commits[..i + 1];
    }
  }

  lemma PairedLogGrows(log: seq<StoredEvent>, event: StoredEvent)
    requires PairedLog(log) && PairedAt(log + [event])
    ensures PairedLog(log + [event])
  {
    hide PairedAt;
    var next := log + [event];
    forall n | 0 <= n <= |next|
      ensures PairedAt(next[..n])
    {
      if n <= |log| {
        assert next[..n] == log[..n];
      } else {
        assert next[..n] == next;
      }
    }
  }

  /** A log that replays to the live facts of a turn. */
  ghost predicate Replays(log: seq<StoredEvent>, context: seq<Block>, tokens: Option<nat>, settings: Settings) {
    ContextOf(log) == context && TokensOf(log) == tokens && SettingsOf(log) == Some(settings)
  }

  /**
   * What a turn made of the log `before`: it added the commits that it saved, each one behind its inputs, and the log
   * replays to the facts that those commits give.
   */
  ghost predicate GrewBy(log: seq<StoredEvent>, before: seq<StoredEvent>, settings: Settings,
                         saved: seq<Commit>, sources: seq<seq<PendingInput>>)
  {
    && before <= log && |saved| == |sources|
    && StartsWithInputs(log, |before|, sources)
    && Replays(log, Replay(ContextOf(before), saved), ReplayTokens(TokensOf(before), saved), settings)
    && (if saved == [] then log == before else TurnOf(log) == TurnAfter(saved))
  }

  /** A store that accepts a commit found its input blocks in it, so it refuses a commit without them. */
  lemma GrewByOne(log: seq<StoredEvent>, before: seq<StoredEvent>, settings: Settings, saved: seq<Commit>,
                  sources: seq<seq<PendingInput>>, commit: Commit, lent: Commit, inputs: seq<PendingInput>)
    requires GrewBy(log, before, settings, saved, sources) && lent == commit.(calls := [])
    requires ConsumedBlocksFit(commit, Records(inputs))
    requires inputs == [] || commit.blocks == [] || commit.blocks == AllModelBlocks(inputs)
    ensures var next := log + [StoredEvent(|log| + 1, CommitEvent(commit, Records(inputs)))];
      && GrewBy(next, before, settings, saved + [lent], sources + [inputs])
      && TokensOf(next) == TokensAfter(commit, TokensOf(log))
  {
    hide StartsWithInputs;
    var next := log + [StoredEvent(|log| + 1, CommitEvent(commit, Records(inputs)))];
    assert next[..|log|] == log;
    assert (saved + [lent])[..|saved|] == saved;
    SavedStarts(log, next, |before|, sources, commit, inputs);
  }

  /** The updates of the commits behind the first `first` events of a log. */
  function SavedOf(log: seq<StoredEvent>, first: nat): seq<Update> {
    if |log| <= first then []
    else
      var last := log[|log| - 1];
      SavedOf(log[..|log| - 1], first)
        + match last.event
          case CommitEvent(commit, _) => [Update.Saved(last.number, commit)]
          case SettingsEvent(_) => []
  }

  lemma SavedOfNext(log: seq<StoredEvent>, first: nat, event: StoredEvent)
    requires first <= |log| && event.event.CommitEvent?
    ensures SavedOf(log + [event], first) == SavedOf(log, first) + [Update.Saved(event.number, event.event.commit)]
  {
    assert (log + [event])[..|log|] == log;
  }

  lemma SavedOnlyCommitted(trace: seq<Update>, r: Reader, stage: Stage, event: nat, commit: Commit)
    ensures SavedOnly(trace + CommitUpdates(r, stage, event, commit))
         == SavedOnly(trace) + [Update.Saved(event, commit)]
  {
    var saved := trace + [Update.Saved(event, commit)];
    SavedOnlyNext(trace, Update.Saved(event, commit));
    if r.open.Some? {
      var close := DraftCommitted(r.open.value, event, FinalIds(stage, r.parts));
      SavedOnlyNext(saved, close);
      assert trace + CommitUpdates(r, stage, event, commit) == saved + [close];
    } else {
      assert trace + CommitUpdates(r, stage, event, commit) == saved;
    }
  }

  lemma BeforeFits(log: seq<StoredEvent>, before: seq<StoredEvent>, settings: Settings, saved: seq<Commit>,
                   sources: seq<seq<PendingInput>>)
    requires GrewBy(log, before, settings, saved, sources)
    ensures before <= log
  {
  }

  lemma SavedStarts(log: seq<StoredEvent>, next: seq<StoredEvent>, first: nat, sources: seq<seq<PendingInput>>,
                    commit: Commit, inputs: seq<PendingInput>)
    requires StartsWithInputs(log, first, sources)
    requires next == log + [StoredEvent(|log| + 1, CommitEvent(commit, Records(inputs)))]
    requires ConsumedBlocksFit(commit, Records(inputs))
    requires inputs == [] || commit.blocks == [] || commit.blocks == AllModelBlocks(inputs)
    ensures StartsWithInputs(next, first, sources + [inputs])
  {
    RecordsCountBlocks(inputs);
  }

  class Journal {
    const store: MemoryStore
    const id: SessionId
    const publisher: Publisher
    /** What the turn took since its last save. The store does not know of it, and still lists these inputs. */
    var taken: seq<ConsumedInput>
    /** The token count of the log, as far as confirmed saves show it. */
    var inputTokens: Option<nat>

    /** The inputs behind `taken`. */
    ghost var inputs: seq<PendingInput>
    /** The facts at the start of the turn, and the commits that the store saved since, as the turn gave them. */
    ghost const settings: Settings
    ghost const before: seq<StoredEvent>
    ghost var saved: seq<Commit>
    ghost var sources: seq<seq<PendingInput>>
    /** A take failed behind inputs, so no commit can hold their blocks any more. */
    ghost var lost: bool

    /** The events of the session in the store. */
    ghost function Log(): seq<StoredEvent>
      reads store
    {
      if id in store.sessions then store.sessions[id].events else []
    }

    ghost function Pending(): seq<PendingInput>
      reads store
    {
      if id in store.sessions then store.sessions[id].pending else []
    }

    /** The session exists, this turn owns its events, and the store and the updates are in order. */
    ghost predicate Owned()
      requires id in store.sessions
      reads this`saved, this`sources, store, publisher
    {
      && store.Valid() && id in store.writers
      && publisher.Valid() && !publisher.reader.over
      && (publisher.reader.last.Some? ==> publisher.reader.last.value.event <= |Log()|)
      && GrewBy(Log(), before, settings, saved, sources)
      && SavedOnly(publisher.trace) <= SavedOf(Log(), |before|)
      && AllTraced(sources, id, store.accepted)
    }

    ghost predicate Valid()
      reads this, store, publisher
    {
      id in store.sessions && Owned() && taken == Records(inputs) && inputTokens == TokensOf(Log())
      && SavedOnly(publisher.trace) == SavedOf(Log(), |before|)
      && Traced(inputs, id, store.accepted) && Distinct(RecordIds(taken))
    }

    constructor (store: MemoryStore, id: SessionId, publisher: Publisher, inputTokens: Option<nat>, settings: Settings)
      requires store.Valid() && id in store.writers && id in store.sessions
      requires publisher.Valid() && publisher.reader == NEW_READER && publisher.trace == []
      requires inputTokens == TokensOf(store.sessions[id].events)
      requires SettingsOf(store.sessions[id].events) == Some(settings)
      ensures this.store == store && this.id == id && this.publisher == publisher && this.settings == settings
      ensures Valid() && inputs == [] && saved == [] && sources == [] && before == Log() && !lost
    {
      this.store, this.id, this.publisher := store, id, publisher;
      taken, this.inputTokens := [], inputTokens;
      inputs, saved, sources, this.settings, before := [], [], [], settings, store.sessions[id].events;
      lost := false;
    }

    /**
     * Save a commit together with everything the turn took. Whatever comes of the write, the turn forgets what it took
     * before it. `lent` is the same commit before the displays of its calls joined it.
     */
    method Commit(commit: Commit, ghost lent: Commit) returns (confirmation: Confirmation)
      requires Valid()
      requires lent == commit.(calls := [])
      requires inputs == [] || commit.blocks == [] || commit.blocks == AllModelBlocks(inputs)
      requires DraftReady(publisher.reader, publisher.stage, commit.blocks)
      modifies store, publisher, this`taken, this`inputs, this`inputTokens, this`saved, this`sources
      ensures id in store.sessions && Owned() && taken == [] && inputs == []
      ensures saved == old(saved) || saved == old(saved) + [lent]
      ensures saved == old(saved) ==> sources == old(sources) && Log() == old(Log())
      ensures saved != old(saved) ==>
        && sources == old(sources) + [old(inputs)]
        && Log() == old(Log()) + [StoredEvent(|old(Log())| + 1, CommitEvent(commit, Records(old(inputs))))]
      ensures confirmation.Confirmed? ==>
        && Valid() && saved == old(saved) + [lent]
        && publisher.over == commit.end.Some?
        && publisher.reader == AfterCommit(old(publisher.reader), |Log()|, commit)
        && publisher.trace == old(publisher.trace)
             + CommitUpdates(old(publisher.reader), old(publisher.stage), |Log()|, commit)
      ensures !confirmation.Confirmed? ==>
        publisher.trace == old(publisher.trace) && publisher.over == old(publisher.over)
      ensures commit.blocks == [] && old(inputs) != [] ==> !confirmation.Confirmed? && saved == old(saved)
    {
      hide Owned, SavedOnly, SavedOf, Records, DraftReady, CommitUpdates, AfterCommit, Traced, TakenFrom, PendingMoved;
      OwnedLast();
      ghost var tookInputs := inputs;
      var consumed := taken;
      Wait();
      taken, inputs := [], [];
      assert Records([]) == [];
      NothingTraced(id, store.accepted);
      var lost: Confirmation := *;
      if * {
        return if lost.SaveDropped? then SaveDropped else SaveFailed;
      }
      var result := Save(commit, lent, consumed, tookInputs);
      if result.Err? {
        return SaveFailed;
      }
      confirmation := AwaitSaved(result.value, commit);
    }

    /** Wait for the answer about a saved commit. A save can fail behind it, and the turn can be dropped. */
    method AwaitSaved(event: nat, commit: Commit) returns (confirmation: Confirmation)
      requires id in store.sessions && Owned() && event == |Log()|
      requires SavedOf(Log(), |before|) == SavedOnly(publisher.trace) + [Update.Saved(event, commit)]
      requires publisher.reader.last.Some? ==> publisher.reader.last.value.event < event
      requires DraftReady(publisher.reader, publisher.stage, commit.blocks)
      requires taken == [] && inputs == [] && TokensOf(Log()) == TokensAfter(commit, inputTokens)
      modifies store, publisher, this`inputTokens
      ensures id in store.sessions && Owned() && Log() == old(Log())
      ensures confirmation.Confirmed? ==>
        && Valid() && publisher.over == commit.end.Some?
        && publisher.trace == old(publisher.trace)
             + CommitUpdates(old(publisher.reader), old(publisher.stage), event, commit)
        && publisher.reader == AfterCommit(old(publisher.reader), event, commit)
      ensures !confirmation.Confirmed? ==>
        publisher.trace == old(publisher.trace) && publisher.over == old(publisher.over)
    {
      hide Owned, SavedOnly, SavedOf, DraftReady, CommitUpdates, AfterCommit, Traced, PendingMoved, AcceptedGrew;
      Wait();
      var lost: Confirmation := *;
      if * {
        return if lost.SaveDropped? then SaveDropped else SaveFailed;
      }
      NothingTraced(id, store.accepted);
      Confirm(event, commit);
      return Confirmed;
    }

    /** Take over the facts of a saved commit, and publish it. */
    method Confirm(event: nat, commit: Commit)
      requires id in store.sessions && Owned() && event == |Log()|
      requires SavedOf(Log(), |before|) == SavedOnly(publisher.trace) + [Update.Saved(event, commit)]
      requires publisher.reader.last.Some? ==> publisher.reader.last.value.event < event
      requires DraftReady(publisher.reader, publisher.stage, commit.blocks)
      requires taken == [] && inputs == [] && TokensOf(Log()) == TokensAfter(commit, inputTokens)
      requires Traced(inputs, id, store.accepted) && Distinct(RecordIds(taken))
      modifies publisher, this`inputTokens
      ensures Valid() && publisher.over == commit.end.Some?
      ensures publisher.trace == old(publisher.trace)
        + CommitUpdates(old(publisher.reader), old(publisher.stage), event, commit)
      ensures publisher.reader == AfterCommit(old(publisher.reader), event, commit)
    {
      hide Owned, SavedOnly, SavedOf, DraftReady, CommitUpdates, AfterCommit, Traced;
      if commit.answer.Some? {
        inputTokens := commit.answer.value.input;
      } else if commit.replaced.Some? {
        inputTokens := None;
      }
      Publish(event, commit);
    }

    /** Wait while other clients use the store. What the store accepted stays known. */
    method Wait()
      requires id in store.sessions && Owned()
      modifies store
      ensures id in store.sessions && Owned() == old(Owned()) && Log() == old(Log())
      ensures store.newestInput >= old(store.newestInput) && AcceptedGrew(old(store.accepted), store.accepted)
      ensures PendingMoved(old(Pending()), Pending(), old(store.newestInput))
      ensures old(Traced(inputs, id, store.accepted)) ==> Traced(inputs, id, store.accepted)
    {
      hide SessionOk, WritesOrdered, Grew, GrewBy, ReadAll, PendingMoved, Remembers, KeepsOut, AcceptedGrew, EverGrew,
        AllTraced, Traced;
      ghost var accepted := store.accepted;
      OtherClients(store, {id});
      TracedLater(inputs, sources, [], id, accepted, store.accepted);
    }

    /** The write of a commit. The store refuses it when a taken input is no longer pending, or its blocks are lost. */
    method Save(commit: Commit, ghost lent: Commit, consumed: seq<ConsumedInput>, ghost inputs: seq<PendingInput>)
        returns (result: Result<nat>)
      requires id in store.sessions && Owned() && lent == commit.(calls := []) && consumed == Records(inputs)
      requires inputs == [] || commit.blocks == [] || commit.blocks == AllModelBlocks(inputs)
      requires Traced(inputs, id, store.accepted)
      modifies store, this`saved, this`sources
      ensures id in store.sessions && Owned()
      ensures result.Ok? ==> TakenFrom(inputs, old(Pending()))
      ensures commit.blocks == [] ==> (result.Ok? <==> inputs == [])
      ensures result.Err? ==> saved == old(saved) && sources == old(sources) && Log() == old(Log())
      ensures result.Ok? ==>
        && saved == old(saved) + [lent] && sources == old(sources) + [inputs]
        && Log() == old(Log()) + [StoredEvent(|old(Log())| + 1, CommitEvent(commit, consumed))]
        && TokensOf(Log()) == TokensAfter(commit, TokensOf(old(Log())))
        && result.value == |Log()|
        && SavedOf(Log(), |before|) == SavedOf(old(Log()), |before|) + [Update.Saved(result.value, commit)]
    {
      hide SessionOk, WritesOrdered, ReadAll, GrewBy, AllModelBlocks, ConsumedBlocksFit, SavedOnly, SavedOf, Remembers,
        KeepsOut, Traced, TakenFrom, AllTraced, EverGrew;
      ghost var log := Log();
      LostBlocksAreRefused(inputs, commit);
      PendingWasAccepted();
      if forall input :: input in RecordIds(consumed) ==> input in PendingIds(Pending()) {
        TracedArePending(inputs, id, store.accepted, Pending());
      }
      result := store.SaveCommit(id, commit, consumed);
      if result.Ok? {
        assert Log() == log + [StoredEvent(|log| + 1, CommitEvent(commit, consumed))];
        GrewByOne(log, before, settings, saved, sources, commit, lent, inputs);
        BeforeFits(log, before, settings, saved, sources);
        SavedOfNext(log, |before|, StoredEvent(|log| + 1, CommitEvent(commit, consumed)));
        OneMoreTraced(sources, inputs, id, store.accepted);
        saved := saved + [lent];
        sources := sources + [inputs];
      }
    }

    lemma PendingWasAccepted()
      requires store.Valid() && id in store.sessions
      ensures PendingAccepted(id, Pending(), store.accepted)
    {
      hide SessionOk, WritesOrdered;
    }

    lemma OwnedLast()
      requires id in store.sessions && Owned()
      ensures publisher.Valid() && !publisher.reader.over
      ensures publisher.reader.last.Some? ==> publisher.reader.last.value.event <= |Log()|
    {
    }

    /** Publish the newest event of the log. */
    method Publish(event: nat, commit: Commit)
      requires id in store.sessions && Owned() && event == |Log()|
      requires SavedOf(Log(), |before|) == SavedOnly(publisher.trace) + [Update.Saved(event, commit)]
      requires publisher.reader.last.Some? ==> publisher.reader.last.value.event < event
      requires DraftReady(publisher.reader, publisher.stage, commit.blocks)
      modifies publisher
      ensures Owned() && publisher.over == commit.end.Some?
      ensures SavedOnly(publisher.trace) == SavedOf(Log(), |before|)
      ensures publisher.trace == old(publisher.trace)
        + CommitUpdates(old(publisher.reader), old(publisher.stage), event, commit)
      ensures publisher.reader == AfterCommit(old(publisher.reader), event, commit)
    {
      hide SessionOk, WritesOrdered, ReadAll, GrewBy, DraftReady, CommitUpdates, SavedOnly, SavedOf, Dated;
      SavedOnlyCommitted(publisher.trace, publisher.reader, publisher.stage, event, commit);
      publisher.Committed(event, commit);
    }

    /**
     * Read the pending inputs, and take the ones that are new to the turn, in the order of the store. The result holds
     * their model blocks. Behind a take, every input that the store accepted before it is taken, or no longer pending.
     * A failure keeps the records that it took before, and their blocks are lost.
     */
    method Take() returns (result: Taken)
      requires Valid()
      modifies this`taken, this`inputs, this`lost, store
      ensures Valid() && Log() == old(Log()) && store.newestInput >= old(store.newestInput)
      ensures old(inputs) <= inputs && Ascending(Added(RecordIds(old(taken)), RecordIds(taken)))
      ensures AcceptedGrew(old(store.accepted), store.accepted)
      ensures lost == (old(lost) || (result.TakeFailed? && inputs != []))
      ensures result.Took? ==> AllModelBlocks(inputs) == AllModelBlocks(old(inputs)) + result.blocks
      ensures result.Took? && result.blocks == [] ==> inputs == old(inputs)
      ensures result.Took? ==> forall p :: p in Pending() && p.id <= old(store.newestInput) ==> p.id in RecordIds(taken)
    {
      hide Owned, AllModelBlocks, ModelBlocks, Consumed, TookFrom, PendingMoved, Traced, PendingAccepted, AcceptedGrew;
      ghost var ids, accepted := RecordIds(taken), store.accepted;
      TookNothing(ids);
      Wait();
      if * {
        return TakeDropped;
      }
      if * {
        lost := lost || inputs != [];
        return TakeFailed;
      }
      var pending := PendingNow();
      TookStarts(pending, ids);
      StaysPut(pending, store.newestInput);
      ghost var later := store.accepted;
      result := TakeAll(pending, ids, store.newestInput);
      AcceptedGrewTwice(accepted, later, store.accepted);
    }

    /** Take the inputs of a list that the store gave, one by one. */
    method TakeAll(pending: seq<PendingInput>, ghost ids: seq<nat>, ghost newest: nat) returns (result: Taken)
      requires Valid() && PendingAccepted(id, pending, store.accepted) && pending == Pending()
      requires TookFrom(pending, 0, ids, RecordIds(taken), Pending()) && newest <= store.newestInput
      requires forall p :: p in pending ==> p.id <= newest
      modifies this`taken, this`inputs, this`lost, store
      ensures Valid() && Log() == old(Log()) && old(inputs) <= inputs && Ascending(Added(ids, RecordIds(taken)))
      ensures AcceptedGrew(old(store.accepted), store.accepted) && store.newestInput >= old(store.newestInput)
      ensures lost == (old(lost) || (result.TakeFailed? && inputs != []))
      ensures result.Took? ==> AllModelBlocks(inputs) == AllModelBlocks(old(inputs)) + result.blocks
      ensures result.Took? && result.blocks == [] ==> inputs == old(inputs)
      ensures result.Took? ==> forall p :: p in Pending() && p.id <= newest ==> p.id in RecordIds(taken)
    {
      hide Owned, AllModelBlocks, ModelBlocks, Consumed, TookFrom, PendingMoved, Traced, PendingAccepted, Decided,
        Ascending, Distinct, Records, RecordIds, AcceptedGrew;
      SameAccepted(store.accepted);
      StaysPut(pending, newest);
      var blocks: seq<Block> := [];
      assert AllModelBlocks(inputs) + [] == AllModelBlocks(inputs);
      var i := 0;
      while i < |pending|
        invariant 0 <= i <= |pending|
        invariant Valid() && Log() == old(Log()) && lost == old(lost)
        invariant old(inputs) <= inputs && PendingAccepted(id, pending, store.accepted)
        invariant AcceptedGrew(old(store.accepted), store.accepted) && store.newestInput >= old(store.newestInput)
        invariant AllModelBlocks(inputs) == AllModelBlocks(old(inputs)) + blocks
        invariant blocks == [] ==> inputs == old(inputs)
        invariant store.newestInput >= newest && PendingMoved(pending, Pending(), newest)
        invariant TookFrom(pending, i, ids, RecordIds(taken), Pending())
      {
        var ended, more;
        ghost var decision;
        ghost var later := store.accepted;
        ended, more, decision := TakeNext(pending, i, ids, newest);
        AcceptedGrewTwice(old(store.accepted), later, store.accepted);
        AllModelBlocksJoin(AllModelBlocks(old(inputs)), blocks, more);
        if ended.Some? {
          lost := lost || (ended.value.TakeFailed? && inputs != []);
          return ended.value;
        }
        blocks := blocks + more;
        i := i + 1;
      }
      TookEverything(pending, ids, RecordIds(taken), Pending(), newest);
      return Took(blocks);
    }

    /**
     * Take one pending input, unless the turn took it before. What it takes is the accepted input as the hook decided,
     * and a note as it is.
     */
    method TakeNext(pending: seq<PendingInput>, i: nat, ghost first: seq<nat>, ghost newest: nat)
        returns (ended: Option<Taken>, more: seq<Block>, ghost decision: InputDecision)
      requires Valid() && i < |pending| && TookFrom(pending, i, first, RecordIds(taken), Pending())
      requires newest <= store.newestInput && PendingMoved(pending, Pending(), newest)
      requires PendingAccepted(id, pending, store.accepted) && forall p :: p in pending ==> p.id <= newest
      modifies this`taken, this`inputs, store
      ensures Valid() && Log() == old(Log()) && PendingAccepted(id, pending, store.accepted)
      ensures AcceptedGrew(old(store.accepted), store.accepted) && store.newestInput >= old(store.newestInput)
      ensures inputs != old(inputs) ==>
        && pending[i].id !in RecordIds(old(taken)) && Decided(pending[i], decision).Some?
        && inputs == old(inputs) + [Decided(pending[i], decision).value]
      ensures pending[i].input.plugin == Some(SESSION_SOURCE) ==> decision.Keep?
      ensures AllModelBlocks(inputs) == AllModelBlocks(old(inputs)) + more && (more == [] ==> inputs == old(inputs))
      ensures ended.Some? ==> !ended.value.Took? && Ascending(Added(first, RecordIds(taken))) && inputs == old(inputs)
      ensures ended.None? ==>
        && newest <= store.newestInput && PendingMoved(pending, Pending(), newest)
        && TookFrom(pending, i + 1, first, RecordIds(taken), Pending())
    {
      hide Owned, AllModelBlocks, ModelBlocks, Consumed, TookFrom, PendingMoved, Traced, PendingAccepted, Decided,
        AcceptedGrew;
      more, decision := [], Keep;
      SameAccepted(store.accepted);
      assert AllModelBlocks(inputs) + [] == AllModelBlocks(inputs);
      if pending[i].id in RecordIds(taken) {
        TookNone(pending, i, first, RecordIds(taken), Pending());
        return None, more, decision;
      }
      ghost var before, later, accepted := Pending(), store.newestInput, store.accepted;
      assert pending[i] in pending;
      var one;
      one, decision := Check(pending[i]);
      TracedLater([], [], pending, id, accepted, store.accepted);
      TookLater(pending, i, first, RecordIds(taken), before, Pending(), newest, later);
      TookAscends(pending, i, first, RecordIds(taken), Pending());
      match one
      case CheckFailed =>
        return Some(TakeFailed), more, decision;
      case CheckDropped =>
        return Some(TakeDropped), more, decision;
      case Skips =>
        TookNone(pending, i, first, RecordIds(taken), Pending());
        return None, more, decision;
      case Passes(input) =>
        AllModelBlocksNext(inputs, input);
        TookOne(pending, i, first, taken, Consumed(input), Pending());
        DecidedIsTraced(inputs, pending, i, decision, id, store.accepted);
        OneMoreTaken(taken, Consumed(input));
        inputs := inputs + [input];
        taken := taken + [Consumed(input)];
        return None, ModelBlocks(input.input), decision;
    }

    method PendingNow() returns (pending: seq<PendingInput>)
      requires id in store.sessions && Owned()
      ensures pending == store.sessions[id].pending && PendingAccepted(id, pending, store.accepted)
      ensures Ascending(PendingIds(pending)) && forall p :: p in pending ==> p.id <= store.newestInput
    {
      hide WritesOrdered, GrewBy, ReadAll, AllTraced;
      pending := store.sessions[id].pending;
      KnownIds(store.sessions[id], store.newestInput);
    }

    /** Let the hook decide about one input. A note of the session needs no decision. Any read of the store can fail. */
    method Check(input: PendingInput) returns (checked: Checked, ghost decided: InputDecision)
      requires Valid() && input.id <= store.newestInput
      modifies store
      ensures Valid() && Log() == old(Log())
      ensures store.newestInput >= old(store.newestInput) && AcceptedGrew(old(store.accepted), store.accepted)
      ensures PendingMoved(old(Pending()), Pending(), old(store.newestInput))
      ensures checked.Passes? ==>
        Decided(input, decided) == Some(checked.input) && input.id in PendingIds(Pending())
      ensures input.input.plugin == Some(SESSION_SOURCE) ==> decided.Keep?
      ensures checked.Skips? ==> input !in Pending()
    {
      hide Owned, PendingMoved, Traced, PendingAccepted, AcceptedGrew;
      var decision := Keep;
      decided := decision;
      StaysPut(Pending(), store.newestInput);
      SameAccepted(store.accepted);
      ghost var before, newest, accepted := Pending(), store.newestInput, store.accepted;
      if input.input.plugin != Some(SESSION_SOURCE) {
        decision := *;
        decided := decision;
        Wait();
        if * {
          return CheckDropped, decided;
        }
      }
      if decision.HookFailed? {
        return CheckFailed, decided;
      }
      ghost var now, later, known := Pending(), store.newestInput, store.accepted;
      if decision.Remove? {
        checked := RemoveOne(input);
        PendingMovedTwice(before, now, Pending(), newest, later);
        AcceptedGrewTwice(accepted, known, store.accepted);
        return checked, decided;
      }
      // The store is read again, because another client can have removed the input during the hook.
      Wait();
      PendingMovedTwice(before, now, Pending(), newest, later);
      AcceptedGrewTwice(accepted, known, store.accepted);
      if * {
        return CheckDropped, decided;
      }
      if * {
        return CheckFailed, decided;
      }
      var current := PendingNow();
      IdsOfPending(current);
      if input.id !in PendingIds(current) {
        return Skips, decided;
      }
      var taken := Decided(input, decision);
      return if taken.Some? then Passes(taken.value) else CheckFailed, decided;
    }

    /** Save a note of the session as a pending input. The save can fail behind it too. */
    method Accept(note: Input) returns (failed: bool, ghost noted: Option<nat>)
      requires Valid()
      modifies store
      ensures Valid() && Log() == old(Log()) && store.newestInput >= old(store.newestInput)
      ensures noted.Some? ==>
        && noted.value > old(store.newestInput) && noted.value == store.newestInput
        && noted.value in store.accepted && store.accepted[noted.value] == Acceptance(id, note)
      ensures !failed ==> noted.Some?
    {
      hide SessionOk, WritesOrdered, ReadAll, GrewBy, PendingMoved, Remembers, KeepsOut, Traced, AllTraced;
      Wait();
      if * {
        return true, None;
      }
      ghost var accepted := store.accepted;
      var _ := store.AcceptInput(id, note);
      TracedLater(inputs, sources, [], id, accepted, store.accepted);
      noted := Some(store.newestInput);
      failed := *;
    }

    /** Remove an input that the hook does not want. Whether another client removed it before makes no difference. */
    method RemoveOne(input: PendingInput) returns (checked: Checked)
      requires Valid() && input.id <= store.newestInput
      modifies store
      ensures Valid() && Log() == old(Log()) && !checked.Passes?
      ensures store.newestInput >= old(store.newestInput) && AcceptedGrew(old(store.accepted), store.accepted)
      ensures PendingMoved(old(Pending()), Pending(), old(store.newestInput))
      ensures checked.Skips? ==> input !in Pending()
    {
      hide SessionOk, WritesOrdered, ReadAll, GrewBy, Remembers, KeepsOut, Traced, AllTraced, PendingAccepted,
        AcceptedGrew;
      ghost var accepted := store.accepted;
      var dropped := *;
      Wait();
      ghost var known := store.accepted;
      RemainingKeeps(Pending(), [input.id]);
      IdsOfPending(Pending());
      var result := store.RemoveInput(id, input.id);
      if result.Err? && !result.error.InputNotPending? {
        return CheckFailed;
      }
      assert input !in Pending();
      Wait();
      AcceptedGrewTwice(accepted, known, store.accepted);
      var failed := *;
      return if dropped then CheckDropped else if failed then CheckFailed else Skips;
    }
  }

  /** A session with an open turn, and two inputs that came during it, the first one with the smaller id. */
  method TwoInputsDuringATurn(settings: Settings, input: Input)
      returns (store: MemoryStore, id: SessionId, first: PendingInput, second: PendingInput)
    ensures fresh(store) && store.Valid() && id in store.sessions && TurnOf(store.sessions[id].events).OpenTurn?
    ensures store.sessions[id].pending == [first, second] && first.input == second.input == input
    ensures first.id < second.id <= store.newestInput
  {
    hide SessionOk, WritesOrdered, Remembers, KeepsOut, EverGrew, AcceptedGrew, SettingsOf, ContextOf;
    store := new MemoryStore();
    var session := store.CreateSession(settings, None);
    id := session.id;
    assert RecordIds([]) == [];
    var _ := store.SaveCommit(id, CommitOf([UserText("start")]), []);
    var one := store.AcceptInput(id, input);
    var two := store.AcceptInput(id, input);
    first, second := PendingInput(one.value, input), PendingInput(two.value, input);
  }

  /**
   * An input of the failing family. The hook keeps the first of two new inputs, and fails on the second. The end of
   * the turn has no blocks, so the store refuses it with the record of the first input, and the turn stays open.
   * Without the record the store saves the same end.
   */
  method FailedTakeWitness(settings: Settings, error: string)
      returns (refused: Result<nat>, without: Result<nat>, ghost between: NewestTurn, ghost ended: NewestTurn)
    ensures refused == Err(InputBlocksExceedCommit) && between.OpenTurn?
    ensures without.Ok? && ended == EndedTurn(TurnEnd.Failed(error))
  {
    hide SessionOk, WritesOrdered, Remembers, KeepsOut, EverGrew, AcceptedGrew, SettingsOf, ContextOf;
    var store, id, first, second := TwoInputsDuringATurn(settings, InputFields(None, [UserText("more")], None));
    var kept, failing := Decided(first, Keep), Decided(second, HookFailed);
    assert failing.None?;
    var end := CommitOf([]).(end := Some(TurnEnd.Failed(error)));
    LostBlocksAreRefused([kept.value], end);
    refused := store.SaveCommit(id, end, Records([kept.value]));
    between := TurnOf(store.sessions[id].events);
    LostBlocksAreRefused([], end);
    without := store.SaveCommit(id, end, Records([]));
    ended := TurnOf(store.sessions[id].events);
  }

  // The taken inputs of one take.

  lemma DecidedIsTraced(inputs: seq<PendingInput>, pending: seq<PendingInput>, i: nat, decision: InputDecision,
                        id: SessionId, accepted: map<nat, Acceptance>)
    requires Traced(inputs, id, accepted) && PendingAccepted(id, pending, accepted) && i < |pending|
    requires Decided(pending[i], decision).Some?
    requires pending[i].input.plugin == Some(SESSION_SOURCE) ==> decision.Keep?
    ensures Traced(inputs + [Decided(pending[i], decision).value], id, accepted)
  {
    hide Decided, ComesFrom;
    assert pending[i] in pending;
    DecidedComesFrom(pending[i], decision);
  }

  lemma OneMoreTaken(taken: seq<ConsumedInput>, record: ConsumedInput)
    requires Distinct(RecordIds(taken)) && record.id !in RecordIds(taken)
    ensures Distinct(RecordIds(taken + [record]))
  {
    assert RecordIds(taken + [record]) == RecordIds(taken) + [record.id];
    assert forall k :: 0 <= k < |taken| ==> RecordIds(taken)[k] in RecordIds(taken);
  }

  lemma AllModelBlocksJoin(first: seq<Block>, blocks: seq<Block>, more: seq<Block>)
    ensures first + blocks + more == first + (blocks + more)
  {
  }

  /** The ids behind the first ones. */
  function Added(first: seq<nat>, ids: seq<nat>): seq<nat> {
    if |first| <= |ids| then ids[|first|..] else []
  }

  /**
   * How far a take came that read `pending`: the inputs before `i` are taken or no longer pending, and the new ids
   * ascend below the ids that come.
   */
  ghost predicate TookFrom(pending: seq<PendingInput>, i: nat, first: seq<nat>, ids: seq<nat>, now: seq<PendingInput>) {
    && i <= |pending| && first <= ids && Ascending(PendingIds(pending))
    && (forall k :: 0 <= k < i && pending[k] in now ==> pending[k].id in ids)
    && Ascending(Added(first, ids))
    && (forall x, k :: x in Added(first, ids) && i <= k < |pending| ==> x < pending[k].id)
  }

  lemma TookNothing(first: seq<nat>)
    ensures Added(first, first) == [] && Ascending(Added(first, first))
  {
  }

  lemma TookStarts(pending: seq<PendingInput>, first: seq<nat>)
    requires Ascending(PendingIds(pending))
    ensures TookFrom(pending, 0, first, first, pending)
  {
  }

  lemma StaysPut(pending: seq<PendingInput>, newestInput: nat)
    ensures PendingMoved(pending, pending, newestInput)
  {
  }

  lemma TookLater(pending: seq<PendingInput>, i: nat, first: seq<nat>, ids: seq<nat>, before: seq<PendingInput>,
                  now: seq<PendingInput>, newestInput: nat, later: nat)
    requires TookFrom(pending, i, first, ids, before) && PendingMoved(pending, before, newestInput)
    requires PendingMoved(before, now, later) && newestInput <= later
    requires forall p :: p in pending ==> p.id <= newestInput
    ensures TookFrom(pending, i, first, ids, now) && PendingMoved(pending, now, newestInput)
  {
  }

  lemma TookAscends(pending: seq<PendingInput>, i: nat, first: seq<nat>, ids: seq<nat>, now: seq<PendingInput>)
    requires TookFrom(pending, i, first, ids, now)
    ensures Ascending(Added(first, ids))
  {
  }

  lemma TookNone(pending: seq<PendingInput>, i: nat, first: seq<nat>, ids: seq<nat>, now: seq<PendingInput>)
    requires i < |pending| && TookFrom(pending, i, first, ids, now)
    requires pending[i] in now ==> pending[i].id in ids
    ensures TookFrom(pending, i + 1, first, ids, now)
  {
  }

  lemma TookOne(pending: seq<PendingInput>, i: nat, first: seq<nat>, taken: seq<ConsumedInput>, record: ConsumedInput,
                now: seq<PendingInput>)
    requires i < |pending| && TookFrom(pending, i, first, RecordIds(taken), now) && record.id == pending[i].id
    ensures TookFrom(pending, i + 1, first, RecordIds(taken + [record]), now)
  {
    var ids := RecordIds(taken);
    assert RecordIds(taken + [record]) == ids + [record.id];
    assert Added(first, ids + [record.id]) == Added(first, ids) + [record.id];
    assert forall k :: 0 <= k < |pending| ==> PendingIds(pending)[k] == pending[k].id;
    assert forall k :: 0 <= k < |Added(first, ids)| ==> Added(first, ids)[k] in Added(first, ids);
  }

  lemma TookEverything(pending: seq<PendingInput>, first: seq<nat>, ids: seq<nat>, now: seq<PendingInput>,
                       newestInput: nat)
    requires TookFrom(pending, |pending|, first, ids, now) && PendingMoved(pending, now, newestInput)
    ensures Ascending(Added(first, ids))
    ensures forall p :: p in now && p.id <= newestInput ==> p.id in ids
  {
  }

  lemma KnownIds(saved: Saved, newestInput: nat)
    requires SessionOk(saved, newestInput)
    ensures Ascending(PendingIds(saved.pending)) && forall p :: p in saved.pending ==> p.id <= newestInput
  {
    IdsOfPending(saved.pending);
    var consumed, ids := ConsumedIds(saved.events), PendingIds(saved.pending);
    assert forall k :: 0 <= k < |ids| ==> ids[k] == InputIds(saved)[|consumed| + k];
    assert forall id :: id in ids ==> id in InputIds(saved);
  }

  /** The newest turn after commits of a turn. */
  function TurnAfter(saved: seq<Commit>): NewestTurn
    requires saved != []
  {
    var commit := saved[|saved| - 1];
    if commit.end.Some? then EndedTurn(commit.end.value) else OpenTurn
  }
}
