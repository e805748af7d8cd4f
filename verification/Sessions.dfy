/**
 * The session of one writer (crates/agent/src/session.rs), with its memory beside the log of the store. Only a
 * confirmed write leaves both in agreement. Any other write costs the session its lease, until it reads the log
 * again.
 */
module Sessions {
  import opened Options
  import opened Blocks
  import opened Commits
  import opened TurnStates
  import opened Updates
  import opened Stores
  import opened Clients
  import opened Journals
  import opened Retries
  import opened Toolsets
  import opened Turns

  const OUTCOME_UNKNOWN := "The turn stopped before it saved the result of this call. The call can have run."
  const TURN_STOPPED := "the turn stopped before it saved its end"

  const CLOSING_TAG := "</system_notification>"
  const OPEN_TAG := "</ system_notification>"

  /** `text` with a space in each closing tag, which would end a notice early. */
  function Defused(text: string): string
    decreases |text|
  {
    if text == "" then ""
    else if CLOSING_TAG <= text then OPEN_TAG + Defused(text[|CLOSING_TAG|..])
    else [text[0]] + Defused(text[1..])
  }

  /** A note of the session: what a user sees, and what the model reads in a notice. */
  function Note(shown: string, read: string): Input {
    var notice := "<system_notification plugin=\"" + SESSION_SOURCE + "\">" + Defused(read) + CLOSING_TAG;
    InputFields(Some(SESSION_SOURCE), [UserText(shown)], Some([UserText(notice)]))
  }

  /** What the model should learn about an interruption: a cancel or an error of the turn before. */
  function InterruptionNote(newestTurn: NewestTurn): Option<Input> {
    match newestTurn
    case EndedTurn(Succeeded(Cancelled)) =>
      Some(Note("The previous turn was cancelled.", "The user cancelled the previous turn before it ended."))
    case EndedTurn(Failed(error)) =>
      Some(Note("The previous turn failed.", "The previous turn ended with an error: " + error))
    case _ => None
  }

  /** The commit that ends an open turn: an error result for each of its calls without a result. */
  function RepairOf(context: seq<Block>): Commit {
    CommitOf(RepairResults(OpenCalls(context), OUTCOME_UNKNOWN)).(end := Some(TurnEnd.Failed(TURN_STOPPED)))
  }

  /** The log behind an open of the session: an open turn gets exactly one end. */
  function Repaired(log: seq<StoredEvent>): seq<StoredEvent> {
    if TurnOf(log).OpenTurn? then log + [StoredEvent(|log| + 1, CommitEvent(RepairOf(ContextOf(log)), []))] else log
  }

  /** The memory of a session that holds its lease. */
  ghost predicate Agreed(log: seq<StoredEvent>, settings: Settings, context: seq<Block>, newestTurn: NewestTurn,
                         inputTokens: Option<nat>)
  {
    && SettingsOf(log) == Some(settings) && ContextOf(log) == context
    && TurnOf(log) == newestTurn && !newestTurn.OpenTurn? && TokensOf(log) == inputTokens
  }

  lemma RepairedReplays(log: seq<StoredEvent>)
    requires TurnOf(log).OpenTurn?
    ensures var next := Repaired(log);
      && ContextOf(next) == ContextOf(log) + RepairOf(ContextOf(log)).blocks
      && TurnOf(next) == EndedTurn(TurnEnd.Failed(TURN_STOPPED))
      && TokensOf(next) == TokensOf(log) && SettingsOf(next) == SettingsOf(log)
  {
    assert Repaired(log)[..|log|] == log;
  }

  /**
   * Stop a process behind any event of a log that a session grew, and open the session again: the open turn ends once,
   * and then every call of the context has exactly one result.
   */
  lemma ReopenAnswersEachCall(log: seq<StoredEvent>, n: nat)
    requires PairedLog(log) && n <= |log|
    ensures PairedLog(Repaired(log[..n])) && Balanced(ContextOf(Repaired(log[..n])))
    ensures !TurnOf(Repaired(log[..n])).OpenTurn?
    ensures ResultIds(ContextOf(Repaired(log[..n]))) == CallIds(ContextOf(Repaired(log[..n])))
  {
    hide Balanced, Resumable;
    var stopped := log[..n];
    assert PairedAt(stopped);
    forall k | 0 <= k <= n
      ensures PairedAt(stopped[..k])
    {
      assert stopped[..k] == log[..k];
    }
    if TurnOf(stopped).OpenTurn? {
      RepairedReplays(stopped);
      RepairBalances(ContextOf(stopped), OUTCOME_UNKNOWN);
      BalancedIsResumable(ContextOf(Repaired(stopped)));
      PairedLogGrows(stopped, Repaired(stopped)[n]);
    }
    BalancedAnswersEachCall(ContextOf(Repaired(stopped)), 0);
  }

  lemma BalancedIsResumable(context: seq<Block>)
    requires Balanced(context)
    ensures Resumable(context)
  {
  }

  /** What an open of a session needs: for a read, the caller holds the lease and left no open turn. */
  ghost predicate CanOpen(store: MemoryStore, id: SessionId, access: Access)
    reads store
  {
    && store.Valid()
    && (access.Read? ==>
          id in store.writers && id in store.sessions && !TurnOf(store.sessions[id].events).OpenTurn?)
  }

  /** Wait while other clients use the store. `held` says whether this client has the lease. */
  method Idle(store: MemoryStore, id: SessionId, held: bool)
    requires store.Valid() && (held ==> id in store.writers)
    modifies store
    ensures store.Valid()
    ensures held ==>
      && id in store.writers && id in old(store.sessions) && id in store.sessions
      && store.sessions[id].events == old(store.sessions)[id].events
    ensures store.nextId >= old(store.nextId)
    ensures id < old(store.nextId) ==> LogGrew(old(store.sessions), store.sessions, id)
  {
    hide SessionOk, WritesOrdered, PendingMoved;
    OtherClients(store, if held then {id} else {});
    assert held ==> id in {id};
  }

  /** A session that is still there only got more events. */
  predicate LogGrew(before: map<SessionId, Saved>, after: map<SessionId, Saved>, id: SessionId) {
    id in after ==> id in before && before[id].events <= after[id].events
  }

  /**
   * Open the session, and end a turn that the store holds as open. `found` is the log at the moment of the open, and
   * empty when the open failed. The write of the end can save and still fail, and then the lease of the open is
   * released.
   */
  method OpenAndEndTurn(store: MemoryStore, id: SessionId, access: Access)
      returns (result: Result<Opened>, repair: Option<StoredEvent>, ghost found: seq<StoredEvent>)
    requires CanOpen(store, id, access)
    modifies store
    ensures store.Valid() && store.nextId >= old(store.nextId)
    ensures id < old(store.nextId) ==> LogGrew(old(store.sessions), store.sessions, id)
    ensures access.Read? ==>
      && id in store.writers && id in store.sessions
      && store.sessions[id].events == old(store.sessions)[id].events == found
    ensures access.Write? && result.Err? && found != [] ==> id !in store.writers
    ensures result.Ok? ==>
      && result.value.id == id && result.value.lease == access.Write?
      && id in store.writers && id in store.sessions && store.sessions[id].events == Repaired(found)
      && Agreed(Repaired(found), result.value.settings, result.value.context, result.value.newestTurn,
                result.value.inputTokens)
      && (repair.Some? <==> TurnOf(found).OpenTurn?)
      && (repair.Some? ==> Repaired(found) == found + [repair.value])
  {
    hide SessionOk, WritesOrdered, Remembers, KeepsOut, Agreed;
    repair, found := None, [];
    Idle(store, id, access.Read?);
    if access.Read? {
      found := store.sessions[id].events;
    }
    if * {
      return Err(StoreFailed), None, found;
    }
    var load := store.Open(id, access);
    if load.Err? {
      return load, None, found;
    }
    found := store.sessions[id].events;
    FoundEvents(store, id);
    OpenedAgrees(found, load.value);
    if !load.value.newestTurn.OpenTurn? {
      return load, None, found;
    }
    result, repair := EndTurn(store, id, load.value);
  }

  lemma FoundEvents(store: MemoryStore, id: SessionId)
    requires store.Valid() && id in store.sessions
    ensures store.sessions[id].events != [] && id < store.nextId
  {
    hide InputsOnce, WritesOrdered, Remembers, KeepsOut;
  }

  lemma OpenedAgrees(log: seq<StoredEvent>, loaded: Opened)
    requires SettingsOf(log) == Some(loaded.settings) && loaded.context == ContextOf(log)
    requires loaded.newestTurn == TurnOf(log) && loaded.inputTokens == TokensOf(log)
    ensures !loaded.newestTurn.OpenTurn? ==>
      Repaired(log) == log && Agreed(log, loaded.settings, loaded.context, loaded.newestTurn, loaded.inputTokens)
  {
  }

  /** Save the end of the open turn under the lease of a new open. A failure releases the lease. */
  method EndTurn(store: MemoryStore, id: SessionId, loaded: Opened)
      returns (result: Result<Opened>, repair: Option<StoredEvent>)
    requires store.Valid() && id in store.writers && id in store.sessions && id < store.nextId
    requires ghost var log := store.sessions[id].events;
      && TurnOf(log).OpenTurn? && SettingsOf(log) == Some(loaded.settings) && ContextOf(log) == loaded.context
      && TokensOf(log) == loaded.inputTokens
    modifies store
    ensures store.Valid() && store.nextId >= old(store.nextId)
    ensures LogGrew(old(store.sessions), store.sessions, id)
    ensures result.Err? ==> repair.None? && id !in store.writers
    ensures result.Ok? ==>
      ghost var log, next := old(store.sessions)[id].events, result.value;
      && next.id == loaded.id && next.lease == loaded.lease
      && id in store.writers && id in store.sessions && store.sessions[id].events == Repaired(log)
      && Agreed(Repaired(log), next.settings, next.context, next.newestTurn, next.inputTokens)
      && repair.Some? && Repaired(log) == log + [repair.value]
  {
    hide SessionOk, WritesOrdered, Remembers, KeepsOut, SettingsOf, ContextOf, TokensOf, TurnOf;
    ghost var found := store.sessions[id].events;
    Idle(store, id, true);
    if * {
      store.Release(id);
      return Err(StoreFailed), None;
    }
    var commit := RepairOf(loaded.context);
    var saved := SaveRepair(store, id, commit);
    if saved.Err? {
      store.Release(id);
      return Err(saved.error), None;
    }
    Idle(store, id, true);
    if * {
      store.Release(id);
      return Err(StoreFailed), None;
    }
    RepairedReplays(found);
    var ended := loaded.(context := loaded.context + commit.blocks, newestTurn := EndedTurn(commit.end.value));
    return Ok(ended), Some(StoredEvent(saved.value, CommitEvent(commit, [])));
  }

  method SaveRepair(store: MemoryStore, id: SessionId, commit: Commit) returns (result: Result<nat>)
    requires store.Valid() && id in store.writers && id in store.sessions
    modifies store
    ensures store.Valid() && store.writers == old(store.writers) && store.nextId == old(store.nextId)
    ensures id in store.sessions && old(store.sessions)[id].events <= store.sessions[id].events
    ensures result.Ok? ==>
      && result.value == |old(store.sessions)[id].events| + 1
      && id in store.sessions
      && store.sessions[id].events
           == old(store.sessions)[id].events + [StoredEvent(result.value, CommitEvent(commit, []))]
  {
    hide SessionOk, WritesOrdered, Remaining;
    result := store.SaveCommit(id, commit, []);
    assert RecordIds([]) == [];
  }

  /**
   * What an observer of one run got: a correct trace whose drafts are all closed, and with the saved commits of the run
   * in order. Only the last one can be missing, when its save was not confirmed.
   */
  ghost predicate Observed(updates: seq<Update>, log: seq<StoredEvent>, first: nat, confirmed: bool) {
    && Settled(updates)
    && if confirmed then SavedOnly(updates) == SavedOf(log, first) else SavedOnly(updates) <= SavedOf(log, first)
  }

  /**
   * What an observed trace means: at every index a committed draft names the blocks of the commit before it and a retry
   * follows silence, and every draft that started is closed once.
   */
  lemma ObservedTraces(updates: seq<Update>, log: seq<StoredEvent>, first: nat, confirmed: bool)
    requires Observed(updates, log, first, confirmed)
    ensures forall i :: 0 <= i < |updates| && updates[i].DraftCommitted? ==> NamesItsCommit(updates, i)
    ensures forall i :: 0 <= i < |updates| && updates[i].RetryScheduled? ==> FollowsSilence(updates, i)
    ensures forall draft :: StartsOf(updates, draft) == ClosesOf(updates, draft) <= 1
  {
    SettledTraces(updates);
  }

  /** How a run of a turn ended. */
  datatype RunEnd = Ran(result: TurnResult) | Stale | NoInput | InputFailed | SaveFailed | RunDropped

  class Session {
    const store: MemoryStore
    const id: SessionId
    var settings: Settings
    var context: seq<Block>
    /** Once it is lost, nothing here is certain before the log is read again. */
    var hasLease: bool
    /** How the last turn of the log ended. */
    var newestTurn: NewestTurn
    /** The token count that the next turn starts from. */
    var inputTokens: Option<nat>

    /** The log was paired at the open, and the callers of every turn since kept the pairing. */
    ghost var paired: bool

    /** The events of the session in the store. */
    ghost function Log(): seq<StoredEvent>
      reads store
    {
      if id in store.sessions then store.sessions[id].events else []
    }

    /**
     * A session that holds its lease agrees with the replay of its log, and a process can stop behind any event of
     * it.
     */
    ghost predicate Agrees()
      reads this, store
    {
      && store.Valid() && id < store.nextId
      && (hasLease ==>
            && id in store.writers && id in store.sessions
            && Agreed(Log(), settings, context, newestTurn, inputTokens)
            && (paired ==> PairedLog(Log())))
    }

    constructor (store: MemoryStore, loaded: Opened)
      requires store.Valid() && loaded.lease && loaded.id in store.writers && loaded.id in store.sessions
      requires Agreed(store.sessions[loaded.id].events, loaded.settings, loaded.context, loaded.newestTurn,
                      loaded.inputTokens)
      ensures Agrees() && hasLease && this.store == store && id == loaded.id
      ensures paired == PairedLog(store.sessions[loaded.id].events)
    {
      this.store, id := store, loaded.id;
      settings, context, hasLease := loaded.settings, loaded.context, true;
      newestTurn, inputTokens := loaded.newestTurn, loaded.inputTokens;
      paired := PairedLog(store.sessions[loaded.id].events);
    }

    /** Every call of the context of a paired session has exactly one result, in call order. */
    lemma ContextAnswersCalls()
      requires Agrees() && hasLease && paired
      ensures Balanced(context) && ResultIds(context) == CallIds(context)
    {
      hide SessionOk, WritesOrdered, Balanced, Resumable;
      assert Log()[..|Log()|] == Log();
      assert PairedAt(Log()[..|Log()|]);
      BalancedAnswersEachCall(context, 0);
    }

    /** Bring the memory back in line with the log, and close a turn that a stopped process left open. */
    method Recover() returns (result: Result<Option<StoredEvent>>, ghost found: seq<StoredEvent>)
      requires Agrees()
      modifies this, store
      ensures Agrees() && LogGrew(old(store.sessions), store.sessions, id)
      ensures result.Ok? ==>
        && Log() == Repaired(found)
        && (result.value.Some? <==> TurnOf(found).OpenTurn?)
        && (result.value.Some? ==> Log() == found + [result.value.value])
      ensures old(hasLease) ==> hasLease && Log() == old(Log()) && (old(paired) ==> paired)
      ensures result.Ok? ==> hasLease
      ensures result.Err? ==>
        && hasLease == old(hasLease) && paired == old(paired) && settings == old(settings) && context == old(context)
        && newestTurn == old(newestTurn) && inputTokens == old(inputTokens)
      ensures result.Err? && !hasLease && found != [] ==> id !in store.writers
    {
      hide SessionOk, WritesOrdered, Agreed, PairedLog;
      HeldIsClosed();
      var load, repair;
      load, repair, found := OpenAndEndTurn(store, id, if hasLease then Access.Read else Access.Write);
      if load.Err? {
        return Err(load.error), found;
      }
      var loaded := load.value;
      settings, context, newestTurn, inputTokens :=
        loaded.settings, loaded.context, loaded.newestTurn, loaded.inputTokens;
      hasLease := hasLease || loaded.lease;
      paired := PairedLog(found);
      if paired {
        RepairedStaysPaired(found);
      }
      return Ok(repair), found;
    }

    /** A held session left no open turn. */
    lemma HeldIsClosed()
      requires Agrees()
      ensures CanOpen(store, id, if hasLease then Access.Read else Access.Write)
    {
      hide SessionOk, WritesOrdered, PairedLog;
    }

    /** Save new settings. Nobody gives the lease back before the answer of the write is there. */
    method SetSettings(next: Settings) returns (result: Option<nat>)
      requires Agrees()
      modifies this, store
      ensures Agrees() && LogGrew(old(store.sessions), store.sessions, id)
      ensures !old(hasLease) ==> result.None? && !hasLease && store.sessions == old(store.sessions)
      ensures result.Some? ==>
        && hasLease && settings == next && context == old(context)
        && result.value == |old(Log())| + 1
        && Log() == old(Log()) + [StoredEvent(result.value, SettingsEvent(next))]
      ensures result.None? ==>
        && !hasLease && settings == old(settings) && context == old(context)
        && newestTurn == old(newestTurn) && inputTokens == old(inputTokens)
      ensures old(hasLease) && !hasLease ==> id !in store.writers
    {
      hide SessionOk, WritesOrdered, PairedLog, Remembers, KeepsOut, EverGrew, AcceptedGrew, Pushed;
      if !hasLease {
        return None;
      }
      hasLease := false;
      Idle(store, id, true);
      if * {
        store.Release(id);
        return None;
      }
      ghost var before := store.sessions[id];
      var saved := store.SetSettings(id, next);
      SettingsKeep(before, next, store.writes, settings, context, newestTurn, inputTokens);
      Idle(store, id, true);
      if * {
        store.Release(id);
        return None;
      }
      settings := next;
      hasLease := true;
      result := Some(saved.value);
    }

    /**
     * Run the next turn on the pending inputs. `commits` are the commits that the store saved of it, and `sources`
     * the inputs behind each. Whatever fails, the log grew by exactly these commits, and each starts with the model
     * blocks of its inputs, which the store accepted for this session. `lost` says that a take of the turn failed
     * behind inputs: then the store has no end of the turn.
     */
    method Run(observed: bool, policy: Policy, toolset: Toolset)
        returns (end: RunEnd, updates: seq<Update>, ghost commits: seq<Commit>, ghost sources: seq<seq<PendingInput>>,
                 ghost lost: bool)
      requires Agrees() && ValidPolicy(policy)
      modifies this, store
      ensures Agrees() && LogGrew(old(store.sessions), store.sessions, id)
      ensures end.Stale? <==> !old(hasLease)
      ensures end.Stale? ==> !hasLease && updates == [] && store.sessions == old(store.sessions)
      ensures end.Ran? ==> hasLease && newestTurn == EndedTurn(EndOf(end.result))
      ensures end.NoInput? || end.InputFailed? ==> hasLease && commits == [] && context == old(context)
      ensures end.NoInput? ==>
        id in store.sessions && forall p :: p in store.sessions[id].pending ==> p.id > old(store.newestInput)
      ensures end.SaveFailed? ==> !hasLease
      ensures old(hasLease) && !hasLease ==> id !in store.writers
      ensures AllTraced(sources, id, store.accepted)
      ensures lost ==> !end.Ran? && !hasLease && TurnOf(Log()).OpenTurn? && forall c :: c in commits ==> c.end.None?
      ensures old(hasLease) ==> GrewBy(Log(), old(Log()), old(settings), commits, sources)
      ensures old(hasLease) ==> (paired <==> old(paired) && Keeps(ContextOf(old(Log())), commits, sources))
      ensures old(hasLease) && paired ==> PairedLog(Log())
      ensures observed && updates != [] ==> Observed(updates, Log(), |old(Log())|, end.Ran?)
      ensures observed && (end.Ran? || end.SaveFailed?) ==> Observed(updates, Log(), |old(Log())|, end.Ran?)
      ensures !observed ==> updates == []
    {
      hide SessionOk, WritesOrdered, PairedLog, GrewBy, ReadAll, SavedOnly, SavedOf, Observed, Traced, Remembers,
        KeepsOut;
      updates, commits, sources, lost := [], [], [], false;
      if !hasLease {
        return Stale, updates, commits, sources, lost;
      }
      var publisher := new Publisher(observed);
      var journal := new Journal(store, id, publisher, inputTokens, settings);
      var taken;
      ghost var first, note;
      taken, first, note := TakeFirst(journal, newestTurn);
      if !taken.Took? || taken.blocks == [] {
        end := if taken.TakeDropped? then RunDropped else if taken.TakeFailed? then InputFailed else NoInput;
        return end, updates, commits, sources, lost;
      }
      end, updates := RunTurn(journal, taken.blocks, policy, toolset);
      commits, sources, lost := journal.saved, journal.sources, journal.lost;
      BeforeFits(Log(), old(Log()), old(settings), commits, sources);
    }

    /** Run the turn of `input` under the lease. Only a confirmed end gives the lease back. */
    method RunTurn(journal: Journal, input: seq<Block>, policy: Policy, toolset: Toolset)
        returns (end: RunEnd, updates: seq<Update>)
      requires Agrees() && hasLease && ValidPolicy(policy)
      requires journal.store == store && journal.id == id && journal.Valid() && journal.before == Log()
      requires journal.settings == settings && journal.saved == [] && !journal.lost
      requires journal.publisher.reader.open.None?
      requires input == AllModelBlocks(journal.inputs) && input != []
      modifies this, store, journal, journal.publisher
      ensures Agrees()
      ensures end.Ran? || end.SaveFailed? || end.RunDropped?
      ensures hasLease <==> end.Ran?
      ensures !hasLease ==> id !in store.writers
      ensures AllTraced(journal.sources, id, store.accepted)
      ensures journal.lost ==>
        !hasLease && TurnOf(Log()).OpenTurn? && forall c :: c in journal.saved ==> c.end.None?
      ensures end.Ran? ==> newestTurn == EndedTurn(EndOf(end.result))
      ensures GrewBy(Log(), journal.before, journal.settings, journal.saved, journal.sources)
      ensures paired <==> old(paired) && Keeps(ContextOf(journal.before), journal.saved, journal.sources)
      ensures paired ==> PairedLog(Log())
      ensures journal.publisher.observed ==> Observed(updates, Log(), |journal.before|, end.Ran?)
      ensures !journal.publisher.observed ==> updates == []
    {
      hide SessionOk, WritesOrdered, PairedLog, Keeps, GrewBy, ReadAll, History, SavedOnly, SavedOf, Observed;
      if paired {
        ContextAnswersCalls();
      }
      var state := new TurnState(context, inputTokens);
      var turn := new Turn(state, journal, policy, toolset);
      hasLease := false;
      TurnStarts(turn);
      var step := turn.Run(input);
      end, updates := Finish(turn, step);
    }

    /** The end of a run. The lease of a turn without a confirmed end is released, and its updates are closed. */
    method Finish(turn: Turn, step: Step) returns (end: RunEnd, updates: seq<Update>)
      requires !step.Next? && turn.Stepped(step)
      requires turn.journal.store == store && turn.journal.id == id && turn.journal.settings == settings
      requires paired ==> PairedLog(turn.journal.before) && Balanced(ContextOf(turn.journal.before))
      modifies this, store`writers, turn.journal.publisher
      ensures Agrees() && store.sessions == old(store.sessions)
      ensures end == match step
        case Ends(result) => Ran(result)
        case Halts(CommitFailed) => RunEnd.SaveFailed
        case Halts(FutureDropped) => RunDropped
        case Next(_) => RunDropped
      ensures hasLease <==> end.Ran?
      ensures !hasLease ==> id !in store.writers
      ensures AllTraced(turn.journal.sources, id, store.accepted)
      ensures turn.journal.lost ==>
        !hasLease && TurnOf(Log()).OpenTurn? && forall c :: c in turn.journal.saved ==> c.end.None?
      ensures end.Ran? ==> newestTurn == EndedTurn(EndOf(end.result))
      ensures paired <==>
        old(paired) && Keeps(ContextOf(turn.journal.before), turn.journal.saved, turn.journal.sources)
      ensures paired ==> PairedLog(Log())
      ensures GrewBy(Log(), turn.journal.before, turn.journal.settings, turn.journal.saved, turn.journal.sources)
      ensures turn.journal.publisher.observed ==> Observed(updates, Log(), |turn.journal.before|, end.Ran?)
      ensures !turn.journal.publisher.observed ==> updates == []
    {
      hide SessionOk, WritesOrdered, PairedLog, Keeps, GrewBy, ReadAll, History, Observed, Agreed, Remembers, KeepsOut,
        AllTraced, Turn.Stepped;
      // The future borrowed the context, so it keeps what the turn made of it.
      context := turn.state.context;
      paired := paired && Keeps(ContextOf(turn.journal.before), turn.journal.saved, turn.journal.sources);
      AfterTurn(turn, step);
      updates := CloseUpdates(turn, step);
      match step
      case Ends(result) =>
        inputTokens := turn.journal.inputTokens;
        newestTurn := EndedTurn(EndOf(result));
        hasLease := true;
        end := Ran(result);
      case Halts(CommitFailed) =>
        inputTokens := turn.journal.inputTokens;
        hasLease := false;
        store.Release(id);
        end := RunEnd.SaveFailed;
      case Halts(FutureDropped) =>
        hasLease := false;
        store.Release(id);
        end := RunDropped;
    }
  }

  /** What a session knows behind a turn. */
  lemma AfterTurn(turn: Turn, step: Step)
    requires !step.Next? && turn.Stepped(step)
    ensures var journal, store := turn.journal, turn.journal.store;
      && store.Valid() && journal.id in store.writers && journal.id in store.sessions
      && GrewBy(journal.Log(), journal.before, journal.settings, journal.saved, journal.sources)
      && (PairedLog(journal.before) ==>
            Balanced(ContextOf(journal.before)) && Keeps(ContextOf(journal.before), journal.saved, journal.sources) ==>
              PairedLog(journal.Log()))
      && (step.Ends? ==> Agreed(journal.Log(), journal.settings, turn.state.context, EndedTurn(EndOf(step.result)),
                                journal.inputTokens))
      && AllTraced(journal.sources, journal.id, journal.store.accepted)
      && (journal.lost ==>
            !step.Ends? && TurnOf(journal.Log()).OpenTurn? && forall c :: c in journal.saved ==> c.end.None?)
  {
    hide SessionOk, WritesOrdered, PairedLog, Keeps, GrewBy, ReadAll, History, SavedOnly, SavedOf;
    turn.StillOwned();
    if step.Ends? {
      turn.EndAgrees(step.result);
    } else if turn.journal.lost {
      UnendedIsOpen(turn.journal.Log(), turn.journal.before, turn.journal.settings, turn.journal.saved,
                    turn.journal.sources);
    }
  }

  lemma UnendedIsOpen(log: seq<StoredEvent>, before: seq<StoredEvent>, settings: Settings, saved: seq<Commit>,
                      sources: seq<seq<PendingInput>>)
    requires GrewBy(log, before, settings, saved, sources) && saved != []
    requires forall i :: 0 <= i < |saved| ==> saved[i].end.None?
    ensures TurnOf(log).OpenTurn?
  {
  }

  /** The end of the updates of a turn. */
  method CloseUpdates(turn: Turn, step: Step) returns (updates: seq<Update>)
    requires !step.Next? && turn.Stepped(step)
    modifies turn.journal.publisher
    ensures turn.journal.publisher.observed ==>
      Observed(updates, turn.journal.Log(), |turn.journal.before|, step.Ends?)
    ensures !turn.journal.publisher.observed ==> updates == []
  {
    hide SessionOk, WritesOrdered, GrewBy, ReadAll, SavedOnly, SavedOf, Settled, History, PairedLog;
    turn.StillOwned();
    if step.Ends? {
      turn.EndAgrees(step.result);
    }
    var publisher := turn.journal.publisher;
    DropSavesNothing(publisher.trace, publisher.reader.open, publisher.over);
    publisher.Drop();
    updates := publisher.sent;
  }

  lemma DropSavesNothing(trace: seq<Update>, draft: Option<nat>, over: bool)
    ensures var next := trace + (if draft.Some? then [DraftDiscarded(draft.value, Unconfirmed)] else [])
        + (if over then [] else [TurnUnconfirmed]);
      SavedOnly(next) == SavedOnly(trace)
  {
    var closed := trace + if draft.Some? then [DraftDiscarded(draft.value, Unconfirmed)] else [];
    assert trace + [] == trace && closed + [] == closed;
    if draft.Some? {
      SavedOnlyNext(trace, DraftDiscarded(draft.value, Unconfirmed));
    }
    if !over {
      SavedOnlyNext(closed, TurnUnconfirmed);
    }
  }

  predicate IsNote(input: PendingInput) {
    input.input.plugin == Some(SESSION_SOURCE)
  }

  predicate OnlyNotes(inputs: seq<PendingInput>) {
    forall i :: 0 <= i < |inputs| ==> IsNote(inputs[i])
  }

  /**
   * The input of a turn: every pending input, and behind it the note about an interrupted turn before it. `first` is
   * what the first take took, and `note` is the id of a new note. A new note comes only behind inputs of which none is
   * a note. So a turn starts with notes alone exactly when the first take took nothing but notes of earlier tries.
   */
  method TakeFirst(journal: Journal, newestTurn: NewestTurn)
      returns (taken: Taken, ghost first: seq<PendingInput>, ghost note: Option<nat>)
    requires journal.Valid() && journal.inputs == [] && !journal.lost
    modifies journal`taken, journal`inputs, journal`lost, journal.store
    ensures journal.Valid() && journal.Log() == old(journal.Log())
    ensures taken.Took? ==> taken.blocks == AllModelBlocks(journal.inputs) && !journal.lost
    ensures taken.Took? && taken.blocks == [] ==>
      && journal.inputs == [] && note.None?
      && forall p :: p in journal.Pending() ==> p.id > old(journal.store.newestInput)
    ensures note.Some? ==>
      && InterruptionNote(newestTurn).Some? && note.value > old(journal.store.newestInput)
      && note.value in journal.store.accepted
      && journal.store.accepted[note.value] == Acceptance(journal.id, InterruptionNote(newestTurn).value)
    ensures note.Some? && taken.Took? ==>
      note.value in RecordIds(journal.taken) || forall p :: p in journal.Pending() ==> p.id != note.value
    ensures first <= journal.inputs && (taken.Took? && note.None? ==> first == journal.inputs)
    ensures note.Some? ==> first != [] && forall i :: 0 <= i < |first| ==> !IsNote(first[i])
    ensures taken.Took? && taken.blocks != [] && InterruptionNote(newestTurn).Some? ==>
      note.Some? || exists i :: 0 <= i < |first| && IsNote(first[i])
    ensures taken.Took? && taken.blocks != [] ==> first != [] && (OnlyNotes(journal.inputs) <==> OnlyNotes(first))
  {
    hide SessionOk, WritesOrdered, ReadAll, GrewBy, AllModelBlocks, Remembers, KeepsOut, Traced, AllTraced,
      AcceptedGrew, InterruptionNote;
    NoModelBlocks();
    note := None;
    taken := journal.Take();
    first := journal.inputs;
    if !taken.Took? || taken.blocks == [] {
      return;
    }
    assert [] + taken.blocks == taken.blocks;
    // An input that waited from an earlier try can be the note already.
    var noted := exists i :: 0 <= i < |journal.taken| && journal.taken[i].plugin == Some(SESSION_SOURCE);
    var text := InterruptionNote(newestTurn);
    if noted || text.None? {
      return;
    }
    FirstHasNoNotes(first);
    var failed;
    failed, note := journal.Accept(text.value);
    if failed {
      return TakeFailed, first, note;
    }
    ghost var accepted := journal.store.accepted;
    var more := journal.Take();
    StillAccepted(note.value, accepted, journal.store.accepted);
    if !more.Took? {
      return more, first, note;
    }
    assert !IsNote(first[0]) && journal.inputs[0] == first[0];
    return Took(taken.blocks + more.blocks), first, note;
  }

  lemma FirstHasNoNotes(first: seq<PendingInput>)
    ensures (forall i :: 0 <= i < |first| ==> !IsNote(first[i]))
       <==> !exists i :: 0 <= i < |Records(first)| && Records(first)[i].plugin == Some(SESSION_SOURCE)
  {
    assert forall i :: 0 <= i < |first| ==> Records(first)[i] == Consumed(first[i]);
  }

  lemma RemainingOfTwo(first: PendingInput, second: PendingInput, ids: seq<nat>)
    ensures Remaining([first, second], ids)
         == (if first.id in ids then [] else [first]) + if second.id in ids then [] else [second]
  {
    assert [first, second][..1] == [first];
    assert [first][..0] == [];
    assert Remaining([first], ids) == if first.id in ids then [] else [first];
  }

  lemma SecondRemains(first: PendingInput, second: PendingInput)
    requires first.id != second.id
    ensures Remaining([first, second], [first.id]) == [second] && first.id in PendingIds([first, second])
    ensures Remaining([first, second], []) == [first, second]
  {
    RemainingOfTwo(first, second, [first.id]);
    RemainingOfTwo(first, second, []);
    assert PendingIds([first, second])[0] == first.id;
  }

  /** A session whose turn failed, with the two inputs that came during it. */
  method TwoInputsBehindAFailure(settings: Settings, error: string)
      returns (store: MemoryStore, id: SessionId, first: PendingInput, second: PendingInput)
    ensures fresh(store) && store.Valid() && id in store.sessions
    ensures TurnOf(store.sessions[id].events) == EndedTurn(TurnEnd.Failed(error))
    ensures store.sessions[id].pending == [first, second] && first.id < second.id <= store.newestInput
  {
    hide SessionOk, WritesOrdered, Remembers, KeepsOut, EverGrew, SettingsOf, ContextOf, Remaining, PendingIds;
    store, id, first, second := TwoInputsDuringATurn(settings, InputFields(None, [UserText("more")], None));
    var end := CommitOf([]).(end := Some(TurnEnd.Failed(error)));
    assert RecordIds([]) == [];
    SecondRemains(first, second);
    var _ := store.SaveCommit(id, end, []);
  }

  /**
   * An input for which a note alone starts a turn. A turn fails, and of the inputs behind it a client leaves one. The
   * next turn accepts its note, and ends before it saves anything. Then the client removes the other input too, and
   * only the note still waits.
   */
  method NoteAloneWitness(settings: Settings, error: string)
      returns (log: seq<StoredEvent>, waiting: seq<PendingInput>)
    ensures TurnOf(log) == EndedTurn(TurnEnd.Failed(error))
    ensures |waiting| == 1 && Some(waiting[0].input) == InterruptionNote(TurnOf(log))
    ensures OnlyNotes(waiting) && AllModelBlocks(waiting) != []
  {
    hide SessionOk, WritesOrdered, Remembers, KeepsOut, AcceptedGrew, Remaining, TurnOf, PendingIds;
    var store, id, first, second := TwoInputsBehindAFailure(settings, error);
    SecondRemains(first, second);
    var _ := store.RemoveInput(id, first.id);
    log := store.sessions[id].events;
    var note := InterruptionNote(TurnOf(log)).value;
    var accepted := store.AcceptInput(id, note);
    SecondRemains(second, PendingInput(accepted.value, note));
    assert store.sessions[id].pending == [second, PendingInput(accepted.value, note)];
    var _ := store.RemoveInput(id, second.id);
    waiting := store.sessions[id].pending;
  }

  lemma StillAccepted(input: nat, before: map<nat, Acceptance>, after: map<nat, Acceptance>)
    requires AcceptedGrew(before, after) && input in before
    ensures input in after && after[input] == before[input]
  {
  }

  lemma TurnStarts(turn: Turn)
    requires turn.journal.Valid() && turn.journal.saved == [] && turn.journal.before == turn.journal.Log()
    requires !turn.journal.lost
    requires turn.state.Valid() && turn.state.commits == [] && turn.state.paired == Balanced(turn.state.first)
    requires turn.state.first == ContextOf(turn.journal.before)
    requires turn.state.firstTokens == TokensOf(turn.journal.before)
    ensures turn.Standing() == Live && turn.Linked([]) && turn.CanStop() && turn.Unended()
  {
    hide SessionOk, WritesOrdered, PairedLog, Keeps, GrewBy, ReadAll, History, SavedOnly, SavedOf;
  }

  lemma NoModelBlocks()
    ensures AllModelBlocks([]) == []
  {
  }

  lemma SettingsKeep(before: Saved, next: Settings, write: nat, settings: Settings, context: seq<Block>,
                     newestTurn: NewestTurn, inputTokens: Option<nat>)
    requires Agreed(before.events, settings, context, newestTurn, inputTokens)
    ensures var log := Pushed(before, SettingsEvent(next), write).events;
      && log == before.events + [StoredEvent(|before.events| + 1, SettingsEvent(next))]
      && Agreed(log, next, context, newestTurn, inputTokens)
      && (PairedLog(before.events) ==> PairedLog(log))
  {
    hide Balanced, Resumable;
    var log := Pushed(before, SettingsEvent(next), write).events;
    PushedReplays(before, SettingsEvent(next), write);
    if PairedLog(before.events) {
      assert before.events[..|before.events|] == before.events;
      assert PairedAt(before.events[..|before.events|]);
      PairedLogGrows(before.events, log[|before.events|]);
    }
  }

  /** A repaired log stays paired. */
  lemma RepairedStaysPaired(log: seq<StoredEvent>)
    requires PairedLog(log)
    ensures PairedLog(Repaired(log))
  {
    assert log[..|log|] == log;
    ReopenAnswersEachCall(log, |log|);
  }

  // The ways to a session, and its life.

  method CreateSession(store: MemoryStore, settings: Settings, parent: Option<SessionId>) returns (session: Session)
    requires store.Valid()
    modifies store
    ensures fresh(session) && session.store == store && session.Agrees() && session.hasLease && session.paired
    ensures session.context == [] && session.settings == settings && session.newestTurn.Empty?
  {
    hide SessionOk, WritesOrdered, PairedAt;
    var loaded := store.CreateSession(settings, parent);
    NewIsPaired(settings);
    session := new Session(store, loaded);
  }

  lemma NewIsPaired(settings: Settings)
    ensures var log := [StoredEvent(1, SettingsEvent(settings))];
      && PairedLog(log) && Agreed(log, settings, [], Empty, None)
  {
    var log := [StoredEvent(1, SettingsEvent(settings))];
    assert log[..0] == [];
    assert PairedAt(log);
    forall n | 0 <= n <= 1
      ensures PairedAt(log[..n])
    {
      assert log[..n] == if n == 0 then [] else log;
    }
  }

  /** Open a session, and own it. The session starts no turn. */
  method OpenSession(store: MemoryStore, id: SessionId) returns (result: Result<Session>, ghost found: seq<StoredEvent>)
    requires store.Valid()
    modifies store
    ensures store.Valid()
    ensures result.Err? && found != [] ==> id !in store.writers
    ensures result.Ok? ==>
      && fresh(result.value) && result.value.store == store && result.value.id == id
      && result.value.Agrees() && result.value.hasLease && result.value.Log() == Repaired(found)
      && (PairedLog(found) ==> result.value.paired)
  {
    hide SessionOk, WritesOrdered, PairedLog, Agreed;
    var load, repair;
    load, repair, found := OpenAndEndTurn(store, id, Access.Write);
    if load.Err? {
      return Err(load.error), found;
    }
    AgreedIsClosed(Repaired(found), load.value);
    var session := new Session(store, load.value);
    if PairedLog(found) {
      RepairedStaysPaired(found);
    }
    return Ok(session), found;
  }

  lemma AgreedIsClosed(log: seq<StoredEvent>, loaded: Opened)
    requires Agreed(log, loaded.settings, loaded.context, loaded.newestTurn, loaded.inputTokens)
    ensures !loaded.newestTurn.OpenTurn?
  {
  }

  /** Fork a session at a completed turn. The caller owns the fork. */
  method ForkSession(store: MemoryStore, source: SessionId, through: Option<nat>) returns (result: Result<Session>)
    requires store.Valid()
    modifies store
    ensures store.Valid()
    ensures result.Err? ==> store.sessions == old(store.sessions)
    ensures result.Ok? ==>
      && fresh(result.value) && result.value.store == store && result.value.id !in old(store.sessions)
      && result.value.Agrees() && result.value.hasLease
      && source in old(store.sessions) && result.value.Log() <= old(store.sessions)[source].events
      && (PairedLog(old(store.sessions)[source].events) ==> result.value.paired)
  {
    hide SessionOk, WritesOrdered, PairedAt;
    var load := store.ForkSession(source, through);
    if load.Err? {
      return Err(load.error);
    }
    var session := new Session(store, load.value);
    ghost var log, fork := old(store.sessions)[source].events, session.Log();
    assert forall n :: 0 <= n <= |fork| ==> fork[..n] == log[..n];
    return Ok(session);
  }

  /**
   * The life of a session: any number of turns, settings, recovers, and pauses, with other clients at every wait. In
   * every state the session agrees with its store, and as long as the pairing holds, a process can stop behind any
   * event of its log. The log of a session that keeps its lease only grows.
   */
  method Life(session: Session, policy: Policy, toolset: Toolset)
    requires session.Agrees() && ValidPolicy(policy)
    modifies session, session.store
    ensures session.Agrees() && LogGrew(old(session.store.sessions), session.store.sessions, session.id)
    ensures session.hasLease && session.paired ==> Balanced(session.context) && PairedLog(session.Log())
  {
    hide SessionOk, WritesOrdered, PairedLog, GrewBy, Agreed;
    var calls: nat := *;
    while calls > 0
      invariant session.Agrees() && LogGrew(old(session.store.sessions), session.store.sessions, session.id)
    {
      calls := calls - 1;
      LifeStep(session, policy, toolset);
    }
    if session.hasLease && session.paired {
      session.ContextAnswersCalls();
    }
  }

  /** One call of a session, or a pause between two calls. */
  method LifeStep(session: Session, policy: Policy, toolset: Toolset)
    requires session.Agrees() && ValidPolicy(policy)
    modifies session, session.store
    ensures session.Agrees() && LogGrew(old(session.store.sessions), session.store.sessions, session.id)
  {
    hide SessionOk, WritesOrdered, PairedLog, GrewBy, Agreed;
    if {
      case true =>
        Idle(session.store, session.id, session.hasLease);
      case true =>
        var observed: bool := *;
        var _, _ := RunOnce(session, observed, policy, toolset);
      case true =>
        var settings: Settings := *;
        var _ := session.SetSettings(settings);
      case true =>
        RecoverOnce(session);
    }
  }

  method RunOnce(session: Session, observed: bool, policy: Policy, toolset: Toolset)
      returns (end: RunEnd, updates: seq<Update>)
    requires session.Agrees() && ValidPolicy(policy)
    modifies session, session.store
    ensures session.Agrees() && LogGrew(old(session.store.sessions), session.store.sessions, session.id)
  {
    ghost var commits, sources, lost;
    end, updates, commits, sources, lost := session.Run(observed, policy, toolset);
  }

  method RecoverOnce(session: Session)
    requires session.Agrees()
    modifies session, session.store
    ensures session.Agrees() && LogGrew(old(session.store.sessions), session.store.sessions, session.id)
  {
    var result;
    ghost var found;
    result, found := session.Recover();
  }
}
