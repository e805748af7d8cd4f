/**
 * The other clients of a store. A turn waits at many points, and each wait lets them call every operation of the store
 * any number of times. The owner lock keeps them from the events of a session that another writer holds.
 */
module Clients {
  import opened Options
  import opened Commits
  import opened Stores

  /** What any number of calls make of pending inputs: some leave, and newer ones come. */
  ghost predicate PendingMoved(before: seq<PendingInput>, after: seq<PendingInput>, newestInput: nat) {
    forall p :: p in after ==> p in before || p.id > newestInput
  }

  lemma PendingMovedTwice(a: seq<PendingInput>, b: seq<PendingInput>, c: seq<PendingInput>, newestInput: nat,
                          later: nat)
    requires PendingMoved(a, b, newestInput) && PendingMoved(b, c, later) && newestInput <= later
    ensures PendingMoved(a, c, newestInput)
  {
  }

  /** What any number of calls make of one session: its events grow at their end, and a write moves it to the front. */
  ghost predicate SessionGrew(before: Saved, after: Saved, writes: nat) {
    && before.events <= after.events && before.parent == after.parent
    && (after.newestWrite > writes || (after.newestWrite == before.newestWrite && after.events == before.events))
  }

  /** What any number of calls make of a store that counted `writes` event writes and gave ids below `nextId`. */
  ghost predicate Grew(before: map<SessionId, Saved>, writes: nat, nextId: SessionId, after: map<SessionId, Saved>) {
    forall id :: id in after ==>
      if id in before then SessionGrew(before[id], after[id], writes)
      else id >= nextId && after[id].newestWrite > writes
  }

  lemma SessionGrewTwice(a: Saved, b: Saved, c: Saved, writes: nat, later: nat)
    requires SessionGrew(a, b, writes) && SessionGrew(b, c, later) && writes <= later
    ensures SessionGrew(a, c, writes)
  {
  }

  lemma GrewTwice(a: map<SessionId, Saved>, writes: nat, nextId: SessionId,
                  b: map<SessionId, Saved>, later: nat, laterId: SessionId, c: map<SessionId, Saved>)
    requires Grew(a, writes, nextId, b) && Grew(b, later, laterId, c)
    requires writes <= later && nextId <= laterId
    requires forall id :: id in a ==> id < nextId
    ensures Grew(a, writes, nextId, c)
  {
    hide SessionGrew;
    forall id | id in c && id in a
      ensures SessionGrew(a[id], c[id], writes)
    {
      if id in b {
        SessionGrewTwice(a[id], b[id], c[id], writes, later);
      }
    }
    forall id | id in c && id !in a
      ensures id >= nextId && c[id].newestWrite > writes
    {
      if id in b {
        SessionGrewLater(b[id], c[id], later);
      }
    }
  }

  lemma SessionGrewLater(b: Saved, c: Saved, later: nat)
    requires SessionGrew(b, c, later)
    ensures c.newestWrite > later || c.newestWrite == b.newestWrite
  {
  }

  /** Other clients do not write the events of held sessions, and they do not bring back an input. */
  ghost predicate HeldKept(held: set<SessionId>, before: map<SessionId, Saved>, newestInput: nat,
                           after: map<SessionId, Saved>)
  {
    forall id :: id in held ==>
      && id in before && id in after && after[id].events == before[id].events
      && PendingMoved(before[id].pending, after[id].pending, newestInput)
  }

  lemma HeldNothing(held: set<SessionId>, sessions: map<SessionId, Saved>, newestInput: nat, writers: set<SessionId>)
    requires held <= writers && forall id :: id in writers ==> id in sessions
    ensures HeldKept(held, sessions, newestInput, sessions)
  {
  }

  lemma HeldTwice(held: set<SessionId>, a: map<SessionId, Saved>, newestInput: nat, b: map<SessionId, Saved>,
                  later: nat, c: map<SessionId, Saved>)
    requires HeldKept(held, a, newestInput, b) && HeldKept(held, b, later, c) && newestInput <= later
    ensures HeldKept(held, a, newestInput, c)
  {
    hide PendingMoved;
    forall id | id in held
      ensures PendingMoved(a[id].pending, c[id].pending, newestInput)
    {
      PendingMovedTwice(a[id].pending, b[id].pending, c[id].pending, newestInput, later);
    }
  }

  /** One call of another client. `held` are the sessions of writers that are not this client. */
  method OtherClient(store: MemoryStore, held: set<SessionId>)
    requires store.Valid() && held <= store.writers
    modifies store
    ensures store.Valid() && held <= store.writers
    ensures HeldKept(held, old(store.sessions), old(store.newestInput), store.sessions)
    ensures store.newestInput >= old(store.newestInput)
    ensures AcceptedGrew(old(store.accepted), store.accepted) && EverGrew(old(store.ever), store.ever)
    ensures old(store.removed) <= store.removed
    ensures store.writes >= old(store.writes) && store.nextId >= old(store.nextId)
    ensures Grew(old(store.sessions), old(store.writes), old(store.nextId), store.sessions)
  {
    hide SessionOk, WritesOrdered, Remembers, KeepsOut, AcceptedGrew, EverGrew;
    NothingForgotten(store.accepted, store.ever);
    var id: SessionId := *;
    if {
      case true =>
        var settings: Settings := *;
        var parent: Option<SessionId> := *;
        var _ := store.CreateSession(settings, parent);
      case true =>
        var through: Option<nat> := *;
        var _ := store.ForkSession(id, through);
      case true =>
        var input: Input := *;
        var _ := store.AcceptInput(id, input);
      case true =>
        var input: nat := *;
        if id in store.sessions {
          RemainingKeeps(store.sessions[id].pending, [input]);
        }
        var _ := store.RemoveInput(id, input);
      case true =>
        var access: Access := *;
        var _ := store.Open(id, access);
      case true =>
        var _ := store.DeleteSession(id);
      case id !in held =>
        OtherWriter(store, held, id);
    }
  }

  /** One call of a client that can own the session. */
  method OtherWriter(store: MemoryStore, held: set<SessionId>, id: SessionId)
    requires store.Valid() && held <= store.writers && id !in held
    modifies store
    ensures store.Valid() && held <= store.writers
    ensures HeldKept(held, old(store.sessions), old(store.newestInput), store.sessions)
    ensures store.newestInput >= old(store.newestInput)
    ensures AcceptedGrew(old(store.accepted), store.accepted) && EverGrew(old(store.ever), store.ever)
    ensures old(store.removed) <= store.removed
    ensures store.writes >= old(store.writes) && store.nextId >= old(store.nextId)
    ensures Grew(old(store.sessions), old(store.writes), old(store.nextId), store.sessions)
  {
    hide SessionOk, WritesOrdered, Remembers, KeepsOut, AcceptedGrew, EverGrew;
    NothingForgotten(store.accepted, store.ever);
    if {
      case true =>
        store.Release(id);
      case true =>
        var settings: Settings := *;
        var _ := store.SetSettings(id, settings);
      case true =>
        var commit: Commit := *;
        var consumed: seq<ConsumedInput> := *;
        var _ := store.SaveCommit(id, commit, consumed);
    }
  }

  /** Any number of calls of other clients. */
  method OtherClients(store: MemoryStore, held: set<SessionId>)
    requires store.Valid() && held <= store.writers
    modifies store
    ensures store.Valid() && held <= store.writers
    ensures HeldKept(held, old(store.sessions), old(store.newestInput), store.sessions)
    ensures store.newestInput >= old(store.newestInput)
    ensures AcceptedGrew(old(store.accepted), store.accepted) && EverGrew(old(store.ever), store.ever)
    ensures old(store.removed) <= store.removed
    ensures store.writes >= old(store.writes) && store.nextId >= old(store.nextId)
    ensures Grew(old(store.sessions), old(store.writes), old(store.nextId), store.sessions)
  {
    hide Grew, HeldKept, AcceptedGrew, EverGrew, Remembers, KeepsOut;
    NothingForgotten(store.accepted, store.ever);
    var calls: nat := *;
    GrewNothing(store.sessions, store.writes, store.nextId);
    HeldNothing(held, store.sessions, store.newestInput, store.writers);
    while calls > 0
      invariant store.Valid() && held <= store.writers
      invariant HeldKept(held, old(store.sessions), old(store.newestInput), store.sessions)
      invariant store.newestInput >= old(store.newestInput)
      invariant AcceptedGrew(old(store.accepted), store.accepted) && EverGrew(old(store.ever), store.ever)
      invariant old(store.removed) <= store.removed
      invariant store.writes >= old(store.writes) && store.nextId >= old(store.nextId)
      invariant Grew(old(store.sessions), old(store.writes), old(store.nextId), store.sessions)
    {
      ghost var sessions, writes, nextId, newest := store.sessions, store.writes, store.nextId, store.newestInput;
      ghost var accepted, ever := store.accepted, store.ever;
      OtherClient(store, held);
      MemoryGrewTwice(old(store.accepted), accepted, store.accepted, old(store.ever), ever, store.ever);
      HeldTwice(held, old(store.sessions), old(store.newestInput), sessions, newest, store.sessions);
      GrewTwice(old(store.sessions), old(store.writes), old(store.nextId), sessions, writes, nextId, store.sessions);
      calls := calls - 1;
    }
  }

  lemma GrewNothing(sessions: map<SessionId, Saved>, writes: nat, nextId: SessionId)
    ensures Grew(sessions, writes, nextId, sessions)
  {
  }
}
