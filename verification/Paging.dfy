/**
 * Walks over the pages of a store (crates/agent/src/memory.rs) while other clients create, write, fork, and delete
 * sessions between the pages.
 */
module Paging {
  import opened Options
  import opened Sequences
  import opened Stores
  import opened Clients

  /** A session that matched at the start, and that nobody wrote or deleted since. */
  ghost predicate Stays(before: map<SessionId, Saved>, writes: nat, now: map<SessionId, Saved>, query: ListQuery,
                        id: SessionId)
  {
    id in before && id in now && now[id].newestWrite <= writes && Matches(before[id], query)
  }

  /** The walk saw every session at or before the cursor that stays, and nothing that a later page can show. */
  ghost predicate Walked(before: map<SessionId, Saved>, writes: nat, now: map<SessionId, Saved>, query: ListQuery,
                         cursor: Option<nat>, ids: seq<SessionId>)
  {
    && (forall id :: id in ids && id in now ==> cursor.Some? && now[id].newestWrite >= cursor.value)
    && (forall id :: Stays(before, writes, now, query, id) && !Behind(now[id], cursor) ==> id in ids)
  }

  ghost predicate Given(ids: seq<SessionId>, nextId: SessionId) {
    forall id :: id in ids ==> id < nextId
  }

  /** An unwritten session still has the events, and so the match, that it had. */
  lemma StaysMatching(before: map<SessionId, Saved>, writes: nat, nextId: SessionId, now: map<SessionId, Saved>,
                      query: ListQuery, id: SessionId)
    requires Grew(before, writes, nextId, now) && Stays(before, writes, now, query, id)
    ensures Matches(now[id], query) && now[id].newestWrite == before[id].newestWrite
  {
    assert SessionGrew(before[id], now[id], writes);
  }

  /** Calls between two pages keep what the walk saw. */
  lemma WalkedLater(before: map<SessionId, Saved>, writes: nat, nextId: SessionId, page: map<SessionId, Saved>,
                    later: nat, laterId: SessionId, now: map<SessionId, Saved>, query: ListQuery,
                    cursor: nat, ids: seq<SessionId>)
    requires Walked(before, writes, page, query, Some(cursor), ids) && Given(ids, laterId)
    requires Grew(before, writes, nextId, page) && Grew(page, later, laterId, now)
    requires writes <= later && nextId <= laterId && cursor <= later
    requires forall id :: id in before ==> id < nextId
    ensures Walked(before, writes, now, query, Some(cursor), ids)
  {
    hide Matches;
    forall id | id in ids && id in now
      ensures now[id].newestWrite >= cursor
    {
      assert id in page;
      SessionGrewLater(page[id], now[id], later);
    }
    forall id: SessionId | Stays(before, writes, now, query, id) && now[id].newestWrite >= cursor
      ensures id in ids
    {
      assert id < nextId;
      assert id in page;
      assert SessionGrew(page[id], now[id], later);
      assert Stays(before, writes, page, query, id);
    }
  }

  /** One more page: it shows the next sessions behind the cursor, and none that the walk saw. */
  lemma WalkedPage(before: map<SessionId, Saved>, writes: nat, nextId: SessionId, now: map<SessionId, Saved>,
                   query: ListQuery, cursor: Option<nat>, ids: seq<SessionId>, listed: seq<SessionId>, count: nat)
    requires Walked(before, writes, now, query, cursor, ids) && Distinct(ids)
    requires Grew(before, writes, nextId, now)
    requires Descends(now, query, cursor, listed) && ListsAll(now, query, cursor, now.Keys, listed)
    requires count <= |listed|
    ensures Distinct(ids + listed[..count])
    ensures 0 < count < |listed| ==>
      Walked(before, writes, now, query, Some(now[listed[count - 1]].newestWrite), ids + listed[..count])
    ensures count == |listed| ==>
      forall id :: Stays(before, writes, now, query, id) ==> id in ids + listed[..count]
  {
    hide Matches;
    var all := ids + listed[..count];
    forall i, j | 0 <= i < j < |all|
      ensures all[i] != all[j]
    {
      if i < |ids| <= j {
        assert all[i] in ids;
        assert all[j] == listed[j - |ids|];
      }
    }
    if 0 < count < |listed| {
      var next := now[listed[count - 1]].newestWrite;
      assert Behind(now[listed[count - 1]], cursor);
      forall id | id in all && id in now
        ensures now[id].newestWrite >= next
      {
        if id !in ids {
          var k :| 0 <= k < count && listed[k] == id;
        }
      }
      forall id | Stays(before, writes, now, query, id) && now[id].newestWrite >= next
        ensures id in all
      {
        StaysMatching(before, writes, nextId, now, query, id);
        if Behind(now[id], cursor) {
          var k :| 0 <= k < |listed| && listed[k] == id;
          assert k < count;
          assert listed[..count][k] == id;
        }
      }
    }
    if count == |listed| {
      assert listed[..count] == listed;
      forall id | Stays(before, writes, now, query, id)
        ensures id in all
      {
        StaysMatching(before, writes, nextId, now, query, id);
      }
    }
  }

  lemma EverGrewTwice(a: map<SessionId, Known>, b: map<SessionId, Known>, c: map<SessionId, Known>)
    requires EverGrew(a, b) && EverGrew(b, c)
    ensures EverGrew(a, c)
  {
  }

  function ShownIds(sessions: seq<Summary>): (ids: seq<SessionId>)
    ensures |ids| == |sessions| && forall i :: 0 <= i < |ids| ==> ids[i] == sessions[i].id
  {
    seq(|sessions|, i requires 0 <= i < |sessions| => sessions[i].id)
  }

  lemma WalkStarts(before: map<SessionId, Saved>, writes: nat, nextId: SessionId, query: ListQuery)
    ensures Walked(before, writes, before, query, None, []) && Grew(before, writes, nextId, before)
    ensures Distinct([]) && Given([], nextId)
  {
    GrewNothing(before, writes, nextId);
  }

  lemma PageKnown(now: map<SessionId, Saved>, query: ListQuery, cursor: Option<nat>, ids: seq<SessionId>,
                  listed: seq<SessionId>, count: nat, nextId: SessionId)
    requires Descends(now, query, cursor, listed) && count <= |listed| && Given(ids, nextId)
    requires forall id :: id in now ==> id < nextId
    ensures Given(ids + listed[..count], nextId)
  {
  }

  /** The cursor behind a page is a write that the store counted, and it comes before the cursor of that page. */
  lemma PageEnd(now: map<SessionId, Saved>, writes: nat, query: ListQuery, cursor: Option<nat>,
                listed: seq<SessionId>, last: nat)
    requires Descends(now, query, cursor, listed) && WritesOrdered(now, writes) && last < |listed|
    ensures now[listed[last]].newestWrite <= writes
    ensures cursor.Some? ==> now[listed[last]].newestWrite < cursor.value
  {
    assert listed[last] in now;
  }

  /** One page of a walk: what the store held and remembered at its moment, and the sessions that it showed. */
  datatype Shown = Shown(held: set<SessionId>, ever: map<SessionId, Known>, ids: seq<SessionId>)

  /** The sessions of all pages, in order. */
  function Joined(pages: seq<Shown>): seq<SessionId> {
    if |pages| == 0 then [] else Joined(pages[..|pages| - 1]) + pages[|pages| - 1].ids
  }

  /** Each session of the page was in the store at the moment of the page, and its log then was a match. */
  ghost predicate ShowsMatches(page: Shown, query: ListQuery) {
    forall i :: 0 <= i < |page.ids| ==> ShowsMatch(page, page.ids[i], query)
  }

  ghost predicate ShowsMatch(page: Shown, id: SessionId, query: ListQuery) {
    id in page.held && id in page.ever && MatchesAt(page.ever[id].parent, page.ever[id].events, query)
  }

  /** The moments of the pages come one behind the other between `before` and `now`, and each page shows matches. */
  ghost predicate InTurn(before: map<SessionId, Known>, pages: seq<Shown>, now: map<SessionId, Known>,
                         query: ListQuery)
  {
    && EverGrew(before, now)
    && (forall p :: 0 <= p < |pages| ==>
          EverGrew(before, pages[p].ever) && EverGrew(pages[p].ever, now) && ShowsMatches(pages[p], query))
    && (forall p, q :: 0 <= p < q < |pages| ==> EverGrew(pages[p].ever, pages[q].ever))
  }

  lemma NoPages(ever: map<SessionId, Known>, query: ListQuery)
    ensures InTurn(ever, [], ever, query) && Joined([]) == []
  {
  }

  lemma InTurnLater(before: map<SessionId, Known>, pages: seq<Shown>, now: map<SessionId, Known>,
                    later: map<SessionId, Known>, query: ListQuery)
    requires InTurn(before, pages, now, query) && EverGrew(now, later)
    ensures InTurn(before, pages, later, query)
  {
    hide EverGrew, ShowsMatches;
    EverGrewTwice(before, now, later);
    forall p | 0 <= p < |pages|
      ensures EverGrew(pages[p].ever, later)
    {
      EverGrewTwice(pages[p].ever, now, later);
    }
  }

  lemma OnePageMore(before: map<SessionId, Known>, pages: seq<Shown>, page: Shown, query: ListQuery)
    requires InTurn(before, pages, page.ever, query) && ShowsMatches(page, query)
    ensures InTurn(before, pages + [page], page.ever, query) && Joined(pages + [page]) == Joined(pages) + page.ids
  {
    hide ShowsMatches;
    assert EverGrew(page.ever, page.ever);
    assert (pages + [page])[..|pages|] == pages;
  }

  lemma ListedMatches(now: map<SessionId, Saved>, newestInput: nat, nextId: SessionId, accepted: map<nat, Acceptance>,
                      ever: map<SessionId, Known>, query: ListQuery, cursor: Option<nat>, listed: seq<SessionId>,
                      count: nat)
    requires Remembers(now, newestInput, nextId, accepted, ever)
    requires Descends(now, query, cursor, listed) && count <= |listed|
    ensures ShowsMatches(Shown(now.Keys, ever, listed[..count]), query)
  {
    hide MatchesAt, PendingAccepted;
  }

  /** The pages of a walk with one more, which shows the first `count` listed sessions. */
  ghost method AddPage(store: MemoryStore, query: ListQuery, cursor: Option<nat>, limit: nat, listed: seq<SessionId>,
                       count: nat, before: map<SessionId, Known>, pages: seq<Shown>) returns (next: seq<Shown>)
    requires store.Valid() && InTurn(before, pages, store.ever, query) && count <= |listed| && count <= limit
    requires Descends(store.sessions, query, cursor, listed)
    requires forall p :: 0 <= p < |pages| ==> |pages[p].ids| <= limit
    ensures InTurn(before, next, store.ever, query) && Joined(next) == Joined(pages) + listed[..count]
    ensures forall p :: 0 <= p < |next| ==> |next[p].ids| <= limit
  {
    hide SessionOk, WritesOrdered, Remembers, KeepsOut, InTurn, Descends, ShowsMatches, Joined;
    ListedMatches(store.sessions, store.newestInput, store.nextId, store.accepted, store.ever, query, cursor, listed,
                  count);
    var shown := Shown(store.sessions.Keys, store.ever, listed[..count]);
    OnePageMore(before, pages, shown, query);
    next := pages + [shown];
  }

  /**
   * Read every page of a list, with any calls of other clients between the pages. No session comes twice, every shown
   * one was a match at the moment of its page, and every match that nobody writes or deletes meanwhile comes once.
   */
  method WalkSessions(store: MemoryStore, query: ListQuery, limit: nat)
      returns (ids: seq<SessionId>, ghost pages: seq<Shown>)
    requires store.Valid() && limit >= 1
    modifies store
    ensures store.Valid() && Distinct(ids)
    ensures forall id :: Stays(old(store.sessions), old(store.writes), store.sessions, query, id) ==> id in ids
    ensures ids == Joined(pages) && InTurn(old(store.ever), pages, store.ever, query)
    ensures forall p :: 0 <= p < |pages| ==> |pages[p].ids| <= limit
  {
    hide Grew, Matches, Stays, Walked, SessionOk, Descends, ListsAll, Distinct, InTurn, Joined, EverGrew,
      Remembers, KeepsOut, AcceptedGrew;
    NoPages(store.ever, query);
    ghost var before, writes, nextId := store.sessions, store.writes, store.nextId;
    ids, pages := [], [];
    WalkStarts(before, writes, nextId, query);
    var cursor: Option<nat> := None;
    ghost var bound := writes + 1;
    while true
      invariant store.Valid() && Distinct(ids) && Given(ids, store.nextId)
      invariant writes <= store.writes && nextId <= store.nextId
      invariant Grew(before, writes, nextId, store.sessions)
      invariant Walked(before, writes, store.sessions, query, cursor, ids)
      invariant ids == Joined(pages) && InTurn(old(store.ever), pages, store.ever, query)
      invariant forall p :: 0 <= p < |pages| ==> |pages[p].ids| <= limit
      invariant cursor.Some? ==> cursor.value == bound
      decreases cursor.None?, bound
    {
      var page, listed := store.ListSessions(query, cursor, limit);
      ghost var count := |page.sessions|;
      WalkedPage(before, writes, nextId, store.sessions, query, cursor, ids, listed, count);
      PageKnown(store.sessions, query, cursor, ids, listed, count, store.nextId);
      pages := AddPage(store, query, cursor, limit, listed, count, old(store.ever), pages);
      ids := ids + ShownIds(page.sessions);
      assert ShownIds(page.sessions) == listed[..count];
      if page.next.None? {
        return;
      }
      PageEnd(store.sessions, store.writes, query, cursor, listed, limit - 1);
      ghost var now, later, laterId, ever := store.sessions, store.writes, store.nextId, store.ever;
      OtherClients(store, {});
      InTurnLater(old(store.ever), pages, ever, store.ever, query);
      WalkedLater(before, writes, nextId, now, later, laterId, store.sessions, query, page.next.value, ids);
      GrewTwice(before, writes, nextId, now, later, laterId, store.sessions);
      cursor := page.next;
      bound := page.next.value;
    }
  }

  // Walks over the events of one session.

  /**
   * Read a log backwards page by page, from its end at the first load, while its writer adds events between the pages.
   * The pages give every event up to that end once and in order.
   */
  method WalkEventsBack(store: MemoryStore, id: SessionId, limit: nat)
      returns (events: seq<StoredEvent>, missing: bool)
    requires store.Valid() && limit >= 1
    modifies store
    ensures store.Valid()
    ensures !missing ==> id in old(store.sessions) && events == old(store.sessions)[id].events
    ensures missing ==> id !in store.sessions
    ensures id !in old(store.sessions) ==> missing
  {
    hide InputsOnce, WritesOrdered, Remembers, KeepsOut, AskedFor;
    events := [];
    var loaded := store.Load(id, Page.Before(None, limit));
    if loaded.Err? {
      return [], true;
    }
    ghost var log := store.sessions[id].events;
    LastPage(log, limit);
    events := loaded.value.0;
    while events != [] && events[0].number > 1
      invariant store.Valid() && Numbered(log)
      invariant id in store.sessions ==> log <= store.sessions[id].events
      invariant id < store.nextId
      invariant events != [] && 1 <= events[0].number <= |log| && events == log[events[0].number - 1..]
      decreases if events == [] then 0 else events[0].number
    {
      ghost var before, later, laterId := store.sessions, store.writes, store.nextId;
      OtherClients(store, {});
      StillPrefix(before, later, laterId, store.sessions, id, log);
      var number := events[0].number;
      loaded := store.Load(id, Page.Before(Some(number), limit));
      if loaded.Err? {
        return [], true;
      }
      OlderPage(log, store.sessions[id].events, number, limit);
      events := loaded.value.0 + events;
    }
    return events, false;
  }

  lemma StillPrefix(before: map<SessionId, Saved>, writes: nat, nextId: SessionId, now: map<SessionId, Saved>,
                    id: SessionId, log: seq<StoredEvent>)
    requires Grew(before, writes, nextId, now) && id < nextId
    requires id in before ==> log <= before[id].events
    ensures id in now ==> id in before && before[id].events <= now[id].events && log <= now[id].events
  {
  }

  lemma LastPage(log: seq<StoredEvent>, limit: nat)
    requires Numbered(log) && limit >= 1
    ensures var page := AskedFor(log, Page.Before(None, limit));
      page != [] && 1 <= page[0].number <= |log| && page == log[page[0].number - 1..]
  {
    PageHoldsItsNumbers(log, Page.Before(None, limit));
    var start := if limit < |log| then |log| - limit else 0;
    assert log[start..|log|] == log[start..];
  }

  lemma OlderPage(log: seq<StoredEvent>, events: seq<StoredEvent>, number: nat, limit: nat)
    requires InSequence(events) && log <= events && 1 < number <= |log| && limit >= 1
    ensures var page := AskedFor(events, Page.Before(Some(number), limit));
      && page != [] && 1 <= page[0].number < number
      && page + log[number - 1..] == log[page[0].number - 1..]
  {
    hide AskedFor;
    PageHoldsItsNumbers(events, Page.Before(Some(number), limit));
    var start := if limit < number - 1 then number - 1 - limit else 0;
    SlicesAgree(log, events, start, number - 1);
    assert log[start].number == start + 1;
  }

  lemma SlicesAgree(log: seq<StoredEvent>, events: seq<StoredEvent>, start: nat, end: nat)
    requires log <= events && start < end <= |log|
    ensures events[start..end] == log[start..end] && events[start] == log[start]
    ensures events[start..end] + log[end..] == log[start..]
  {
  }

  /** Follow a log forwards: each load reads the events behind the newest one that it knows. */
  method FollowEvents(store: MemoryStore, id: SessionId, loads: nat) returns (events: seq<StoredEvent>, missing: bool)
    requires store.Valid()
    modifies store
    ensures store.Valid()
    ensures !missing && loads > 0 ==> id in store.sessions && events == store.sessions[id].events
    ensures missing ==> id !in store.sessions
  {
    hide InputsOnce, WritesOrdered, Remembers, KeepsOut, AskedFor;
    events := [];
    var i := 0;
    while i < loads
      invariant 0 <= i <= loads && store.Valid()
      invariant i == 0 ==> events == []
      invariant i > 0 ==> id in store.sessions && events == store.sessions[id].events && id < store.nextId
    {
      ghost var before, later, laterId := store.sessions, store.writes, store.nextId;
      OtherClients(store, {});
      if i > 0 {
        StillPrefix(before, later, laterId, store.sessions, id, events);
      }
      var loaded := store.Load(id, After(if events == [] then None else Some(events[|events| - 1].number)));
      if loaded.Err? {
        return [], true;
      }
      NewerPage(events, store.sessions[id].events);
      events := events + loaded.value.0;
      i := i + 1;
    }
    return events, false;
  }

  lemma NewerPage(known: seq<StoredEvent>, events: seq<StoredEvent>)
    requires Numbered(events) && known <= events
    ensures known + AskedFor(events, After(if known == [] then None else Some(known[|known| - 1].number))) == events
  {
    hide AskedFor;
    PageHoldsItsNumbers(events, After(if known == [] then None else Some(known[|known| - 1].number)));
    if known != [] {
      assert known[|known| - 1] == events[|known| - 1];
    }
    assert known == events[..|known|];
    assert events[0..] == events;
  }

  // A fork and its source.

  /**
   * A fork keeps the events that it copied, whatever other clients do, also to its source. A write to the fork changes
   * the fork alone.
   */
  method ForkStaysApart(store: MemoryStore, source: SessionId, through: Option<nat>, settings: Settings)
      returns (fork: Option<SessionId>)
    requires store.Valid()
    modifies store
    ensures store.Valid()
    ensures fork.Some? <==> source in old(store.sessions) && ForkCut(old(store.sessions)[source].events, through).Ok?
    ensures fork.Some? ==>
      var events := old(store.sessions)[source].events;
      var cut := ForkCut(events, through).value;
      && fork.value in store.sessions && cut <= |events|
      && store.sessions[fork.value].events == events[..cut] + [StoredEvent(cut + 1, SettingsEvent(settings))]
      && (source in store.sessions ==> events <= store.sessions[source].events)
  {
    hide SessionOk, WritesOrdered, ForkCut, PendingMoved, Remembers, KeepsOut, EverGrew, AcceptedGrew;
    ghost var before, writes, nextId := store.sessions, store.writes, store.nextId;
    var forked := store.ForkSession(source, through);
    if forked.Err? {
      return None;
    }
    var id := forked.value.id;
    ghost var now, later, laterId := store.sessions, store.writes, store.nextId;
    assert id in {id};
    OtherClients(store, {id});
    if source in store.sessions {
      StillPrefix(now, later, laterId, store.sessions, source, now[source].events);
    }
    ghost var others := store.sessions;
    var _ := store.SetSettings(id, settings);
    assert store.sessions == others[id := store.sessions[id]];
    return Some(id);
  }
}
